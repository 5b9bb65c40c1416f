/**
 * The shop entities the shop service passes around, and the shop
 * repository it depends on. The repository is abstract: its answers are
 * fixed in advance (as a test double scripts them) and every call made to
 * it is recorded, so that a caller's contract can say which calls were
 * made, with which arguments and in which order.
 */
module ShopPorts {
  import opened Wrappers

  /** A request to open a shop for a user. */
  datatype CreateShopRequest = CreateShopRequest(userId: string, name: string, description: string, terms: string)

  /** A request to change a shop's details. */
  datatype UpdateShopRequest = UpdateShopRequest(userId: string, id: string, name: string, description: string, terms: string)

  /** A request to delete a shop. */
  datatype DeleteShopRequest = DeleteShopRequest(userId: string, id: string)

  /** A request for one shop. */
  datatype GetShopRequest = GetShopRequest(id: string)

  /** One shop's details. */
  datatype GetShopResponse = GetShopResponse(id: string, name: string, description: string, terms: string)

  /** The payloads whose fields the service never reads. */
  type CreateShopResponse(==)
  type UpdateShopResponse(==)
  type ShopsRequest(==)
  type ShopsResponse(==)

  /**
   * A Go pointer to a response struct: `nil`, a freshly allocated zero
   * value (`new(T)`), or a response the repository produced.
   */
  datatype Ptr<T> = Nil | Zero | Ref(value: T)

  /**
   * An error: the service's own coded errors, or whatever the repository
   * reports (a store failure, identified by its text).
   */
  datatype Error = CustomError(code: int, message: string) | StoreError(reason: string)

  /** One call made to the repository, with its argument. */
  datatype Call =
    | IsUserCall(userId: string)
    | CreateShopCall(create: CreateShopRequest)
    | GetShopCall(get: GetShopRequest)
    | UpdateShopCall(update: UpdateShopRequest)
    | DeleteShopCall(delete: DeleteShopRequest)
    | GetShopsCall(list: ShopsRequest)

  /** Whether a call writes to the store. */
  predicate IsWrite(c: Call)
  {
    c.CreateShopCall? || c.UpdateShopCall? || c.DeleteShopCall?
  }

  /** What the repository answers to each call, as a function of the call's argument. */
  datatype Replies = Replies(
    isUser: string -> (bool, Option<Error>),
    createShop: CreateShopRequest -> (Ptr<CreateShopResponse>, Option<Error>),
    getShop: GetShopRequest -> (Ptr<GetShopResponse>, Option<Error>),
    updateShop: UpdateShopRequest -> (Ptr<UpdateShopResponse>, Option<Error>),
    deleteShop: DeleteShopRequest -> Option<Error>,
    getShops: ShopsRequest -> (Ptr<ShopsResponse>, Option<Error>))

  /** The shop repository: scripted answers and the log of calls made so far. */
  class ShopRepository {
    const replies: Replies
    var calls: seq<Call>

    constructor (replies: Replies)
      ensures this.replies == replies && calls == []
    {
      this.replies := replies;
      calls := [];
    }

    /** Whether the user exists. */
    method IsUser(userId: string) returns (isUser: bool, err: Option<Error>)
      modifies this`calls
      ensures calls == old(calls) + [IsUserCall(userId)]
      ensures (isUser, err) == replies.isUser(userId)
    {
      calls := calls + [IsUserCall(userId)];
      isUser, err := replies.isUser(userId).0, replies.isUser(userId).1;
    }

    /** Stores a new shop. */
    method CreateShop(req: CreateShopRequest) returns (res: Ptr<CreateShopResponse>, err: Option<Error>)
      modifies this`calls
      ensures calls == old(calls) + [CreateShopCall(req)]
      ensures (res, err) == replies.createShop(req)
    {
      calls := calls + [CreateShopCall(req)];
      res, err := replies.createShop(req).0, replies.createShop(req).1;
    }

    /** Fetches one shop. */
    method GetShop(req: GetShopRequest) returns (res: Ptr<GetShopResponse>, err: Option<Error>)
      modifies this`calls
      ensures calls == old(calls) + [GetShopCall(req)]
      ensures (res, err) == replies.getShop(req)
    {
      calls := calls + [GetShopCall(req)];
      res, err := replies.getShop(req).0, replies.getShop(req).1;
    }

    /** Changes a shop's details. */
    method UpdateShop(req: UpdateShopRequest) returns (res: Ptr<UpdateShopResponse>, err: Option<Error>)
      modifies this`calls
      ensures calls == old(calls) + [UpdateShopCall(req)]
      ensures (res, err) == replies.updateShop(req)
    {
      calls := calls + [UpdateShopCall(req)];
      res, err := replies.updateShop(req).0, replies.updateShop(req).1;
    }

    /** Removes a shop. */
    method DeleteShop(req: DeleteShopRequest) returns (err: Option<Error>)
      modifies this`calls
      ensures calls == old(calls) + [DeleteShopCall(req)]
      ensures err == replies.deleteShop(req)
    {
      calls := calls + [DeleteShopCall(req)];
      err := replies.deleteShop(req);
    }

    /** Lists shops. */
    method GetShops(req: ShopsRequest) returns (res: Ptr<ShopsResponse>, err: Option<Error>)
      modifies this`calls
      ensures calls == old(calls) + [GetShopsCall(req)]
      ensures (res, err) == replies.getShops(req)
    {
      calls := calls + [GetShopsCall(req)];
      res, err := replies.getShops(req).0, replies.getShops(req).1;
    }
  }
}
