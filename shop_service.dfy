/**
 * The shop service: every write is guarded by a user check made through
 * the repository, and reads are passed straight through.
 */
module ShopService {
  import opened Wrappers
  import opened ShopPorts

  /** The error a write is refused with when the acting user is not known. */
  const UserNotFound: Error := CustomError(403, "User not found")

  /** What the guard makes of the user check's answer. */
  datatype Verdict = Propagate(err: Error) | Deny | Allow

  /**
   * The guard: a failed check is passed on, a negative one denied, and
   * only a successful positive one lets the write through. It fails
   * closed: any answer other than `(true, None)` stops the write.
   */
  function Authorize(answer: (bool, Option<Error>)): (v: Verdict)
    ensures v.Allow? <==> answer.1 == None && answer.0
    ensures v.Deny? <==> answer.1 == None && !answer.0
    ensures answer.1.Some? ==> v == Propagate(answer.1.value)
  {
    match answer.1
    case Some(e) => Propagate(e)
    case None => if answer.0 then Allow else Deny
  }

  /** A delegated write's result as the service returns it: on error the response is dropped. */
  function Delegated<T>(reply: (Ptr<T>, Option<Error>)): (r: (Ptr<T>, Option<Error>))
    ensures reply.1.Some? ==> r == (Nil, reply.1)
    ensures reply.1.None? ==> r == reply
  {
    if reply.1.Some? then (Nil, reply.1) else reply
  }

  class ShopService {
    const repo: ShopRepository

    constructor (repo: ShopRepository)
      ensures this.repo == repo
    {
      this.repo := repo;
    }

    /**
     * Opens a shop. The user check comes first: its error is returned
     * with no response, a negative answer gives the 403 error with an empty
     * response, and only a positive answer reaches the repository's write,
     * whose result is returned.
     */
    method CreateShop(req: CreateShopRequest) returns (res: Ptr<CreateShopResponse>, err: Option<Error>)
      modifies repo`calls
      ensures match Authorize(repo.replies.isUser(req.userId))
        case Propagate(e) =>
          res == Nil && err == Some(e) && repo.calls == old(repo.calls) + [IsUserCall(req.userId)]
        case Deny =>
          res == Zero && err == Some(UserNotFound) && repo.calls == old(repo.calls) + [IsUserCall(req.userId)]
        case Allow =>
          (res, err) == Delegated(repo.replies.createShop(req))
          && repo.calls == old(repo.calls) + [IsUserCall(req.userId), CreateShopCall(req)]
    {
      res := Zero;
      var isUser, e := repo.IsUser(req.userId);
      if e.Some? {
        return Nil, e;
      }
      if !isUser {
        return res, Some(UserNotFound);
      }
      res, e := repo.CreateShop(req);
      if e.Some? {
        return Nil, e;
      }
      return res, None;
    }

    /** Fetches one shop: the repository's answer, with no user check. */
    method GetShop(req: GetShopRequest) returns (res: Ptr<GetShopResponse>, err: Option<Error>)
      modifies repo`calls
      ensures (res, err) == repo.replies.getShop(req)
      ensures repo.calls == old(repo.calls) + [GetShopCall(req)]
    {
      res, err := repo.GetShop(req);
    }

    /**
     * Deletes a shop, behind the same user check as `CreateShop`; on a
     * positive answer the repository's delete result is returned.
     */
    method DeleteShop(req: DeleteShopRequest) returns (err: Option<Error>)
      modifies repo`calls
      ensures match Authorize(repo.replies.isUser(req.userId))
        case Propagate(e) =>
          err == Some(e) && repo.calls == old(repo.calls) + [IsUserCall(req.userId)]
        case Deny =>
          err == Some(UserNotFound) && repo.calls == old(repo.calls) + [IsUserCall(req.userId)]
        case Allow =>
          err == repo.replies.deleteShop(req)
          && repo.calls == old(repo.calls) + [IsUserCall(req.userId), DeleteShopCall(req)]
    {
      var isUser, e := repo.IsUser(req.userId);
      if e.Some? {
        return e;
      }
      if !isUser {
        return Some(UserNotFound);
      }
      err := repo.DeleteShop(req);
    }

    /**
     * Changes a shop's details, behind the same user check as `CreateShop`;
     * the repository's update is called at most once, and only when allowed.
     */
    method UpdateShop(req: UpdateShopRequest) returns (res: Ptr<UpdateShopResponse>, err: Option<Error>)
      modifies repo`calls
      ensures match Authorize(repo.replies.isUser(req.userId))
        case Propagate(e) =>
          res == Nil && err == Some(e) && repo.calls == old(repo.calls) + [IsUserCall(req.userId)]
        case Deny =>
          res == Zero && err == Some(UserNotFound) && repo.calls == old(repo.calls) + [IsUserCall(req.userId)]
        case Allow =>
          (res, err) == Delegated(repo.replies.updateShop(req))
          && repo.calls == old(repo.calls) + [IsUserCall(req.userId), UpdateShopCall(req)]
    {
      res := Zero;
      var isUser, e := repo.IsUser(req.userId);
      if e.Some? {
        return Nil, e;
      }
      if !isUser {
        return res, Some(UserNotFound);
      }
      res, e := repo.UpdateShop(req);
      if e.Some? {
        return Nil, e;
      }
      return res, None;
    }

    /** Lists shops: the repository's answer, with no user check. */
    method GetShops(req: ShopsRequest) returns (res: Ptr<ShopsResponse>, err: Option<Error>)
      modifies repo`calls
      ensures (res, err) == repo.replies.getShops(req)
      ensures repo.calls == old(repo.calls) + [GetShopsCall(req)]
    {
      res, err := repo.GetShops(req);
    }

    /** Whether a user exists: the repository's answer. */
    method IsUser(userId: string) returns (isUser: bool, err: Option<Error>)
      modifies repo`calls
      ensures (isUser, err) == repo.replies.isUser(userId)
      ensures repo.calls == old(repo.calls) + [IsUserCall(userId)]
    {
      isUser, err := repo.IsUser(userId);
    }
  }

  /** A guarded call appends no write to the log unless the guard allowed it. */
  lemma NoWriteUnlessAllowed(before: seq<Call>, after: seq<Call>, userId: string, verdict: Verdict, write: Call)
    requires IsWrite(write)
    requires verdict.Allow? ==> after == before + [IsUserCall(userId), write]
    requires !verdict.Allow? ==> after == before + [IsUserCall(userId)]
    ensures forall i :: |before| <= i < |after| && IsWrite(after[i]) ==> verdict.Allow? && after[i] == write
    ensures verdict.Allow? <==> exists i :: |before| <= i < |after| && IsWrite(after[i])
  {
    if verdict.Allow? {
      assert IsWrite(after[|before| + 1]);
    }
  }

  /**
   * The replies of the test suite's repository double: only the user check
   * and the create are scripted. The double's create always answers with a
   * pointer to a (possibly zero) response, so it never replies `Nil`.
   */
  function TestReplies(isUser: (bool, Option<Error>), create: (Ptr<CreateShopResponse>, Option<Error>)): Replies
  {
    Replies(
      (u: string) => isUser,
      (r: CreateShopRequest) => create,
      (r: GetShopRequest) => (Nil, None),
      (r: UpdateShopRequest) => (Nil, None),
      (r: DeleteShopRequest) => None,
      (r: ShopsRequest) => (Nil, None))
  }

  /** A known user's shop is created, and the write is the second call. */
  method CreateShopSucceeds()
  {
    var req := CreateShopRequest("1", "Shop 1", "Shop 1 Description", "Shop 1 Terms");
    var repo := new ShopRepository(TestReplies((true, None), (Zero, None)));
    var service := new ShopService(repo);
    var res, err := service.CreateShop(req);
    assert err == None && res == Zero;
    assert repo.calls == [IsUserCall("1"), CreateShopCall(req)];
  }

  /** An unknown user gets the 403 error and no write is made. */
  method CreateShopUserNotFound()
  {
    var req := CreateShopRequest("1", "Shop 1", "Shop 1 Description", "Shop 1 Terms");
    var repo := new ShopRepository(TestReplies((false, None), (Zero, None)));
    var service := new ShopService(repo);
    var res, err := service.CreateShop(req);
    assert err == Some(CustomError(403, "User not found")) && res == Zero;
    assert repo.calls == [IsUserCall("1")];
  }

  /** A failing user check is passed on and no write is made. */
  method CreateShopIsUserError()
  {
    var req := CreateShopRequest("1", "Shop 1", "Shop 1 Description", "Shop 1 Terms");
    var failure := StoreError("mock.Anything");
    var repo := new ShopRepository(TestReplies((false, Some(failure)), (Zero, None)));
    var service := new ShopService(repo);
    var res, err := service.CreateShop(req);
    assert err == Some(failure) && res == Nil;
    assert repo.calls == [IsUserCall("1")];
  }

  /** A failing write is passed on after a positive user check. */
  method CreateShopWriteError()
  {
    var req := CreateShopRequest("1", "Shop 1", "Shop 1 Description", "Shop 1 Terms");
    var failure := StoreError("mock.Anything");
    var repo := new ShopRepository(TestReplies((true, None), (Zero, Some(failure))));
    var service := new ShopService(repo);
    var res, err := service.CreateShop(req);
    assert err == Some(failure) && res == Nil;
    assert repo.calls == [IsUserCall("1"), CreateShopCall(req)];
  }
}
