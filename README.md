# Product listing query and shop write guard, modelled in Dafny

This project models the small core of an e-commerce CRUD backend written in Go:

- **Product listing query** (`ProductRepository`, `product_repository.dfy`). The repository
  builds the product listing query step by step. It starts from a fixed `SELECT … WHERE deleted_at IS NULL`.
  It appends one ` AND …` predicate and one argument for each optional filter that is present. The
  filters are checked in a fixed order: name, category, brand, minimum price, maximum price. It always
  ends with ` LIMIT ? OFFSET ?`, bound to the page size and the page offset. It sends the query to the
  database, then builds the response: the products in row order, and the total count taken from the
  first row.
- **Pagination defaulting** (`ProductEntity`, `product_entity.dfy`). The listing request clamps its
  own page (to 1) and page size (to 10) in place when they are below 1.
- **Shop write guard** (`ShopPorts`, `shop_ports.dfy`; `ShopService`, `shop_service.dfy`). Creating,
  updating and deleting a shop first asks the repository whether the user exists. An error from that
  check is passed on. A negative answer gives a 403 "User not found" error. Only a positive answer
  reaches the repository's write. Reading one shop or listing shops goes straight to the repository.

How the model is built:

- A query is a sequence of fragments: SQL text and `?` placeholders. `Render` gives the SQL string the
  Go code builds with `+=`. `Bind` pairs the i-th placeholder with the i-th argument, which is what
  the database receives.
- `BuildQuery` is the imperative chain of `if`s. It is proved equal to `ListingQuery` and
  `ListingArgs`, which fold a declarative table of (present, predicate, argument) criteria
  (`Criteria`). The lemmas about those two functions state the listing properties.
- The database is the function parameter `selectRows` of `GetProducts`.
- Go's `int` is a 64-bit integer (`Int64`), as on 64-bit platforms. The page offset `(Page-1)*Paginate` is computed with
  explicit wrap-around (`Offset`). Prices, which are `float64` in Go, are integers here, because only
  their `> 0` presence test matters.
- The shop repository is a class. Its answers are scripted as functions of each call's argument, the
  way the test suite's repository double scripts them. Each call made to it is appended to the log
  `calls`. The service's contracts state the exact calls made, so "no write unless the user check
  returned true" is stated in the contract itself.
- A Go pointer result is a `Ptr<T>`: `Nil`, a zero value from `new(T)` (`Zero`), or a repository
  response (`Ref`). A Go `error` is an `Option<Error>`, where `None` stands for `nil`.
- The methods `CreateShopSucceeds`, `CreateShopUserNotFound`, `CreateShopIsUserError` and
  `CreateShopWriteError` restate the four cases of `internal/module/shop/service/service_test.go` as
  client code. Each asserts the outcome and the call log. Those tests script `IsUser` for the request
  pointer (`service_test.go:69,81,90,100`), while the service calls it with `req.UserId`
  (`service.go:26`), so the scripted answer would not match the call as written. `TestReplies` gives
  the same answer for every user id, which follows what the tests evidently intend.

Two points about what the code does, which the model follows:

- The guard checks only that the acting user exists. The log message at
  `internal/module/shop/service/service.go:32,56,71` says "User is not shop owner", but the check is
  only `IsUser(req.UserId)`; it never compares the user with the shop's owner.
- `GetProducts` does not call `SetDefault`, and neither does the product handler or the product
  service (`internal/module/product/handler/rest/handler.go:33` registers only `POST /product`).
  What defaulting does to the offset is therefore stated as a separate lemma
  (`DefaultedPagination`), not as a property of `GetProducts`.

## Model

| member | source | states |
|---|---|---|
| ProductEntity.Wrap64 | internal/module/product/repository/repo.go:194 | Go's 64-bit wrap-around: the result is congruent to the input modulo 2^64, and equals it when the input fits |
| ProductEntity.DefaultedPage | internal/module/product/entity/entity.go:81-83 | the defaulted page is at least 1; it is 1 for a page below 1 and unchanged otherwise |
| ProductEntity.DefaultedPaginate | internal/module/product/entity/entity.go:85-87 | the defaulted page size is at least 1; it is 10 for a size below 1 and unchanged otherwise |
| ProductEntity.DefaultingIsIdempotent | internal/module/product/entity/entity.go:80-88 | defaulting twice gives the same page and page size as defaulting once |
| ProductEntity.GetProductsRequest.SetDefault | internal/module/product/entity/entity.go:80-88 | in place: page and page size become their defaulted values (both at least 1); values already at least 1 are kept; the frame lets no other field change |
| ProductRepository.ClausesMatchArgs | internal/module/product/repository/repo.go:170-190 | each present filter contributes one argument, and the assembled predicates hold exactly as many placeholders as there are arguments |
| ProductRepository.BindClauses | internal/module/product/repository/repo.go:170-190 | binding the assembled predicates to the assembled arguments binds every predicate to its own argument |
| ProductRepository.ClauseBindings | internal/module/product/repository/repo.go:170-190 | the bound predicates are, in order, name ILIKE `%name%`, category = id, brand ILIKE `%brand%`, price >= min, price <= max, each only when the filter is present (non-empty string, positive price) |
| ProductRepository.ClausesInOrder | internal/module/product/repository/repo.go:170-190 | the predicates and the arguments keep the fixed order name, category, brand, min price, max price; an absent filter adds neither |
| ProductRepository.Offset | internal/module/product/repository/repo.go:194 | the offset is `(Page-1)*Paginate` whenever that product fits in 64 bits |
| ProductRepository.ListingPlaceholders | internal/module/product/repository/repo.go:170-194 | the listing query has as many placeholders as arguments: one per present filter, plus two |
| ProductRepository.ListingBinding | internal/module/product/repository/repo.go:150-194 | the database receives the base SELECT, then each present filter's predicate bound to its own argument in the fixed order, then LIMIT bound to Paginate and OFFSET bound to the offset |
| ProductRepository.ListingText | internal/module/product/repository/repo.go:150-193 | the SQL string is the base SELECT (ending in `deleted_at IS NULL`), then the present filters' ` AND … ?` texts in order (`FilterSql`, written with the literal texts of the code), then ` LIMIT ? OFFSET ?` |
| ProductRepository.FilterText | internal/module/product/repository/repo.go:170-190 | the present predicates render as ` AND p.name ILIKE ?`, ` AND p.category_id = ?`, ` AND p.brand ILIKE ?`, ` AND p.price >= ?`, ` AND p.price <= ?`, in that order, each only when its filter is present |
| ProductRepository.PaginationArgsLast | internal/module/product/repository/repo.go:193-194 | the last two arguments are always Paginate and then the offset; with no filter present they are the only two |
| ProductRepository.NoFilters | internal/module/product/repository/repo.go:150-194 | with no filter present the query is the base query plus LIMIT/OFFSET, and the only arguments are Paginate and the offset |
| ProductRepository.DefaultedPagination | internal/module/product/repository/repo.go:194 | composed with SetDefault, the limit is at least 1 and the offset is `(Page-1)*Paginate`, which is not negative (when it fits in 64 bits) |
| ProductRepository.OffsetCanWrap | internal/module/product/repository/repo.go:194 | a request already defaulted (page 2^61+1, size 4) gets the most negative 64-bit offset |
| ProductRepository.BuildQuery | internal/module/product/repository/repo.go:150-194 | the `if` chain builds exactly the listing query and the listing arguments, so the placeholder count and the bindings proved for those hold for what it builds |
| ProductRepository.AssembleResponse | internal/module/product/repository/repo.go:203-209 | response items are the rows' products in order and count; the total is the first row's `total_data`, or 0 with no rows |
| ProductRepository.GetProducts | internal/module/product/repository/repo.go:141-214 | the database is sent the listing query and arguments; its error is returned as it is; otherwise the response holds the rows' products in order and the first row's total |
| ShopPorts.ShopRepository.IsUser | mock/module/shop/ports/mock_ports.go:100-116 | the repository's user check returns its scripted answer for that user id and records the call |
| ShopPorts.ShopRepository.CreateShop | internal/module/shop/ports/ports.go:9 | the repository's create returns its scripted answer and records the call |
| ShopPorts.ShopRepository.GetShop | internal/module/shop/ports/ports.go:10 | the repository's fetch returns its scripted answer for that request and records the call |
| ShopPorts.ShopRepository.UpdateShop | internal/module/shop/ports/ports.go:11 | the repository's update returns its scripted answer for that request and records the call |
| ShopPorts.ShopRepository.DeleteShop | internal/module/shop/ports/ports.go:12 | the repository's delete returns its scripted error for that request and records the call |
| ShopPorts.ShopRepository.GetShops | internal/module/shop/ports/ports.go:13 | the repository's listing returns its scripted answer for that request and records the call |
| ShopService.Authorize | internal/module/shop/service/service.go:26-34 | the guard allows if and only if the check returns true without error, denies if and only if it returns false without error, and otherwise passes on the check's error, so it fails closed |
| ShopService.Delegated | internal/module/shop/service/service.go:36-42 | a write's error is returned with a nil response; without an error the write's response is returned as it is |
| ShopService.ShopService.CreateShop | internal/module/shop/service/service.go:24-43 | a check error gives (nil, that error); false gives (empty response, 403 "User not found"); in both cases the only call is IsUser. True gives the create's result, with the response dropped (nil) when the create returns an error, after calls IsUser then CreateShop |
| ShopService.ShopService.UpdateShop | internal/module/shop/service/service.go:63-82 | the same three-way guard; UpdateShop is called once, right after a successful true check, and never otherwise; its result is returned, with the response dropped (nil) when it returns an error |
| ShopService.ShopService.DeleteShop | internal/module/shop/service/service.go:49-61 | returns the check's error, the 403 error, or the delete's result; DeleteShop is called only after a successful true check |
| ShopService.ShopService.GetShop | internal/module/shop/service/service.go:45-47 | returns the repository's answer unchanged; the only call is GetShop, never IsUser |
| ShopService.ShopService.GetShops | internal/module/shop/service/service.go:84-86 | returns the repository's answer unchanged; the only call is GetShops, never IsUser |
| ShopService.ShopService.IsUser | internal/module/shop/service/service.go:88-90 | returns the repository's user check unchanged |
| ShopService.NoWriteUnlessAllowed | internal/module/shop/service/service.go:31-36 | given the call logs the guarded methods promise, a write appears in the log if and only if the guard allowed it, and then it is the guarded write |

## Left out

- The other product repository methods (`CreateProduct`, `GetDetailProduct`, `UpdateProduct`, `DeleteProduct`): each is one fixed SQL statement, and what it does lives in the database.
- SQL semantics (ILIKE matching, soft-delete filtering, `COUNT(p.id) OVER()`): the model states what is sent to the database, not what the database does with it.
- `Meta.CountTotalPage` and the other fields of `types.Meta`: the `pkg/types` package is not part of this model. `Meta` carries only `TotalData`. GetProducts: the model assumes that the call `CountTotalPage(req.Page, req.Paginate, …)` at `repo.go:211` returns normally for every page and page size, including `Paginate == 0`, which `GetProducts` admits and which that call may divide by.
- ShopPorts.ShopRepository: the scripted answers depend only on each call's argument, never on earlier calls. Two identical calls on one repository get the same answer, whereas a real store answers from its state: a second create may fail, and a read after a delete differs.
- `Rebind` and placeholders in the SQL text: placeholders are separate fragments. The model does not prove that the fixed SQL text holds no other `?` character.
- DefaultedPagination: states "offset ≥ 0" only when `(Page-1)*Paginate` fits in a 64-bit integer. The Go code wraps around otherwise, and OffsetCanWrap gives a page where the wrapped offset is negative.
- GetProducts: requires `Paginate >= 0`, because `make([]dao, 0, req.Paginate)` (`repo.go:149`) panics on a negative capacity. The same `make` also panics when `Paginate` times the size of a row exceeds the Go runtime's allocation limit, and runs out of memory well before that. `SetDefault` sets no upper bound. The model has no memory limit, so for such a `Paginate` it still sends the query and builds a response. Neither panic is modelled.
- GetProducts: an empty result leaves Go's `Items` slice `nil` (serialised as `null`). The model does not tell a nil slice from an empty one.
- Floating-point prices: `MinPrice`, `MaxPrice` and `Price` are integers. Only their `> 0` test and the value passed on matter here.
- Logging (zerolog calls) and `context.Context` parameters: they do not affect results.
- The shop entity file is not part of this model. The request fields come from `internal/module/shop/service/service_test.go`, except `DeleteShopRequest`'s `id`, which is assumed. The payloads the service never reads (`CreateShopResponse`, `UpdateShopResponse`, `ShopsRequest`, `ShopsResponse`) are abstract types.
- `pkg/errmsg` is not part of this model. The 403 error is the value `CustomError(403, "User not found")`, and the model does not say how that package formats it.
- The `ShopRepository` interface in `internal/module/shop/ports/ports.go` has no `IsUser`, yet the service calls it. The modelled repository has `IsUser`, as the repository double in `mock/module/shop/ports/mock_ports.go` does.
- The seeding utility, the HTTP handler and the product service: database transactions, random data, request parsing and a one-line delegation, with no behaviour to state here.
