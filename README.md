# Book-exchange microservices, modelled in Dafny

This project models the request handlers and message listeners of a set
of Spring Boot microservices for second-hand book sales. It covers two
generations of the code: the `no.exam` packages and the older
`no.gardos` packages. These are the parts modelled:

- **Sale service**. It is the source of truth for sales. `createSale`
  checks the body, looks the book up in the book service, stores the sale
  and then publishes one news message. The other endpoints read, "update"
  and delete sales.
- **Read models** kept up to date by broker messages:
  - the seller directory, which keeps a sales list per username;
  - the user directory, which does the same;
  - the news feed, in its `no.exam` and `no.gardos` variants.
- **Gateway**. Registration creates an account and then publishes a
  user-created message. The gateway also handles login and the
  `/authUser` map. Accounts live in a registry keyed by username. Roles
  get a `ROLE_` prefix, and the password is stored only as the encoder's
  output.
- **Book services** in both variants: create, replace, merge-patch and
  delete.
- **Producer and consumer services** (`no.gardos`): CRUD endpoints and
  the consumer-created listener.
- **The shared exception handler**, which picks 400 or 500 by searching
  at most five links of an exception's cause chain.
- **Entity-to-DTO converters**.

How the code is represented:

- Each controller is a `class`. It owns its repository as a field:
  - `map<int, T>` plus `nextId` where ids are generated;
  - `map<string, T>` where the username is the key;
  - `seq<News>` for the news tables, which are read back in insertion
    order.
- Each endpoint is a `method`. Its `ensures` states the status code and
  the entire new repository state.
- Converters, role prefixing, decimal text and list helpers are pure
  functions, each with lemmas.
- Scenario methods replay the situations the repository's tests walk
  through and prove the outcomes.

The message DTOs (`Schema`) carry the union of the field names the code
uses. The code is mid-rename: the sale listener in the seller service reads
`sale.seller`, while the one in the user service reads `sale.user`. Each
module reads its own field. The sale controller itself is further along the
rename than its entity: it calls `findByUser`, builds `Sale(user = …)` and
reads `sale.user` (SaleController.kt lines 110, 149 and 155), while the
`Sale` entity and its repository declare only `seller` and `findBySeller`.
The model reads all three as the entity's `seller` field.

Several values are parameters of the model, because they come from
outside the code:

- whether a repository save throws (`saveFails`, or `saveError` with a
  modelled exception);
- the result of the book lookup over HTTP (`BookLookup`);
- the password encoder and matcher, which are `const` functions of the
  registry.

## Model

| member | source | states |
|---|---|---|
| ErrorHandling.HandleValidationFailure | sale/src/main/kotlin/no/exam/sale/api/SaleController.kt:208-219 | The status is 400 exactly when one of the first five links of the cause chain (the exception itself and four causes) is a javax or Hibernate constraint violation; otherwise it is 500. The same handler is repeated in every controller, for example consumer/.../ConsumerController.kt:193-204. |
| ErrorHandling.ErrorResponse | sale/src/main/kotlin/no/exam/sale/api/SaleController.kt:205-219 | Only the four exception types the handler declares reach it. Any other exception gives 500. A handled one gives 400 exactly when the five-link search finds a violation. |
| ErrorHandling.DeepViolationScenario | sale/src/main/kotlin/no/exam/sale/api/SaleController.kt:210-216 | A violation that sits six links deep is not found, so the answer is 500. |
| SaleApi.SaleController.GetSale | sale/src/main/kotlin/no/exam/sale/api/SaleController.kt:63-72 | A missing id gives 404 with no body. Otherwise the answer is 200 with the stored sale's DTO. |
| SaleApi.SaleController.GetSalesForBook | sale/src/main/kotlin/no/exam/sale/api/SaleController.kt:83-94 | The answer is always 200, even when nothing matches. The body holds exactly the DTOs of the stored sales of that book, no more and no fewer. |
| SaleApi.SaleController.GetSalesForUser | sale/src/main/kotlin/no/exam/sale/api/SaleController.kt:105-116 | The answer is 200, and the body holds exactly the DTOs of that seller's stored sales. |
| SaleApi.SaleController.CreateSale | sale/src/main/kotlin/no/exam/sale/api/SaleController.kt:121-164 | A body with an id, or else a body with a user, gives 400. A client error from the book lookup passes on its own status. A save error gets the handler's status. In all of these cases nothing is stored and nothing is published. The answer is 201 exactly when every check passes. Then exactly one sale is stored under a fresh id, with the principal as seller and the looked-up book's id. Exactly one message is published, with that id, the principal, the book's title and the stored price. |
| SaleApi.SaleController.UpdatePrice | sale/src/main/kotlin/no/exam/sale/api/SaleController.kt:169-185 | A missing id gives 404 and changes nothing. Otherwise the code saves an empty sale and ignores the price. If that save throws, the handler decides between 400 and 500 (400 exactly when a constraint violation is among the first five links) and nothing is stored. If it goes through, the empty sale is inserted under a fresh id, the sale under the path id is left as it was, and the answer is 200 with the new sale. |
| SaleApi.SaleController.DeleteSale | sale/src/main/kotlin/no/exam/sale/api/SaleController.kt:190-203 | A missing id gives 404 and changes nothing. Otherwise exactly that sale is removed and the answer is 204. |
| SaleApi.CreateReadDeleteScenario | sale/src/main/kotlin/no/exam/sale/api/SaleController.kt:121-203 | Create, read, delete and read again answer 201, 200, 204 and 404. |
| SellerApi.SellerController.UserCreatedEvent | seller/src/main/kotlin/no/exam/seller/api/SellerController.kt:36-49 | With a username and a save that succeeds, the seller is stored under that username with name, email and an empty sales list. Otherwise the directory is unchanged. |
| SellerApi.SellerController.SaleCreatedEvent | seller/src/main/kotlin/no/exam/seller/api/SellerController.kt:51-59 | The sale id is appended to the sales list of the seller named by `sale.seller` when all of these hold: that seller exists, it has a list, the id is present and the save succeeds. In every other case nothing changes. |
| SellerApi.SellerController.SaleDeletedEvent | seller/src/main/kotlin/no/exam/seller/api/SellerController.kt:61-69 | Under the same conditions, the first occurrence of the id is removed from the seller's list. Otherwise nothing changes. |
| SellerApi.SellerController.GetSellerByUsername | seller/src/main/kotlin/no/exam/seller/api/SellerController.kt:77-89 | A missing username gives 404. Otherwise the answer is 200 with the seller's DTO. |
| SellerApi.SaleEventsScenario | seller/src/main/kotlin/no/exam/seller/api/SellerController.kt:51-69 | Appending 3 to [1, 2] yields [1, 2, 3]. Removing 2 from [1, 2] yields [1]. |
| SellerApi.RaceScenario | seller/src/main/kotlin/no/exam/seller/api/SellerController.kt:36-59 | When a sale-created message arrives before its user-created message, the sale is lost: the seller ends with an empty list. |
| SellerApi.ReplayScenario | seller/src/main/kotlin/no/exam/seller/api/SellerController.kt:51-59 | A sale-created message delivered twice puts its id in the list twice. |
| UserApi.UserController.UserCreatedEvent | user/src/main/kotlin/no/exam/user/api/UserController.kt:36-49 | With a username and a save that succeeds, the user is stored with an empty sales list. Otherwise the directory is unchanged. |
| UserApi.UserController.SaleCreatedEvent | user/src/main/kotlin/no/exam/user/api/UserController.kt:51-59 | The id is appended to the list of the user named by `sale.user`, under the same conditions as in the seller directory. Otherwise nothing changes. |
| UserApi.UserController.SaleDeletedEvent | user/src/main/kotlin/no/exam/user/api/UserController.kt:61-69 | The first occurrence of the id is removed under the same conditions. Otherwise nothing changes. |
| UserApi.UserController.GetUserByUsername | user/src/main/kotlin/no/exam/user/api/UserController.kt:78-90 | A missing username gives 404. Otherwise the answer is 200 with the user's DTO. |
| UserApi.SaleEventsScenario | user/src/main/kotlin/no/exam/user/api/UserController.kt:51-69 | Starting from sales [1, 2]: a sale-created message gives three sales, and, on a separate copy, a sale-deleted message leaves one. A later user-created message for the same username resets the list to empty. |
| NewsApi.NewsController.RabbitMq | news/src/main/kotlin/no/exam/news/api/NewsController.kt:34-47 | One entry is appended under a fresh id: the controller's invariant keeps every stored id below the next one, and the new id differs from every stored one. It copies sale, seller name, book title and book price and never sets the condition. A failed save appends nothing. |
| NewsApi.NewsController.GetAllNews | news/src/main/kotlin/no/exam/news/api/NewsController.kt:52-62 | The answer is 200. Without the flag, the body is every entry converted, in stored order. With the flag, it holds min(10, n) entries: the newest first, then the older ones in reverse storage order. |
| NewsApi.LatestScenario | news/src/main/kotlin/no/exam/news/api/NewsController.kt:58-59 | With eleven entries, the latest view holds ten. Its first entry is the last one stored; the oldest entry is left out. |
| GardosNewsApi.NewsController.RabbitMq | news/src/main/kotlin/no/gardos/news/api/NewsController.kt:38-51 | One entry is appended under a fresh id (the controller's invariant keeps every stored id below the next one). The sale id becomes `sale`, the user becomes `sellerName`, the price becomes `bookPrice`, and `bookTitle` is the text of the book id (or "null"). A failed save appends nothing. |
| GardosNewsApi.NewsController.GetAllNews | news/src/main/kotlin/no/gardos/news/api/NewsController.kt:56-58 | The answer is 200 with every entry converted, in stored order. |
| GardosNewsApi.BookTitleIsBookId | news/src/main/kotlin/no/gardos/news/api/NewsController.kt:45 | The stored "title" is well-formed decimal text, and reading it back gives the book id. |
| Decimal.NatText | news/src/main/kotlin/no/gardos/news/api/NewsController.kt:45 | The text of a natural number is non-empty and made only of digits, with no leading zero. |
| Decimal.ParseNatText | news/src/main/kotlin/no/gardos/news/api/NewsController.kt:45 | Reading a natural number's decimal text back gives the number. |
| Decimal.LongTextRoundTrip | news/src/main/kotlin/no/gardos/news/api/NewsController.kt:45 | The text of any Long is well-formed (a leading "-" only for negatives), and reading it back gives the number. |
| AuthUsers.AuthUserService.CreateUser | gateway/src/main/kotlin/no/exam/gateway/model/AuthUserService.kt:16-29 | The result is true exactly when the username is new and the save succeeds. Then exactly one account is stored: the username, the encoder's output for the password, and the roles with "ROLE_" prefixed, as many roles as were asked for. On false, nothing is stored. |
| AuthUsers.AuthUserService.GetUser | gateway/src/main/kotlin/no/exam/gateway/model/AuthUserService.kt:31-41 | An account is returned exactly when the username exists and the matcher accepts the password against the stored hash, and it is the stored account. Otherwise the result is null. |
| Roles.PrefixRoles | gateway/src/main/kotlin/no/exam/gateway/model/AuthUserService.kt:22 | Every role appears prefixed. Every stored role is "ROLE_" followed by a role that was asked for. |
| Roles.PrefixInjective | gateway/src/main/kotlin/no/exam/gateway/model/AuthUserService.kt:22 | Distinct roles stay distinct once prefixed. |
| Roles.PrefixRolesKeepsCardinality | gateway/src/main/kotlin/no/exam/gateway/model/AuthUserService.kt:22 | Prefixing keeps the number of roles. |
| Roles.UserRole | gateway/src/main/kotlin/no/exam/gateway/api/AuthenticationController.kt:57 | The single role USER becomes exactly {"ROLE_USER"}. |
| GardosUsers.UserService.CreateUser | gateway/src/main/kotlin/no/gardos/gateway/model/UserService.kt:16-29 | The result is true exactly when the username is new and the save succeeds. Then one user is saved, with the encoded password and the prefixed roles. On false, nothing is saved. |
| GatewayApi.AuthenticationController.GetAuthUser | gateway/src/main/kotlin/no/exam/gateway/api/AuthenticationController.kt:42-48 | The answer is 200 with a map whose keys are exactly "name" and "roles". They hold the principal's name and the set of its authorities. |
| GatewayApi.AuthenticationController.Register | gateway/src/main/kotlin/no/exam/gateway/api/AuthenticationController.kt:50-81 | The answer is 204 exactly when the account could be created. Then the account has the single role ROLE_USER, and exactly one message is published, with username, name, email and no sales list. Otherwise the answer is 400: nothing is stored and nothing is published. |
| GatewayApi.AuthenticationController.Login | gateway/src/main/kotlin/no/exam/gateway/api/AuthenticationController.kt:89-106 | The answer is 204 exactly when the account exists and the password matches. Otherwise it is 401. |
| GatewayApi.RegisterTwiceScenario | gateway/src/main/kotlin/no/exam/gateway/api/AuthenticationController.kt:50-106 | A fresh registration answers 204 and can log in at once. Registering the same username again answers 400 and publishes nothing. |
| BookApi.Patched | book/src/main/kotlin/no/exam/book/api/BookController.kt:139-164 | A field absent from the patch keeps its value. A null value clears the field. A text value sets it. |
| BookApi.ApplyPatchIdempotent | book/src/main/kotlin/no/exam/book/api/BookController.kt:139-166 | Applying an accepted merge patch twice is the same as applying it once. |
| BookApi.ApplyEmptyPatch | book/src/main/kotlin/no/exam/book/api/BookController.kt:139-166 | A patch that names none of the book's fields leaves the book as it was. |
| BookApi.BookController.CreateBook | book/src/main/kotlin/no/exam/book/api/BookController.kt:65-77 | A body with an id gives 400 and stores nothing. Otherwise exactly one book is stored under a fresh id, and the answer is 201. |
| BookApi.BookController.ReplaceBook | book/src/main/kotlin/no/exam/book/api/BookController.kt:91-109 | A body id that differs from the path id gives 409 and stores nothing. If the path id exists, the book is written under it and the answer is 204. Otherwise the book goes under a fresh id and the answer is 201. |
| BookApi.BookController.UpdateBook | book/src/main/kotlin/no/exam/book/api/BookController.kt:123-168 | The checks run in this order: a missing id gives 404, a body that does not parse gives 400, and a body naming "id" gives 409. A title, author or edition that is neither null nor text gives 400. The answer is 204 exactly when the id exists and the patch is accepted; then the merged book is saved under the same id. In every other case nothing is saved. |
| BookApi.BookController.DeleteBook | book/src/main/kotlin/no/exam/book/api/BookController.kt:179-184 | A missing id gives 404. Otherwise exactly that book is removed and the answer is 204. |
| BookApi.PatchScenario | book/src/main/kotlin/no/exam/book/api/BookController.kt:139-168 | Clearing only the title answers 204 and keeps the author and edition. A title that is not text answers 400 and changes nothing. |
| GardosBookApi.Overwrite | book/src/main/kotlin/no/gardos/book/api/BookController.kt:124-131 | A field the body sets takes the body's value. A null field keeps the stored value. |
| GardosBookApi.MergeProperties | book/src/main/kotlin/no/gardos/book/api/BookController.kt:119-135 | Merging the same body twice equals merging it once. A body that sets every field replaces the book outright. |
| GardosBookApi.BookController.CreateBook | book/src/main/kotlin/no/gardos/book/api/BookController.kt:63-75 | A body with an id gives 400 and stores nothing. Otherwise one book is stored under a fresh id, and the answer is 201. |
| GardosBookApi.BookController.ReplaceBook | book/src/main/kotlin/no/gardos/book/api/BookController.kt:89-105 | An id mismatch gives 409, checked before a missing id gives 404; neither stores anything. Otherwise the book under the path id is overwritten and the answer is 204. |
| GardosBookApi.BookController.UpdateBook | book/src/main/kotlin/no/gardos/book/api/BookController.kt:119-135 | A missing id gives 404. Otherwise the stored book becomes its merge with the body, under the same id, and the answer is 204. |
| GardosBookApi.BookController.DeleteBook | book/src/main/kotlin/no/gardos/book/api/BookController.kt:146-151 | A missing id gives 404. Otherwise exactly that book is removed and the answer is 204. |
| GardosBookApi.ReplaceAndPatchScenario | book/src/main/kotlin/no/gardos/book/api/BookController.kt:89-135 | An id mismatch gives 409 even when the path id is absent. A patch that sets only the author keeps the title and condition. |
| ProducerApi.ToDtoKeepsEveryField | producer/src/main/kotlin/no/gardos/producer/api/ProducerController.kt:62 | The DTO a producer is answered with carries both the storage id and the stored name: two entries convert alike only when they are the same id and the same producer. |
| ProducerApi.ProducerController.RabbitMq | producer/src/main/kotlin/no/gardos/producer/api/ProducerController.kt:36-42 | One new producer with the message's name is inserted under a fresh id. A failed save inserts nothing. |
| ProducerApi.ProducerController.GetProducer | producer/src/main/kotlin/no/gardos/producer/api/ProducerController.kt:59-62 | A missing id gives 404. Otherwise the answer is 200 with the producer's DTO. |
| ProducerApi.ProducerController.CreateProducer | producer/src/main/kotlin/no/gardos/producer/api/ProducerController.kt:74-80 | A body with an id gives 400 and stores nothing. Otherwise one producer is inserted under a fresh id, and the answer is 201. |
| ProducerApi.ProducerController.UpdateProducerName | producer/src/main/kotlin/no/gardos/producer/api/ProducerController.kt:94-99 | A missing id gives 404. Otherwise the name is overwritten under the same id, and the answer is 200 with that producer. |
| ProducerApi.ProducerController.UpdateProducer | producer/src/main/kotlin/no/gardos/producer/api/ProducerController.kt:113-122 | A body with an id gives 400 and a missing id gives 404; neither stores anything. Otherwise a new producer is inserted under a fresh id, the one under the path id is untouched, and the answer is 200 with the new producer. |
| ProducerApi.ProducerController.DeleteProducer | producer/src/main/kotlin/no/gardos/producer/api/ProducerController.kt:133-138 | A missing id gives 404. Otherwise exactly that producer is removed and the answer is 204. |
| ProducerApi.UpdateScenario | producer/src/main/kotlin/no/gardos/producer/api/ProducerController.kt:36-122 | A PUT leaves the old producer with its old name and adds a second producer. A name PATCH renames in place. |
| ConsumerApi.ToDtoKeepsEveryField | consumer/src/main/kotlin/no/gardos/consumer/api/ConsumerController.kt:111 | The DTO a consumer is answered with carries both the storage id and the stored name: two entries convert alike only when they are the same id and the same consumer. |
| ConsumerApi.ConsumerController.GetConsumer | consumer/src/main/kotlin/no/gardos/consumer/api/ConsumerController.kt:108-111 | A missing id gives 404. Otherwise the answer is 200 with the consumer's DTO. |
| ConsumerApi.ConsumerController.CreateConsumer | consumer/src/main/kotlin/no/gardos/consumer/api/ConsumerController.kt:123-129 | A body with an id gives 400 and stores nothing. Otherwise one consumer is inserted under a fresh id, and the answer is 201. |
| ConsumerApi.ConsumerController.UpdateConsumerName | consumer/src/main/kotlin/no/gardos/consumer/api/ConsumerController.kt:143-148 | A missing id gives 404. Otherwise a consumer with the new name is inserted under a fresh id, the one under the path id keeps its old name, and the answer is 200 with the new consumer. |
| ConsumerApi.ConsumerController.UpdateConsumer | consumer/src/main/kotlin/no/gardos/consumer/api/ConsumerController.kt:162-171 | A body with an id gives 400 and a missing id gives 404; neither stores anything. Otherwise a new consumer is inserted, and the answer is 200 with it. |
| ConsumerApi.ConsumerController.DeleteConsumer | consumer/src/main/kotlin/no/gardos/consumer/api/ConsumerController.kt:182-187 | A missing id gives 404. Otherwise exactly that consumer is removed and the answer is 204. |
| ConsumerApi.RenameScenario | consumer/src/main/kotlin/no/gardos/consumer/api/ConsumerController.kt:108-148 | A rename answers 200 with the new name under a new id. Reading the renamed id afterwards still shows the old name. |
| EventSync.CreateSaleFeedsNews | sale/src/main/kotlin/no/exam/sale/api/SaleController.kt:147-163 | When the sale service answers 201 and the news listener (news/.../NewsController.kt:34-47) receives what it published, the feed gains exactly one entry at its end, under a fresh news id. The entry names the stored sale, its seller (the principal) and the book's title, and has no price and no condition. Any other answer publishes nothing, and the feed is unchanged. |
| EventSync.RegisterFeedsDirectories | gateway/src/main/kotlin/no/exam/gateway/api/AuthenticationController.kt:57-69 | When registration answers 204 and the user-created message reaches the seller and user directories, both gain an entry under the username with the given name and email and an empty sales list. On 400, both directories stay as they were. |
| SaleConverter.TransformKeepsEveryField | sale/src/main/kotlin/no/exam/sale/model/SaleConverter.kt:7-15 | Id, seller, book, price and condition all survive the conversion, and the DTO's `user` stays null. |
| SaleConverter.TransformList | sale/src/main/kotlin/no/exam/sale/model/SaleConverter.kt:17-19 | The output has the same length as the input, and element i is the conversion of input i. |
| NewsConverter.TransformDropsCondition | news/src/main/kotlin/no/exam/news/model/NewsConverter.kt:7-15 | The DTO's condition is always null. Two entries convert alike exactly when they differ at most in their condition. |
| NewsConverter.TransformList | news/src/main/kotlin/no/exam/news/model/NewsConverter.kt:17-19 | The output has the same length, and element i is the conversion of input i. |
| SellerConverter.TransformKeepsEveryField | seller/src/main/kotlin/no/exam/seller/model/SellerConverter.kt:7-14 | Username, name, email and the sales list all survive the conversion. |
| SellerConverter.TransformList | seller/src/main/kotlin/no/exam/seller/model/SellerConverter.kt:16-18 | The output has the same length, and element i is the conversion of input i. |
| UserConverter.TransformKeepsEveryField | user/src/main/kotlin/no/exam/user/model/UserConverter.kt:7-14 | Username, name, email and the sales list all survive the conversion. |
| UserConverter.TransformList | user/src/main/kotlin/no/exam/user/model/UserConverter.kt:16-18 | The output has the same length, and element i is the conversion of input i. |
| BookConverter.TransformKeepsEveryField | book/src/main/kotlin/no/exam/book/model/BookConverter.kt:7-14 | Id, title, author and condition all survive the conversion. |
| BookConverter.TransformList | book/src/main/kotlin/no/exam/book/model/BookConverter.kt:16-18 | The output has the same length, and element i is the conversion of input i. |
| Lists.Map | sale/src/main/kotlin/no/exam/sale/model/SaleConverter.kt:18 | Kotlin's `map`: same length, and element i is `f` of input i. |
| Lists.RemoveFirst | seller/src/main/kotlin/no/exam/seller/api/SellerController.kt:65 | Kotlin's `MutableList.remove`: an absent element leaves the list as it was. Otherwise the result is the list with the first occurrence cut out. |
| Lists.RemoveFirstCounts | seller/src/main/kotlin/no/exam/seller/api/SellerController.kt:65 | Removing a present element shortens the list by one and takes exactly one copy out of its multiset. |
| Lists.RemoveFirstUndoesAppend | seller/src/main/kotlin/no/exam/seller/api/SellerController.kt:55-65 | Removing an id that was just appended to a list not holding it restores the list. |
| Lists.Reversed | news/src/main/kotlin/no/exam/news/api/NewsController.kt:59 | `asReversed`: element i of the result is element n-1-i of the input. |
| Lists.TakeLast | news/src/main/kotlin/no/exam/news/api/NewsController.kt:59 | `takeLast(n)` holds min(n, length) elements: the last ones, in their order. |
| Lists.Latest | news/src/main/kotlin/no/exam/news/api/NewsController.kt:59 | The latest ten hold min(10, length) elements, newest first, and the first is the last stored. |

## Left out

- The broker is not modelled: no queues, fanout, delivery order or retries. Each listener is a method that receives one message. A published message is a returned `emitted` sequence. The scenarios above show what reordering and redelivery do to the seller directory.
- Concurrency and transactions are not modelled. Each method runs atomically.
- The HTTP call from `createSale` to the book service is modelled as the `BookLookup` parameter. A lookup failure other than a 4xx client error would escape the handler, and it is not modelled.
- The demo endpoints `/rabbit` and `/rest-template` of the sale and consumer services are not modelled. They publish hard-coded DTOs or forward a request.
- The getAll endpoints (`getAllSales`, `getAllSellers`, `getAllUsers`, `getAllBooks`, `getAllProducers`, `getAllConsumers`) are not modelled. They are the list converters applied to `findAll`, and the list converters are modelled. The stub endpoints `getAllBooksOnSale` and `getAllUsersSellingBooks` return a bare 204 and are not modelled. Neither is `getBook`, the same 404/200 read as `GetSale`.
- Jackson is not modelled. The PATCH body of the `no.exam` book service is given already parsed (`PatchBody`), and the parse either fails or yields a map of `JsonNode` values.
- BCrypt is not modelled. The encoder and the matcher are opaque `const` functions. The scenario assumes only that a password matches its own hash.
- Spring Security is not modelled. That covers `userDetailsService`, `authenticationManager.authenticate` and the security context written by register and login, which would throw on a bad credential. The logout endpoint, and the security and application configuration, are left out too.
- The `no.gardos` gateway `AuthenticationController` is not part of this model.
- Bean validation (`@NotNull`) on save is not modelled as a rule: whether a save throws is a parameter (`saveFails`, `saveError`) rather than derived from the fields being saved. `CreateSale` and `UpdatePrice` route a throwing save through the exception handler. The book, producer and consumer endpoints are modelled with saves that succeed.
- The `println(ex.message)` in the user service's sale-deleted listener is console output and is not modelled. The listener is otherwise modelled: it drops the event.
- Response bodies that are only text (the 404 messages, the handler's message strings) are not modelled. Only statuses and DTO bodies are.
- `CreateSale` stores a sale whose price and condition are null, and `UpdatePrice` stores one whose seller, book, price and condition are null, although the `Sale` entity marks these `@NotNull`. With validation enforced those saves throw; the model covers that outcome only as the `saveError` case, not as a consequence of the stored values.
- `NewsApi.NewsController.GetAllNews` and `GardosNewsApi.NewsController.GetAllNews` take `findAll()` to return the entries in insertion order, which the news table is modelled as. Spring Data's `CrudRepository` does not promise any order, and the "latest ten" view (`takeLast(10).asReversed()`) depends on it.
- `GetSalesForBook` and `GetSalesForUser` return a set, not a list: the order of `findByBook` and `findByUser` is not fixed by the code.
- Ids are unbounded integers. Overflow of `Long` ids is not modelled.
- The `no.gardos` converters (news, book, sale, producer, consumer) are not modelled separately. They are field copies like the `no.exam` ones. The producer and consumer DTOs are built by `ToDto`.
- `NewsApi.NewsController.RabbitMq` stores `bookCondition` as null. The entity declares the field `@NotNull`. With validation enforced, every save would fail, so that outcome is the `saveFails` case.

Where the code differs from its documentation or from its test sources, the model
follows the code:

- `updatePrice` ignores the price and saves an empty sale. When that save
  goes through, the answer is 200 and the sale under the path id is left
  alone; when it throws, the answer is the handler's 400 or 500. The
  repository's test expects 204 and an updated price.
- `createSale` copies neither the body's price nor its condition into the
  stored sale.
- The `no.exam` news service has no listeners for sale updates or
  deletions, although its tests expect news to follow them.
- The `no.exam` book controller reads and writes a field `edition`, which
  neither the entity nor the shared `BookDto` declares. The model gives
  this controller its own `Book` and `BookBody` records with `edition`.
- `getSalesForBook` builds a 204 response for an empty result but never
  returns it.
