# Message service core in Dafny

A model of the message-CRUD core of a small Koa REST API. The core has four layers, one Dafny module each:

- **The router** (`Router`). It holds the request gate, the five `/messages` handlers and the page-count arithmetic.
- **The `Message` business entity** (`Entity`).
- **The DAO factory** (`Factory`).
- **The `MessageDao` data-access object** (`Dao`).

Three supporting modules sit underneath:

- `Values`: optional values, results, the message attribute bag and JavaScript truthiness.
- `Spans`: the shared timings object as a trace of span start and stop events, plus a theory of when a trace nests properly.
- `Storage`: the `message` table as a map from id to row with a next-id counter.

Each layer is modelled in the form the code has. The DAO, the entity, the factory, the timings object and Koa's `ctx` are classes. Their methods change the table, the trace and the context in place. Argument checks, the update payload, the list query, the gate and the page count are functions.

A call can end in one of three ways (`Values.Result`):

- **Ok**: it answers.
- **Throw**: it throws synchronously, before a promise exists. A `.catch` chained onto the call never sees this.
- **Reject**: its promise rejects.

This distinction is what decides whether a span gets stopped. The contracts of the DAO, the entity and the five handlers state the exact events a call appends to the trace. `Router.Serve` states only that an admitted request's trace begins with its route span.

Behaviour modelled as the code is written:

- **The DAO starts its span before it checks its arguments.** A DAO argument error therefore leaves `messageDao:<op>` open (src/dao/message.js:28-34, 102-120, 153-163).
- **PUT and POST start the route span before their 406 and 400 checks.** Those answers leave the span open (src/router/message.js:199-214, 291-307). A synchronous throw from `Message.find`, `Message.getTotal` or `Message.getAll` leaves it open as well.
- **The entity and the DAO check update arguments in different orders.**
  - Entity order: factory, id, text-or-owner, updatedBy.
  - DAO order: id, updatedBy, text-or-owner.
  - `Entity.CheckOrdersDiffer` exhibits an input on which the two report different errors.
- **When the DAO's update answers nothing, `message:update` is stopped twice.** The `then` handler stops the span and throws, and the `.catch` chained after it stops it again (src/model/message.js:80-96). `Entity.UpdateNoDataStopsTwice` proves that the resulting trace does not nest.

## Model

| member | source | states |
|---|---|---|
| Values.FirstMissing | src/dao/message.js:157-163 | the first falsy key of the list, if any; none exactly when every key is truthy, and every key before the reported one is truthy |
| Values.FindMissing | src/router/message.js:210-214 | the loop over required attributes returns exactly the first falsy key of the list |
| Spans.Start | src/model/message.js:61-63 | with a timings object, one Begin event is appended to its trace; without one, nothing is recorded |
| Spans.Stop | src/model/message.js:81-83 | with a timings object, one End event is appended; without one, nothing is recorded |
| Spans.ReplayAppend | src/dao/message.js:28-51 | replaying a trace made of two parts replays the first part, then the second from the spans left open |
| Spans.ReplayBeneath | src/model/message.js:229-253 | spans already open further out do not change how an inner call's events nest |
| Spans.AroundBalanced | src/model/message.js:229-253 | a span started before and stopped after properly nested work gives a properly nested trace |
| Spans.ConcatBalanced | src/router/message.js:222-230 | two properly nested traces one after the other are properly nested, as the find and then the update of PUT (and the find and then the delete of DELETE, src/router/message.js:366-385) |
| Spans.SpanBalanced | src/dao/message.js:195-216 | a DAO span started and stopped once around a storage call is properly nested |
| Spans.ExtraStopUnbalanced | src/model/message.js:80-96 | stopping the outer span a second time makes the trace fail to nest |
| Spans.StartedLeftOpen | src/router/message.js:199-214 | a span started and then left by a synchronous throw stays open: exactly that span is unclosed |
| Spans.OpenOne | src/dao/message.js:28-30 | a lone start leaves exactly that span open |
| Storage.Window | src/dao/message.js:235-236 | the `findAll` window holds at most `limit` rows and no more than the listing, is non-empty when the offset lies inside the listing and the limit is not 0, and its i-th row is the listing's row at offset + i |
| Storage.WindowLength | src/dao/message.js:235-236 | when the offset lies within the listing, the window holds every row from the offset up to the limit, or to the end of the listing without a limit |
| Storage.AscendingCount | database/models/message.js:7-11 | the ordered listing holds one row per stored key |
| Storage.Table.constructor | database/models/message.js:7-26 | a new table is empty, with next id 1, and satisfies the table invariant |
| Storage.Table.FindByPk | src/dao/message.js:36-37 | answers the row stored under the id, or none, and changes nothing; rejects when storage fails |
| Storage.Table.Create | database/models/message.js:7-23 | inserts a row under the next unused id, with both timestamps set to the insertion time; the table invariant holds |
| Storage.Table.Update | src/dao/message.js:122-125 | only the row with that id changes: every supplied attribute is written and its key stays the same; none when no row has that id |
| Storage.Table.Destroy | src/dao/message.js:72-73 | removes exactly the row with that id and answers it, or none |
| Storage.Table.Count | src/dao/message.js:200-201 | answers the number of stored rows |
| Storage.Table.FindAll | src/dao/message.js:235-236 | answers the window of the id-ordered listing selected by the query |
| Storage.Table.ListingMatchesCount | src/dao/message.js:195-251 | the listing has as many rows as `count()` reports |
| Dao.UpdateError | src/dao/message.js:106-120 | update fails exactly when the id, `updatedBy`, or both `text` and `owner` are falsy; the id message comes first, then the `updatedBy` message, then "expects `text` and/or `owner`" |
| Dao.CreateError | src/dao/message.js:157-163 | create fails exactly when owner, text or createdBy is falsy, and names the first falsy one in that order |
| Dao.MessageDao.constructor | src/dao/message.js:10-16 | the DAO keeps the store it was given |
| Dao.MessageDao.Find | src/dao/message.js:27-52 | a falsy id throws with the span left open; otherwise answers the stored row unchanged, or none, with the span started and stopped once |
| Dao.MessageDao.Delete | src/dao/message.js:63-88 | a falsy id throws and the table is unchanged; otherwise removes the row with that id and answers it, with the span started and stopped once |
| Dao.MessageDao.Update | src/dao/message.js:101-140 | a failed check throws the first error, leaving the table and `args` untouched and the span open; otherwise `args` gains `updatedAt`, only the row with that id is patched, and the span is stopped once |
| Dao.MessageDao.Create | src/dao/message.js:152-186 | a missing owner, text or createdBy throws naming the first one, with the table untouched and the span open; otherwise inserts text, owner and createdBy, with `updatedBy` = `createdBy` |
| Dao.MessageDao.TotalMessages | src/dao/message.js:195-216 | answers storage's count unchanged, with one start and one stop on success and on failure |
| Dao.MessageDao.GetAll | src/dao/message.js:230-251 | answers storage's listing for the query unchanged, with one start and one stop on success and on failure |
| Dao.NewDao | src/dao/message.js:10-16 | without a store throws "Instance of Store is required"; otherwise a new DAO over that store |
| Dao.CreatedRowStamps | src/dao/message.js:165-171 | an accepted create stores the given text and owner, the creator as last updater, and one timestamp for both |
| Factory.DaoFac.DaoFor | src/dao-factory.js:27-33 | succeeds exactly for "message" with a store; the DAO is newly built on each call and uses the factory's store; any other name throws "No DAO for <name>"; a missing store throws the DAO's error |
| Factory.DaoFac.constructor | src/dao-factory.js:15-17 | the factory keeps the store it was given |
| Entity.UpdateError | src/model/message.js:41-59 | update is refused exactly when the factory or id is missing, text and owner are both falsy, or updatedBy is falsy; the factory message comes first, then the `this.id` message, then text-or-owner, then the `updatedBy` message |
| Entity.UpdatePayload | src/model/message.js:65-75 | the payload always carries `updatedBy`, carries `text` and `owner` exactly when they are truthy, and carries nothing else |
| Entity.CreateError | src/model/message.js:112-123 | create is refused exactly without a factory or on a message that has an id; the factory message comes first, then the already-in-storage message |
| Entity.DeleteError | src/model/message.js:168-177 | delete is refused exactly without a factory or without an id; the factory message comes first, then the `this.id` message |
| Entity.FindError | src/model/message.js:220-227 | find is refused exactly without a factory or without an id argument; the factory message comes first, then the `id` message |
| Entity.ListQuery | src/model/message.js:322-326 | limit and offset are sent exactly when the limit is truthy, with the offset defaulting to 0; otherwise the query is empty |
| Entity.Wrapped | src/model/message.js:331-332 | null entries are dropped: the result is no longer than its input, empty when every entry is null, and with no null entry it has one record per entry, in order |
| Entity.WrappedOne | src/model/message.js:331-332 | a single null entry contributes nothing and any other entry contributes its record; with `Entity.WrappedAppend` this fixes the result for every input |
| Entity.WrappedAppend | src/model/message.js:331-332 | dropping null entries keeps the order: it distributes over concatenation |
| Entity.BracketBalanced | src/model/message.js:229-253 | an entity call that reached storage leaves a properly nested trace |
| Entity.UpdateNoDataStopsTwice | src/model/message.js:80-96 | when no row is updated, the doubled stop makes the entity's trace fail to nest |
| Entity.Message.constructor | src/model/message.js:13-21 | copies exactly the seven message attributes |
| Entity.Message.Update | src/model/message.js:37-97 | a failed check throws before any span or DAO call; otherwise one entity span around one DAO span; on success only the row with this id is patched with the payload and a fresh `updatedAt`, and a new entity holds the row; no row gives "Failure to retrieve newly updated message" and a doubled stop |
| Entity.Message.Create | src/model/message.js:111-153 | throws without a factory or on a stored message; otherwise sends exactly creator, text and owner, inserts one row and answers a new entity for it, with one start and one stop |
| Entity.Message.Delete | src/model/message.js:167-203 | needs a factory and an id; removes the row with this id and answers a new entity for it, or none when there was no row; one start and one stop |
| Entity.Message.Find | src/model/message.js:219-253 | needs a factory and an id; answers a new entity for the stored row, or none when there is none; one start and one stop |
| Entity.Message.GetTotal | src/model/message.js:266-294 | answers the DAO's count unchanged, with one start and one stop on success and on failure |
| Entity.Message.GetAll | src/model/message.js:310-347 | answers one new entity per non-null entry of the window the built query selects, in order; one start and one stop |
| Entity.WrapAll | src/model/message.js:331-332 | builds a new entity for each non-null entry, in order |
| Entity.EntityChecksCoverDao | src/model/message.js:41-75 | a request the entity accepts yields a payload the DAO's update checks accept |
| Entity.CheckOrdersDiffer | src/model/message.js:51-59 | with an id but no text, owner or updatedBy, the entity reports text-or-owner while the DAO reports updatedBy |
| Entity.UpdateKeepsCreation | src/model/message.js:65-75 | an entity update keeps the id, createdAt and createdBy, sets updatedBy and updatedAt, and changes text and owner only when given |
| Router.Gate | src/router/message.js:86-143 | 406 without JSON, then 406 without UTF-8, then 401 without a verified token, then 403 without a `name` claim; a request is admitted exactly when all four pass, as the `name` user |
| Router.ProjectionHidesAuthors | src/router/message.js:459-465 | the item body has exactly id, createdAt, updatedAt, owner and text; the creator and last updater never show |
| Router.PageCount | src/router/message.js:581 | with a positive limit, the smallest count of pages that holds every message; none without a positive limit |
| Router.PageSlice | src/router/message.js:559-568 | a page starting inside the listing is the slice of at most `limit` rows from its offset; past the end it is empty |
| Router.PageNonEmptyIffCounted | src/router/message.js:559-585 | a page has rows exactly when its number is at most the page count |
| Router.PagesPrefix | src/router/message.js:559-568 | the first n full pages, read in order, are the first n·limit rows |
| Router.LastPageBounds | src/router/message.js:581 | the last counted page starts inside the listing and reaches its end |
| Router.PagesReachEnd | src/router/message.js:559-585 | pages 1 to c, where page c reaches the end, cover the whole listing |
| Router.PagesCoverListing | src/router/message.js:559-585 | pages 1 to the page count show every row once, in order |
| Router.SecondPageOfOne | src/router/message.js:559-568 | with limit 1, page 2 shows only the second message |
| Router.NoLimitListsAll | src/router/message.js:559-568 | without a limit every message is listed |
| Router.Context.constructor | src/router/message.js:204-214 | a new context holds the request as given, with Koa's default status 404 and no body or Location |
| Router.UpdateChain | src/router/message.js:222-239 | 404 when find answers nothing, before any update; otherwise the row is patched and 204 set; the route span is stopped once in `then` or `catch` |
| Router.UpdateMessage | src/router/message.js:198-240 | 406 then 400 with the route span left open; otherwise `updatedBy` is stamped from the token and the chain's outcome follows, with its exact trace; the body and Location are never touched |
| Router.CreateMessage | src/router/message.js:290-327 | 406 then 400 with the route span left open; otherwise `createdBy` is stamped, one row inserted, 201 and Location set to the new id; the body is never touched |
| Router.CreateChain | src/router/message.js:311-326 | on success Location is the new id and the status 201; a rejection is answered from `catch` with the span stopped once |
| Router.DeleteMessage | src/router/message.js:363-397 | 404 when find answers nothing, before any delete; otherwise the row is removed and 204 set; the route span is stopped once |
| Router.DeleteChain | src/router/message.js:366-396 | find, then delete, then 204, with the span stopped once on every path that reaches a promise |
| Router.GetMessage | src/router/message.js:444-473 | 404 when there is no such message; otherwise the body is the row's projection and the status 200 |
| Router.GetMessages | src/router/message.js:551-596 | the body lists the projection of the selected page's messages in order, with the page count of the table's total; one start and one stop |
| Router.ListChain | src/router/message.js:554-595 | the total, then the page; a failure of either is answered from `catch` with the span stopped once |
| Router.Serve | src/router/message.js:86-143 | a refused request changes nothing; 403 runs no handler; an admitted request starts its route span first and stamps the token's name into PUT and POST bodies; only POST sets Location, only the two GETs set a body, and only PUT and POST touch the request body |
| Router.SuccessTracesBalanced | src/router/message.js:198-473 | on success the traces of PUT, POST, DELETE and GET by id nest properly: each span is stopped once, innermost first |
| Router.ListTraceNesting | src/router/message.js:551-596 | GET /messages starts all five spans before either storage call answers; the trace nests when the listing settles first and does not nest when the count settles first |
| Router.NotFoundTracesBalanced | src/router/message.js:222-239 | a 404 answered from `catch` still leaves a properly nested trace |
| Router.ListedIsPage | src/router/message.js:559-568 | the records listed for page p are those of page p of the id-ordered table |
| Router.CollectionPagesCover | src/router/message.js:554-585 | the page count of the table's total counts exactly the pages that together list the whole table |

## Left out

- **JWT verification** (src/router/message.js:123-127) is foreign cryptography. The verified token is an input: `None` for a bad or missing token, otherwise its claims.
- **Koa plumbing is an input.**
  - `ctx.accepts`, `ctx.acceptsCharsets` and `ctx.is` are booleans.
  - `bodyParser` produces the request body as `Fields`.
  - The route id is an integer.
  - The `Location` header is kept as the new id. The source builds it as `/messages/<id>` with `router.url`, which is not part of this model.
- **`koa-ctx-paginate`** is not part of this model. The offset is an input and the page-link window (`getArrayPages`) is not modelled. Only the page count is kept.
- **Sequelize and MySQL** are replaced by an abstract table: a map from id to row, a next-id counter, and a flag for whether the backend answers.
  - `update` and `destroy` answer the written or removed row, or none. Sequelize answers affected-row counts instead.
  - The store's exact return shapes are not modelled.
  - Storage either answers for a whole request or fails every call. A failure between a handler's `find` and its `update` or `delete` is not modelled.
- **Message.Create:** the "Failure to retrieve newly created message" path (src/model/message.js:141-143) cannot arise, because the modelled table's insert always answers the row.
- Router.GetMessages, Router.ListChain: **promises run in sequence.** `Router.GetMessages` asks for the total and then the page, one after the other, and its contract states that sequential trace. In the source both calls start their spans before either answers, so the real trace interleaves and need not nest; `Router.ListTraceNesting` shows one order that nests and one that does not.
- **Listing order is assumed.** `findAll` (src/dao/message.js:235-236) passes no `order`. `Storage.Table.FindAll`, `Router.ListedIsPage` and `Router.CollectionPagesCover` assume the backend lists rows by ascending id.
- **The clock is a parameter.** `new Date()` (src/dao/message.js:123) becomes `now`. Timestamps are integers.
- **Route id truthiness is modelled on integers.** An id of 0 is falsy, so `Message.find` refuses it synchronously. A path segment "0" is a truthy string in the source.
- **Query limits are naturals.** Negative or non-numeric `limit` values are not modelled.
- **Left entirely:** the logger, server bootstrap, middleware wiring, migrations, configuration, the request-id generator and the healthcheck route.
