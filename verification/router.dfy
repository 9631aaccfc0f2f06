/**
 * The `/messages` router: a gate every request passes (acceptable media type,
 * acceptable charset, a verified token, a `name` claim), then one handler per
 * route. Each handler starts its route span first, checks the request, calls
 * the Message entity, sets the response and stops its span, in its `then` on
 * success and in its `catch` on a rejection. A synchronous throw before the
 * promise chain exists leaves the route span open.
 */
module Router {
  import opened Values
  import opened Spans
  import opened Storage
  import opened Factory
  import opened Entity

  // ---------------------------------------------------------------- the gate

  /** A verified token's payload; verification itself is an input (None: 401). */
  datatype Claims = Claims(name: Option<string>)

  datatype Verdict =
    | Admit(user: string)  // every middleware called `next()`; `user` is the `name` claim
    | Refuse(status: nat)  // a middleware threw this status
    | Forbid               // the name check set 403 and did not call `next()`

  /** The middlewares in their order: Accept, then Accept-Charset, then the token, then its `name`. */
  function Gate(acceptsJson: bool, acceptsUtf8: bool, token: Option<Claims>): (v: Verdict)
    ensures v == Refuse(406) <==> !acceptsJson || !acceptsUtf8
    ensures v == Refuse(401) <==> acceptsJson && acceptsUtf8 && token.None?
    ensures v == Forbid <==> acceptsJson && acceptsUtf8 && token.Some? && !Present(token.value.name)
    ensures v.Admit? <==> acceptsJson && acceptsUtf8 && token.Some? && Present(token.value.name)
    ensures v.Admit? ==> v.user != "" && token.value.name == Some(v.user)
  {
    if !acceptsJson then Refuse(406)
    else if !acceptsUtf8 then Refuse(406)
    else if token.None? then Refuse(401)
    else if !Present(token.value.name) then Forbid
    else Admit(token.value.name.value)
  }

  // ------------------------------------------------------- response bodies

  /** The public view of a message: no `createdBy`, no `updatedBy`. */
  datatype Item = Item(
    id: Option<int>,
    createdAt: Option<int>,
    updatedAt: Option<int>,
    owner: Option<string>,
    text: Option<string>)

  function Project(f: Fields): Item {
    Item(f.id, f.createdAt, f.updatedAt, f.owner, f.text)
  }

  /**
   * The projection keeps exactly id, timestamps, owner and text: two records
   * that differ only in who created or updated them project alike.
   */
  lemma ProjectionHidesAuthors(f: Fields, createdBy: Option<string>, updatedBy: Option<string>)
    ensures Project(f.(createdBy := createdBy, updatedBy := updatedBy)) == Project(f)
    ensures var p := Project(f);
            p.id == f.id && p.createdAt == f.createdAt && p.updatedAt == f.updatedAt
            && p.owner == f.owner && p.text == f.text
  {
  }

  /** The body of a successful GET: one item, or a page of items and the page count. */
  datatype Body = ItemBody(item: Item) | ListBody(messages: seq<Item>, pageCount: Option<nat>)

  // ----------------------------------------------------------- pagination

  /** `Math.ceil(total / limit)`; None where JavaScript gives NaN or Infinity (no or zero limit). */
  function PageCount(total: nat, limit: Option<nat>): (c: Option<nat>)
    ensures c.Some? <==> limit.Some? && limit.value > 0
    ensures c.Some? ==> c.value * limit.value >= total
                        && (c.value > 0 ==> (c.value - 1) * limit.value < total)
  {
    if limit.Some? && limit.value > 0 then
      var l := limit.value;
      var c := (total + l - 1) / l;
      assert c * l <= total + l - 1 < (c + 1) * l;
      Some(c)
    else None
  }

  /** The rows page `page` (counting from 1) of `limit` rows shows. */
  function Page<T>(s: seq<T>, limit: nat, page: nat): seq<T>
    requires page >= 1
  {
    Window(s, Query(Some(limit), Some((page - 1) * limit)))
  }

  /** A page that starts inside the listing is the slice of at most `limit` rows from its offset. */
  lemma PageSlice<T>(s: seq<T>, limit: nat, page: nat)
    requires page >= 1
    ensures var o := (page - 1) * limit;
            o <= |s| ==> Page(s, limit, page) == s[o..Min(o + limit, |s|)]
    ensures (page - 1) * limit >= |s| ==> Page(s, limit, page) == []
  {
  }

  /** With a positive limit, a page has rows exactly when its number is at most the page count. */
  lemma PageNonEmptyIffCounted<T>(s: seq<T>, limit: nat, page: nat)
    requires limit > 0 && page >= 1
    ensures Page(s, limit, page) != [] <==> page <= PageCount(|s|, Some(limit)).value
  {
    var c := PageCount(|s|, Some(limit)).value;
    PageSlice(s, limit, page);
    if page <= c {
      MulMono(page - 1, c - 1, limit);
    } else {
      MulMono(c, page - 1, limit);
    }
  }

  lemma MulMono(a: nat, b: nat, k: nat)
    requires a <= b
    ensures a * k <= b * k
  {
  }

  /** Pages 1 .. n of `limit` rows, one after the other. */
  function Pages<T>(s: seq<T>, limit: nat, n: nat): seq<T> {
    if n == 0 then [] else Pages(s, limit, n - 1) + Page(s, limit, n)
  }

  lemma {:induction false} PagesPrefix<T>(s: seq<T>, limit: nat, n: nat)
    requires n * limit <= |s|
    ensures Pages(s, limit, n) == s[..n * limit]
  {
    if n > 0 {
      var o := (n - 1) * limit;
      assert o + limit == n * limit;
      PagesPrefix(s, limit, n - 1);
      PageSlice(s, limit, n);
      assert s[..o + limit] == s[..o] + s[o..o + limit];
    }
  }

  /** The last counted page starts inside the listing and reaches its end. */
  lemma LastPageBounds(total: nat, limit: nat)
    requires limit > 0
    ensures var c := PageCount(total, Some(limit)).value;
            (c == 0 ==> total == 0)
            && (c > 0 ==> (c - 1) * limit < total <= (c - 1) * limit + limit)
  {
    var c := PageCount(total, Some(limit)).value;
    if c > 0 {
      assert (c - 1) * limit + limit == c * limit;
    }
  }

  /** Pages 1 .. c cover the listing when page c is the one that reaches its end. */
  lemma PagesReachEnd<T>(s: seq<T>, limit: nat, c: nat)
    requires c > 0 && (c - 1) * limit < |s| <= (c - 1) * limit + limit
    ensures Pages(s, limit, c) == s
  {
    var o := (c - 1) * limit;
    PagesPrefix(s, limit, c - 1);
    PageSlice(s, limit, c);
    assert Page(s, limit, c) == s[o..];
    assert s == s[..o] + s[o..];
  }

  /** Reading pages 1 .. PageCount with a positive limit shows every row once, in order. */
  lemma PagesCoverListing<T>(s: seq<T>, limit: nat)
    requires limit > 0
    ensures Pages(s, limit, PageCount(|s|, Some(limit)).value) == s
  {
    var c := PageCount(|s|, Some(limit)).value;
    LastPageBounds(|s|, limit);
    if c > 0 {
      PagesReachEnd(s, limit, c);
    }
  }

  /** With limit 1, page 2 of a listing of at least two messages shows the second one only. */
  lemma SecondPageOfOne<T>(s: seq<T>)
    requires |s| >= 2
    ensures Page(s, 1, 2) == [s[1]]
  {
  }

  /** Without a limit the entity asks for no window, and every row comes back. */
  lemma NoLimitListsAll<T>(s: seq<T>, offset: Option<nat>)
    ensures Window(s, ListQuery(ListArgs(None, offset))) == s
  {
  }

  // ------------------------------------------------------------ the context

  /** The parts of Koa's `ctx` the handlers read and write. */
  class Context {
    const isJson: bool              // `ctx.is('application/json')` matched
    const limit: Option<nat>        // `ctx.query.limit`
    const offset: Option<nat>       // `ctx.paginate.offset`
    var requestBody: Fields         // `ctx.request.body`, stamped in place
    var status: nat
    var location: Option<int>       // the id in the `Location: /messages/<id>` header
    var body: Option<Body>

    /** A fresh request context: Koa's status is 404 until a handler sets one. */
    constructor (isJson: bool, requestBody: Fields, limit: Option<nat>, offset: Option<nat>)
      ensures this.isJson == isJson && this.requestBody == requestBody
      ensures this.limit == limit && this.offset == offset
      ensures status == 404 && location == None && body == None
    {
      this.isJson := isJson;
      this.requestBody := requestBody;
      this.limit := limit;
      this.offset := offset;
      status := 404;
      location := None;
      body := None;
    }
  }

  /** The attributes PUT and POST demand, in the order they check them. */
  const Required := [Text, Owner]

  /** The factory and the store behind it are in place, and the route id is truthy. */
  predicate Serving(daoFac: DaoFac?, id: int) {
    daoFac != null && daoFac.store != null && id != 0
  }

  /** What `Message.find` records once it reaches storage. */
  function FindTrace(): seq<SpanEvent> {
    Bracket("message:find", "messageDao:find")
  }

  /** What `Message.find` records when it throws synchronously, before its promise exists. */
  function FindThrowTrace(daoFac: DaoFac?, id: int): seq<SpanEvent> {
    if daoFac != null && id != 0 then [Begin("message:find")] else []
  }

  // -------------------------------------------------------------- handlers

  /**
   * The promise chain of PUT: find the message (404 when there is none),
   * update it, answer 204; the route span is stopped in the last `then` or in
   * the `catch`. A synchronous throw from `Message.find` escapes the chain.
   */
  method UpdateChain(ctx: Context, daoFac: DaoFac?, timings: Timings, id: int, now: int) returns (r: Outcome)
    requires Present(ctx.requestBody.text) && Present(ctx.requestBody.owner) && Present(ctx.requestBody.updatedBy)
    requires StoreValid(daoFac)
    modifies ctx`status, timings, Tables(daoFac)
    ensures StoreValid(daoFac)
    ensures r.Fail? ==> ctx.status == old(ctx.status)
    ensures !Serving(daoFac, id)
            ==> r.Fail? && unchanged(Tables(daoFac))
                && timings.events == old(timings.events) + FindThrowTrace(daoFac, id)
    ensures Serving(daoFac, id)
            ==> var s := daoFac.store;
                s.nextId == old(s.nextId)
                && (!s.online ==> r == Fail(StorageFailure) && s.rows == old(s.rows)
                                  && timings.events == old(timings.events) + FindTrace() + [End("updateMessage")])
                && (s.online && id !in old(s.rows)
                    ==> r == Fail(Http(404)) && s.rows == old(s.rows)
                        && timings.events == old(timings.events) + FindTrace() + [End("updateMessage")])
                && (s.online && id in old(s.rows)
                    ==> r == Done && ctx.status == 204
                        && s.rows == old(s.rows)[id := Patched(old(s.rows)[id], UpdatePayload(ctx.requestBody).(updatedAt := Some(now)))]
                        && timings.events == old(timings.events) + FindTrace()
                                             + Bracket("message:update", "messageDao:update") + [End("updateMessage")])
  {
    var found := Message.Find(daoFac, timings, Some(id));
    match found {
      case Throw(e) =>
        return Fail(e);
      case Reject(e) =>
        timings.StopSpan("updateMessage");
        return Fail(e);
      case Ok(m) =>
        if m.None? {
          timings.StopSpan("updateMessage");
          return Fail(Http(404));
        }
        var updated := m.value.Update(daoFac, timings, ctx.requestBody, now);
        if !updated.Ok? {
          // The row was just found and the request is checked, so the update
          // reaches a table that answers: the `catch` cannot fire at this step.
          assert false;
        }
        ctx.status := 204;
        timings.StopSpan("updateMessage");
        return Done;
    }
  }

  /** PUT /messages/:id */
  method UpdateMessage(ctx: Context, daoFac: DaoFac?, timings: Timings, user: string, id: int, now: int)
    returns (r: Outcome)
    requires user != ""
    requires StoreValid(daoFac)
    modifies ctx`requestBody, ctx`status, timings, Tables(daoFac)
    ensures StoreValid(daoFac)
    ensures old(timings.events) + [Begin("updateMessage")] <= timings.events
    ensures ctx.body == old(ctx.body) && ctx.location == old(ctx.location)
    ensures r.Fail? ==> ctx.status == old(ctx.status)
    ensures !ctx.isJson || FirstMissing(old(ctx.requestBody), Required).Some?
            ==> r == Fail(Http(if !ctx.isJson then 406 else 400))
                && ctx.requestBody == old(ctx.requestBody) && unchanged(Tables(daoFac))
                && timings.events == old(timings.events) + [Begin("updateMessage")]
    ensures ctx.isJson && FirstMissing(old(ctx.requestBody), Required).None?
            ==> ctx.requestBody == old(ctx.requestBody).(updatedBy := Some(user))
    ensures ctx.isJson && FirstMissing(old(ctx.requestBody), Required).None? && !Serving(daoFac, id)
            ==> r.Fail? && unchanged(Tables(daoFac))
                && timings.events == old(timings.events) + [Begin("updateMessage")] + FindThrowTrace(daoFac, id)
    ensures ctx.isJson && FirstMissing(old(ctx.requestBody), Required).None? && Serving(daoFac, id)
            ==> var s := daoFac.store;
                s.nextId == old(s.nextId)
                && (!s.online ==> r == Fail(StorageFailure) && s.rows == old(s.rows)
                                  && timings.events == old(timings.events) + Around("updateMessage", FindTrace()))
                && (s.online && id !in old(s.rows)
                    ==> r == Fail(Http(404)) && s.rows == old(s.rows)
                        && timings.events == old(timings.events) + Around("updateMessage", FindTrace()))
                && (s.online && id in old(s.rows)
                    ==> r == Done && ctx.status == 204
                        && s.rows == old(s.rows)[id := Patched(old(s.rows)[id], UpdatePayload(ctx.requestBody).(updatedAt := Some(now)))]
                        && timings.events == old(timings.events)
                                             + Around("updateMessage", FindTrace() + Bracket("message:update", "messageDao:update")))
  {
    timings.StartSpan("updateMessage");
    if !ctx.isJson {
      return Fail(Http(406));
    }
    var missing := FindMissing(ctx.requestBody, Required);
    if missing.Some? {
      return Fail(Http(400));
    }
    assert Present(Get(ctx.requestBody, Required[0])) && Present(Get(ctx.requestBody, Required[1]));
    ctx.requestBody := ctx.requestBody.(updatedBy := Some(user));
    r := UpdateChain(ctx, daoFac, timings, id, now);
  }

  /** POST /messages */
  method CreateMessage(ctx: Context, daoFac: DaoFac?, timings: Timings, user: string, now: int) returns (r: Outcome)
    requires user != ""
    requires StoreValid(daoFac)
    modifies ctx`requestBody, ctx`status, ctx`location, timings, Tables(daoFac)
    ensures StoreValid(daoFac)
    ensures old(timings.events) + [Begin("createMessage")] <= timings.events
    ensures ctx.body == old(ctx.body)
    ensures r.Fail? ==> ctx.status == old(ctx.status) && ctx.location == old(ctx.location)
    ensures !ctx.isJson || FirstMissing(old(ctx.requestBody), Required).Some?
            ==> r == Fail(Http(if !ctx.isJson then 406 else 400))
                && ctx.requestBody == old(ctx.requestBody) && unchanged(Tables(daoFac))
                && timings.events == old(timings.events) + [Begin("createMessage")]
    ensures ctx.isJson && FirstMissing(old(ctx.requestBody), Required).None?
            ==> ctx.requestBody == old(ctx.requestBody).(createdBy := Some(user))
    ensures ctx.isJson && FirstMissing(old(ctx.requestBody), Required).None?
            && (daoFac == null || daoFac.store == null || IdPresent(ctx.requestBody.id))
            ==> r.Fail? && unchanged(Tables(daoFac))
                && timings.events == old(timings.events) + [Begin("createMessage")]
                                     + (if daoFac != null && !IdPresent(ctx.requestBody.id) then [Begin("message:create")] else [])
    ensures ctx.isJson && FirstMissing(old(ctx.requestBody), Required).None?
            && daoFac != null && daoFac.store != null && !IdPresent(ctx.requestBody.id)
            ==> var s := daoFac.store;
                var id := old(s.nextId);
                timings.events == old(timings.events)
                                  + Around("createMessage", Bracket("message:create", "messageDao:create"))
                && (!s.online ==> r == Fail(StorageFailure) && s.rows == old(s.rows) && s.nextId == id)
                && (s.online ==> r == Done && ctx.status == 201 && ctx.location == Some(id)
                                 && id !in old(s.rows) && s.nextId == id + 1
                                 && s.rows == old(s.rows)[id := Inserted(id, Dao.CreateRow(CreateArgs(ctx.requestBody)), now)])
  {
    timings.StartSpan("createMessage");
    if !ctx.isJson {
      return Fail(Http(406));
    }
    var missing := FindMissing(ctx.requestBody, Required);
    if missing.Some? {
      return Fail(Http(400));
    }
    assert Present(Get(ctx.requestBody, Required[0])) && Present(Get(ctx.requestBody, Required[1]));
    ctx.requestBody := ctx.requestBody.(createdBy := Some(user));
    var message := new Message(ctx.requestBody);
    r := CreateChain(ctx, message, daoFac, timings, now);
  }

  /** The promise chain of POST: create, then `Location` and 201; the route span is stopped in `then` or `catch`. */
  method CreateChain(ctx: Context, message: Message, daoFac: DaoFac?, timings: Timings, now: int) returns (r: Outcome)
    requires StoreValid(daoFac)
    requires Dao.CreateError(CreateArgs(message.View())).None?
    modifies ctx`status, ctx`location, timings, Tables(daoFac)
    ensures StoreValid(daoFac)
    ensures r.Fail? ==> ctx.status == old(ctx.status) && ctx.location == old(ctx.location)
    ensures daoFac == null || daoFac.store == null || IdPresent(message.id)
            ==> r.Fail? && unchanged(Tables(daoFac))
                && timings.events == old(timings.events)
                                     + (if daoFac != null && !IdPresent(message.id) then [Begin("message:create")] else [])
    ensures daoFac != null && daoFac.store != null && !IdPresent(message.id)
            ==> var s := daoFac.store;
                var id := old(s.nextId);
                timings.events == old(timings.events)
                                  + Bracket("message:create", "messageDao:create") + [End("createMessage")]
                && (!s.online ==> r == Fail(StorageFailure) && s.rows == old(s.rows) && s.nextId == id)
                && (s.online ==> r == Done && ctx.status == 201 && ctx.location == Some(id)
                                 && id !in old(s.rows) && s.nextId == id + 1
                                 && s.rows == old(s.rows)[id := Inserted(id, Dao.CreateRow(CreateArgs(message.View())), now)])
  {
    var created := message.Create(daoFac, timings, now);
    match created {
      case Throw(e) =>
        return Fail(e);
      case Reject(e) =>
        timings.StopSpan("createMessage");
        return Fail(e);
      case Ok(m) =>
        ctx.location := m.id;
        ctx.status := 201;
        timings.StopSpan("createMessage");
        return Done;
    }
  }

  /** DELETE /messages/:id */
  method DeleteMessage(ctx: Context, daoFac: DaoFac?, timings: Timings, id: int) returns (r: Outcome)
    requires StoreValid(daoFac)
    modifies ctx`status, timings, Tables(daoFac)
    ensures StoreValid(daoFac)
    ensures old(timings.events) + [Begin("deleteMessage")] <= timings.events
    ensures r.Fail? ==> ctx.status == old(ctx.status)
    ensures !Serving(daoFac, id)
            ==> r.Fail? && unchanged(Tables(daoFac))
                && timings.events == old(timings.events) + [Begin("deleteMessage")] + FindThrowTrace(daoFac, id)
    ensures Serving(daoFac, id)
            ==> var s := daoFac.store;
                s.nextId == old(s.nextId)
                && (!s.online ==> r == Fail(StorageFailure) && s.rows == old(s.rows)
                                  && timings.events == old(timings.events) + Around("deleteMessage", FindTrace()))
                && (s.online && id !in old(s.rows)
                    ==> r == Fail(Http(404)) && s.rows == old(s.rows)
                        && timings.events == old(timings.events) + Around("deleteMessage", FindTrace()))
                && (s.online && id in old(s.rows)
                    ==> r == Done && ctx.status == 204 && s.rows == old(s.rows) - {id}
                        && timings.events == old(timings.events)
                                             + Around("deleteMessage", FindTrace() + Bracket("message:delete", "messageDao:delete")))
  {
    timings.StartSpan("deleteMessage");
    r := DeleteChain(ctx, daoFac, timings, id);
  }

  /** The promise chain of DELETE: find (404 when there is none), delete, answer 204. */
  method DeleteChain(ctx: Context, daoFac: DaoFac?, timings: Timings, id: int) returns (r: Outcome)
    requires StoreValid(daoFac)
    modifies ctx`status, timings, Tables(daoFac)
    ensures StoreValid(daoFac)
    ensures r.Fail? ==> ctx.status == old(ctx.status)
    ensures !Serving(daoFac, id)
            ==> r.Fail? && unchanged(Tables(daoFac))
                && timings.events == old(timings.events) + FindThrowTrace(daoFac, id)
    ensures Serving(daoFac, id)
            ==> var s := daoFac.store;
                s.nextId == old(s.nextId)
                && (!s.online ==> r == Fail(StorageFailure) && s.rows == old(s.rows)
                                  && timings.events == old(timings.events) + FindTrace() + [End("deleteMessage")])
                && (s.online && id !in old(s.rows)
                    ==> r == Fail(Http(404)) && s.rows == old(s.rows)
                        && timings.events == old(timings.events) + FindTrace() + [End("deleteMessage")])
                && (s.online && id in old(s.rows)
                    ==> r == Done && ctx.status == 204 && s.rows == old(s.rows) - {id}
                        && timings.events == old(timings.events) + FindTrace()
                                             + Bracket("message:delete", "messageDao:delete") + [End("deleteMessage")])
  {
    var found := Message.Find(daoFac, timings, Some(id));
    match found {
      case Throw(e) =>
        return Fail(e);
      case Reject(e) =>
        timings.StopSpan("deleteMessage");
        return Fail(e);
      case Ok(m) =>
        if m.None? {
          timings.StopSpan("deleteMessage");
          return Fail(Http(404));
        }
        var deleted := m.value.Delete(daoFac, timings);
        if !deleted.Ok? {
          // The row was just found, so the delete reaches a table that
          // answers: the `catch` cannot fire at this step.
          assert false;
        }
        ctx.status := 204;
        timings.StopSpan("deleteMessage");
        return Done;
    }
  }

  /** GET /messages/:id */
  method GetMessage(ctx: Context, daoFac: DaoFac?, timings: Timings, id: int) returns (r: Outcome)
    requires StoreValid(daoFac)
    modifies ctx`status, ctx`body, timings
    ensures old(timings.events) + [Begin("getMessage")] <= timings.events
    ensures r.Fail? ==> ctx.status == old(ctx.status) && ctx.body == old(ctx.body)
    ensures !Serving(daoFac, id)
            ==> r.Fail? && timings.events == old(timings.events) + [Begin("getMessage")] + FindThrowTrace(daoFac, id)
    ensures Serving(daoFac, id)
            ==> var s := daoFac.store;
                timings.events == old(timings.events) + Around("getMessage", FindTrace())
                && (!s.online ==> r == Fail(StorageFailure))
                && (s.online && id !in s.rows ==> r == Fail(Http(404)))
                && (s.online && id in s.rows
                    ==> r == Done && ctx.status == 200 && ctx.body == Some(ItemBody(Project(RowFields(s.rows[id])))))
  {
    timings.StartSpan("getMessage");
    var found := Message.Find(daoFac, timings, Some(id));
    match found {
      case Throw(e) =>
        return Fail(e);
      case Reject(e) =>
        timings.StopSpan("getMessage");
        return Fail(e);
      case Ok(m) =>
        if m.None? {
          timings.StopSpan("getMessage");
          return Fail(Http(404));
        }
        ctx.body := Some(ItemBody(Project(m.value.View())));
        ctx.status := 200;  // Koa answers 200 once a body is set
        timings.StopSpan("getMessage");
        return Done;
    }
  }

  /** The items of a collection page, in the order of the records. */
  function Items(records: seq<Fields>): seq<Item> {
    seq(|records|, i requires 0 <= i < |records| => Project(records[i]))
  }

  /** The records GET /messages lists: the non-null entries of the window the context's limit and offset select. */
  function Listed(t: Table, limit: Option<nat>, offset: Option<nat>): seq<Fields>
    reads t
  {
    Wrapped(Entries(Window(t.Listing(), ListQuery(ListArgs(limit, offset)))))
  }

  /** The attributes of each entity, in order. */
  function ViewsOf(ms: seq<Message>): (fs: seq<Fields>)
    reads set m | m in ms
    ensures Wraps(ms, fs)
  {
    seq(|ms|, i requires 0 <= i < |ms| reads set m | m in ms => ms[i].View())
  }

  /** Entities hold one list of records only. */
  lemma SameViews(ms: seq<Message>, want: seq<Fields>)
    requires Wraps(ms, want)
    ensures ViewsOf(ms) == want
  {
  }

  /** GET /messages */
  method GetMessages(ctx: Context, daoFac: DaoFac?, timings: Timings) returns (r: Outcome)
    modifies ctx`status, ctx`body, timings
    ensures old(timings.events) + [Begin("getMessages")] <= timings.events
    ensures r.Fail? ==> ctx.status == old(ctx.status) && ctx.body == old(ctx.body)
    ensures daoFac == null ==> r.Fail? && timings.events == old(timings.events) + [Begin("getMessages")]
    ensures daoFac != null && daoFac.store == null
            ==> r.Fail? && timings.events == old(timings.events) + [Begin("getMessages"), Begin("message:totalMessage")]
    ensures daoFac != null && daoFac.store != null
            ==> var s := daoFac.store;
                timings.events == old(timings.events)
                                  + Around("getMessages", Bracket("message:totalMessage", "messageDao:totalMessages")
                                                          + Bracket("message:getAll", "messageDao:getAll"))
                && (!s.online ==> r == Fail(StorageFailure))
                && (s.online ==> r == Done && ctx.status == 200
                                 && ctx.body == Some(ListBody(Items(Listed(s, ctx.limit, ctx.offset)),
                                                              PageCount(|s.rows|, ctx.limit))))
  {
    timings.StartSpan("getMessages");
    r := ListChain(ctx, daoFac, timings);
  }

  /**
   * The work of GET /messages after its span starts. The total and the page
   * are asked for one after the other; a failure of either is answered from
   * the `catch`, which stops the span.
   */
  method ListChain(ctx: Context, daoFac: DaoFac?, timings: Timings) returns (r: Outcome)
    modifies ctx`status, ctx`body, timings
    ensures r.Fail? ==> ctx.status == old(ctx.status) && ctx.body == old(ctx.body)
    ensures daoFac == null ==> r.Fail? && timings.events == old(timings.events)
    ensures daoFac != null && daoFac.store == null
            ==> r.Fail? && timings.events == old(timings.events) + [Begin("message:totalMessage")]
    ensures daoFac != null && daoFac.store != null
            ==> var s := daoFac.store;
                timings.events == old(timings.events) + Bracket("message:totalMessage", "messageDao:totalMessages")
                                  + Bracket("message:getAll", "messageDao:getAll") + [End("getMessages")]
                && (!s.online ==> r == Fail(StorageFailure))
                && (s.online ==> r == Done && ctx.status == 200
                                 && ctx.body == Some(ListBody(Items(Listed(s, ctx.limit, ctx.offset)),
                                                              PageCount(|s.rows|, ctx.limit))))
  {
    var total := Message.GetTotal(daoFac, timings);
    if total.Throw? {
      return Fail(total.error);
    }
    var messages := Message.GetAll(daoFac, timings, ListArgs(ctx.limit, ctx.offset));
    if messages.Throw? {
      // `getAll` throws only for a missing factory or store, for which
      // `getTotal` has already thrown.
      assert false;
    }
    if messages.Reject? {
      timings.StopSpan("getMessages");
      return Fail(messages.error);
    }
    if !total.Ok? {
      // Both calls ask the same table: when the listing answered, so did the count.
      assert false;
    }
    ghost var want := Listed(daoFac.store, ctx.limit, ctx.offset);
    assert Wraps(messages.value, want);
    SameViews(messages.value, want);
    var items := Items(ViewsOf(messages.value));
    ctx.body := Some(ListBody(items, PageCount(total.value, ctx.limit)));
    ctx.status := 200;  // Koa answers 200 once a body is set
    timings.StopSpan("getMessages");
    return Done;
  }

  // ------------------------------------------------------------- dispatch

  datatype Route = Put(id: int) | Post | Remove(id: int) | Show(id: int) | List

  /** The span each route's handler records. */
  function RouteSpan(route: Route): string {
    match route
    case Put(_) => "updateMessage"
    case Post => "createMessage"
    case Remove(_) => "deleteMessage"
    case Show(_) => "getMessage"
    case List => "getMessages"
  }

  /**
   * One request: the gate's middlewares in order, then the route's handler.
   * A refusal throws before anything is recorded; a missing `name` sets 403
   * and runs no handler.
   */
  method Serve(ctx: Context, route: Route, acceptsJson: bool, acceptsUtf8: bool, token: Option<Claims>,
               daoFac: DaoFac?, timings: Timings, now: int) returns (r: Outcome)
    requires StoreValid(daoFac)
    modifies ctx, timings, Tables(daoFac)
    ensures StoreValid(daoFac)
    ensures var v := Gate(acceptsJson, acceptsUtf8, token);
            v.Refuse? ==> r == Fail(Http(v.status)) && unchanged(ctx) && unchanged(timings) && unchanged(Tables(daoFac))
    ensures Gate(acceptsJson, acceptsUtf8, token) == Forbid
            ==> r == Done && ctx.status == 403 && ctx.body == old(ctx.body) && ctx.location == old(ctx.location)
                && ctx.requestBody == old(ctx.requestBody) && unchanged(timings) && unchanged(Tables(daoFac))
    ensures Gate(acceptsJson, acceptsUtf8, token).Admit?
            ==> old(timings.events) + [Begin(RouteSpan(route))] <= timings.events
    ensures !route.Post? ==> ctx.location == old(ctx.location)
    ensures !route.Show? && !route.List? ==> ctx.body == old(ctx.body)
    ensures !route.Put? && !route.Post? ==> ctx.requestBody == old(ctx.requestBody)
    ensures Gate(acceptsJson, acceptsUtf8, token).Admit? && ctx.isJson
            && FirstMissing(old(ctx.requestBody), Required).None?
            ==> (route.Put? ==> ctx.requestBody.updatedBy == token.value.name)
                && (route.Post? ==> ctx.requestBody.createdBy == token.value.name)
  {
    var verdict := Gate(acceptsJson, acceptsUtf8, token);
    match verdict {
      case Refuse(status) =>
        return Fail(Http(status));
      case Forbid =>
        ctx.status := 403;
        return Done;
      case Admit(user) =>
        match route {
          case Put(id) => r := UpdateMessage(ctx, daoFac, timings, user, id, now);
          case Post => r := CreateMessage(ctx, daoFac, timings, user, now);
          case Remove(id) => r := DeleteMessage(ctx, daoFac, timings, id);
          case Show(id) => r := GetMessage(ctx, daoFac, timings, id);
          case List => r := GetMessages(ctx, daoFac, timings);
        }
    }
  }

  // ------------------------------------------------------------ properties

  /** On every success path each handler's trace nests properly: each span is stopped once, innermost first. */
  lemma SuccessTracesBalanced()
    ensures Balanced(Around("updateMessage", FindTrace() + Bracket("message:update", "messageDao:update")))
    ensures Balanced(Around("createMessage", Bracket("message:create", "messageDao:create")))
    ensures Balanced(Around("deleteMessage", FindTrace() + Bracket("message:delete", "messageDao:delete")))
    ensures Balanced(Around("getMessage", FindTrace()))
  {
    BracketBalanced("message:find", "messageDao:find");
    BracketBalanced("message:update", "messageDao:update");
    BracketBalanced("message:create", "messageDao:create");
    BracketBalanced("message:delete", "messageDao:delete");
    ConcatBalanced(FindTrace(), Bracket("message:update", "messageDao:update"));
    ConcatBalanced(FindTrace(), Bracket("message:delete", "messageDao:delete"));
    AroundBalanced("updateMessage", FindTrace() + Bracket("message:update", "messageDao:update"));
    AroundBalanced("createMessage", Bracket("message:create", "messageDao:create"));
    AroundBalanced("deleteMessage", FindTrace() + Bracket("message:delete", "messageDao:delete"));
    AroundBalanced("getMessage", FindTrace());
  }

  /**
   * GET /messages calls `getTotal` and `getAll` without waiting, so all five
   * spans start before either storage call answers; the stops then follow the
   * order in which the two calls settle.
   */
  function ListStarts(): seq<SpanEvent> {
    [Begin("getMessages"), Begin("message:totalMessage"), Begin("messageDao:totalMessages"),
     Begin("message:getAll"), Begin("messageDao:getAll")]
  }

  /** The stops when the listing settles before the count. */
  function ListingFirstStops(): seq<SpanEvent> {
    [End("messageDao:getAll"), End("message:getAll"),
     End("messageDao:totalMessages"), End("message:totalMessage"), End("getMessages")]
  }

  /** The stops when the count settles before the listing. */
  function CountFirstStops(): seq<SpanEvent> {
    [End("messageDao:totalMessages"), End("message:totalMessage"),
     End("messageDao:getAll"), End("message:getAll"), End("getMessages")]
  }

  /**
   * The collection's spans nest only when the listing settles first: when the
   * count settles first, `messageDao:totalMessages` is stopped while
   * `messageDao:getAll` is the innermost open span.
   */
  lemma ListTraceNesting()
    ensures Balanced(ListStarts() + ListingFirstStops())
    ensures !Balanced(ListStarts() + CountFirstStops())
  {
    var inner := Bracket("message:getAll", "messageDao:getAll");
    BracketBalanced("message:getAll", "messageDao:getAll");
    AroundBalanced("messageDao:totalMessages", inner);
    AroundBalanced("message:totalMessage", Around("messageDao:totalMessages", inner));
    AroundBalanced("getMessages", Around("message:totalMessage", Around("messageDao:totalMessages", inner)));
    assert ListStarts() + ListingFirstStops()
        == Around("getMessages", Around("message:totalMessage", Around("messageDao:totalMessages", inner)));
    var open := ["getMessages", "message:totalMessage", "messageDao:totalMessages", "message:getAll", "messageDao:getAll"];
    ReplayAppend([], ListStarts(), CountFirstStops());
    var b := ListStarts();
    forall k | 0 <= k < 5
      ensures Replay(open[..k], b[k..]) == Replay(open[..k + 1], b[k + 1..])
    {
      assert b[k..][0] == Begin(open[k]) && b[k..][1..] == b[k + 1..];
      assert open[..k] + [open[k]] == open[..k + 1];
    }
    assert b[..] == b[0..] && b[5..] == [] && open[..0] == [] && open[..5] == open;
    assert Replay(open, CountFirstStops()) == None;
  }

  /** A 404 is answered from the `catch`, which closes the route span after the find's spans. */
  lemma NotFoundTracesBalanced(name: string)
    ensures Balanced(Around(name, FindTrace()))
  {
    BracketBalanced("message:find", "messageDao:find");
    AroundBalanced(name, FindTrace());
  }

  /** Page `page` of the collection lists the records of that page of the ordered table. */
  lemma ListedIsPage(t: Table, limit: nat, page: nat)
    requires limit > 0 && page >= 1
    ensures var l := Listed(t, Some(limit), Some((page - 1) * limit));
            var p := Page(t.Listing(), limit, page);
            |l| == |p| && forall i :: 0 <= i < |l| ==> l[i] == RowFields(p[i])
  {
  }

  /** The page count of the collection counts exactly the pages that together list the whole table. */
  lemma CollectionPagesCover(t: Table, limit: nat)
    requires t.Valid() && limit > 0
    ensures Pages(t.Listing(), limit, PageCount(|t.rows|, Some(limit)).value) == t.Listing()
  {
    t.ListingMatchesCount();
    PagesCoverListing(t.Listing(), limit);
  }
}
