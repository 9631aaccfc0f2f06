/**
 * The Message business entity. An instance is transient (no id) or persisted
 * (has an id): `create` is refused on a persisted message, `update` and
 * `delete` need one. Each operation checks its arguments first, raising before
 * any span or DAO call; then it starts a `message:<op>` span, asks the factory
 * for a DAO, makes one DAO call and stops its span in the promise's handlers.
 */
module Entity {
  import opened Values
  import opened Spans
  import opened Storage
  import Dao
  import opened Factory

  function FactoryRequired(op: string): string {
    "`deps.daoFac` is a required argument to " + op + "()"
  }

  function ThisIdRequired(op: string): string {
    "`this.id` is a required argument to message." + op + "()"
  }

  const TextOrOwner := "message.update() expects at least `text` or `owner`"
  const UpdatedByRequired := "`args.updatedBy` is a required argument to message.update()"
  const AlreadyStored := "Cannot call message.create() on message already in storage"
  const FindIdRequired := "`id` is a required argument to Message.find()"
  const UpdateNoData := "Failure to retrieve newly updated message"

  /** The entity's checks for `update`: factory, then id, then text-or-owner, then updatedBy. */
  function UpdateError(hasFactory: bool, id: Option<int>, args: Fields): (e: Option<string>)
    ensures e.None? <==> hasFactory && IdPresent(id) && (Present(args.text) || Present(args.owner))
                         && Present(args.updatedBy)
    ensures !hasFactory ==> e == Some(FactoryRequired("message.update"))
    ensures hasFactory && !IdPresent(id) ==> e == Some(ThisIdRequired("update"))
    ensures hasFactory && IdPresent(id) && !Present(args.text) && !Present(args.owner) ==> e == Some(TextOrOwner)
    ensures hasFactory && IdPresent(id) && (Present(args.text) || Present(args.owner)) && !Present(args.updatedBy)
            ==> e == Some(UpdatedByRequired)
  {
    if !hasFactory then Some(FactoryRequired("message.update"))
    else if !IdPresent(id) then Some(ThisIdRequired("update"))
    else if !Present(args.text) && !Present(args.owner) then Some(TextOrOwner)
    else if !Present(args.updatedBy) then Some(UpdatedByRequired)
    else None
  }

  /** What `update` sends to the DAO: always the updater, text and owner only when truthy, nothing else. */
  function UpdatePayload(args: Fields): (p: Fields)
    ensures p.updatedBy == args.updatedBy
    ensures p.text.Some? <==> Present(args.text)
    ensures p.owner.Some? <==> Present(args.owner)
    ensures p.text.Some? ==> p.text == args.text
    ensures p.owner.Some? ==> p.owner == args.owner
    ensures p.id == p.createdAt == p.updatedAt == None && p.createdBy == None
  {
    NoFields.(updatedBy := args.updatedBy,
              text := if Present(args.text) then args.text else None,
              owner := if Present(args.owner) then args.owner else None)
  }

  function CreateError(hasFactory: bool, id: Option<int>): (e: Option<string>)
    ensures e.None? <==> hasFactory && !IdPresent(id)
    ensures !hasFactory ==> e == Some(FactoryRequired("message.create"))
    ensures hasFactory && IdPresent(id) ==> e == Some(AlreadyStored)
  {
    if !hasFactory then Some(FactoryRequired("message.create"))
    else if IdPresent(id) then Some(AlreadyStored)
    else None
  }

  /** What `create` sends to the DAO: exactly the creator, the text and the owner. */
  function CreateArgs(f: Fields): Fields {
    NoFields.(createdBy := f.createdBy, text := f.text, owner := f.owner)
  }

  function DeleteError(hasFactory: bool, id: Option<int>): (e: Option<string>)
    ensures e.None? <==> hasFactory && IdPresent(id)
    ensures !hasFactory ==> e == Some(FactoryRequired("message.delete"))
    ensures hasFactory && !IdPresent(id) ==> e == Some(ThisIdRequired("delete"))
  {
    if !hasFactory then Some(FactoryRequired("message.delete"))
    else if !IdPresent(id) then Some(ThisIdRequired("delete"))
    else None
  }

  function FindError(hasFactory: bool, id: Option<int>): (e: Option<string>)
    ensures e.None? <==> hasFactory && IdPresent(id)
    ensures !hasFactory ==> e == Some(FactoryRequired("Message.find"))
    ensures hasFactory && !IdPresent(id) ==> e == Some(FindIdRequired)
  {
    if !hasFactory then Some(FactoryRequired("Message.find"))
    else if !IdPresent(id) then Some(FindIdRequired)
    else None
  }

  /** `getAll` arguments as the caller gives them. */
  datatype ListArgs = ListArgs(limit: Option<nat>, offset: Option<nat>)

  /** The `findAll` options `getAll` builds: limit and offset (default 0) only when the limit is truthy. */
  function ListQuery(args: ListArgs): (q: Query)
    ensures q.limit.Some? <==> args.limit.Some? && args.limit.value != 0
    ensures q.limit.Some? ==> q.limit == args.limit
                              && q.offset == Some(if args.offset.Some? then args.offset.value else 0)
    ensures q.limit.None? ==> q == Query(None, None)
  {
    if args.limit.Some? && args.limit.value != 0 then
      Query(args.limit, Some(if args.offset.Some? && args.offset.value != 0 then args.offset.value else 0))
    else
      Query(None, None)
  }

  /** The records `getAll` wraps: the entries with the null ones dropped, in their order. */
  function Wrapped(rows: seq<Option<Row>>): (r: seq<Fields>)
    ensures |r| <= |rows|
    ensures (forall i :: 0 <= i < |rows| ==> rows[i].Some?)
            ==> |r| == |rows| && forall i :: 0 <= i < |r| ==> r[i] == RowFields(rows[i].value)
    ensures (forall i :: 0 <= i < |rows| ==> rows[i].None?) ==> r == []
  {
    if rows == [] then []
    else
      var rest := Wrapped(rows[1..]);
      assert forall i :: 1 <= i < |rows| ==> rows[1..][i - 1] == rows[i];
      (if rows[0].Some? then [RowFields(rows[0].value)] else []) + rest
  }

  /** One entry: a null one contributes nothing, any other one its record. */
  lemma WrappedOne(x: Option<Row>)
    ensures Wrapped([x]) == (if x.Some? then [RowFields(x.value)] else [])
  {
    assert [x][1..] == [];
  }

  /** Dropping null entries keeps the order: it distributes over concatenation. */
  lemma {:induction false} WrappedAppend(a: seq<Option<Row>>, b: seq<Option<Row>>)
    ensures Wrapped(a + b) == Wrapped(a) + Wrapped(b)
    decreases |a|
  {
    if a == [] {
      assert a + b == b;
    } else {
      assert (a + b)[0] == a[0];
      assert (a + b)[1..] == a[1..] + b;
      WrappedAppend(a[1..], b);
    }
  }

  /** An entity span around one DAO span: the trace of an entity call that reached storage. */
  function Bracket(entity: string, dao: string): seq<SpanEvent> {
    Around(entity, Span(dao))
  }

  /** An entity call that reached storage and answered leaves its spans properly nested. */
  lemma BracketBalanced(entity: string, dao: string)
    ensures Balanced(Bracket(entity, dao))
  {
    SpanBalanced(dao);
    AroundBalanced(entity, Span(dao));
  }

  /**
   * When the DAO's update answers nothing, the `then` stops the entity span and
   * throws, and the `catch` after it stops the span again: the trace no
   * longer nests.
   */
  lemma UpdateNoDataStopsTwice()
    ensures !Balanced(Bracket("message:update", "messageDao:update") + [End("message:update")])
  {
    SpanBalanced("messageDao:update");
    ExtraStopUnbalanced("message:update", Span("messageDao:update"));
  }

  class Message {
    var id: Option<int>
    var text: Option<string>
    var owner: Option<string>
    var createdAt: Option<int>
    var updatedAt: Option<int>
    var createdBy: Option<string>
    var updatedBy: Option<string>

    /** Copies exactly the seven message attributes of `args`. */
    constructor (args: Fields)
      ensures View() == args
    {
      id := args.id;
      text := args.text;
      owner := args.owner;
      createdAt := args.createdAt;
      updatedAt := args.updatedAt;
      createdBy := args.createdBy;
      updatedBy := args.updatedBy;
    }

    function View(): Fields
      reads this
    {
      Fields(id, text, owner, createdAt, updatedAt, createdBy, updatedBy)
    }

    /**
     * Updates this persisted message. When the DAO answers no row, the
     * `then` handler stops the span and throws, and the `.catch` chained after
     * it stops the span a second time.
     */
    method Update(daoFac: DaoFac?, timings: Timings?, args: Fields, now: int) returns (r: Result<Message>)
      requires StoreValid(daoFac)
      modifies Tables(daoFac), timings
      ensures StoreValid(daoFac)
      ensures UpdateError(daoFac != null, id, args).Some?
              ==> r == Throw(Thrown(UpdateError(daoFac != null, id, args).value))
                  && unchanged(Tables(daoFac)) && Events(timings) == old(Events(timings))
      ensures UpdateError(daoFac != null, id, args).None? && daoFac != null && daoFac.store == null
              ==> r == Throw(Thrown(Dao.StoreRequired))
                  && Events(timings) == old(Events(timings)) + Rec(timings, [Begin("message:update")])
      ensures UpdateError(daoFac != null, id, args).None? && daoFac != null && daoFac.store != null
              ==> var s := daoFac.store;
                  var written := UpdatePayload(args).(updatedAt := Some(now));
                  s.nextId == old(s.nextId)
                  && (!s.online ==> r == Reject(StorageFailure) && s.rows == old(s.rows)
                                    && Events(timings) == old(Events(timings))
                                                          + Rec(timings, Bracket("message:update", "messageDao:update")))
                  && (s.online && id.value in old(s.rows)
                      ==> r.Ok? && fresh(r.value)
                          && s.rows == old(s.rows)[id.value := Patched(old(s.rows)[id.value], written)]
                          && r.value.View() == RowFields(s.rows[id.value])
                          && Events(timings) == old(Events(timings))
                                                + Rec(timings, Bracket("message:update", "messageDao:update")))
                  && (s.online && id.value !in old(s.rows)
                      ==> r == Reject(Thrown(UpdateNoData)) && s.rows == old(s.rows)
                          && Events(timings) == old(Events(timings))
                                                + Rec(timings, Bracket("message:update", "messageDao:update")
                                                               + [End("message:update")]))
    {
      var err := UpdateError(daoFac != null, id, args);
      if err.Some? {
        return Throw(Thrown(err.value));
      }
      Start(timings, "message:update");
      var payload := new Payload(UpdatePayload(args));
      var dao := daoFac.DaoFor("message");
      if !dao.Ok? {
        return Throw(dao.error);
      }
      EntityChecksCoverDao(id, args);
      var res := dao.value.Update(timings, id, payload, now);
      match res {
        case Throw(e) =>
          return Throw(e);
        case Reject(e) =>
          Stop(timings, "message:update");
          return Reject(e);
        case Ok(row) =>
          Stop(timings, "message:update");
          if row.None? {
            Stop(timings, "message:update");
            return Reject(Thrown(UpdateNoData));
          }
          var m := new Message(RowFields(row.value));
          return Ok(m);
      }
    }

    /** Stores this transient message; the answer is a new entity for the stored row. */
    method Create(daoFac: DaoFac?, timings: Timings?, now: int) returns (r: Result<Message>)
      requires StoreValid(daoFac)
      modifies Tables(daoFac), timings
      ensures StoreValid(daoFac)
      ensures CreateError(daoFac != null, id).Some?
              ==> r == Throw(Thrown(CreateError(daoFac != null, id).value))
                  && unchanged(Tables(daoFac)) && Events(timings) == old(Events(timings))
      ensures CreateError(daoFac != null, id).None? && daoFac != null && daoFac.store == null
              ==> r == Throw(Thrown(Dao.StoreRequired))
                  && Events(timings) == old(Events(timings)) + Rec(timings, [Begin("message:create")])
      ensures CreateError(daoFac != null, id).None? && daoFac != null && daoFac.store != null
              && Dao.CreateError(CreateArgs(View())).Some?
              ==> r == Throw(Thrown(Dao.CreateError(CreateArgs(View())).value))
                  && daoFac.store.rows == old(daoFac.store.rows) && daoFac.store.nextId == old(daoFac.store.nextId)
                  && Events(timings) == old(Events(timings))
                                        + Rec(timings, [Begin("message:create"), Begin("messageDao:create")])
      ensures CreateError(daoFac != null, id).None? && daoFac != null && daoFac.store != null
              && Dao.CreateError(CreateArgs(View())).None?
              ==> var s := daoFac.store;
                  Events(timings) == old(Events(timings)) + Rec(timings, Bracket("message:create", "messageDao:create"))
                  && (!s.online ==> r == Reject(StorageFailure) && s.rows == old(s.rows) && s.nextId == old(s.nextId))
                  && (s.online ==> r.Ok? && fresh(r.value)
                                   && s.rows == old(s.rows)[old(s.nextId) := Inserted(old(s.nextId), Dao.CreateRow(CreateArgs(View())), now)]
                                   && s.nextId == old(s.nextId) + 1 && old(s.nextId) !in old(s.rows)
                                   && r.value.View() == RowFields(s.rows[old(s.nextId)]))
    {
      var err := CreateError(daoFac != null, id);
      if err.Some? {
        return Throw(Thrown(err.value));
      }
      Start(timings, "message:create");
      var dao := daoFac.DaoFor("message");
      if !dao.Ok? {
        return Throw(dao.error);
      }
      var res := dao.value.Create(timings, CreateArgs(View()), now);
      match res {
        case Throw(e) =>
          return Throw(e);
        case Reject(e) =>
          Stop(timings, "message:create");
          return Reject(e);
        case Ok(row) =>
          Stop(timings, "message:create");
          var m := new Message(RowFields(row));
          return Ok(m);
      }
    }

    /** Deletes this persisted message; None when no row had its id. */
    method Delete(daoFac: DaoFac?, timings: Timings?) returns (r: Result<Option<Message>>)
      requires StoreValid(daoFac)
      modifies Tables(daoFac), timings
      ensures StoreValid(daoFac)
      ensures DeleteError(daoFac != null, id).Some?
              ==> r == Throw(Thrown(DeleteError(daoFac != null, id).value))
                  && unchanged(Tables(daoFac)) && Events(timings) == old(Events(timings))
      ensures DeleteError(daoFac != null, id).None? && daoFac != null && daoFac.store == null
              ==> r == Throw(Thrown(Dao.StoreRequired))
                  && Events(timings) == old(Events(timings)) + Rec(timings, [Begin("message:delete")])
      ensures DeleteError(daoFac != null, id).None? && daoFac != null && daoFac.store != null
              ==> var s := daoFac.store;
                  s.nextId == old(s.nextId)
                  && Events(timings) == old(Events(timings)) + Rec(timings, Bracket("message:delete", "messageDao:delete"))
                  && (!s.online ==> r == Reject(StorageFailure) && s.rows == old(s.rows))
                  && (s.online ==> s.rows == old(s.rows) - {id.value})
                  && (s.online && id.value !in old(s.rows) ==> r == Ok(None))
                  && (s.online && id.value in old(s.rows)
                      ==> r.Ok? && r.value.Some? && fresh(r.value.value)
                          && r.value.value.View() == RowFields(old(s.rows)[id.value]))
    {
      var err := DeleteError(daoFac != null, id);
      if err.Some? {
        return Throw(Thrown(err.value));
      }
      Start(timings, "message:delete");
      var dao := daoFac.DaoFor("message");
      if !dao.Ok? {
        return Throw(dao.error);
      }
      var res := dao.value.Delete(timings, id);
      match res {
        case Throw(e) =>
          return Throw(e);
        case Reject(e) =>
          Stop(timings, "message:delete");
          return Reject(e);
        case Ok(row) =>
          Stop(timings, "message:delete");
          if row.None? {
            return Ok(None);
          }
          var m := new Message(RowFields(row.value));
          return Ok(Some(m));
      }
    }

    /** The message with that id, or None when there is none (not an error). */
    static method Find(daoFac: DaoFac?, timings: Timings?, id: Option<int>) returns (r: Result<Option<Message>>)
      modifies timings
      ensures FindError(daoFac != null, id).Some?
              ==> r == Throw(Thrown(FindError(daoFac != null, id).value)) && Events(timings) == old(Events(timings))
      ensures FindError(daoFac != null, id).None? && daoFac != null && daoFac.store == null
              ==> r == Throw(Thrown(Dao.StoreRequired))
                  && Events(timings) == old(Events(timings)) + Rec(timings, [Begin("message:find")])
      ensures FindError(daoFac != null, id).None? && daoFac != null && daoFac.store != null
              ==> var s := daoFac.store;
                  Events(timings) == old(Events(timings)) + Rec(timings, Bracket("message:find", "messageDao:find"))
                  && (!s.online ==> r == Reject(StorageFailure))
                  && (s.online && id.value !in s.rows ==> r == Ok(None))
                  && (s.online && id.value in s.rows
                      ==> r.Ok? && r.value.Some? && fresh(r.value.value)
                          && r.value.value.View() == RowFields(s.rows[id.value]))
    {
      var err := FindError(daoFac != null, id);
      if err.Some? {
        return Throw(Thrown(err.value));
      }
      Start(timings, "message:find");
      var dao := daoFac.DaoFor("message");
      if !dao.Ok? {
        return Throw(dao.error);
      }
      var res := dao.value.Find(timings, id);
      match res {
        case Throw(e) =>
          return Throw(e);
        case Reject(e) =>
          Stop(timings, "message:find");
          return Reject(e);
        case Ok(row) =>
          Stop(timings, "message:find");
          if row.None? {
            return Ok(None);
          }
          var m := new Message(RowFields(row.value));
          return Ok(Some(m));
      }
    }

    /** The number of stored messages, as the DAO counts it. */
    static method GetTotal(daoFac: DaoFac?, timings: Timings?) returns (r: Result<nat>)
      modifies timings
      ensures daoFac == null ==> r == Throw(Thrown(FactoryRequired("Message.getTotal")))
                                 && Events(timings) == old(Events(timings))
      ensures daoFac != null && daoFac.store == null
              ==> r == Throw(Thrown(Dao.StoreRequired))
                  && Events(timings) == old(Events(timings)) + Rec(timings, [Begin("message:totalMessage")])
      ensures daoFac != null && daoFac.store != null
              ==> r == (if daoFac.store.online then Ok(|daoFac.store.rows|) else Reject(StorageFailure))
                  && Events(timings) == old(Events(timings))
                                        + Rec(timings, Bracket("message:totalMessage", "messageDao:totalMessages"))
    {
      if daoFac == null {
        return Throw(Thrown(FactoryRequired("Message.getTotal")));
      }
      Start(timings, "message:totalMessage");
      var dao := daoFac.DaoFor("message");
      if !dao.Ok? {
        return Throw(dao.error);
      }
      r := dao.value.TotalMessages(timings);
      Stop(timings, "message:totalMessage");
    }

    /** One entity per non-null entry of the DAO's answer to the query built from `args`, in order. */
    static method GetAll(daoFac: DaoFac?, timings: Timings?, args: ListArgs) returns (r: Result<seq<Message>>)
      modifies timings
      ensures daoFac == null ==> r == Throw(Thrown(FactoryRequired("Message.getAll")))
                                 && Events(timings) == old(Events(timings))
      ensures daoFac != null && daoFac.store == null
              ==> r == Throw(Thrown(Dao.StoreRequired))
                  && Events(timings) == old(Events(timings)) + Rec(timings, [Begin("message:getAll")])
      ensures daoFac != null && daoFac.store != null
              ==> var want := Wrapped(Entries(Window(daoFac.store.Listing(), ListQuery(args))));
                  Events(timings) == old(Events(timings)) + Rec(timings, Bracket("message:getAll", "messageDao:getAll"))
                  && (!daoFac.store.online ==> r == Reject(StorageFailure))
                  && (daoFac.store.online ==> r.Ok? && AllFresh(r.value) && Wraps(r.value, want))
    {
      if daoFac == null {
        return Throw(Thrown(FactoryRequired("Message.getAll")));
      }
      Start(timings, "message:getAll");
      var query := ListQuery(args);
      var dao := daoFac.DaoFor("message");
      if !dao.Ok? {
        return Throw(dao.error);
      }
      var res := dao.value.GetAll(timings, query);
      if !res.Ok? {
        Stop(timings, "message:getAll");
        return Reject(res.error);
      }
      assert res.value == Entries(Window(daoFac.store.Listing(), query));
      var out := WrapAll(res.value);
      Stop(timings, "message:getAll");
      return Ok(out);
    }
  }

  /** Each entity of `out` holds the corresponding record of `want`. */
  ghost predicate Wraps(out: seq<Message>, want: seq<Fields>)
    reads set m | m in out
  {
    |out| == |want| && forall k :: 0 <= k < |out| ==> out[k].View() == want[k]
  }

  twostate predicate AllFresh(new out: seq<Message>) {
    forall k :: 0 <= k < |out| ==> fresh(out[k])
  }

  /** Wraps each non-null entry in a new entity, keeping their order. */
  method WrapAll(rows: seq<Option<Row>>) returns (out: seq<Message>)
    ensures AllFresh(out) && Wraps(out, Wrapped(rows))
  {
    out := [];
    var i := 0;
    while i < |rows|
      invariant 0 <= i <= |rows|
      invariant |out| == |Wrapped(rows[..i])|
      invariant forall k :: 0 <= k < |out| ==> fresh(out[k]) && out[k].View() == Wrapped(rows[..i])[k]
    {
      WrappedAppend(rows[..i], [rows[i]]);
      assert rows[..i + 1] == rows[..i] + [rows[i]];
      if rows[i].Some? {
        var m := new Message(RowFields(rows[i].value));
        out := out + [m];
      }
      i := i + 1;
    }
    assert rows[..i] == rows;
  }

  /** Whatever passes the entity's update checks passes the DAO's checks on the payload it sends. */
  lemma EntityChecksCoverDao(id: Option<int>, args: Fields)
    requires UpdateError(true, id, args).None?
    ensures Dao.UpdateError(id, UpdatePayload(args)).None?
  {
  }

  /**
   * The entity and the DAO check the update arguments in different orders:
   * with an id but neither an updater nor text/owner, the entity complains
   * about text/owner and the DAO about the updater.
   */
  lemma CheckOrdersDiffer(id: int)
    requires id != 0
    ensures UpdateError(true, Some(id), NoFields) == Some(TextOrOwner)
    ensures Dao.UpdateError(Some(id), NoFields) == Some("`updatedBy` is a required argument to MessageDao.update()")
  {
  }

  /** An entity update keeps the key and the creation stamps, and stamps the updater and the time. */
  lemma UpdateKeepsCreation(row: Row, args: Fields, now: int)
    requires UpdateError(true, Some(row.id), args).None?
    ensures var after := Patched(row, UpdatePayload(args).(updatedAt := Some(now)));
            after.id == row.id && after.createdAt == row.createdAt && after.createdBy == row.createdBy
            && after.updatedAt == now && after.updatedBy == args.updatedBy
            && after.text == (if Present(args.text) then args.text else row.text)
            && after.owner == (if Present(args.owner) then args.owner else row.owner)
  {
  }
}
