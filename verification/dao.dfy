/**
 * The data-access object for messages. Each operation checks its required
 * arguments, then issues exactly one table operation, bracketed by a
 * `messageDao:<op>` span. The span is started before the checks, so an
 * argument error leaves it open; once the table is reached it is stopped
 * exactly once, whether the table answers or rejects.
 */
module Dao {
  import opened Values
  import opened Spans
  import opened Storage

  const StoreRequired := "Instance of Store is required"

  function IdRequired(op: string): string {
    "`id` is a required argument to MessageDao." + op + "()"
  }

  /** The first failing check of `update`: id, then updatedBy, then text-or-owner. */
  function UpdateError(id: Option<int>, args: Fields): (e: Option<string>)
    ensures e.None? <==> IdPresent(id) && Present(args.updatedBy) && (Present(args.text) || Present(args.owner))
    ensures !IdPresent(id) ==> e == Some(IdRequired("update"))
    ensures IdPresent(id) && !Present(args.updatedBy)
            ==> e == Some("`updatedBy` is a required argument to MessageDao.update()")
    ensures IdPresent(id) && Present(args.updatedBy) && !Present(args.text) && !Present(args.owner)
            ==> e == Some("MessageDao.update() expects `text` and/or `owner` arguments")
  {
    if !IdPresent(id) then Some(IdRequired("update"))
    else if !Present(args.updatedBy) then Some("`updatedBy` is a required argument to MessageDao.update()")
    else if !Present(args.text) && !Present(args.owner) then Some("MessageDao.update() expects `text` and/or `owner` arguments")
    else None
  }

  /** The attributes `create` checks, in the order it checks them. */
  const CreateKeys := [Owner, Text, CreatedBy]

  function CreateMissing(k: Key): string {
    "`" + KeyName(k) + "` is a required argument to MessageDao.create()"
  }

  /** The error `create` raises: it names the first of owner, text, createdBy that is falsy. */
  function CreateError(args: Fields): (e: Option<string>)
    ensures e.None? <==> Present(args.owner) && Present(args.text) && Present(args.createdBy)
    ensures !Present(args.owner) ==> e == Some(CreateMissing(Owner))
    ensures Present(args.owner) && !Present(args.text) ==> e == Some(CreateMissing(Text))
    ensures Present(args.owner) && Present(args.text) && !Present(args.createdBy) ==> e == Some(CreateMissing(CreatedBy))
  {
    var m := FirstMissing(args, CreateKeys);
    assert Get(args, CreateKeys[0]) == args.owner && Get(args, CreateKeys[1]) == args.text;
    assert Get(args, CreateKeys[2]) == args.createdBy;
    if m.Some? then Some(CreateMissing(m.value)) else None
  }

  /** What `create` inserts: the given text, owner and creator, who is also the last updater. */
  function CreateRow(args: Fields): Fields {
    NoFields.(text := args.text, owner := args.owner, createdBy := args.createdBy, updatedBy := args.createdBy)
  }

  class MessageDao {
    const store: Table

    constructor (store: Table)
      ensures this.store == store
    {
      this.store := store;
    }

    /** Returns the stored row with that id unchanged, or None. */
    method Find(timings: Timings?, id: Option<int>) returns (r: Result<Option<Row>>)
      modifies timings
      ensures !IdPresent(id) ==> r == Throw(Thrown(IdRequired("find")))
                                 && Events(timings) == old(Events(timings)) + Rec(timings, [Begin("messageDao:find")])
      ensures IdPresent(id) ==> r == (if store.online then Ok(Lookup(store.rows, id.value)) else Reject(StorageFailure))
                                && Events(timings) == old(Events(timings)) + Rec(timings, Span("messageDao:find"))
    {
      Start(timings, "messageDao:find");
      if !IdPresent(id) {
        return Throw(Thrown(IdRequired("find")));
      }
      r := store.FindByPk(id.value);
      Stop(timings, "messageDao:find");
    }

    /** Destroys the row with that id; answers the removed row, or None. */
    method Delete(timings: Timings?, id: Option<int>) returns (r: Result<Option<Row>>)
      requires store.Valid()
      modifies store, timings
      ensures store.Valid() && store.nextId == old(store.nextId)
      ensures !IdPresent(id) ==> r == Throw(Thrown(IdRequired("delete"))) && store.rows == old(store.rows)
                                 && Events(timings) == old(Events(timings)) + Rec(timings, [Begin("messageDao:delete")])
      ensures IdPresent(id) ==> Events(timings) == old(Events(timings)) + Rec(timings, Span("messageDao:delete"))
      ensures IdPresent(id) && store.online ==> r == Ok(Lookup(old(store.rows), id.value))
                                                && store.rows == old(store.rows) - {id.value}
      ensures IdPresent(id) && !store.online ==> r == Reject(StorageFailure) && store.rows == old(store.rows)
    {
      Start(timings, "messageDao:delete");
      if !IdPresent(id) {
        return Throw(Thrown(IdRequired("delete")));
      }
      r := store.Destroy(id.value);
      Stop(timings, "messageDao:delete");
    }

    /**
     * Writes the supplied attributes and a fresh `updatedAt` to the row with
     * that id only; the `updatedAt` is also added to the caller's `args`.
     */
    method Update(timings: Timings?, id: Option<int>, args: Payload, now: int) returns (r: Result<Option<Row>>)
      requires store.Valid()
      modifies store, timings, args
      ensures store.Valid() && store.nextId == old(store.nextId)
      ensures UpdateError(id, old(args.fields)).Some?
              ==> r == Throw(Thrown(UpdateError(id, old(args.fields)).value))
                  && store.rows == old(store.rows) && args.fields == old(args.fields)
                  && Events(timings) == old(Events(timings)) + Rec(timings, [Begin("messageDao:update")])
      ensures UpdateError(id, old(args.fields)).None?
              ==> args.fields == old(args.fields).(updatedAt := Some(now))
                  && Events(timings) == old(Events(timings)) + Rec(timings, Span("messageDao:update"))
      ensures UpdateError(id, old(args.fields)).None? && store.online && id.value in old(store.rows)
              ==> r == Ok(Some(Patched(old(store.rows)[id.value], args.fields)))
                  && store.rows == old(store.rows)[id.value := Patched(old(store.rows)[id.value], args.fields)]
      ensures UpdateError(id, old(args.fields)).None? && store.online && id.value !in old(store.rows)
              ==> r == Ok(None) && store.rows == old(store.rows)
      ensures UpdateError(id, old(args.fields)).None? && !store.online
              ==> r == Reject(StorageFailure) && store.rows == old(store.rows)
    {
      Start(timings, "messageDao:update");
      var err := UpdateError(id, args.fields);
      if err.Some? {
        return Throw(Thrown(err.value));
      }
      args.fields := args.fields.(updatedAt := Some(now));
      r := store.Update(id.value, args.fields);
      Stop(timings, "messageDao:update");
    }

    /** Inserts a row with the given text and owner, created and last updated by `createdBy`. */
    method Create(timings: Timings?, args: Fields, now: int) returns (r: Result<Row>)
      requires store.Valid()
      modifies store, timings
      ensures store.Valid()
      ensures CreateError(args).Some?
              ==> r == Throw(Thrown(CreateError(args).value))
                  && store.rows == old(store.rows) && store.nextId == old(store.nextId)
                  && Events(timings) == old(Events(timings)) + Rec(timings, [Begin("messageDao:create")])
      ensures CreateError(args).None?
              ==> Events(timings) == old(Events(timings)) + Rec(timings, Span("messageDao:create"))
      ensures CreateError(args).None? && store.online
              ==> old(store.nextId) !in old(store.rows)
                  && r == Ok(Inserted(old(store.nextId), CreateRow(args), now))
                  && store.rows == old(store.rows)[old(store.nextId) := r.value]
                  && store.nextId == old(store.nextId) + 1
      ensures CreateError(args).None? && !store.online
              ==> r == Reject(StorageFailure) && store.rows == old(store.rows) && store.nextId == old(store.nextId)
    {
      Start(timings, "messageDao:create");
      var missing := FindMissing(args, CreateKeys);
      if missing.Some? {
        return Throw(Thrown(CreateMissing(missing.value)));
      }
      r := store.Create(CreateRow(args), now);
      Stop(timings, "messageDao:create");
    }

    /** The number of stored rows, unchanged. */
    method TotalMessages(timings: Timings?) returns (r: Result<nat>)
      modifies timings
      ensures r == if store.online then Ok(|store.rows|) else Reject(StorageFailure)
      ensures Events(timings) == old(Events(timings)) + Rec(timings, Span("messageDao:totalMessages"))
    {
      Start(timings, "messageDao:totalMessages");
      r := store.Count();
      Stop(timings, "messageDao:totalMessages");
    }

    /** The rows `findAll(q)` answers, unchanged. */
    method GetAll(timings: Timings?, q: Query) returns (r: Result<seq<Option<Row>>>)
      modifies timings
      ensures r == if store.online then Ok(Entries(Window(store.Listing(), q))) else Reject(StorageFailure)
      ensures Events(timings) == old(Events(timings)) + Rec(timings, Span("messageDao:getAll"))
    {
      Start(timings, "messageDao:getAll");
      r := store.FindAll(q);
      Stop(timings, "messageDao:getAll");
    }
  }

  /** `new MessageDao(store)`: the constructor throws when no store is given. */
  method NewDao(store: Table?) returns (r: Result<MessageDao>)
    ensures store == null ==> r == Throw(Thrown(StoreRequired))
    ensures store != null ==> r.Ok? && fresh(r.value) && r.value.store == store
  {
    if store == null {
      return Throw(Thrown(StoreRequired));
    }
    var dao := new MessageDao(store);
    return Ok(dao);
  }

  /** The record `create` stores carries its creator as last updater and one timestamp for both. */
  lemma CreatedRowStamps(id: int, args: Fields, now: int)
    requires CreateError(args).None?
    ensures var row := Inserted(id, CreateRow(args), now);
            row.id == id && row.text == args.text && row.owner == args.owner
            && row.createdBy == row.updatedBy == args.createdBy && Present(row.createdBy)
            && row.createdAt == row.updatedAt == now
  {
  }
}
