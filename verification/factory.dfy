/**
 * The DAO factory: a closed lookup from a resource name to a newly built DAO
 * over the factory's store. "message" is the only name it knows.
 */
module Factory {
  import opened Values
  import opened Storage
  import opened Dao

  function NoDao(name: string): string {
    "No DAO for " + name
  }

  class DaoFac {
    /** Set once by the constructor and never reassigned. */
    const store: Table?

    constructor (store: Table?)
      ensures this.store == store
    {
      this.store := store;
    }

    /**
     * A fresh DAO over this factory's store for "message" (so no DAO is
     * shared between calls); any other name is an error, and so is a missing
     * store, which the DAO's constructor refuses.
     */
    method DaoFor(name: string) returns (r: Result<MessageDao>)
      ensures r.Ok? <==> name == "message" && store != null
      ensures name != "message" ==> r == Throw(Thrown(NoDao(name)))
      ensures name == "message" && store == null ==> r == Throw(Thrown(StoreRequired))
      ensures r.Ok? ==> fresh(r.value) && r.value.store == store
    {
      if name == "message" {
        r := NewDao(store);
      } else {
        r := Throw(Thrown(NoDao(name)));
      }
    }
  }

  /** The table behind a possibly missing factory: what its operations may change. */
  ghost function Tables(f: DaoFac?): set<object> {
    if f == null || f.store == null then {} else {f.store}
  }

  ghost predicate StoreValid(f: DaoFac?)
    reads Tables(f)
  {
    f != null && f.store != null ==> f.store.Valid()
  }
}
