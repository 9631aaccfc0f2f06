/**
 * The storage handle, reduced to an abstract `message` table: a map from id to
 * row and the next id to assign. Whether the backend answers is fixed per
 * table (`online`); when it does not, every operation rejects with
 * StorageFailure and changes nothing.
 */
module Storage {
  import opened Values

  /** A row of the `message` table; `createdAt`/`updatedAt` default to the insertion time. */
  datatype Row = Row(
    id: int,
    text: Option<string>,
    owner: Option<string>,
    createdAt: int,
    updatedAt: int,
    createdBy: Option<string>,
    updatedBy: Option<string>)

  /** The row read back as a plain object. */
  function RowFields(r: Row): Fields {
    Fields(Some(r.id), r.text, r.owner, Some(r.createdAt), Some(r.updatedAt), r.createdBy, r.updatedBy)
  }

  /** The row an insert of `f` at time `now` stores under `id`. */
  function Inserted(id: int, f: Fields, now: int): Row {
    Row(id, f.text, f.owner, now, now, f.createdBy, f.updatedBy)
  }

  /** The row after an update that writes every attribute present in `f`; the key never changes. */
  function Patched(r: Row, f: Fields): Row {
    Row(r.id,
        if f.text.Some? then f.text else r.text,
        if f.owner.Some? then f.owner else r.owner,
        if f.createdAt.Some? then f.createdAt.value else r.createdAt,
        if f.updatedAt.Some? then f.updatedAt.value else r.updatedAt,
        if f.createdBy.Some? then f.createdBy else r.createdBy,
        if f.updatedBy.Some? then f.updatedBy else r.updatedBy)
  }

  function Lookup(rows: map<int, Row>, id: int): Option<Row> {
    if id in rows then Some(rows[id]) else None
  }

  /** Rows as the possibly-null entries of a `findAll` answer. */
  function Entries(w: seq<Row>): (e: seq<Option<Row>>)
    ensures |e| == |w| && forall i :: 0 <= i < |w| ==> e[i] == Some(w[i])
  {
    seq(|w|, i requires 0 <= i < |w| => Some(w[i]))
  }

  /** `findAll` options: at most `limit` rows after skipping `offset`. */
  datatype Query = Query(limit: Option<nat>, offset: Option<nat>)

  function Min(a: int, b: int): int {
    if a < b then a else b
  }

  function Skipped(q: Query): nat {
    if q.offset.Some? then q.offset.value else 0
  }

  /** The part of `s` that a `findAll` with options `q` returns. */
  function Window<T>(s: seq<T>, q: Query): (w: seq<T>)
    ensures |w| <= |s|
    ensures q.limit.Some? ==> |w| <= q.limit.value
    ensures Skipped(q) < |s| && q.limit != Some(0) ==> |w| > 0
    ensures forall i :: 0 <= i < |w| ==> Skipped(q) + i < |s| && w[i] == s[Skipped(q) + i]
  {
    var rest := s[Min(Skipped(q), |s|)..];
    match q.limit
    case None => rest
    case Some(l) => rest[..Min(l, |rest|)]
  }

  /** Nothing is cut short: from an offset inside the listing, the window runs to the limit or to the end. */
  lemma WindowLength<T>(s: seq<T>, q: Query)
    ensures Skipped(q) <= |s|
            ==> |Window(s, q)| == (if q.limit.Some? then Min(q.limit.value, |s| - Skipped(q)) else |s| - Skipped(q))
  {
  }

  /** The rows whose ids lie in [lo, hi), in ascending id order. */
  function Ascending(rows: map<int, Row>, lo: int, hi: int): seq<Row>
    decreases hi - lo
  {
    if hi <= lo then []
    else (if lo in rows then [rows[lo]] else []) + Ascending(rows, lo + 1, hi)
  }

  function KeysIn(rows: map<int, Row>, lo: int, hi: int): set<int> {
    set k | k in rows && lo <= k < hi
  }

  /** The ordered listing holds one row per key in range. */
  lemma {:induction false} AscendingCount(rows: map<int, Row>, lo: int, hi: int)
    ensures |Ascending(rows, lo, hi)| == |KeysIn(rows, lo, hi)|
    decreases hi - lo
  {
    if hi <= lo {
      assert KeysIn(rows, lo, hi) == {};
    } else {
      AscendingCount(rows, lo + 1, hi);
      if lo in rows {
        assert KeysIn(rows, lo, hi) == {lo} + KeysIn(rows, lo + 1, hi);
      } else {
        assert KeysIn(rows, lo, hi) == KeysIn(rows, lo + 1, hi);
      }
    }
  }

  /** The `message` table. */
  class Table {
    var rows: map<int, Row>
    var nextId: int
    const online: bool

    /** Ids are positive, below the next id, and each row carries its own key. */
    ghost predicate Valid()
      reads this
    {
      1 <= nextId && forall k :: k in rows ==> 1 <= k < nextId && rows[k].id == k
    }

    constructor (online: bool)
      ensures Valid() && rows == map[] && nextId == 1 && this.online == online
    {
      rows := map[];
      nextId := 1;
      this.online := online;
    }

    /** All rows in ascending id order: the order `findAll` returns them in. */
    function Listing(): seq<Row>
      reads this
    {
      Ascending(rows, 1, nextId)
    }

    /** `findByPk(id)` */
    method FindByPk(id: int) returns (r: Result<Option<Row>>)
      ensures r == if online then Ok(Lookup(rows, id)) else Reject(StorageFailure)
    {
      if !online {
        return Reject(StorageFailure);
      }
      return Ok(Lookup(rows, id));
    }

    /** `create(fields)`: a new row under the next id, timestamps set to `now`. */
    method Create(f: Fields, now: int) returns (r: Result<Row>)
      requires Valid()
      modifies this
      ensures Valid()
      ensures online ==> old(nextId) !in old(rows) && r == Ok(Inserted(old(nextId), f, now))
                         && rows == old(rows)[old(nextId) := r.value] && nextId == old(nextId) + 1
      ensures !online ==> r == Reject(StorageFailure) && rows == old(rows) && nextId == old(nextId)
    {
      if !online {
        return Reject(StorageFailure);
      }
      var row := Inserted(nextId, f, now);
      rows := rows[nextId := row];
      nextId := nextId + 1;
      return Ok(row);
    }

    /** `update(fields, { where: { id } })`: the row as written, or None when no row has that id. */
    method Update(id: int, f: Fields) returns (r: Result<Option<Row>>)
      requires Valid()
      modifies this
      ensures Valid() && nextId == old(nextId)
      ensures online && id in old(rows) ==> r == Ok(Some(Patched(old(rows)[id], f)))
                                            && rows == old(rows)[id := Patched(old(rows)[id], f)]
      ensures online && id !in old(rows) ==> r == Ok(None) && rows == old(rows)
      ensures !online ==> r == Reject(StorageFailure) && rows == old(rows)
    {
      if !online {
        return Reject(StorageFailure);
      }
      if id !in rows {
        return Ok(None);
      }
      var row := Patched(rows[id], f);
      rows := rows[id := row];
      return Ok(Some(row));
    }

    /** `destroy({ where: { id } })`: the removed row, or None when no row had that id. */
    method Destroy(id: int) returns (r: Result<Option<Row>>)
      requires Valid()
      modifies this
      ensures Valid() && nextId == old(nextId)
      ensures online ==> r == Ok(Lookup(old(rows), id)) && rows == old(rows) - {id}
      ensures !online ==> r == Reject(StorageFailure) && rows == old(rows)
    {
      if !online {
        return Reject(StorageFailure);
      }
      r := Ok(Lookup(rows, id));
      rows := rows - {id};
    }

    /** `count()` */
    method Count() returns (r: Result<nat>)
      ensures r == if online then Ok(|rows|) else Reject(StorageFailure)
    {
      if !online {
        return Reject(StorageFailure);
      }
      return Ok(|rows|);
    }

    /** `findAll(q)`: the window of the ordered listing, as the entries the backend hands back. */
    method FindAll(q: Query) returns (r: Result<seq<Option<Row>>>)
      ensures r == if online then Ok(Entries(Window(Listing(), q))) else Reject(StorageFailure)
    {
      if !online {
        return Reject(StorageFailure);
      }
      return Ok(Entries(Window(Listing(), q)));
    }

    /** The listing holds every row exactly once, so `count()` is its length. */
    lemma ListingMatchesCount()
      requires Valid()
      ensures |Listing()| == |rows|
    {
      AscendingCount(rows, 1, nextId);
      assert KeysIn(rows, 1, nextId) == rows.Keys;
    }
  }
}
