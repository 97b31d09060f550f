/** The data-access layer for labelled sample points: pagination arithmetic,
    the in-memory store used in development, the mapping of a refused
    database connection to a fixed error, and the lazily created pool.
    Postgres itself is not modelled: the pool is an opaque token, and what a
    query returns or throws is given to each operation as an input. */
module Db {
  import opened Arith
  import opened Wrappers

  /** One stored point. The source's `value` is a JavaScript number; here it is an integer. */
  datatype SamplePoint = SamplePoint(id: int, labelText: string, value: int)

  /** The database pool, opaque. */
  datatype Pool = Pool(token: nat)

  /** What a thrown database error looks like to the classifier: a falsy value,
      or an error with an optional `code` and its `message` ("" when absent). */
  datatype DbError = Falsy | Raised(code: Option<string>, message: string)

  /** What a query did: returned rows, or threw. */
  datatype Query = Rows(rows: seq<SamplePoint>) | QueryFailed(error: DbError)

  const InitialStore: seq<SamplePoint> := [
    SamplePoint(1, "Jan", 33), SamplePoint(2, "Feb", 42), SamplePoint(3, "Mar", 28),
    SamplePoint(4, "Apr", 51), SamplePoint(5, "May", 44), SamplePoint(6, "Jun", 62)
  ]

  const DefaultPage: int := 1
  const DefaultPageLimit: int := 10
  const MaxPageLimit: int := 100

  const ConnRefusedCode: string := "ECONNREFUSED"
  const ConnRefusedMessage: string :=
    "Database connection refused (ECONNREFUSED). Is Postgres running and is DATABASE_URL configured?"
  /** The error every refused connection is reported as. */
  const ConnectionRefused: DbError := Raised(Some(ConnRefusedCode), ConnRefusedMessage)

  // ---------------------------------------------------------------- pagination

  /** The clamped page size: between 1 and 100, the requested one when it is
      in range, else the nearest bound. */
  function SafeLimit(limit: int): (r: int)
    ensures 1 <= r <= MaxPageLimit
    ensures 1 <= limit <= MaxPageLimit ==> r == limit
    ensures limit < 1 ==> r == 1
    ensures limit > MaxPageLimit ==> r == MaxPageLimit
  {
    Min(if limit >= 1 then limit else 1, MaxPageLimit)
  }

  /** The clamped page: pages are counted from 1; anything lower is page 1. */
  function SafePage(page: int): (r: int)
    ensures r >= 1
    ensures page >= 1 ==> r == page
    ensures page < 1 ==> r == 1
  {
    if page >= 1 then page else 1
  }

  /** The rows skipped: exactly the whole pages before the requested one. */
  function Offset(page: int, limit: int): (o: nat)
    ensures o % SafeLimit(limit) == 0
    ensures o / SafeLimit(limit) == SafePage(page) - 1
  {
    var o := (SafePage(page) - 1) * SafeLimit(limit);
    MulDivides(SafePage(page) - 1, SafeLimit(limit));
    o
  }

  lemma MulDivides(q: nat, d: int)
    requires d >= 1
    ensures (q * d) % d == 0 && (q * d) / d == q
  {
    var x := q * d;
    var k := q - x / d;
    assert x == d * (x / d) + x % d;
    assert d * k == x % d by {
      assert d * k == d * q - d * (x / d);
    }
  }

  /** `Array.prototype.slice(from, to)` for non-negative bounds: both clamp to
      the length, and crossed bounds give the empty sequence. */
  function Slice<T>(s: seq<T>, from: nat, to: nat): (r: seq<T>)
    ensures |r| == if Min(from, |s|) < Min(to, |s|) then Min(to, |s|) - Min(from, |s|) else 0
    ensures forall k :: 0 <= k < |r| ==> r[k] == s[from + k]
  {
    var a := Min(from, |s|);
    var b := Min(to, |s|);
    if a < b then s[a..b] else []
  }

  /** The in-memory page: at most a page size of points, being the store's
      points from the offset on, in order. */
  function MemoryPage(store: seq<SamplePoint>, page: int, limit: int): (r: seq<SamplePoint>)
    ensures |r| <= SafeLimit(limit)
    ensures |r| == if Offset(page, limit) >= |store| then 0 else Min(SafeLimit(limit), |store| - Offset(page, limit))
    ensures forall k :: 0 <= k < |r| ==> r[k] == store[Offset(page, limit) + k]
  {
    var o := Offset(page, limit);
    Slice(store, o, o + SafeLimit(limit))
  }

  /** The call without arguments reads the first ten rows. */
  lemma PaginationDefaults()
    ensures SafeLimit(DefaultPageLimit) == 10 && Offset(DefaultPage, DefaultPageLimit) == 0
  {
  }

  /** Out-of-range requests are pulled into range: page -1 of size 200 is the
      first 100 rows, and page 2 of size 10 skips ten rows. */
  lemma PaginationClamps()
    ensures SafeLimit(200) == 100 && Offset(-1, 200) == 0
    ensures SafeLimit(10) == 10 && Offset(2, 10) == 10
  {
  }

  /** Ids that grow strictly along the store. */
  ghost predicate IdsIncrease(store: seq<SamplePoint>) {
    forall i, j :: 0 <= i < j < |store| ==> store[i].id < store[j].id
  }

  /** In a store whose ids grow, two non-empty pages at different offsets
      begin with different points, the later offset with the larger id. */
  lemma PagesStartApart(store: seq<SamplePoint>, p1: int, l1: int, p2: int, l2: int)
    requires IdsIncrease(store)
    requires MemoryPage(store, p1, l1) != [] && MemoryPage(store, p2, l2) != []
    requires Offset(p1, l1) < Offset(p2, l2)
    ensures MemoryPage(store, p1, l1)[0].id < MemoryPage(store, p2, l2)[0].id
  {
    assert MemoryPage(store, p1, l1)[0] == store[Offset(p1, l1)];
    assert MemoryPage(store, p2, l2)[0] == store[Offset(p2, l2)];
  }

  /** The store's ids are `1, 2, ..., n` and the next id is `n + 1`. */
  ghost predicate DenseIds(store: seq<SamplePoint>, nextId: int) {
    && (forall k :: 0 <= k < |store| ==> store[k].id == k + 1)
    && nextId == |store| + 1
  }

  /** Dense ids grow strictly, never reach the next id, and are unique. */
  lemma DenseIdsIncrease(store: seq<SamplePoint>, nextId: int)
    requires DenseIds(store, nextId)
    ensures IdsIncrease(store)
    ensures forall k :: 0 <= k < |store| ==> store[k].id < nextId
  {
  }

  /** Appending the point with the next id keeps the ids dense. */
  lemma AppendKeepsDense(store: seq<SamplePoint>, nextId: int, labelText: string, value: int)
    requires DenseIds(store, nextId)
    ensures DenseIds(store + [SamplePoint(nextId, labelText, value)], nextId + 1)
  {
    var s' := store + [SamplePoint(nextId, labelText, value)];
    forall k | 0 <= k < |s'| ensures s'[k].id == k + 1 {
      if k < |store| { assert s'[k] == store[k]; }
    }
  }

  // ---------------------------------------------------------- error mapping

  /** `t` occurs in `s` starting at the non-negative index `i`. */
  ghost predicate OccursAt(s: string, t: string, i: int) {
    0 <= i && i + |t| <= |s| && s[i..i + |t|] == t
  }

  /** The regular-expression test of `s` against a pattern `t` that has no
      special characters: does `t` occur somewhere in `s`? */
  function Contains(s: string, t: string): (r: bool)
    // a match needs room for the pattern, and a match at the start is found
    ensures r ==> |t| <= |s|
    ensures |t| <= |s| && s[..|t|] == t ==> r
    decreases |s|
  {
    if |s| < |t| then false else s[..|t|] == t || Contains(s[1..], t)
  }

  /** `Contains` finds `t` exactly when it occurs somewhere in `s`. */
  lemma {:induction false} ContainsIff(s: string, t: string)
    ensures Contains(s, t) <==> exists i :: OccursAt(s, t, i)
    decreases |s|
  {
    if |s| < |t| {
      forall i ensures !OccursAt(s, t, i) { }
    } else if s[..|t|] == t {
      assert OccursAt(s, t, 0);
    } else {
      ContainsIff(s[1..], t);
      if exists i :: OccursAt(s[1..], t, i) {
        var i :| OccursAt(s[1..], t, i);
        assert s[1..][i..i + |t|] == s[i + 1..i + 1 + |t|];
        assert OccursAt(s, t, i + 1);
      }
      if exists i :: OccursAt(s, t, i) {
        var i :| OccursAt(s, t, i);
        assert i != 0;
        assert s[1..][i - 1..i - 1 + |t|] == s[i..i + |t|];
        assert OccursAt(s[1..], t, i - 1);
      }
    }
  }

  /** A refused connection: a thrown error (not a falsy value) whose code is
      ECONNREFUSED or whose message mentions ECONNREFUSED. */
  predicate IsConnectionRefused(e: DbError)
    // a falsy value never counts, and the fixed error itself does
    ensures IsConnectionRefused(e) ==> e.Raised?
    ensures e == ConnectionRefused ==> IsConnectionRefused(e)
    // the code alone is enough, whatever the message says
    ensures e.Raised? && e.code == Some(ConnRefusedCode) ==> IsConnectionRefused(e)
  {
    e.Raised? && (e.code == Some(ConnRefusedCode) || Contains(e.message, ConnRefusedCode))
  }

  /** What the catch block rethrows: a refused connection becomes the fixed
      error with the ECONNREFUSED code, anything else, falsy values included,
      is rethrown unchanged. */
  function MapError(e: DbError): (r: DbError)
    ensures r == ConnectionRefused <==> IsConnectionRefused(e)
    ensures !IsConnectionRefused(e) ==> r == e
    ensures r.Raised? <==> e.Raised?
  {
    if IsConnectionRefused(e) then ConnectionRefused else e
  }

  /** Mapping an already mapped error changes nothing more. */
  lemma MapErrorIdempotent(e: DbError)
    ensures MapError(MapError(e)) == MapError(e)
  {
  }

  /** The code alone, or the word in the message alone, marks a refused connection. */
  lemma ConnectionRefusedExamples(code: Option<string>)
    ensures MapError(Raised(Some("ECONNREFUSED"), "connection refused")) == ConnectionRefused
    ensures MapError(Raised(code, "ECONNREFUSED in message")) == ConnectionRefused
    ensures MapError(Falsy) == Falsy
  {
    assert "ECONNREFUSED in message"[..|ConnRefusedCode|] == ConnRefusedCode;
  }

  /** A thrown error whose code is not ECONNREFUSED and whose message never
      mentions it is rethrown as it is. */
  lemma OtherErrorsUnchanged(code: Option<string>, message: string)
    requires code != Some(ConnRefusedCode)
    requires forall i :: !OccursAt(message, ConnRefusedCode, i)
    ensures MapError(Raised(code, message)) == Raised(code, message)
  {
    ContainsIff(message, ConnRefusedCode);
  }

  /** How an operation on the Postgres path settles on its query: the rows,
      shaped by `rows`, or the query's error passed through the catch block. */
  function Settle<T>(q: Query, rows: seq<SamplePoint> -> T): (r: Result<T, DbError>)
    // it fails exactly when the query threw
    ensures r.Err? <==> q.QueryFailed?
    ensures r.Ok? ==> r.value == rows(q.rows)
    // the error is the fixed one exactly for a refused connection, else the query's own
    ensures r.Err? ==> (r.error == ConnectionRefused <==> IsConnectionRefused(q.error))
    ensures r.Err? && !IsConnectionRefused(q.error) ==> r.error == q.error
  {
    match q
    case Rows(rs) => Ok(rows(rs))
    case QueryFailed(e) => Err(MapError(e))
  }

  /** The first returned row, none (undefined) when no row came back. */
  function FirstRow(rows: seq<SamplePoint>): (r: Option<SamplePoint>)
    ensures r.None? <==> rows == []
    ensures r.Some? ==> r.value == rows[0]
  {
    if rows == [] then None else Some(rows[0])
  }

  /** The pool after a `getPool()` call: kept when there is one, created with
      `created` when there is none, untouched in memory mode. */
  function PoolAfter(inMemory: bool, pool: Option<Pool>, created: Pool): (r: Option<Pool>)
    ensures inMemory || pool.Some? ==> r == pool
    ensures !inMemory ==> r.Some?
  {
    if inMemory || pool.Some? then pool else Some(created)
  }

  // ------------------------------------------------------------ module state

  /** The module-level state: the in-memory store with its next id, and the
      pool. `useInMemoryStore` is the configuration switch. `created` inputs
      stand for the pool `new Pool()` would make. */
  class Database {
    const useInMemoryStore: bool
    var memStore: seq<SamplePoint>
    var nextId: int
    var pool: Option<Pool>

    ghost predicate Valid()
      reads this
    {
      DenseIds(memStore, nextId)
    }

    /** The module as loaded: six points with ids 1 to 6, next id 7, no pool. */
    constructor (useInMemoryStore: bool)
      ensures Valid()
      ensures this.useInMemoryStore == useInMemoryStore
      ensures memStore == InitialStore && nextId == 7 && pool == None
    {
      this.useInMemoryStore := useInMemoryStore;
      memStore := InitialStore;
      nextId := |InitialStore| + 1;
      pool := None;
    }

    /** `getPool()`: nothing in memory mode; otherwise the one pool, created
        on the first call that finds none. */
    method GetPool(created: Pool) returns (p: Option<Pool>)
      modifies this`pool
      ensures pool == PoolAfter(useInMemoryStore, old(pool), created)
      ensures p == if useInMemoryStore then None else pool
    {
      if useInMemoryStore {
        return None;
      }
      if pool.None? {
        pool := Some(created);
      }
      p := pool;
    }

    /** `setPoolForTests(p)`: replace the pool. */
    method SetPoolForTests(p: Option<Pool>)
      modifies this`pool
      ensures pool == p
    {
      pool := p;
    }

    /** `getAllSamplePoints()`: in memory a copy of the store, else the query's rows. */
    method GetAllSamplePoints(created: Pool, query: Query) returns (r: Result<seq<SamplePoint>, DbError>)
      modifies this`pool
      ensures pool == PoolAfter(useInMemoryStore, old(pool), created)
      ensures useInMemoryStore ==> r == Ok(memStore)
      ensures !useInMemoryStore ==> r == Settle(query, rs => rs)
    {
      var p := GetPool(created);
      if p.None? {
        return Ok(memStore);
      }
      match query
      case Rows(rs) => r := Ok(rs);
      case QueryFailed(e) => r := Err(MapError(e));
    }

    /** `insertSamplePoint(label, value)`: in memory, append the point with the
        next id and advance the id; otherwise the first returned row. `query`
        is what the INSERT does with these two parameters. */
    method InsertSamplePoint(labelText: string, value: int, created: Pool, query: (string, int) -> Query)
      returns (r: Result<Option<SamplePoint>, DbError>)
      requires Valid()
      modifies this`pool, this`memStore, this`nextId
      ensures Valid()
      ensures pool == PoolAfter(useInMemoryStore, old(pool), created)
      ensures useInMemoryStore ==>
                && r == Ok(Some(SamplePoint(old(nextId), labelText, value)))
                && memStore == old(memStore) + [SamplePoint(old(nextId), labelText, value)]
                && nextId == old(nextId) + 1
      ensures !useInMemoryStore ==>
                && r == Settle(query(labelText, value), FirstRow)
                && memStore == old(memStore) && nextId == old(nextId)
    {
      var p := GetPool(created);
      if p.None? {
        var item := SamplePoint(nextId, labelText, value);
        AppendKeepsDense(memStore, nextId, labelText, value);
        nextId := nextId + 1;
        memStore := memStore + [item];
        return Ok(Some(item));
      }
      match query(labelText, value)
      case Rows(rs) => r := Ok(FirstRow(rs));
      case QueryFailed(e) => r := Err(MapError(e));
    }

    /** `getSamplePointsPaginated(page, limit)`: in memory the page's slice of
        the store; otherwise what the query returns for the clamped page size
        and the offset. `query(limit, offset)` is what the SELECT does. */
    method GetSamplePointsPaginated(page: int, limit: int, created: Pool, query: (int, int) -> Query)
      returns (r: Result<seq<SamplePoint>, DbError>)
      modifies this`pool
      ensures pool == PoolAfter(useInMemoryStore, old(pool), created)
      ensures useInMemoryStore ==> r == Ok(MemoryPage(memStore, page, limit))
      ensures !useInMemoryStore ==> r == Settle(query(SafeLimit(limit), Offset(page, limit)), rs => rs)
    {
      var p := GetPool(created);
      var safeLimit := Min(if limit >= 1 then limit else 1, MaxPageLimit);
      var safePage := if page >= 1 then page else 1;
      var offset := (safePage - 1) * safeLimit;
      if p.None? {
        return Ok(Slice(memStore, offset, offset + safeLimit));
      }
      match query(safeLimit, offset)
      case Rows(rs) => r := Ok(rs);
      case QueryFailed(e) => r := Err(MapError(e));
    }
  }
}
