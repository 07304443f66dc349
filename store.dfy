/** The recordings object store of src/lib/indexeddb.ts: one object store
    keyed by `id` with a key generator (`autoIncrement`). Following section
    2.11 of the W3C Indexed Database API, the generator's current number
    starts at 1, each generated key is the current number, and the number
    then goes up by one; deleting records never lowers it, so keys are never
    handed out twice.

    Opening the database is not modelled: each operation takes a `fault`
    argument, `Some(message)` when the browser's storage layer fails the
    request, and then the promise rejects with that message. */
module Store {
  import opened Types

  /** The store's contents: records by key, and the generator's current number. */
  datatype StoreState = StoreState(rows: map<int, Recording>, current: int)

  const Empty: StoreState := StoreState(map[], 1)

  /** Every record is stored under its own `id`. */
  predicate KeyedById(rows: map<int, Recording>)
  {
    forall k :: k in rows ==> rows[k].id == k
  }

  /** Every key was generated: it lies between 1 and the current number. */
  predicate WellFormed(s: StoreState)
  {
    && 1 <= s.current
    && KeyedById(s.rows)
    && forall k :: k in s.rows ==> 1 <= k < s.current
  }

  /** `store.add(recording)` of a record without key: it is stored under the
      generator's current number, which then advances. */
  function Added(s: StoreState, d: Draft): (r: StoreState)
    requires WellFormed(s)
    ensures WellFormed(r)
    ensures s.current !in s.rows
    ensures r.rows.Keys == s.rows.Keys + {s.current}
    ensures r.rows[s.current] == WithId(d, s.current)
    ensures forall k :: k in s.rows ==> r.rows[k] == s.rows[k]
    ensures r.current > s.current
  {
    StoreState(s.rows[s.current := WithId(d, s.current)], s.current + 1)
  }

  /** `store.delete(id)`: that key is gone whether or not it was there; no
      other record and not the generator changes. */
  function Removed(s: StoreState, id: int): (r: StoreState)
    requires WellFormed(s)
    ensures WellFormed(r)
    ensures r.rows.Keys == s.rows.Keys - {id}
    ensures forall k :: k in r.rows ==> r.rows[k] == s.rows[k]
    ensures r.current == s.current
  {
    StoreState(s.rows - {id}, s.current)
  }

  /** `store.get(id)`: the record under that key, or none. */
  function Lookup(s: StoreState, id: int): (r: Option<Recording>)
    requires WellFormed(s)
    ensures r.Some? <==> id in s.rows
    ensures r.Some? ==> r.value == s.rows[id] && r.value.id == id
  {
    if id in s.rows then Some(s.rows[id]) else None
  }

  /** The records with keys in [lo, hi), in ascending key order: each one
      once, nothing else. */
  function InKeyOrder(rows: map<int, Recording>, lo: int, hi: int): (r: seq<Recording>)
    requires KeyedById(rows)
    ensures forall i :: 0 <= i < |r| ==> r[i].id in rows && rows[r[i].id] == r[i] && lo <= r[i].id < hi
    ensures forall i, j :: 0 <= i < j < |r| ==> r[i].id < r[j].id
    ensures forall k :: lo <= k < hi && k in rows ==> rows[k] in r
    decreases hi - lo
  {
    if lo >= hi then []
    else if lo in rows then [rows[lo]] + InKeyOrder(rows, lo + 1, hi)
    else InKeyOrder(rows, lo + 1, hi)
  }

  /** `store.getAll()`: every record, in ascending key order. */
  function AllRecords(s: StoreState): (r: seq<Recording>)
    requires WellFormed(s)
    ensures forall i :: 0 <= i < |r| ==> r[i].id in s.rows && s.rows[r[i].id] == r[i]
    ensures forall i, j :: 0 <= i < j < |r| ==> r[i].id < r[j].id
    ensures forall k :: k in s.rows ==> s.rows[k] in r
  {
    InKeyOrder(s.rows, 1, s.current)
  }

  /** A record under a key just above the range comes last once the range
      is widened to include it. */
  lemma {:induction false} InKeyOrderExtend(rows: map<int, Recording>, lo: int, hi: int, rec: Recording)
    requires KeyedById(rows) && rec.id == hi && lo <= hi
    ensures InKeyOrder(rows[hi := rec], lo, hi + 1) == InKeyOrder(rows, lo, hi) + [rec]
    decreases hi - lo
  {
    var rows' := rows[hi := rec];
    if lo == hi {
      assert InKeyOrder(rows', hi + 1, hi + 1) == [];
    } else {
      InKeyOrderExtend(rows, lo + 1, hi, rec);
    }
  }

  /** After an add, the listing is the old listing followed by the new
      record: a newly saved recording is the last in key order. */
  lemma AddAppendsNewest(s: StoreState, d: Draft)
    requires WellFormed(s)
    ensures AllRecords(Added(s, d)) == AllRecords(s) + [WithId(d, s.current)]
  {
    InKeyOrderExtend(s.rows, 1, s.current, WithId(d, s.current));
  }

  /** A record read back right after it was added is the draft plus its key;
      after a delete the key reads as absent. */
  lemma AddThenGet(s: StoreState, d: Draft)
    requires WellFormed(s)
    ensures Lookup(Added(s, d), s.current) == Some(WithId(d, s.current))
    ensures forall k :: k != s.current ==> Lookup(Added(s, d), k) == Lookup(s, k)
  {
  }

  lemma DeleteThenGet(s: StoreState, id: int)
    requires WellFormed(s)
    ensures Lookup(Removed(s, id), id) == None
    ensures forall k :: k != id ==> Lookup(Removed(s, id), k) == Lookup(s, k)
  {
  }

  // ---------------------------------------------------------------------
  // Key generation over any sequence of successful adds and deletes.

  datatype StoreOp = Add(draft: Draft) | Delete(id: int)

  /** The final state and, in order, the keys given to the added records. */
  datatype Replay = Replay(state: StoreState, issued: seq<int>)

  function Apply(s: StoreState, ops: seq<StoreOp>): (r: Replay)
    requires WellFormed(s)
    ensures WellFormed(r.state)
    decreases |ops|
  {
    if ops == [] then Replay(s, [])
    else
      match ops[0]
      case Add(d) =>
        var rest := Apply(Added(s, d), ops[1..]);
        Replay(rest.state, [s.current] + rest.issued)
      case Delete(id) => Apply(Removed(s, id), ops[1..])
  }

  /** Generated keys strictly increase and are never handed out again, even
      after the records that held them were deleted: each is at least the
      current number at the start (so none collides with a key ever used
      before), and the number ends above all of them. */
  lemma {:induction false} KeysNeverReused(s: StoreState, ops: seq<StoreOp>)
    requires WellFormed(s)
    ensures forall i, j :: 0 <= i < j < |Apply(s, ops).issued| ==> Apply(s, ops).issued[i] < Apply(s, ops).issued[j]
    ensures forall i :: 0 <= i < |Apply(s, ops).issued| ==> s.current <= Apply(s, ops).issued[i] < Apply(s, ops).state.current
    ensures s.current <= Apply(s, ops).state.current
    decreases |ops|
  {
    if ops != [] {
      match ops[0]
      case Add(d) =>
        KeysNeverReused(Added(s, d), ops[1..]);
      case Delete(id) =>
        KeysNeverReused(Removed(s, id), ops[1..]);
    }
  }

  // ---------------------------------------------------------------------
  // The object store.

  class RecordingStore {
    var rows: map<int, Recording>
    /** The key generator's current number. */
    var current: int

    ghost function Snapshot(): StoreState
      reads this
    {
      StoreState(rows, current)
    }

    ghost predicate Valid()
      reads this
    {
      WellFormed(Snapshot())
    }

    /** A freshly created object store: empty, generator at 1. */
    constructor ()
      ensures Valid() && Snapshot() == Empty
    {
      rows := map[];
      current := 1;
    }

    /** `saveRecording`: resolves with no value (the caller never learns the
        key) or rejects with the storage error, leaving the store as it was. */
    method SaveRecording(d: Draft, fault: Option<string>) returns (res: Result<(), string>)
      requires Valid()
      modifies this
      ensures Valid()
      ensures fault.None? ==> res == Ok(()) && Snapshot() == Added(old(Snapshot()), d)
      ensures fault.Some? ==> res == Err(fault.value) && Snapshot() == old(Snapshot())
    {
      if fault.Some? {
        return Err(fault.value);
      }
      rows := rows[current := WithId(d, current)];
      current := current + 1;
      res := Ok(());
    }

    /** `getAllRecordings`: a read-only request for every record in
        ascending key order. */
    method GetAllRecordings(fault: Option<string>) returns (res: Result<seq<Recording>, string>)
      requires Valid()
      ensures fault.Some? ==> res == Err(fault.value)
      ensures fault.None? ==> res.Ok?
      ensures res.Ok? ==> forall i, j :: 0 <= i < j < |res.value| ==> res.value[i].id < res.value[j].id
      ensures res.Ok? ==> forall i :: 0 <= i < |res.value| ==> res.value[i].id in rows && rows[res.value[i].id] == res.value[i]
      ensures res.Ok? ==> forall k :: k in rows ==> rows[k] in res.value
      ensures res.Ok? ==> res.value == AllRecords(Snapshot())
    {
      if fault.Some? {
        return Err(fault.value);
      }
      res := Ok(AllRecords(StoreState(rows, current)));
    }

    /** `getRecording`: a read-only request; the record, or null when no
        record has that key. */
    method GetRecording(id: int, fault: Option<string>) returns (res: Result<Option<Recording>, string>)
      requires Valid()
      ensures fault.Some? ==> res == Err(fault.value)
      ensures fault.None? ==> res.Ok?
      ensures res.Ok? ==> (res.value.Some? <==> id in rows)
      ensures res.Ok? && res.value.Some? ==> res.value.value == rows[id] && res.value.value.id == id
    {
      if fault.Some? {
        return Err(fault.value);
      }
      if id in rows {
        res := Ok(Some(rows[id]));
      } else {
        res := Ok(None);
      }
    }

    /** `deleteRecording`: succeeds whether or not the key was present; there
        is no not-found signal. */
    method DeleteRecording(id: int, fault: Option<string>) returns (res: Result<(), string>)
      requires Valid()
      modifies this
      ensures Valid()
      ensures fault.None? ==> res == Ok(()) && Snapshot() == Removed(old(Snapshot()), id)
      ensures fault.Some? ==> res == Err(fault.value) && Snapshot() == old(Snapshot())
    {
      if fault.Some? {
        return Err(fault.value);
      }
      rows := rows - {id};
      res := Ok(());
    }
  }
}
