/**
 * The forward-only scanner.  It snapshots the store's id listing, its length
 * and a position, moves the position with `Scan` and reads the record at the
 * position through the store.
 */
module Scanning {
  import opened Wrappers
  import opened Errors
  import opened Entries
  import opened JsonDb
  import opened Caching

  /**
   * One `Scan` over `n` ids from position `pos`: whether it moved, and the
   * position afterwards.
   */
  function ScanStep(pos: int, n: int): (bool, int)
  {
    if pos < n - 1 then (true, pos + 1) else (false, pos)
  }

  /** What `k` successive `Scan` calls from `pos` return. */
  function Scans(pos: int, n: int, k: nat): seq<bool>
    decreases k
  {
    if k == 0 then []
    else
      var (moved, next) := ScanStep(pos, n);
      [moved] + Scans(next, n, k - 1)
  }

  /** The position after `k` successive `Scan` calls from `pos`. */
  function PosAfter(pos: int, n: int, k: nat): int
    decreases k
  {
    if k == 0 then pos else PosAfter(ScanStep(pos, n).1, n, k - 1)
  }

  /**
   * The `i`-th of successive `Scan` calls from `pos` returns true exactly
   * when `pos + i < n - 1`: the calls move while there is an id after the
   * current one and, once one returns false, every later one does too.
   */
  lemma {:induction false} ScansFrom(pos: int, n: int, k: nat)
    ensures |Scans(pos, n, k)| == k
    ensures forall i :: 0 <= i < k ==> (Scans(pos, n, k)[i] <==> pos + i < n - 1)
    decreases k
  {
    if k > 0 {
      var (moved, next) := ScanStep(pos, n);
      ScansFrom(next, n, k - 1);
      assert Scans(pos, n, k) == [moved] + Scans(next, n, k - 1);
    }
  }

  /**
   * After `k` calls the position has moved by one per true result and never
   * leaves the snapshot: it is `pos + k` capped at the last index.
   */
  lemma {:induction false} PosAfterScans(pos: int, n: int, k: nat)
    requires 0 <= pos
    requires pos < n || pos == 0
    ensures PosAfter(pos, n, k) == if pos + k < n - 1 then pos + k else if pos < n - 1 then n - 1 else pos
    ensures pos <= PosAfter(pos, n, k)
    decreases k
  {
    if k > 0 {
      PosAfterScans(ScanStep(pos, n).1, n, k - 1);
    }
  }

  /**
   * A fresh scanner over `n >= 1` ids: its first `n - 1` calls to `Scan`
   * return true and every later call returns false, while the position ends
   * on the last id.
   */
  lemma FreshScannerMovesLengthMinusOneTimes(n: int, k: nat)
    requires 1 <= n
    ensures |Scans(0, n, k)| == k
    ensures forall i :: 0 <= i < k ==> (Scans(0, n, k)[i] <==> i < n - 1)
    ensures k >= n - 1 ==> PosAfter(0, n, k) == n - 1
  {
    ScansFrom(0, n, k);
    PosAfterScans(0, n, k);
  }

  /** An iterator over a snapshot of the decorator's id listing. */
  class Scanner {
    const db: CachingDb
    const ids: seq<string>
    var pos: int
    const length: int

    /** The snapshot's length is fixed, and the position stays on an id whenever there is one. */
    ghost predicate Valid()
      reads this
    {
      && length == |ids|
      && 0 <= pos
      && (pos < |ids| || pos == 0)
    }

    constructor (db: CachingDb, ids: seq<string>)
      ensures this.db == db && this.ids == ids
      ensures pos == 0 && length == |ids|
      ensures Valid()
    {
      this.db := db;
      this.ids := ids;
      pos := 0;
      length := |ids|;
    }

    /** Moves to the next id if there is one after the current position. */
    method Scan() returns (moved: bool)
      requires Valid()
      modifies this`pos
      ensures Valid()
      ensures (moved, pos) == ScanStep(old(pos), |ids|)
      ensures moved <==> old(pos) < |ids| - 1
      ensures pos == if moved then old(pos) + 1 else old(pos)
    {
      if pos < |ids| - 1 {
        pos := pos + 1;
        return true;
      }
      return false;
    }

    /** Reads the record at the current position through the decorator; an empty snapshot has none. */
    method Read(entry: Entry, fault: Fault) returns (result: Entry, err: Option<Error>)
      requires Valid() && db.Valid()
      requires pos < |ids|
      modifies db
      ensures db.Valid()
      ensures var (s, r) := CacheRead(old(db.State()), db.inner.records, ids[pos], entry, fault);
              db.State() == s && ReadReply(result, err) == r
    {
      result, err := db.Read(ids[pos], entry, fault);
    }

    /** The snapshot's length, fixed at construction. */
    method Length() returns (n: int)
      requires Valid()
      ensures n == |ids|
    {
      return length;
    }
  }

  /**
   * Builds a scanner over the decorator's current id listing, or returns the
   * listing's error and no scanner.
   */
  method NewScanner(db: CachingDb, fault: Fault) returns (s: Scanner?, err: Option<Error>)
    requires db.Valid()
    modifies db
    ensures db.Valid()
    ensures var (c, r) := CacheIds(old(db.State()), db.inner.records, fault);
            && db.State() == c && err == r.err
            && (err.Some? <==> s == null)
            && (s != null ==>
                  && fresh(s) && s.Valid() && s.db == db && s.pos == 0 && s.length == |s.ids|
                  && Distinct(s.ids) && (forall id :: id in s.ids <==> id in r.ids))
  {
    var ids;
    ids, err := db.Ids(fault);
    if err.Some? {
      return null, err;
    }
    s := new Scanner(db, ids);
  }

}
