/**
 * The caching decorator.  It forwards every mutation to the store it wraps
 * and changes its own maps only once that call has succeeded.  It keeps the
 * records it has seen, the set of ids it knows to exist, and a one-shot flag
 * saying whether that set has been seeded from the store's listing.
 */
module Caching {
  import opened Wrappers
  import opened Errors
  import opened Entries
  import opened JsonDb

  /** The decorator's own state: cached records, known ids, and the seeding flag. */
  datatype CacheState = CacheState(entries: map<string, Entry>, known: set<string>, initd: bool)

  /** A fresh decorator's state. */
  const EmptyCache := CacheState(map[], {}, false)

  /**
   * The invariant tying the decorator to the store it wraps (which it assumes
   * nobody else writes): every cached id is known, every known id has a
   * record, once seeded the known ids are exactly the records' ids, and a
   * cached record differs from the stored one at most in its id field.
   */
  predicate Coherent(c: CacheState, records: Records)
  {
    && c.entries.Keys <= c.known
    && c.known <= records.Keys
    && (c.initd ==> c.known == records.Keys)
    && forall id :: id in c.entries ==> c.entries[id].AssignId(id) == records[id].AssignId(id)
  }

  /** `Create`: forward, then cache the stamped entry under the returned id. */
  function CacheCreate(c: CacheState, records: Records, entry: Entry, newId: string, now: Time, fault: Fault)
    : (CacheState, CreateReply)
  {
    var r := CreateResult(records, entry, newId, now, fault);
    if r.err.Some? then (c, r)
    else (c.(entries := c.entries[r.id := r.entry], known := c.known + {r.id}), r)
  }

  /** `Delete`: forward, then forget the id. */
  function CacheDelete(c: CacheState, records: Records, id: string, fault: Fault): (CacheState, DeleteReply)
  {
    var r := DeleteResult(records, id, fault);
    if r.err.Some? then (c, r)
    else (c.(entries := c.entries - {id}, known := c.known - {id}), r)
  }

  /** `Read`: answer from the cache if the id is cached, otherwise forward and cache the result. */
  function CacheRead(c: CacheState, records: Records, id: string, entry: Entry, fault: Fault): (CacheState, ReadReply)
  {
    if id in c.entries then (c, ReadReply(c.entries[id], None))
    else
      var r := ReadResult(records, id, entry, fault);
      if r.err.Some? then (c, r)
      else (c.(entries := c.entries[id := r.entry], known := c.known + {id}), r)
  }

  /** `Update`: forward, then cache the stamped entry. */
  function CacheUpdate(c: CacheState, records: Records, id: string, entry: Entry, now: Time, fault: Fault)
    : (CacheState, UpdateReply)
  {
    var r := UpdateResult(records, id, entry, now, fault);
    if r.err.Some? then (c, r)
    else (c.(entries := c.entries[id := r.entry], known := c.known + {id}), r)
  }

  /** `ids`: seed the known ids from the store's listing once, then report the known ids. */
  function CacheIds(c: CacheState, records: Records, fault: Fault): (CacheState, IdsReply)
  {
    if c.initd then (c, IdsReply(c.known, None))
    else
      var r := IdsResult(records, fault);
      if r.err.Some? then (c, IdsReply({}, r.err))
      else
        var seeded := c.(known := c.known + r.ids, initd := true);
        (seeded, IdsReply(seeded.known, None))
  }

  /** One call made through the decorator. */
  datatype Op =
    | CreateOp(entry: Entry, newId: string, now: Time, fault: Fault)
    | ReadOp(id: string, entry: Entry, fault: Fault)
    | UpdateOp(id: string, entry: Entry, now: Time, fault: Fault)
    | DeleteOp(id: string, fault: Fault)
    | IdsOp(fault: Fault)

  /** The decorator's state, the store's records, and the error after one call. */
  datatype Effect = Effect(cache: CacheState, records: Records, err: Option<Error>)

  function Apply(c: CacheState, records: Records, op: Op): Effect
  {
    match op
    case CreateOp(entry, newId, now, fault) =>
      var (s, r) := CacheCreate(c, records, entry, newId, now, fault); Effect(s, r.records, r.err)
    case ReadOp(id, entry, fault) =>
      var (s, r) := CacheRead(c, records, id, entry, fault); Effect(s, records, r.err)
    case UpdateOp(id, entry, now, fault) =>
      var (s, r) := CacheUpdate(c, records, id, entry, now, fault); Effect(s, r.records, r.err)
    case DeleteOp(id, fault) =>
      var (s, r) := CacheDelete(c, records, id, fault); Effect(s, r.records, r.err)
    case IdsOp(fault) =>
      var (s, r) := CacheIds(c, records, fault); Effect(s, records, r.err)
  }

  /** The records after the same call is made on the store directly. */
  function Direct(records: Records, op: Op): Records
  {
    match op
    case CreateOp(entry, newId, now, fault) => CreateResult(records, entry, newId, now, fault).records
    case ReadOp(_, _, _) => records
    case UpdateOp(id, entry, now, fault) => UpdateResult(records, id, entry, now, fault).records
    case DeleteOp(id, fault) => DeleteResult(records, id, fault).records
    case IdsOp(_) => records
  }

  /** A sequence of calls made through the decorator. */
  function Run(c: CacheState, records: Records, ops: seq<Op>): (CacheState, Records)
    decreases |ops|
  {
    if ops == [] then (c, records)
    else
      var e := Apply(c, records, ops[0]);
      Run(e.cache, e.records, ops[1..])
  }

  /** The same calls made on the store directly. */
  function RunDirect(records: Records, ops: seq<Op>): Records
    decreases |ops|
  {
    if ops == [] then records else RunDirect(Direct(records, ops[0]), ops[1..])
  }

  /**
   * The id a call concerns: the generated id for `Create`, the argument for
   * the others; `ids` concerns no single id.
   */
  function Target(op: Op): Option<string>
  {
    match op
    case CreateOp(_, newId, _, _) => Some(newId)
    case ReadOp(id, _, _) => Some(id)
    case UpdateOp(id, _, _, _) => Some(id)
    case DeleteOp(id, _) => Some(id)
    case IdsOp(_) => None
  }

  /**
   * Every call keeps the decorator coherent with the store, and leaves the
   * store exactly as the same call made directly would.
   */
  lemma StepKeepsCoherence(c: CacheState, records: Records, op: Op)
    requires Coherent(c, records)
    ensures Coherent(Apply(c, records, op).cache, Apply(c, records, op).records)
    ensures Apply(c, records, op).records == Direct(records, op)
  {
  }

  /** A call that returns an error leaves the decorator's state as it was. */
  lemma FailedStepLeavesCache(c: CacheState, records: Records, op: Op)
    requires Apply(c, records, op).err.Some?
    ensures Apply(c, records, op).cache == c
  {
  }

  /**
   * A call changes the cache only at the id it concerns; `ids` leaves the
   * cached records alone and only adds known ids.  No call clears the flag.
   */
  lemma StepTouchesOnlyTarget(c: CacheState, records: Records, op: Op, other: string)
    requires Target(op) != Some(other)
    ensures var s := Apply(c, records, op).cache;
            && (other in s.entries <==> other in c.entries)
            && (other in c.entries ==> s.entries[other] == c.entries[other])
            && (Target(op).Some? ==> (other in s.known <==> other in c.known))
            && c.known <= s.known + (if Target(op).Some? then {Target(op).value} else {})
            && (c.initd ==> s.initd)
  {
  }

  /**
   * A cache hit does not consult the store: its outcome is the cached record
   * whatever the store holds and however the filesystem would behave.
   */
  lemma ReadHitIsLocal(c: CacheState, records: Records, records': Records, id: string,
                       entry: Entry, entry': Entry, fault: Fault, fault': Fault)
    requires id in c.entries
    ensures CacheRead(c, records, id, entry, fault) == CacheRead(c, records', id, entry', fault')
    ensures CacheRead(c, records, id, entry, fault) == (c, ReadReply(c.entries[id], None))
  {
  }

  /** Two replies to a `Read` of `id` that differ at most in the entry's id field. */
  predicate SameUpToId(a: ReadReply, b: ReadReply, id: string)
  {
    a.err == b.err && a.entry.AssignId(id) == b.entry.AssignId(id)
  }

  /**
   * Under coherence a `Read` through the decorator, hit or miss, agrees with
   * a `Read` on the store itself up to the id field, and on a miss the two
   * calls are the same call.
   */
  lemma ReadAgrees(c: CacheState, records: Records, id: string, entry: Entry, fault: Fault)
    requires Coherent(c, records)
    ensures id !in c.entries ==> CacheRead(c, records, id, entry, fault).1 == ReadResult(records, id, entry, fault)
    ensures SameUpToId(CacheRead(c, records, id, entry, NoFault).1, ReadResult(records, id, entry, NoFault), id)
  {
  }

  /** Under coherence the decorator's listing holds exactly the store's ids. */
  lemma IdsAgree(c: CacheState, records: Records)
    requires Coherent(c, records)
    ensures CacheIds(c, records, NoFault).1 == IdsResult(records, NoFault)
  {
  }

  /**
   * Listing once seeded never consults the store: the known ids are returned
   * unchanged whatever the store holds and however the filesystem would behave.
   */
  lemma SeededIdsSkipStore(c: CacheState, records: Records, fault: Fault)
    requires c.initd
    ensures CacheIds(c, records, fault) == (c, IdsReply(c.known, None))
  {
  }

  /**
   * The first listing merges the store's ids into the known ids: on success
   * it never drops a known id and sets the flag; on failure it returns no ids
   * and changes nothing, so the next call tries again.
   */
  lemma FirstIdsMerges(c: CacheState, records: Records, fault: Fault)
    requires !c.initd
    ensures var (s, r) := CacheIds(c, records, fault);
            && (fault == NoFault ==> s == c.(known := c.known + records.Keys, initd := true) && r.ids == s.known)
            && (fault != NoFault ==> s == c && r == IdsReply({}, Some(fault.error)))
  {
  }

  /**
   * Write-then-read: after a successful `Create` returns `x`, reading `x`
   * through the decorator yields the stamped entry without consulting the
   * store and without changing anything.
   */
  lemma CreateThenReadHits(c: CacheState, records: Records, entry: Entry, newId: string, now: Time,
                           fault: Fault, target: Entry, readFault: Fault)
    requires fault == NoFault
    ensures var (s, r) := CacheCreate(c, records, entry, newId, now, fault);
            && r.id == newId
            && CacheRead(s, r.records, newId, target, readFault)
                 == (s, ReadReply(entry.(id := newId, created := Some(now)), None))
  {
  }

  /**
   * An id created after the known ids were seeded is listed by the next
   * `ids` call, although the store is not listed again.
   */
  lemma CreatedIdIsListed(c: CacheState, records: Records, entry: Entry, newId: string, now: Time, fault: Fault)
    requires fault == NoFault
    ensures var (s1, _) := CacheIds(c, records, NoFault);
            var (s2, r2) := CacheCreate(s1, records, entry, newId, now, fault);
            && s1.initd
            && newId in CacheIds(s2, r2.records, IoFault(IoFailure("unreadable directory"))).1.ids
  {
  }

  /** A run of calls keeps the decorator coherent and leaves the store as the direct run would. */
  lemma {:induction false} RunKeepsCoherence(c: CacheState, records: Records, ops: seq<Op>)
    requires Coherent(c, records)
    ensures Coherent(Run(c, records, ops).0, Run(c, records, ops).1)
    ensures Run(c, records, ops).1 == RunDirect(records, ops)
    decreases |ops|
  {
    if ops != [] {
      StepKeepsCoherence(c, records, ops[0]);
      var e := Apply(c, records, ops[0]);
      RunKeepsCoherence(e.cache, e.records, ops[1..]);
    }
  }

  /**
   * Transparency: after any run of calls through a fresh decorator, a `Read`
   * through it agrees with a `Read` on a store that received the same calls
   * directly, up to the entry's id field, and the decorator lists exactly
   * that store's ids.
   */
  lemma Transparency(records: Records, ops: seq<Op>, id: string, entry: Entry)
    ensures var (c, stored) := Run(EmptyCache, records, ops);
            var direct := RunDirect(records, ops);
            && SameUpToId(CacheRead(c, stored, id, entry, NoFault).1, ReadResult(direct, id, entry, NoFault), id)
            && CacheIds(c, stored, NoFault).1 == IdsResult(direct, NoFault)
  {
    RunKeepsCoherence(EmptyCache, records, ops);
    var (c, stored) := Run(EmptyCache, records, ops);
    ReadAgrees(c, stored, id, entry, NoFault);
    IdsAgree(c, stored);
  }

  /**
   * The cache keeps the entry an `Update` was given, whose id field need not
   * be the id it was stored under; the store assigns that id on every read.
   * So a cached read can differ from a direct read in the id field.
   */
  lemma UpdateKeepsCallersId()
    ensures var e := Entry("a", None, None, "payload");
            var ops := [CreateOp(e, "a", Time(1), NoFault), UpdateOp("a", e.(id := "b"), Time(2), NoFault)];
            var (c, stored) := Run(EmptyCache, map[], ops);
            && CacheRead(c, stored, "a", e, NoFault).1.entry.id == "b"
            && ReadResult(RunDirect(map[], ops), "a", e, NoFault).entry.id == "a"
  {
    var e := Entry("a", None, None, "payload");
    var create, update := CreateOp(e, "a", Time(1), NoFault), UpdateOp("a", e.(id := "b"), Time(2), NoFault);
    var ops := [create, update];
    var first := Apply(EmptyCache, map[], create);
    assert "a" in first.records;
    var second := Apply(first.cache, first.records, update);
    assert second.cache.entries["a"].id == "b";
    assert Run(EmptyCache, map[], ops) == Run(first.cache, first.records, [update]);
    assert Run(first.cache, first.records, [update]) == (second.cache, second.records);
  }

  /**
   * The caching decorator over a store.  Its maps are changed only after the
   * store's call has succeeded.
   */
  class CachingDb {
    const inner: Db
    var cachedEntries: map<string, Entry>
    var cachedIds: set<string>
    var initd: bool

    ghost function State(): CacheState
      reads this
    {
      CacheState(cachedEntries, cachedIds, initd)
    }

    ghost predicate Valid()
      reads this, inner
    {
      Coherent(State(), inner.records)
    }

    /** `Cache`: wrap a store, with nothing cached, nothing known and the flag clear. */
    constructor (db: Db)
      ensures inner == db
      ensures State() == EmptyCache
      ensures Valid()
    {
      inner := db;
      cachedEntries := map[];
      cachedIds := {};
      initd := false;
    }

    method Create(entry: Entry, newId: string, now: Time, fault: Fault)
      returns (id: string, result: Entry, err: Option<Error>)
      requires Valid()
      modifies this, inner
      ensures Valid()
      ensures var (s, r) := CacheCreate(old(State()), old(inner.records), entry, newId, now, fault);
              State() == s && inner.records == r.records && CreateReply(inner.records, id, result, err) == r
    {
      ghost var s0, r0 := State(), inner.records;
      id, result, err := inner.Create(entry, newId, now, fault);
      if err.Some? {
        return id, result, err;
      }
      cachedEntries := cachedEntries[id := result];
      cachedIds := cachedIds + {id};
      StepKeepsCoherence(s0, r0, CreateOp(entry, newId, now, fault));
    }

    method Delete(id: string, fault: Fault) returns (err: Option<Error>)
      requires Valid()
      modifies this, inner
      ensures Valid()
      ensures var (s, r) := CacheDelete(old(State()), old(inner.records), id, fault);
              State() == s && DeleteReply(inner.records, err) == r
    {
      ghost var s0, r0 := State(), inner.records;
      err := inner.Delete(id, fault);
      if err.Some? {
        return err;
      }
      cachedEntries := cachedEntries - {id};
      cachedIds := cachedIds - {id};
      StepKeepsCoherence(s0, r0, DeleteOp(id, fault));
    }

    /** Fills the caller's entry: from the cache on a hit, from the store on a miss. */
    method Read(id: string, entry: Entry, fault: Fault) returns (result: Entry, err: Option<Error>)
      requires Valid()
      modifies this
      ensures Valid()
      ensures var (s, r) := CacheRead(old(State()), inner.records, id, entry, fault);
              State() == s && ReadReply(result, err) == r
    {
      ghost var s0 := State();
      if id in cachedEntries {
        return cachedEntries[id], None;
      }
      result, err := inner.Read(id, entry, fault);
      if err.Some? {
        return result, err;
      }
      cachedEntries := cachedEntries[id := result];
      cachedIds := cachedIds + {id};
      StepKeepsCoherence(s0, inner.records, ReadOp(id, entry, fault));
    }

    method Update(id: string, entry: Entry, now: Time, fault: Fault) returns (result: Entry, err: Option<Error>)
      requires Valid()
      modifies this, inner
      ensures Valid()
      ensures var (s, r) := CacheUpdate(old(State()), old(inner.records), id, entry, now, fault);
              State() == s && UpdateReply(inner.records, result, err) == r
    {
      ghost var s0, r0 := State(), inner.records;
      result, err := inner.Update(id, entry, now, fault);
      if err.Some? {
        return result, err;
      }
      cachedEntries := cachedEntries[id := result];
      cachedIds := cachedIds + {id};
      StepKeepsCoherence(s0, r0, UpdateOp(id, entry, now, fault));
    }

    /** Lists every known id exactly once, seeding the known ids from the store on the first successful call. */
    method Ids(fault: Fault) returns (ids: seq<string>, err: Option<Error>)
      requires Valid()
      modifies this
      ensures Valid()
      ensures var (s, r) := CacheIds(old(State()), inner.records, fault);
              && State() == s && err == r.err
              && Distinct(ids) && (forall id :: id in ids <==> id in r.ids)
    {
      ghost var s0 := State();
      if !initd {
        var listed, listErr := inner.Ids(fault);
        if listErr.Some? {
          return [], listErr;
        }
        var i := 0;
        while i < |listed|
          invariant 0 <= i <= |listed|
          invariant cachedIds == old(cachedIds) + set id | id in listed[..i]
          invariant cachedEntries == old(cachedEntries) && initd == old(initd)
        {
          cachedIds := cachedIds + {listed[i]};
          i := i + 1;
        }
        assert listed[..i] == listed;
        initd := true;
      }
      ids := Enumerate(cachedIds);
      err := None;
      StepKeepsCoherence(s0, inner.records, IdsOp(fault));
    }
  }

}
