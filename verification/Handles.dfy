/**
  What an agent's single handle does to overlapping requests for its guest:
  exactly when reference counts stop counting holders, that held mounts are
  safe until then, and a held mount that is stolen afterwards.
 */
module Handles {
  import opened Options
  import opened Slots
  import opened Timevals
  import opened Devices
  import opened MountCache
  import opened Clients
  import opened Overlap

  /** A release through a handle that is not of the slot its client holds. */
  predicate Misreleases(s: State, op: Op)
    requires Possible(s, op)
  {
    op.Unmount? &&
    var Holding(v, i) := s.clients[op.c];
    !(v in s.mountdev && s.mountdev[v] == i)
  }

  // ------------------------------------------------------------- the invariant

  predicate Allotted(t: Table) {
    forall i :: 0 <= i < DEVMAX ==> (t[i].locked <==> t[i].vmi.Some?)
  }

  /** Like `ClientOk`, but other requests for the guest may be in flight and the handle may be of another slot. */
  predicate LooseOk(s: State, c: Client)
    requires c in s.clients
  {
    match s.clients[c]
    case Idle => true
    case Holding(v, i) => s.cache.slots[i].vmi == Some(v) && v in s.mountdev && 0 <= s.mountdev[v] < DEVMAX
    case Spinning(_, b) => 0 <= b.max < STEAL_AGE && forall i :: 0 <= i < DEVMAX ==> s.cache.slots[i].locked
  }

  predicate AllLooseOk(s: State) {
    forall c :: c in s.clients ==> LooseOk(s, c)
  }

  predicate LooseInv(site: Site, s: State) {
    Allotted(s.cache.slots) && Mounted(site, s.cache) && Counted(s) && AllLooseOk(s)
  }

  lemma StartIsLoose(site: Site, s: State)
    requires Start(s)
    ensures LooseInv(site, s)
  {
    StartInv(site, s);
  }

  lemma LooseUnused(s: State, i: Slot)
    requires Counted(s) && AllLooseOk(s) && s.cache.slots[i].vmi == None
    ensures s.cache.slots[i].refcount == 0
  {
    forall c | c in s.clients && s.clients[c].Holding? ensures s.clients[c].slot != i {
      assert LooseOk(s, c);
    }
    assert Holders(s.clients, i) == {};
  }

  /** `v` gets one more reference to slot `i`, which was `v`'s or unused. */
  predicate LooseGrants(t: Table, i: Slot, v: Vmi, r: Record) {
    r.vmi == Some(v) && r.locked && r.refcount == t[i].refcount + 1 && (t[i].vmi == Some(v) || t[i].refcount == 0)
  }

  lemma LooseGrantKeepsClients(s: State, c: Client, v: Vmi, i: Slot, r: Record, cache: Cache)
    requires Counted(s) && AllLooseOk(s) && c in s.clients
    requires LooseGrants(s.cache.slots, i, v, r) && cache.slots == s.cache.slots[i := r]
    ensures AllLooseOk(Granted(s, c, v, i, r.lastUsed, cache))
  {
    var s' := Granted(s, c, v, i, r.lastUsed, cache);
    if s.cache.slots[i].vmi != Some(v) {
      UnusedMeansUnheld(s, i);
    }
    forall d | d in s'.clients ensures LooseOk(s', d) {
      if d != c {
        assert LooseOk(s, d);
      }
    }
  }

  lemma LooseGrantKeepsInv(site: Site, s: State, c: Client, v: Vmi, i: Slot, r: Record, cache: Cache)
    requires LooseInv(site, s) && c in s.clients && !s.clients[c].Holding?
    requires LooseGrants(s.cache.slots, i, v, r) && cache.slots == s.cache.slots[i := r] && Mounted(site, cache)
    ensures LooseInv(site, Granted(s, c, v, i, r.lastUsed, cache))
  {
    GrantKeepsCounts(s, Granted(s, c, v, i, r.lastUsed, cache), c, v, i, r);
    LooseGrantKeepsClients(s, c, v, i, r, cache);
  }

  lemma LooseHit(site: Site, s: State, c: Client, v: Vmi, i: Slot, stamp: Timeval)
    requires LooseInv(site, s) && c in s.clients && s.clients[c].Idle? && s.cache.slots[i].vmi == Some(v)
    ensures LooseInv(site, Granted(s, c, v, i, stamp, Hit(s.cache, i, stamp)))
  {
    var t := s.cache.slots;
    assert forall j :: 0 <= j < DEVMAX ==>
      SlotMounted(site, Hit(s.cache, i, stamp), j) == SlotMounted(site, s.cache, j);
    var r := t[i].(refcount := t[i].refcount + 1, lastUsed := stamp);
    LooseGrantKeepsInv(site, s, c, v, i, r, Hit(s.cache, i, stamp));
  }

  lemma LooseFresh(site: Site, s: State, c: Client, v: Vmi, i: Slot, stamp: Timeval)
    requires LooseInv(site, s) && c in s.clients && s.clients[c].Idle? && !s.cache.slots[i].locked
    ensures LooseInv(site, Granted(s, c, v, i, stamp, Assign(site.base, s.cache, i, v, site.disk(v), stamp)))
  {
    var r := Record(Some(v), i, 1, stamp, true);
    assert SlotMounted(site, s.cache, i);
    LooseUnused(s, i);
    AssignMounts(site, s.cache, i, r, v);
    LooseGrantKeepsInv(site, s, c, v, i, r, Assign(site.base, s.cache, i, v, site.disk(v), stamp));
  }

  lemma LooseSteal(site: Site, s: State, c: Client, i: Slot, stamp: Timeval)
    requires LooseInv(site, s) && c in s.clients && s.clients[c].Spinning? && s.cache.slots[i].refcount == 0
    ensures var v := s.clients[c].v;
            LooseInv(site, Granted(s, c, v, i, stamp, Steal(site.base, s.cache, i, v, site.disk(v), stamp)))
  {
    var v := s.clients[c].v;
    var r := Record(Some(v), i, 1, stamp, true);
    assert LooseOk(s, c);
    MountKeepsOthers(site, s.cache, i, v, site.disk(v));
    AssignMounts(site, NbdUnmount(site.base, s.cache, i, v), i, r, v);
    LooseGrantKeepsInv(site, s, c, v, i, r, Steal(site.base, s.cache, i, v, site.disk(v), stamp));
  }

  lemma LooseSpin(site: Site, s: State, c: Client, v: Vmi, b: Best)
    requires LooseInv(site, s) && c in s.clients && !s.clients[c].Holding? && 0 <= b.max < STEAL_AGE
    requires forall i :: 0 <= i < DEVMAX ==> s.cache.slots[i].locked
    ensures LooseInv(site, s.(clients := s.clients[c := Spinning(v, b)]))
  {
    var s' := s.(clients := s.clients[c := Spinning(v, b)]);
    forall j | 0 <= j < DEVMAX ensures s'.cache.slots[j].refcount == |Holders(s'.clients, j)| {
      HoldersSame(s.clients, c, Spinning(v, b), j);
    }
    forall d | d in s'.clients ensures LooseOk(s', d) {
      assert LooseOk(s, d);
    }
  }

  lemma LooseMount(site: Site, s: State, c: Client, v: Vmi, stamp: Timeval)
    requires LooseInv(site, s) && Possible(s, Mount(c, v, stamp))
    ensures LooseInv(site, Apply(site, s, Mount(c, v, stamp)))
  {
    var h, f := HitFrom(s.cache.slots, v, 0), FreeFrom(s.cache.slots, 0);
    RequestFinds(s.cache.slots, v);
    if h < DEVMAX {
      LooseHit(site, s, c, v, h, stamp);
    } else if f < DEVMAX {
      LooseFresh(site, s, c, v, f, stamp);
    } else {
      LooseSpin(site, s, c, v, NO_BEST);
    }
  }

  lemma LoosePass(site: Site, s: State, c: Client, now: Timeval, stamp: Timeval)
    requires LooseInv(site, s) && Possible(s, SpinPass(c, now, stamp))
    ensures LooseInv(site, Apply(site, s, SpinPass(c, now, stamp)))
  {
    var b := Scan(s.cache.slots, now, s.clients[c].best);
    assert LooseOk(s, c);
    DecidingPassIsRight(s.cache.slots, now, s.clients[c].best);
    ScanToFinds(s.cache.slots, now, s.clients[c].best, DEVMAX);
    if b.max < STEAL_AGE {
      LooseSpin(site, s, c, s.clients[c].v, b);
    } else {
      LooseSteal(site, s, c, b.maxix, stamp);
    }
  }

  lemma LooseRelease(site: Site, s: State, c: Client)
    requires LooseInv(site, s) && c in s.clients && s.clients[c].Holding?
    ensures LooseInv(site, Released(s, c, s.clients[c].slot))
  {
    var i := s.clients[c].slot;
    var s' := Released(s, c, i);
    ReleaseKeepsCounts(s, c);
    assert forall j :: 0 <= j < DEVMAX ==> SlotMounted(site, s'.cache, j) == SlotMounted(site, s.cache, j);
    forall d | d in s'.clients ensures LooseOk(s', d) {
      assert LooseOk(s, d);
    }
  }

  // ------------------------------------------------------ when counts go wrong

  lemma MisreleaseLosesCount(s: State, c: Client, i: Slot)
    requires Counted(s) && c in s.clients && s.clients[c].Holding? && s.clients[c].slot != i
    ensures !Counted(Released(s, c, i))
  {
    var j := s.clients[c].slot;
    HoldersLose(s.clients, c, Idle, j);
    assert Released(s, c, i).cache.slots[j].refcount == s.cache.slots[j].refcount;
  }

  /** One step of anybody: counts stay right iff it does not release through the handle of another slot. */
  lemma StepKeepsCounted(site: Site, s: State, op: Op)
    requires LooseInv(site, s) && Possible(s, op)
    ensures Counted(Apply(site, s, op)) <==> !Misreleases(s, op)
    ensures !Misreleases(s, op) ==> LooseInv(site, Apply(site, s, op))
  {
    match op
    case Mount(c, v, stamp) => LooseMount(site, s, c, v, stamp);
    case SpinPass(c, now, stamp) => LoosePass(site, s, c, now, stamp);
    case Unmount(c) =>
      assert LooseOk(s, c);
      if Misreleases(s, op) {
        MisreleaseLosesCount(s, c, s.mountdev[s.clients[c].v]);
      } else {
        LooseRelease(site, s, c);
      }
  }

  predicate SomeMisreleases(site: Site, s: State, ops: seq<Op>)
    requires AllPossible(site, s, ops)
    decreases |ops|
  {
    ops != [] && (Misreleases(s, ops[0]) || SomeMisreleases(site, Apply(site, s, ops[0]), ops[1..]))
  }

  /** In every state the run passes through each reference count is the number of holders. */
  predicate AlwaysCounted(site: Site, s: State, ops: seq<Op>)
    requires AllPossible(site, s, ops)
    decreases |ops|
  {
    Counted(s) && (ops != [] ==> AlwaysCounted(site, Apply(site, s, ops[0]), ops[1..]))
  }

  lemma {:induction false} RunKeepsCounted(site: Site, s: State, ops: seq<Op>)
    requires LooseInv(site, s) && AllPossible(site, s, ops)
    ensures AlwaysCounted(site, s, ops) <==> !SomeMisreleases(site, s, ops)
    ensures !SomeMisreleases(site, s, ops) ==> LooseInv(site, ApplyAll(site, s, ops))
    decreases |ops|
  {
    if ops != [] {
      StepKeepsCounted(site, s, ops[0]);
      if !Misreleases(s, ops[0]) {
        RunKeepsCounted(site, Apply(site, s, ops[0]), ops[1..]);
      }
    }
  }

  /**
    Over any run from a clean start, with any requests overlapping, some count
    stops being the number of holders iff some client releases when the agent's
    handle is not of the slot that client holds.
   */
  lemma CountsLostIffMisrelease(site: Site, s: State, ops: seq<Op>)
    requires Start(s) && AllPossible(site, s, ops)
    ensures !AlwaysCounted(site, s, ops) <==> SomeMisreleases(site, s, ops)
  {
    StartIsLoose(site, s);
    RunKeepsCounted(site, s, ops);
  }

  // ------------------------------------------- no misrelease without two slots

  /** Every holder's handle is of its slot. */
  predicate HandlesMatch(s: State) {
    forall c :: c in s.clients && s.clients[c].Holding? ==>
      s.clients[c].v in s.mountdev && s.mountdev[s.clients[c].v] == s.clients[c].slot
  }

  lemma GrantKeepsHandles(s: State, c: Client, v: Vmi, i: Slot, stamp: Timeval, cache: Cache)
    requires HandlesMatch(s) && AllLooseOk(Granted(s, c, v, i, stamp, cache)) && Distinct(cache.slots)
    ensures HandlesMatch(Granted(s, c, v, i, stamp, cache))
  {
    var s' := Granted(s, c, v, i, stamp, cache);
    forall d | d in s'.clients && s'.clients[d].Holding?
      ensures s'.clients[d].v in s'.mountdev && s'.mountdev[s'.clients[d].v] == s'.clients[d].slot
    {
      assert LooseOk(s', d) && LooseOk(s', c);
    }
  }

  lemma NoGrantKeepsHandles(s: State, e: State, c: Client)
    requires HandlesMatch(s) && c in e.clients && !e.clients[c].Holding?
    requires e.mountdev == s.mountdev && e.clients == s.clients[c := e.clients[c]]
    ensures HandlesMatch(e)
  {
  }

  /** A request or a pass grants its client a slot or leaves it spinning, with the handles as they were. */
  lemma StepGrants(site: Site, s: State, op: Op)
    requires Possible(s, op) && !op.Unmount?
    ensures var e := Apply(site, s, op);
            && op.c in e.clients && e.clients == s.clients[op.c := e.clients[op.c]]
            && (e.clients[op.c].Holding? ==>
                  e == Granted(s, op.c, e.clients[op.c].v, e.clients[op.c].slot, op.stamp, e.cache))
            && (!e.clients[op.c].Holding? ==> e.mountdev == s.mountdev)
  {
  }

  lemma StepKeepsHandles(site: Site, s: State, op: Op)
    requires LooseInv(site, s) && HandlesMatch(s) && Possible(s, op) && Distinct(Apply(site, s, op).cache.slots)
    ensures !Misreleases(s, op) && HandlesMatch(Apply(site, s, op))
  {
    StepKeepsCounted(site, s, op);
    var e := Apply(site, s, op);
    if op.Unmount? {
      NoGrantKeepsHandles(s, e, op.c);
    } else {
      StepGrants(site, s, op);
      if e.clients[op.c].Holding? {
        GrantKeepsHandles(s, op.c, e.clients[op.c].v, e.clients[op.c].slot, op.stamp, e.cache);
      } else {
        NoGrantKeepsHandles(s, e, op.c);
      }
    }
  }

  lemma {:induction false} RunKeepsHandles(site: Site, s: State, ops: seq<Op>)
    requires LooseInv(site, s) && HandlesMatch(s) && AllPossible(site, s, ops) && AlwaysDistinct(site, s, ops)
    ensures !SomeMisreleases(site, s, ops)
    decreases |ops|
  {
    if ops != [] {
      assert AlwaysDistinct(site, Apply(site, s, ops[0]), ops[1..]);
      StepKeepsHandles(site, s, ops[0]);
      StepKeepsCounted(site, s, ops[0]);
      RunKeepsHandles(site, Apply(site, s, ops[0]), ops[1..]);
    }
  }

  /** A count is lost only in a run in which some guest has had two slots. */
  lemma CountsLostOnlyIfDoubled(site: Site, s: State, ops: seq<Op>)
    requires Start(s) && AllPossible(site, s, ops) && !AlwaysCounted(site, s, ops)
    ensures !AlwaysDistinct(site, s, ops) && SomeDoubles(site, s, ops)
  {
    StartIsLoose(site, s);
    CountsLostIffMisrelease(site, s, ops);
    DoubledIffPassMissesSlot(site, s, ops);
    if AlwaysDistinct(site, s, ops) {
      RunKeepsHandles(site, s, ops);
    }
  }

  // ------------------------------------------------------------ held-slot safety

  /** Some run with overlapping requests but no misrelease leads here from a clean start. */
  ghost predicate LooselyReachable(site: Site, e: State) {
    exists s, ops ::
      Start(s) && AllPossible(site, s, ops) && !SomeMisreleases(site, s, ops) && ApplyAll(site, s, ops) == e
  }

  lemma LooselyReachableInv(site: Site, e: State)
    requires LooselyReachable(site, e)
    ensures LooseInv(site, e)
  {
    var s, ops :|
      Start(s) && AllPossible(site, s, ops) && !SomeMisreleases(site, s, ops) && ApplyAll(site, s, ops) == e;
    StartIsLoose(site, s);
    RunKeepsCounted(site, s, ops);
  }

  lemma {:induction false} HeldThroughout(site: Site, s: State, ops: seq<Op>, c: Client)
    requires AllPossible(site, s, ops) && c in s.clients && s.clients[c].Holding? && Unmount(c) !in ops
    ensures var e := ApplyAll(site, s, ops); c in e.clients && e.clients[c] == s.clients[c]
    decreases |ops|
  {
    if ops != [] {
      assert ops[0] in ops;
      StepKeepsOthers(site, s, ops[0], c);
      HeldThroughout(site, Apply(site, s, ops[0]), ops[1..], c);
    }
  }

  /**
    Held-slot safety with overlapping requests: as long as nobody releases
    through the handle of another slot, a slot that is held stays its guest's,
    is referenced, and its mountpoint shows its disk.
   */
  lemma OverlappingHeldSlotIsSafe(site: Site, g: State, during: seq<Op>, c: Client)
    requires LooselyReachable(site, g) && AllPossible(site, g, during) && !SomeMisreleases(site, g, during)
    requires c in g.clients && g.clients[c].Holding? && Unmount(c) !in during
    ensures var Holding(v, i) := g.clients[c];
            var e := ApplyAll(site, g, during);
            && c in e.clients && e.clients[c] == Holding(v, i)
            && e.cache.slots[i].vmi == Some(v) && e.cache.slots[i].refcount > 0
            && forall mp :: NamesSlot(mp, site.base, i) ==> ShowsDisk(e.cache.mounts, mp, site.disk(v))
  {
    LooselyReachableInv(site, g);
    HeldThroughout(site, g, during, c);
    RunKeepsCounted(site, g, during);
    var e := ApplyAll(site, g, during);
    assert LooseOk(e, c);
    assert c in Holders(e.clients, e.clients[c].slot);
    MountpointShows(site, e.cache, e.clients[c].slot, e.clients[c].v);
  }

  // ------------------------------------------------------ stolen while it is held

  /** After one misrelease slot 1 passes for unused; ten seconds later another request takes it. */
  function StealHeld(last: Timeval): seq<Op> {
    [Unmount(16)] + [Mount(0, 17, last), SpinPass(0, last, last)]
  }

  lemma MisreleaseFreesHeld(site: Site, s: State, later: Timeval)
    requires Doubled(s, later)
    ensures Possible(s, Unmount(16)) && Misreleases(s, Unmount(16))
    ensures var e := Apply(site, s, Unmount(16));
            && e == Released(s, 16, 1)
            && (forall i :: 0 <= i < DEVMAX ==>
                  && e.cache.slots[i].locked && e.cache.slots[i].vmi != Some(17)
                  && (e.cache.slots[i].refcount == 0 <==> i == 1))
            && e.cache.slots[1].lastUsed == later
            && 17 in e.clients && e.clients[17] == Holding(16, 1) && 0 in e.clients && e.clients[0] == Idle
  {
  }

  lemma HeldIsStolen(site: Site, s: State, later: Timeval, last: Timeval)
    requires Doubled(s, later) && TimevalDiff(later, last) >= STEAL_AGE
    ensures AllPossible(site, s, StealHeld(last))
    ensures var e := ApplyAll(site, s, StealHeld(last));
            && 17 in e.clients && e.clients[17] == Holding(16, 1) && e.cache.slots[1].vmi == Some(17)
            && MountPath(site.base, 1) in e.cache.mounts && e.cache.mounts[MountPath(site.base, 1)] == site.disk(17)
  {
    MisreleaseFreesHeld(site, s, later);
    var s1 := Apply(site, s, Unmount(16));
    NoSlotForIt(site, s1, 0, 17, last);
    var s2 := Apply(site, s1, Mount(0, 17, last));
    assert Age(s2.cache.slots, 1, last) == TimevalDiff(later, last);
    PassTakes(site, s2, 0, last, 1);
    TwoSteps(site, s1, Mount(0, 17, last), SpinPass(0, last, last));
    OneStep(site, s, Unmount(16));
    AppliedInTwo(site, s, [Unmount(16)], [Mount(0, 17, last), SpinPass(0, last, last)]);
  }

  lemma OneStep(site: Site, s: State, op: Op)
    requires Possible(s, op)
    ensures AllPossible(site, s, [op]) && ApplyAll(site, s, [op]) == Apply(site, s, op)
  {
    assert [op][1..] == [];
  }

  /**
    With a misrelease it fails: from any clean start there is a run after which
    a client still holds slot 1 for guest 16 and reads the disk of guest 17 there.
   */
  lemma StolenWhileHeld(site: Site, s: State, t: Timeval, later: Timeval, last: Timeval)
    requires Start(s) && (forall c :: 0 <= c < DEVMAX + 2 ==> c in s.clients)
    requires TimevalDiff(t, later) >= STEAL_AGE && TimevalDiff(later, last) >= STEAL_AGE
    ensures var ops := OverlappingRun(t, later) + StealHeld(last);
            && AllPossible(site, s, ops)
            && var e := ApplyAll(site, s, ops);
               && 17 in e.clients && e.clients[17] == Holding(16, 1) && e.cache.slots[1].vmi == Some(17)
               && MountPath(site.base, 1) in e.cache.mounts
               && e.cache.mounts[MountPath(site.base, 1)] == site.disk(17)
  {
    OverlappingRunEnd(site, s, t, later);
    HeldIsStolen(site, ApplyAll(site, s, OverlappingRun(t, later)), later, last);
    AppliedInTwo(site, s, OverlappingRun(t, later), StealHeld(last));
  }
}
