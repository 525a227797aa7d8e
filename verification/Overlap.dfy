/**
  Runs in which requests for the same guest may overlap: exactly when two slots
  end up with one guest, and a run from a clean start in which they do.
 */
module Overlap {
  import opened Options
  import opened Slots
  import opened Timevals
  import opened MountCache
  import opened Clients

  /** No guest has two slots. */
  predicate Distinct(t: Table) {
    forall i, j :: 0 <= i < j < DEVMAX && t[i].vmi.Some? ==> t[i].vmi != t[j].vmi
  }

  predicate HasOtherSlot(t: Table, v: Vmi, i: Slot) {
    exists j :: 0 <= j < DEVMAX && j != i && t[j].vmi == Some(v)
  }

  // ------------------------------------------------------- when a guest is doubled

  lemma StealKeepsDistinct(base: string, c: Cache, i: Slot, v: Vmi, disk: string, stamp: Timeval)
    requires Distinct(c.slots)
    ensures Distinct(Steal(base, c, i, v, disk, stamp).slots) <==> !HasOtherSlot(c.slots, v, i)
  {
    var t, t' := c.slots, Steal(base, c, i, v, disk, stamp).slots;
    assert forall j :: 0 <= j < DEVMAX ==> t'[j].vmi == if j == i then Some(v) else t[j].vmi;
    if HasOtherSlot(t, v, i) {
      var j :| 0 <= j < DEVMAX && j != i && t[j].vmi == Some(v);
      assert t'[j].vmi == t'[i].vmi;
    }
  }

  /** A pass decides although its guest already has a slot other than the victim. */
  predicate Doubles(s: State, op: Op)
    requires Possible(s, op)
  {
    op.SpinPass? &&
    var b := Scan(s.cache.slots, op.now, s.clients[op.c].best);
    b.max >= STEAL_AGE && HasOtherSlot(s.cache.slots, s.clients[op.c].v, b.maxix)
  }

  lemma AssignKeepsDistinct(base: string, c: Cache, i: Slot, v: Vmi, disk: string, stamp: Timeval)
    requires Distinct(c.slots) && forall j :: 0 <= j < DEVMAX ==> c.slots[j].vmi != Some(v)
    ensures Distinct(Assign(base, c, i, v, disk, stamp).slots)
  {
  }

  lemma HitKeepsDistinct(c: Cache, i: Slot, stamp: Timeval)
    requires Distinct(c.slots)
    ensures Distinct(Hit(c, i, stamp).slots)
  {
  }

  lemma MountKeepsDistinct(site: Site, s: State, c: Client, v: Vmi, stamp: Timeval)
    requires Possible(s, Mount(c, v, stamp)) && Distinct(s.cache.slots)
    ensures Distinct(Apply(site, s, Mount(c, v, stamp)).cache.slots)
  {
    RequestFinds(s.cache.slots, v);
    var h, f := HitFrom(s.cache.slots, v, 0), FreeFrom(s.cache.slots, 0);
    if h < DEVMAX {
      HitKeepsDistinct(s.cache, h, stamp);
    } else if f < DEVMAX {
      AssignKeepsDistinct(site.base, s.cache, f, v, site.disk(v), stamp);
    }
  }

  /** One step of anybody, overlapping or not, keeps the slots of different guests iff it does not double one. */
  lemma StepKeepsDistinct(site: Site, s: State, op: Op)
    requires Possible(s, op) && Distinct(s.cache.slots)
    ensures Distinct(Apply(site, s, op).cache.slots) <==> !Doubles(s, op)
  {
    match op
    case Mount(c, v, stamp) => MountKeepsDistinct(site, s, c, v, stamp);
    case SpinPass(c, now, stamp) =>
      var v := s.clients[c].v;
      StealKeepsDistinct(site.base, s.cache, Scan(s.cache.slots, now, s.clients[c].best).maxix, v, site.disk(v), stamp);
    case Unmount(_) =>
  }

  predicate SomeDoubles(site: Site, s: State, ops: seq<Op>)
    requires AllPossible(site, s, ops)
    decreases |ops|
  {
    ops != [] && (Doubles(s, ops[0]) || SomeDoubles(site, Apply(site, s, ops[0]), ops[1..]))
  }

  /** No guest has two slots in any state the run passes through. */
  predicate AlwaysDistinct(site: Site, s: State, ops: seq<Op>)
    requires AllPossible(site, s, ops)
    decreases |ops|
  {
    Distinct(s.cache.slots) && (ops != [] ==> AlwaysDistinct(site, Apply(site, s, ops[0]), ops[1..]))
  }

  lemma {:induction false} RunKeepsDistinct(site: Site, s: State, ops: seq<Op>)
    requires AllPossible(site, s, ops) && Distinct(s.cache.slots)
    ensures AlwaysDistinct(site, s, ops) <==> !SomeDoubles(site, s, ops)
    decreases |ops|
  {
    if ops != [] {
      StepKeepsDistinct(site, s, ops[0]);
      if !Doubles(s, ops[0]) {
        RunKeepsDistinct(site, Apply(site, s, ops[0]), ops[1..]);
      }
    }
  }

  /**
    Over any run from a clean start, with any requests overlapping, some guest
    gets a second slot iff some pass decides although the table it scanned
    under `lk` already had a slot for its guest, other than the victim.
   */
  lemma DoubledIffPassMissesSlot(site: Site, s: State, ops: seq<Op>)
    requires Start(s) && AllPossible(site, s, ops)
    ensures !AlwaysDistinct(site, s, ops) <==> SomeDoubles(site, s, ops)
  {
    RunKeepsDistinct(site, s, ops);
  }

  /** With at most one request per guest in flight no pass does so. */
  lemma EnabledNeverDoubles(site: Site, s: State, op: Op)
    requires Reachable(site, s) && Enabled(s, op)
    ensures !Doubles(s, op)
  {
    ReachableInv(site, s);
    StepKeepsInv(site, s, op);
    StepKeepsDistinct(site, s, op);
  }

  // ------------------------------------------------------------- a run that doubles

  /** Clients 0 to `k - 1` hold the slots of the same number, each for a guest of that number, since time `t`. */
  predicate Filled(s: State, k: nat, t: Timeval) {
    && k <= DEVMAX
    && (forall i :: 0 <= i < k ==> s.cache.slots[i] == Record(Some(i), i, 1, t, true))
    && (forall i :: k <= i < DEVMAX ==> s.cache.slots[i].vmi == None && !s.cache.slots[i].locked)
    && (forall i :: 0 <= i < k ==> i in s.mountdev && s.mountdev[i] == i)
    && (forall c :: 0 <= c < DEVMAX + 2 ==> c in s.clients)
    && (forall c :: c in s.clients ==> s.clients[c] == if c < k then Holding(c, c) else Idle)
  }

  function Fill(k: nat, t: Timeval): seq<Op>
    requires k <= DEVMAX
    decreases DEVMAX - k
  {
    if k == DEVMAX then [] else [Mount(k, k, t)] + Fill(k + 1, t)
  }

  lemma FreshSlot(t: Table, v: Vmi, k: Slot)
    requires forall i :: 0 <= i < DEVMAX ==> t[i].vmi != Some(v)
    requires !t[k].locked && forall i :: 0 <= i < k ==> t[i].locked
    ensures HitFrom(t, v, 0) == DEVMAX && FreeFrom(t, 0) == k
  {
    RequestFinds(t, v);
  }

  lemma FreshGrant(site: Site, s: State, c: Client, v: Vmi, t: Timeval, k: Slot)
    requires Possible(s, Mount(c, v, t))
    requires HitFrom(s.cache.slots, v, 0) == DEVMAX && FreeFrom(s.cache.slots, 0) == k
    ensures Apply(site, s, Mount(c, v, t))
         == Granted(s, c, v, k, t, Assign(site.base, s.cache, k, v, site.disk(v), t))
  {
  }

  lemma FilledOneMore(s: State, k: Slot, t: Timeval, cache: Cache)
    requires Filled(s, k, t) && cache.slots == s.cache.slots[k := Record(Some(k), k, 1, t, true)]
    ensures Filled(Granted(s, k, k, k, t, cache), k + 1, t)
  {
  }

  lemma FillOne(site: Site, s: State, k: nat, t: Timeval)
    requires k < DEVMAX && Filled(s, k, t)
    ensures Possible(s, Mount(k, k, t)) && Filled(Apply(site, s, Mount(k, k, t)), k + 1, t)
  {
    FreshSlot(s.cache.slots, k, k);
    FreshGrant(site, s, k, k, t, k);
    FilledOneMore(s, k, t, Assign(site.base, s.cache, k, k, site.disk(k), t));
  }

  lemma {:induction false} FillRun(site: Site, s: State, k: nat, t: Timeval)
    requires Filled(s, k, t)
    ensures AllPossible(site, s, Fill(k, t)) && Filled(ApplyAll(site, s, Fill(k, t)), DEVMAX, t)
    decreases DEVMAX - k
  {
    if k < DEVMAX {
      FillOne(site, s, k, t);
      var s' := Apply(site, s, Mount(k, k, t));
      FillRun(site, s', k + 1, t);
      assert Fill(k, t)[0] == Mount(k, k, t) && Fill(k, t)[1..] == Fill(k + 1, t);
    }
  }

  lemma TwoSteps(site: Site, s: State, a: Op, b: Op)
    requires Possible(s, a) && Possible(Apply(site, s, a), b)
    ensures AllPossible(site, s, [a, b]) && ApplyAll(site, s, [a, b]) == Apply(site, Apply(site, s, a), b)
  {
    var s1 := Apply(site, s, a);
    assert [a, b][1..] == [b] && [b][1..] == [];
    assert AllPossible(site, s1, [b]) && ApplyAll(site, s1, [b]) == Apply(site, s1, b);
  }

  /** Sixteen allotted slots, the first two unused, client 0 idle, and clients 16 and 17 both at `phase`. */
  predicate Contended(s: State, t: Timeval, phase: Phase) {
    && (forall i :: 0 <= i < DEVMAX ==> s.cache.slots[i] == Record(Some(i), i, if i < 2 then 0 else 1, t, true))
    && (forall c :: c in s.clients && s.clients[c].Holding? ==> s.clients[c].slot >= 2)
    && (forall c :: c in {16, 17} ==> c in s.clients && s.clients[c] == phase)
    && 0 in s.clients && s.clients[0] == Idle
  }

  /** Clients 0 and 1 release; clients 16 and 17 ask for the same new guest. */
  function Contend(later: Timeval): seq<Op> {
    [Unmount(0), Unmount(1)] + [Mount(16, 16, later), Mount(17, 16, later)]
  }

  lemma ReleaseTwo(site: Site, s: State, t: Timeval)
    requires Filled(s, DEVMAX, t)
    ensures AllPossible(site, s, [Unmount(0), Unmount(1)])
    ensures Contended(ApplyAll(site, s, [Unmount(0), Unmount(1)]), t, Idle)
  {
    TwoSteps(site, s, Unmount(0), Unmount(1));
    var s2 := ApplyAll(site, s, [Unmount(0), Unmount(1)]);
    assert s2.cache == Release(Release(s.cache, 0), 1) && s2.clients == s.clients[0 := Idle][1 := Idle];
  }

  lemma NoSlotForIt(site: Site, s: State, c: Client, v: Vmi, stamp: Timeval)
    requires Possible(s, Mount(c, v, stamp))
    requires forall i :: 0 <= i < DEVMAX ==> s.cache.slots[i].locked && s.cache.slots[i].vmi != Some(v)
    ensures Apply(site, s, Mount(c, v, stamp)) == s.(clients := s.clients[c := Spinning(v, NO_BEST)])
  {
    RequestFinds(s.cache.slots, v);
  }

  lemma AskTwice(site: Site, s: State, t: Timeval, later: Timeval)
    requires Contended(s, t, Idle)
    ensures AllPossible(site, s, [Mount(16, 16, later), Mount(17, 16, later)])
    ensures Contended(ApplyAll(site, s, [Mount(16, 16, later), Mount(17, 16, later)]), t, Spinning(16, NO_BEST))
  {
    NoSlotForIt(site, s, 16, 16, later);
    NoSlotForIt(site, Apply(site, s, Mount(16, 16, later)), 17, 16, later);
    TwoSteps(site, s, Mount(16, 16, later), Mount(17, 16, later));
  }

  lemma ContendRun(site: Site, s: State, t: Timeval, later: Timeval)
    requires Filled(s, DEVMAX, t)
    ensures AllPossible(site, s, Contend(later))
    ensures Contended(ApplyAll(site, s, Contend(later)), t, Spinning(16, NO_BEST))
  {
    ReleaseTwo(site, s, t);
    AskTwice(site, ApplyAll(site, s, [Unmount(0), Unmount(1)]), t, later);
    AppliedInTwo(site, s, [Unmount(0), Unmount(1)], [Mount(16, 16, later), Mount(17, 16, later)]);
  }

  /** A first pass that has a victim takes it. */
  lemma PassTakes(site: Site, s: State, c: Client, now: Timeval, i: Slot)
    requires c in s.clients && s.clients[c].Spinning? && s.clients[c].best == NO_BEST
    requires Victim(s.cache.slots, now, i)
    ensures var v := s.clients[c].v;
            var s' := Apply(site, s, SpinPass(c, now, now));
            && s'.cache == Steal(site.base, s.cache, i, v, site.disk(v), now)
            && s'.cache.slots == s.cache.slots[i := Record(Some(v), i, 1, now, s.cache.slots[i].locked)]
            && s'.clients == s.clients[c := Holding(v, i)] && s'.mountdev == s.mountdev[v := i]
  {
    var b := Scan(s.cache.slots, now, NO_BEST);
    DecidingPassIsRight(s.cache.slots, now, NO_BEST);
    VictimUnique(s.cache.slots, now, i, b.maxix);
  }

  /** Slots 0 and 1 both belong to guest 16, each held by one client, and the guest's handle is 1. */
  predicate Doubled(s: State, later: Timeval) {
    && (forall i :: i in {0, 1} ==> s.cache.slots[i] == Record(Some(16), i, 1, later, true))
    && (forall i :: 2 <= i < DEVMAX ==>
          s.cache.slots[i].vmi == Some(i) && s.cache.slots[i].refcount == 1 && s.cache.slots[i].locked)
    && 0 in s.clients && s.clients[0] == Idle
    && 16 in s.clients && s.clients[16] == Holding(16, 0)
    && 17 in s.clients && s.clients[17] == Holding(16, 1)
    && (forall c :: c in s.clients && c !in {16, 17} && s.clients[c].Holding? ==> s.clients[c].slot >= 2)
    && 16 in s.mountdev && s.mountdev[16] == 1
  }

  function Steals(later: Timeval): seq<Op> {
    [SpinPass(16, later, later), SpinPass(17, later, later)]
  }

  lemma DoubledBy(s: State, e: State, t: Timeval, later: Timeval)
    requires Contended(s, t, Spinning(16, NO_BEST))
    requires var r := Record(Some(16), 0, 1, later, true);
             e.cache.slots == s.cache.slots[0 := r][1 := r.(mountindex := 1)]
    requires e.clients == s.clients[16 := Holding(16, 0)][17 := Holding(16, 1)]
    requires 16 in e.mountdev && e.mountdev[16] == 1
    ensures Doubled(e, later)
  {
  }

  lemma StealTwo(site: Site, s: State, t: Timeval, later: Timeval)
    requires Contended(s, t, Spinning(16, NO_BEST)) && TimevalDiff(t, later) >= STEAL_AGE
    ensures AllPossible(site, s, Steals(later)) && Doubled(ApplyAll(site, s, Steals(later)), later)
  {
    PassTakes(site, s, 16, later, 0);
    var s1 := Apply(site, s, SpinPass(16, later, later));
    assert Age(s1.cache.slots, 1, later) == TimevalDiff(t, later);
    PassTakes(site, s1, 17, later, 1);
    TwoSteps(site, s, SpinPass(16, later, later), SpinPass(17, later, later));
    DoubledBy(s, ApplyAll(site, s, Steals(later)), t, later);
  }

  /** The whole run: fill the table, release two slots, ask twice for one guest, and let both askers steal. */
  function OverlappingRun(t: Timeval, later: Timeval): seq<Op> {
    Fill(0, t) + (Contend(later) + Steals(later))
  }

  lemma OverlappingRunEnd(site: Site, s: State, t: Timeval, later: Timeval)
    requires Start(s) && (forall c :: 0 <= c < DEVMAX + 2 ==> c in s.clients)
    requires TimevalDiff(t, later) >= STEAL_AGE
    ensures AllPossible(site, s, OverlappingRun(t, later))
    ensures Doubled(ApplyAll(site, s, OverlappingRun(t, later)), later)
  {
    FillRun(site, s, 0, t);
    var full := ApplyAll(site, s, Fill(0, t));
    ContendRun(site, full, t, later);
    StealTwo(site, ApplyAll(site, full, Contend(later)), t, later);
    AppliedInTwo(site, full, Contend(later), Steals(later));
    AppliedInTwo(site, s, Fill(0, t), Contend(later) + Steals(later));
  }

  /** From any clean start overlapping requests can end with two slots for one guest. */
  lemma OverlappingRequestsDuplicate(site: Site, s: State, t: Timeval, later: Timeval)
    requires Start(s) && (forall c :: 0 <= c < DEVMAX + 2 ==> c in s.clients)
    requires TimevalDiff(t, later) >= STEAL_AGE
    ensures AllPossible(site, s, OverlappingRun(t, later))
    ensures var e := ApplyAll(site, s, OverlappingRun(t, later));
            && e.cache.slots[0].vmi == Some(16) && e.cache.slots[1].vmi == Some(16)
            && 16 in e.clients && e.clients[16] == Holding(16, 0) && 17 in e.clients && e.clients[17] == Holding(16, 1)
  {
    OverlappingRunEnd(site, s, t, later);
  }

  lemma ReleaseBoth(site: Site, s: State, later: Timeval)
    requires Doubled(s, later)
    ensures var ops := [Unmount(16), Unmount(17)];
            && AllPossible(site, s, ops)
            && ApplyAll(site, s, ops) == Released(Released(s, 16, 1), 17, 1)
  {
    TwoSteps(site, s, Unmount(16), Unmount(17));
  }

  lemma ReleasedBoth(s: State, later: Timeval)
    requires Doubled(s, later)
    ensures var e := Released(Released(s, 16, 1), 17, 1);
            && e.cache.slots[0].refcount == 1 && e.cache.slots[1].refcount == -1
            && Holders(e.clients, 0) == {} && Holders(e.clients, 1) == {}
  {
  }

  /**
    What may follow: the agent keeps one handle per guest, so if both release
    now, both releases go to the second slot. Its count falls below zero, and
    the first slot stays referenced with nobody holding it.
   */
  lemma DuplicateLeaksBoth(site: Site, s: State, t: Timeval, later: Timeval)
    requires Start(s) && (forall c :: 0 <= c < DEVMAX + 2 ==> c in s.clients)
    requires TimevalDiff(t, later) >= STEAL_AGE
    ensures var ops := OverlappingRun(t, later) + [Unmount(16), Unmount(17)];
            && AllPossible(site, s, ops)
            && var e := ApplyAll(site, s, ops);
               && e.cache.slots[0].refcount == 1 && e.cache.slots[1].refcount == -1
               && Holders(e.clients, 0) == {} && Holders(e.clients, 1) == {}
  {
    OverlappingRunEnd(site, s, t, later);
    var e := ApplyAll(site, s, OverlappingRun(t, later));
    ReleaseBoth(site, e, later);
    ReleasedBoth(e, later);
    AppliedInTwo(site, s, OverlappingRun(t, later), [Unmount(16), Unmount(17)]);
  }
}
