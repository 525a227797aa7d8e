/** Whether a guest's VM is paused while its disk is mounted: exactly when it stays so. */
module Pausing {
  import opened Options
  import opened Slots
  import opened Timevals
  import opened Devices
  import opened MountCache
  import opened Clients
  import opened Flushes

  /** Some client gives `v`'s mount back. */
  predicate Releases(s: State, op: Op, v: Vmi)
    requires Possible(s, op)
  {
    op.Unmount? && s.clients[op.c].v == v
  }

  predicate SomeReleases(site: Site, s: State, ops: seq<Op>, v: Vmi)
    requires AllPossible(site, s, ops)
    decreases |ops|
  {
    ops != [] && (Releases(s, ops[0], v) || SomeReleases(site, Apply(site, s, ops[0]), ops[1..], v))
  }

  lemma AssignPauses(base: string, c: Cache, i: Slot, v: Vmi, disk: string, stamp: Timeval)
    requires DevName(i) !in c.nbd
    ensures Assign(base, c, i, v, disk, stamp).paused == c.paused + {v}
  {
  }

  lemma StealPauses(base: string, c: Cache, i: Slot, v: Vmi, disk: string, stamp: Timeval)
    ensures Steal(base, c, i, v, disk, stamp).paused == c.paused + {v}
  {
  }

  lemma ConnectPauses(site: Site, s: State, op: Op)
    requires Inv(site, s) && Enabled(s, op) && Connects(s, op)
    ensures Apply(site, s, op).cache.paused == s.cache.paused + {GuestOf(s, op)}
  {
    match op
    case Mount(_, v, stamp) =>
      var f := FreeFrom(s.cache.slots, 0);
      RequestFinds(s.cache.slots, v);
      assert SlotMounted(site, s.cache, f);
      AssignPauses(site.base, s.cache, f, v, site.disk(v), stamp);
    case SpinPass(c, now, stamp) =>
      var v, b := s.clients[c].v, Scan(s.cache.slots, now, s.clients[c].best);
      StealPauses(site.base, s.cache, b.maxix, v, site.disk(v), stamp);
  }

  lemma NoConnectKeepsPaused(site: Site, s: State, op: Op)
    requires Possible(s, op) && !Connects(s, op) && !op.Unmount?
    ensures Apply(site, s, op).cache.paused == s.cache.paused
  {
  }

  /** A connect pauses its guest, a release resumes the guest released, and no other step does either. */
  lemma StepPauses(site: Site, s: State, op: Op)
    requires Inv(site, s) && Enabled(s, op)
    ensures Apply(site, s, op).cache.paused
         == if Connects(s, op) then s.cache.paused + {GuestOf(s, op)}
            else if op.Unmount? then s.cache.paused - {GuestOf(s, op)}
            else s.cache.paused
  {
    if Connects(s, op) {
      ConnectPauses(site, s, op);
    } else if op.Unmount? {
      assert ClientOk(s, op.c);
      UnmountApplied(site, s, op.c);
    } else {
      NoConnectKeepsPaused(site, s, op);
    }
  }

  /** While a guest has a slot that is held nothing connects for it. */
  lemma HeldGuestIsNotConnected(site: Site, s: State, op: Op, c: Client)
    requires Inv(site, s) && Enabled(s, op) && c in s.clients && s.clients[c].Holding?
    ensures Connects(s, op) ==> GuestOf(s, op) != s.clients[c].v
  {
    assert ClientOk(s, c) && ClientOk(s, op.c);
    HitIsFirst(s.cache.slots, s.clients[c].v, 0);
  }

  lemma {:induction false} RunPauses(site: Site, s: State, during: seq<Op>, c: Client)
    requires Inv(site, s) && AllEnabled(site, s, during)
    requires c in s.clients && s.clients[c].Holding? && Unmount(c) !in during
    ensures var v := s.clients[c].v;
            v in ApplyAll(site, s, during).cache.paused <==>
            v in s.cache.paused && !SomeReleases(site, s, during, v)
    decreases |during|
  {
    if during != [] {
      var op := during[0];
      StepPauses(site, s, op);
      HeldGuestIsNotConnected(site, s, op, c);
      StepKeepsInv(site, s, op);
      assert op in during;
      StepKeepsOthers(site, s, op, c);
      RunPauses(site, Apply(site, s, op), during[1..], c);
    }
  }

  /**
    A connect pauses the guest. From then on, as long as the client that
    connected holds the mount, and whatever anybody else does, the guest stays
    paused iff no other client releases the same mount.
   */
  lemma PausedIffNotReleased(site: Site, s: State, op: Op, during: seq<Op>)
    requires Reachable(site, s) && Enabled(s, op) && Connects(s, op)
    requires AllEnabled(site, Apply(site, s, op), during) && Unmount(op.c) !in during
    ensures var g, v := Apply(site, s, op), GuestOf(s, op);
            && v in g.cache.paused
            && (v in ApplyAll(site, g, during).cache.paused <==> !SomeReleases(site, g, during, v))
  {
    ReachableInv(site, s);
    StepKeepsInv(site, s, op);
    StepPauses(site, s, op);
    var g := Apply(site, s, op);
    assert g.clients[op.c].Holding? && g.clients[op.c].v == GuestOf(s, op);
    RunPauses(site, g, during, op.c);
  }

  /**
    A remount hit does not pause again: a client that gets the mount through one
    finds the guest paused iff it was before, and it stays so iff nobody else
    releases the mount meanwhile.
   */
  lemma HitLeavesRunning(site: Site, s: State, op: Op, during: seq<Op>)
    requires Reachable(site, s) && Enabled(s, op) && op.Mount? && !Connects(s, op)
    requires var g := Apply(site, s, op); op.c in g.clients && g.clients[op.c].Holding?
    requires AllEnabled(site, Apply(site, s, op), during) && Unmount(op.c) !in during
    ensures var g, v := Apply(site, s, op), GuestOf(s, op);
            v in ApplyAll(site, g, during).cache.paused <==>
            v in s.cache.paused && !SomeReleases(site, g, during, v)
  {
    ReachableInv(site, s);
    StepKeepsInv(site, s, op);
    StepPauses(site, s, op);
    RunPauses(site, Apply(site, s, op), during, op.c);
  }
}
