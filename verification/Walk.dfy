/**
  A guest that meets every hypothesis of the one-vCPU results and whose run
  reaches cleanup.
 */
module Walk {
  import opened Options
  import opened GuestMemory
  import opened Probes
  import opened OneVcpu
  import opened RunAsCall

  /** Where the witness guest goes next: through `sys_sync` and `dwork` to their backs, else to `dwork`. */
  function Successor(p: Sites, rip: Addr): Addr {
    if rip == p.syncFront.at then p.syncBack.at
    else if rip == p.dwork.at then p.dworkBack.at
    else p.dwork.at
  }

  /** A guest whose instructions only jump. */
  ghost function Walker(p: Sites): Guest {
    (m: Mem, r: Regs, m': Mem, r': Regs) => m' == m && r' == r.(rip := Successor(p, r.rip))
  }

  lemma WalkerIsTame(p: Sites, s: set<Addr>)
    ensures Tame(Walker(p), s)
  {
    forall m: Mem, r: Regs, m': Mem, r': Regs, n: Mem
      | Walker(p)(m, r, m', r') && n.Keys == m.Keys
        && (forall a :: a in m && (a !in s || a == r.rip) ==> m[a] == n[a])
      ensures Walker(p)(n, r, Overlay(m', n, s), r')
    {
      assert Overlay(m', n, s) == n;
    }
  }

  function WalkNext(a: Machine): Machine {
    if a.due then AfterStep(a)
    else if Trapping(a) then AfterTrap(a)
    else AfterGuest(a, a.m, a.r.(rip := Successor(a.g.sites, a.r.rip)))
  }

  /** One-shot traps taken before each of the ten states of the walk. */
  const WALK_TRAPS: seq<nat> := [0, 0, 1, 2, 2, 3, 3, 4, 4, 4]

  /** Where the walk stands after `k` transitions. */
  predicate WalkAt(a: Machine, k: nat) {
    var p := a.g.sites;
    && k <= 9 && InvAt(a, WALK_TRAPS[k])
    && (k == 0 ==> a.r.rip !in ProbeAddrs(p) && a.visited == None)
    && (k in {1, 5} ==> a.r.rip == p.dwork.at)
    && (k in {2, 3} ==> a.r.rip == p.syncFront.at)
    && (k == 4 ==> a.r.rip == p.syncBack.at)
    && (k in {6, 7} ==> a.r.rip == p.dworkBack.at && a.visited == Some(p.dworkBack.at))
    && (a.stepping <==> k in {7, 8}) && (a.due <==> k == 8) && (a.paused <==> k == 9)
  }

  lemma WalkTraps(a: Machine, k: nat)
    requires WalkAt(a, k) && k in {1, 2, 4, 6}
    ensures Trapping(a) && WalkAt(WalkNext(a), k + 1)
  {
    RouteTrap(a, WALK_TRAPS[k]);
  }

  lemma WalkJumps(a: Machine, k: nat)
    requires WalkAt(a, k) && k in {0, 3, 5, 7}
    ensures !Trapping(a) && WalkAt(WalkNext(a), k + 1)
    ensures Flow(a.g.sites, a.visited, Successor(a.g.sites, a.r.rip))
  {
  }

  lemma WalkGoesOn(p: Sites, a: Machine, k: nat)
    requires WalkAt(a, k) && k < 9 && a.g.sites == p
    ensures Next(Walker(p), a, WalkNext(a)) && WalkAt(WalkNext(a), k + 1) && WalkNext(a).g.sites == p
  {
    if k in {1, 2, 4, 6} {
      WalkTraps(a, k);
    } else if k < 8 {
      WalkJumps(a, k);
    }
  }

  lemma RunGrows(guest: Guest, run: seq<Machine>, b: Machine)
    requires Run(guest, run) && Next(guest, run[|run| - 1], b)
    ensures Run(guest, run + [b])
  {
    forall i | 0 <= i < |run| ensures NextAt(guest, run + [b], i) {
      assert i < |run| - 1 ==> NextAt(guest, run, i);
    }
  }

  /** `run` ends in the state `WalkAt` describes. */
  ghost predicate WalkedTo(p: Sites, run: seq<Machine>, k: nat) {
    |run| == k + 1 && Run(Walker(p), run) && WalkAt(run[k], k) && run[k].g.sites == p
  }

  lemma WalkOn(p: Sites, run: seq<Machine>, k: nat) returns (longer: seq<Machine>)
    requires WalkedTo(p, run, k) && k < 9
    ensures WalkedTo(p, longer, k + 1) && longer[0] == run[0]
  {
    var b := WalkNext(run[k]);
    WalkGoesOn(p, run[k], k);
    RunGrows(Walker(p), run, b);
    longer := run + [b];
  }

  /**
    From every launch off the probes some guest that meets all the hypotheses
    reaches cleanup, so the results about runs that do are not empty.
   */
  lemma CleanupReached(a: Machine, m0: Mem) returns (guest: Guest, run: seq<Machine>)
    requires Launch(a, m0) && a.r.rip !in ProbeAddrs(a.g.sites)
    ensures Run(guest, run) && run[0] == a && Tame(guest, ProbeAddrs(a.g.sites))
    ensures run[|run| - 1].paused
  {
    var p := a.g.sites;
    LaunchInv(a, m0);
    WalkerIsTame(p, ProbeAddrs(p));
    guest, run := Walker(p), [a];
    for k := 0 to 9
      invariant WalkedTo(p, run, k) && run[0] == a
    {
      run := WalkOn(p, run, k);
    }
  }

  /** From every call ready to listen off the probes such a guest brings about a call that leaves through cleanup. */
  lemma ReadyCallCleansUp(w: World, s: Symbols, r: Regs)
    returns (guest: Guest, run: seq<Machine>, listens: seq<Listen>)
    requires Ready(w, s, r) && r.rip !in ProbeAddrs(Started(w, s).g.sites)
    ensures RunsIn(guest, run, w, s, r) && run[|run| - 1].paused
    ensures Receives(w, s, listens, run, |run| - 1)
  {
    ArmingLaunches(w, s, r);
    guest, run := CleanupReached(Launched(w, s, r), w.m);
    OneListenReceives(w, s, run, |run| - 1);
    listens := [Listen(EventsOf(run, |run| - 1), true)];
  }
}
