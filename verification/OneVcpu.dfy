/**
  The instrumented guest on one vCPU: an abstract guest, the traps its probes
  raise, and the callbacks of `Probes`.
 */
module OneVcpu {
  import opened Options
  import opened GuestMemory
  import opened Probes
  import opened Restoration

  /** One instruction of the guest, as a relation between memory and registers before and after. */
  type Guest = (Mem, Regs, Mem, Regs) -> bool

  /**
    The vCPU with what it shares with the callbacks. `due` means a
    single-stepped instruction has run and its step event is next. `visited`
    (the last one-shot address the vCPU stood at) and `traps` (every trap so
    far) are history variables.
   */
  datatype Machine = Machine(
    g: Globals, m: Mem, r: Regs, stepping: bool, due: bool, paused: bool,
    visited: Option<Addr>, traps: seq<Addr>)

  predicate Trapping(a: Machine) {
    a.r.rip in ProbeAddrs(a.g.sites) && a.r.rip in a.m && a.m[a.r.rip] == BREAK
  }

  function Visit(p: Sites, visited: Option<Addr>, rip: Addr): Option<Addr> {
    if rip in OneShots(p) then Some(rip) else visited
  }

  function AfterTrap(a: Machine): Machine {
    var r := TrapRegs(a.g, a.r);
    a.(g := TrapGlobals(a.g, a.r), m := TrapMem(a.g, a.m, a.r), r := r,
       stepping := if TrapToggles(a.g.sites, a.r.rip) then !a.stepping else a.stepping,
       visited := Visit(a.g.sites, a.visited, r.rip), traps := a.traps + [a.r.rip])
  }

  function AfterStep(a: Machine): Machine {
    a.(g := StepGlobals(a.g), m := StepMem(a.g, a.m), stepping := !a.stepping, due := false, paused := a.g.doCleanup)
  }

  /** The machine after a guest instruction that ends with memory `m` and registers `r`. */
  function AfterGuest(a: Machine, m: Mem, r: Regs): Machine {
    a.(m := m, r := r, due := a.stepping, visited := Visit(a.g.sites, a.visited, r.rip))
  }

  /**
    The flow of control the probes rely on. Until it has stood at `dwork` the
    guest reaches no other one-shot probe; from the front of `sys_sync` the
    next one is its back, and from `dwork` it is `dwork_back`. Coming past the
    same probe again is allowed.
   */
  predicate Flow(p: Sites, visited: Option<Addr>, rip: Addr) {
    rip in OneShots(p) ==>
      && (visited == None ==> rip == p.dwork.at)
      && (visited == Some(p.syncFront.at) ==> rip == p.syncFront.at || rip == p.syncBack.at)
      && (visited == Some(p.dwork.at) ==> rip == p.dwork.at || rip == p.dworkBack.at)
  }

  ghost predicate Next(guest: Guest, a: Machine, b: Machine) {
    && !a.paused
    && if a.due then b == AfterStep(a)
       else if Trapping(a) then b == AfterTrap(a)
       else guest(a.m, a.r, b.m, b.r) && b == AfterGuest(a, b.m, b.r) && Flow(a.g.sites, a.visited, b.r.rip)
  }

  ghost predicate NextAt(guest: Guest, run: seq<Machine>, i: nat)
    requires i + 1 < |run|
  {
    Next(guest, run[i], run[i + 1])
  }

  ghost predicate Run(guest: Guest, run: seq<Machine>) {
    |run| > 0 && forall i :: 0 <= i < |run| - 1 ==> NextAt(guest, run, i)
  }

  /** `m` with the bytes `n` has at `s`. */
  function Overlay(m: Mem, n: Mem, s: set<Addr>): Mem {
    map a | a in m :: if a in s && a in n then n[a] else m[a]
  }

  /** The guest never writes a probe byte, and only the instruction at a probe depends on the byte there. */
  ghost predicate Tame(guest: Guest, s: set<Addr>) {
    && (forall m: Mem, r: Regs, m': Mem, r': Regs :: guest(m, r, m', r') ==> SameAt(s, m, m'))
    && (forall m: Mem, r: Regs, m': Mem, r': Regs, n: Mem ::
          guest(m, r, m', r') && n.Keys == m.Keys
          && (forall a :: a in m && (a !in s || a == r.rip) ==> m[a] == n[a])
          ==> guest(n, r, Overlay(m', n, s), r'))
  }

  /** Five different addresses, none of whose own bytes is 0xCC. */
  predicate Pristine(p: Sites) {
    && p.qworko.at !in OneShots(p)
    && p.dwork.at !in {p.dworkBack.at, p.syncFront.at, p.syncBack.at}
    && p.dworkBack.at !in {p.syncFront.at, p.syncBack.at}
    && p.syncFront.at != p.syncBack.at
    && p.qworko.saved != BREAK && p.dwork.saved != BREAK && p.dworkBack.saved != BREAK
    && p.syncFront.saved != BREAK && p.syncBack.saved != BREAK
  }

  /** The one-shot probes in the order the protocol takes them. */
  function Route(p: Sites): seq<Addr> {
    [p.dwork.at, p.syncFront.at, p.syncBack.at, p.dworkBack.at]
  }

  function OneShotTraps(p: Sites, traps: seq<Addr>): seq<Addr> {
    if traps == [] then []
    else
      var last := traps[|traps| - 1];
      OneShotTraps(p, traps[..|traps| - 1]) + if last in OneShots(p) then [last] else []
  }

  lemma TrapAppended(p: Sites, traps: seq<Addr>, at: Addr)
    ensures OneShotTraps(p, traps + [at]) == OneShotTraps(p, traps) + if at in OneShots(p) then [at] else []
  {
  }

  /** A call about to listen: armed, flags clear, and the vCPU not inside the diverted code. */
  predicate Launch(a: Machine, m0: Mem) {
    && a.g.interrupted == 0 && !a.g.doCleanup
    && Pristine(a.g.sites)
    && ProbeAddrs(a.g.sites) <= m0.Keys
    && a.m.Keys == m0.Keys
    && (forall x :: x in m0 ==> a.m[x] == if x in ProbeAddrs(a.g.sites) then BREAK else m0[x])
    && Disarm(a.g.sites, a.m) == m0
    && !a.stepping && !a.due && !a.paused && a.visited == None && a.traps == []
    && a.r.rip !in {a.g.sites.syncFront.at, a.g.sites.syncBack.at, a.g.sites.dworkBack.at}
  }

  /** Arming at five different mapped addresses whose bytes are not 0xCC launches the machine. */
  lemma ArmingLaunches(w: World, s: Symbols, r: Regs)
    requires w.m == w.plain && w.g.interrupted == 0 && !w.g.doCleanup
    requires var p := Started(w, s).g.sites;
             && |ProbeAddrs(p)| == 5
             && (forall a :: a in ProbeAddrs(p) ==> a in w.m && w.m[a] != BREAK)
             && r.rip !in {p.syncFront.at, p.syncBack.at, p.dworkBack.at}
    ensures Launch(Machine(Started(w, s).g, Started(w, s).m, r, false, false, false, None, []), w.m)
  {
    var p := Started(w, s).g.sites;
    assert ProbeAddrs(p) == {p.qworko.at, p.dwork.at, p.dworkBack.at, p.syncFront.at, p.syncBack.at};
    ArmEstablishes(w, s);
    TeardownExact(Started(w, s));
  }

  // ------------------------------------------------------------- the invariant

  predicate ByteAt(m: Mem, p: Probe, lifted: bool) {
    p.at in m && m[p.at] == if lifted then p.saved else BREAK
  }

  /** The first `n` one-shot probes are lifted, the others armed; `qworko` is lifted only while it is stepped over. */
  predicate Bytes(a: Machine, n: nat) {
    var p := a.g.sites;
    && ByteAt(a.m, p.dwork, n >= 1) && ByteAt(a.m, p.syncFront, n >= 2)
    && ByteAt(a.m, p.syncBack, n >= 3) && ByteAt(a.m, p.dworkBack, n >= 4)
    && ByteAt(a.m, p.qworko, a.stepping && a.g.stepRewriteLoc == p.qworko.at)
  }

  /** Single-step is on only over `qworko`, or over `dwork_back` once cleanup is asked for. */
  predicate Flags(a: Machine, n: nat) {
    var p := a.g.sites;
    && (a.stepping ==> a.g.stepRewriteLoc == if a.g.doCleanup then p.dworkBack.at else p.qworko.at)
    && (a.stepping && !a.due ==> a.r.rip == a.g.stepRewriteLoc)
    && (a.due ==> a.stepping)
    && (a.g.doCleanup <==> n == 4)
    && (a.paused ==> a.g.doCleanup && a.g.interrupted == 1 && !a.stepping)
    && (a.g.doCleanup ==> a.stepping || a.paused)
  }

  /** Where the vCPU can be after `n` one-shot traps. */
  predicate Stage(p: Sites, visited: Option<Addr>, rip: Addr, n: nat) {
    && (n == 0 ==> rip !in {p.syncFront.at, p.syncBack.at, p.dworkBack.at}
                   && (visited == None || (visited == Some(p.dwork.at) && rip == p.dwork.at)))
    && (n == 1 ==> visited == Some(p.syncFront.at) && rip == p.syncFront.at)
    && (n == 2 ==> rip !in {p.dwork.at, p.dworkBack.at}
                   && visited == Some(if rip == p.syncBack.at then p.syncBack.at else p.syncFront.at))
    && (n == 3 ==> rip !in {p.syncFront.at, p.syncBack.at}
                   && visited == Some(if rip == p.dworkBack.at then p.dworkBack.at else p.dwork.at))
  }

  /** The state after `n` one-shot traps. */
  predicate InvAt(a: Machine, n: nat) {
    Pristine(a.g.sites) && n <= 4 && Bytes(a, n) && Flags(a, n) && Stage(a.g.sites, a.visited, a.r.rip, n)
  }

  /** So far the one-shot traps are the first ones of the route, each once. */
  predicate Inv(a: Machine) {
    var shots := OneShotTraps(a.g.sites, a.traps);
    InvAt(a, |shots|) && shots == Route(a.g.sites)[..|shots|]
  }

  lemma LaunchInv(a: Machine, m0: Mem)
    requires Launch(a, m0)
    ensures Inv(a)
  {
  }

  /** A trap is at `qworko` or at the next probe of the route. */
  lemma WhichTrap(a: Machine, n: nat)
    requires InvAt(a, n) && !a.paused && !a.due && Trapping(a)
    ensures !a.stepping && n < 4
    ensures a.r.rip == a.g.sites.qworko.at || a.r.rip == Route(a.g.sites)[n]
  {
  }

  lemma QworkoTrap(a: Machine, n: nat)
    requires InvAt(a, n) && n < 4 && !a.paused && !a.stepping && !a.due && a.r.rip == a.g.sites.qworko.at
    ensures InvAt(AfterTrap(a), n)
  {
  }

  lemma RouteTrap(a: Machine, n: nat)
    requires InvAt(a, n) && n < 4 && !a.paused && !a.stepping && !a.due && a.r.rip == Route(a.g.sites)[n]
    ensures InvAt(AfterTrap(a), n + 1)
  {
  }

  /** A `qworko` trap is not on the route; the next trap of the route makes it one longer. */
  lemma RouteGrows(p: Sites, traps: seq<Addr>, at: Addr, n: nat)
    requires p.qworko.at !in OneShots(p) && n < 4 && OneShotTraps(p, traps) == Route(p)[..n]
    ensures at == p.qworko.at ==> OneShotTraps(p, traps + [at]) == Route(p)[..n]
    ensures at == Route(p)[n] ==> OneShotTraps(p, traps + [at]) == Route(p)[..n + 1]
  {
    TrapAppended(p, traps, at);
    assert Route(p)[n] in OneShots(p);
    assert Route(p)[..n + 1] == Route(p)[..n] + [Route(p)[n]];
  }

  lemma InvFrom(b: Machine, n: nat)
    requires InvAt(b, n) && OneShotTraps(b.g.sites, b.traps) == Route(b.g.sites)[..n]
    ensures Inv(b)
  {
  }

  lemma TrapKeepsInv(a: Machine)
    requires Inv(a) && !a.paused && !a.due && Trapping(a)
    ensures Inv(AfterTrap(a))
  {
    var n, b := |OneShotTraps(a.g.sites, a.traps)|, AfterTrap(a);
    WhichTrap(a, n);
    RouteGrows(a.g.sites, a.traps, a.r.rip, n);
    if a.r.rip == a.g.sites.qworko.at {
      QworkoTrap(a, n);
      InvFrom(b, n);
    } else {
      RouteTrap(a, n);
      InvFrom(b, n + 1);
    }
  }

  lemma StepKeepsInv(a: Machine)
    requires Inv(a) && a.due && !a.paused
    ensures Inv(AfterStep(a))
  {
  }

  lemma GuestKeepsInv(a: Machine, m: Mem, r: Regs)
    requires Inv(a) && !a.paused && !a.due && !Trapping(a)
    requires SameAt(ProbeAddrs(a.g.sites), a.m, m) && Flow(a.g.sites, a.visited, r.rip)
    ensures Inv(AfterGuest(a, m, r))
  {
  }

  lemma NextKeepsInv(guest: Guest, a: Machine, b: Machine)
    requires Tame(guest, ProbeAddrs(a.g.sites)) && Inv(a) && Next(guest, a, b)
    ensures Inv(b) && b.g.sites == a.g.sites
  {
    if a.due {
      StepKeepsInv(a);
    } else if Trapping(a) {
      TrapKeepsInv(a);
    } else {
      GuestKeepsInv(a, b.m, b.r);
    }
  }

  /** The invariant holds at every moment of every run. */
  lemma {:induction false} RunInv(guest: Guest, run: seq<Machine>, m0: Mem, i: nat)
    requires Run(guest, run) && Launch(run[0], m0) && Tame(guest, ProbeAddrs(run[0].g.sites)) && i < |run|
    ensures Inv(run[i]) && run[i].g.sites == run[0].g.sites
  {
    if i == 0 {
      LaunchInv(run[0], m0);
    } else {
      RunInv(guest, run, m0, i - 1);
      assert NextAt(guest, run, i - 1);
      NextKeepsInv(guest, run[i - 1], run[i]);
    }
  }

  // -------------------------------------------------------------- main results

  /**
    Cleanup implies flush. Leaving through the cleanup branch takes exactly the
    four one-shot traps, once each and in order, with any number of `qworko`
    traps between them; at every earlier moment they are a prefix of that route.
   */
  lemma CleanupImpliesFlush(guest: Guest, run: seq<Machine>, m0: Mem, i: nat)
    requires Run(guest, run) && Launch(run[0], m0) && Tame(guest, ProbeAddrs(run[0].g.sites)) && i < |run|
    ensures var p := run[0].g.sites;
            var shots := OneShotTraps(p, run[i].traps);
            && shots <= Route(p)
            && (run[i].g.doCleanup <==> shots == Route(p))
            && (run[i].paused ==> shots == Route(p) && run[i].g.interrupted == 1)
  {
    RunInv(guest, run, m0, i);
  }

  /**
    `qworko` is armed whenever single-step is off; single-step is on only over
    `qworko` or, in cleanup, over `dwork_back`.
   */
  lemma SingleStepInvariant(guest: Guest, run: seq<Machine>, m0: Mem, i: nat)
    requires Run(guest, run) && Launch(run[0], m0) && Tame(guest, ProbeAddrs(run[0].g.sites)) && i < |run|
    ensures var a, p := run[i], run[0].g.sites;
            && (a.stepping ==> a.g.stepRewriteLoc == if a.g.doCleanup then p.dworkBack.at else p.qworko.at)
            && p.qworko.at in a.m && (!a.stepping ==> a.m[p.qworko.at] == BREAK)
  {
    RunInv(guest, run, m0, i);
  }

  lemma TrapsOnlyGrow(guest: Guest, a: Machine, b: Machine)
    requires Next(guest, a, b)
    ensures b.g.sites == a.g.sites
    ensures |OneShotTraps(a.g.sites, a.traps)| <= |OneShotTraps(a.g.sites, b.traps)|
  {
  }

  lemma {:induction false} ShotsGrow(guest: Guest, run: seq<Machine>, i: nat, j: nat)
    requires Run(guest, run) && i <= j < |run|
    ensures run[j].g.sites == run[i].g.sites
    ensures |OneShotTraps(run[i].g.sites, run[i].traps)| <= |OneShotTraps(run[i].g.sites, run[j].traps)|
  {
    if i < j {
      ShotsGrow(guest, run, i, j - 1);
      assert NextAt(guest, run, j - 1);
      TrapsOnlyGrow(guest, run[j - 1], run[j]);
    }
  }

  /** Once lifted, a one-shot probe is never armed again before teardown; until then it is armed. */
  lemma OneShotsStayLifted(guest: Guest, run: seq<Machine>, m0: Mem, i: nat, j: nat, p: Probe)
    requires Run(guest, run) && Launch(run[0], m0) && Tame(guest, ProbeAddrs(run[0].g.sites)) && i <= j < |run|
    requires var s := run[0].g.sites; p in {s.dwork, s.syncFront, s.syncBack, s.dworkBack}
    requires p.at in run[i].m && run[i].m[p.at] != BREAK
    ensures p.at in run[j].m && run[j].m[p.at] == p.saved
  {
    RunInv(guest, run, m0, i);
    RunInv(guest, run, m0, j);
    ShotsGrow(guest, run, i, j);
  }

  function Stepping(a: Machine): set<nat> {
    if a.stepping then {0} else {}
  }

  /** The machine's callbacks are legal events of `Probes`, so the results about calls speak of the same transitions. */
  lemma MachineRaisesLegalEvents(a: Machine, plain: Mem)
    requires Inv(a) && !a.paused
    ensures var w := World(a.g, a.m, Stepping(a), plain);
            && (!a.due && Trapping(a) ==>
                  && Legal(w, Trap(0, a.r))
                  && Handle(w, Trap(0, a.r)) == World(AfterTrap(a).g, AfterTrap(a).m, Stepping(AfterTrap(a)), plain))
            && (a.due ==>
                  && Legal(w, Step(0))
                  && Handle(w, Step(0)) == World(AfterStep(a).g, AfterStep(a).m, Stepping(AfterStep(a)), plain))
  {
  }
}
