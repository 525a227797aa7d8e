/**
  Stuttering simulation: with traps and step events erased, an instrumented run
  is a run of the unmodified guest that is diverted once through `sys_sync`.
 */
module Simulation {
  import opened GuestMemory
  import opened Probes
  import opened Restoration
  import opened OneVcpu

  datatype GuestState = GuestState(m: Mem, r: Regs)

  ghost predicate PathAt(guest: Guest, path: seq<GuestState>, i: nat)
    requires i + 1 < |path|
  {
    guest(path[i].m, path[i].r, path[i + 1].m, path[i + 1].r)
  }

  /** Consecutive states of the unmodified guest. */
  ghost predicate Path(guest: Guest, path: seq<GuestState>) {
    |path| > 0 && forall i :: 0 <= i < |path| - 1 ==> PathAt(guest, path, i)
  }

  function Last(path: seq<GuestState>): GuestState
    requires |path| > 0
  {
    path[|path| - 1]
  }

  /** No state before the last stands at `at`. */
  ghost predicate FirstArrival(path: seq<GuestState>, at: Addr) {
    forall i :: 0 <= i < |path| - 1 ==> path[i].r.rip != at
  }

  /** The diverted guest so far: before `dwork`, inside `sys_sync`, or back at `dwork`. */
  datatype Story =
    | Before(before: seq<GuestState>)
    | During(before: seq<GuestState>, sync: seq<GuestState>)
    | After(before: seq<GuestState>, sync: seq<GuestState>, after: seq<GuestState>)

  function Now(s: Story): seq<GuestState> {
    match s
    case Before(b) => b
    case During(_, q) => q
    case After(_, _, a) => a
  }

  /**
    Three runs of the unmodified guest: from `start` to its first arrival at
    `dwork`; from the front of `sys_sync`, with everything else as it was, to
    its first arrival at the back; and on from `dwork` with rdi, rsi and rdx as
    they were at that arrival and all else as `sys_sync` left it.
   */
  ghost predicate IsStory(guest: Guest, p: Sites, start: GuestState, s: Story) {
    && Path(guest, s.before) && s.before[0] == start && FirstArrival(s.before, p.dwork.at)
    && (!s.Before? ==>
          && Last(s.before).r.rip == p.dwork.at
          && Path(guest, s.sync) && FirstArrival(s.sync, p.syncBack.at)
          && s.sync[0] == Last(s.before).(r := Last(s.before).r.(rip := p.syncFront.at)))
    && (s.After? ==>
          && Last(s.sync).r.rip == p.syncBack.at
          && Path(guest, s.after)
          && var d := Last(s.before).r;
             s.after[0]
             == Last(s.sync).(r := Last(s.sync).r.(rip := p.dwork.at, rdi := d.rdi, rsi := d.rsi, rdx := d.rdx)))
  }

  ghost predicate Stands(path: seq<GuestState>, at: Addr) {
    exists i :: 0 <= i < |path| && path[i].r.rip == at
  }

  /** The story is at the point the machine has reached, once the probes are taken out of memory. */
  ghost predicate Matches(a: Machine, n: nat, s: Story) {
    && Now(s) != [] && Last(Now(s)) == GuestState(Disarm(a.g.sites, a.m), a.r)
    && s.Before? == (n == 0) && s.After? == (n >= 3)
    && (s.During? && s.before != [] ==>
          var d := Last(s.before).r; a.g.saved == Saved(d.rdi, d.rsi, d.rdx))
    && (n == 4 ==> Stands(Now(s), a.g.sites.dworkBack.at))
  }

  function Extend(s: Story, g: GuestState): Story {
    match s
    case Before(b) => Before(b + [g])
    case During(b, q) => During(b, q + [g])
    case After(b, q, c) => After(b, q, c + [g])
  }

  /** What a trap does to the story: diverts at `dwork`, returns at the back of `sys_sync`, else nothing. */
  function Diverted(s: Story, a: Machine): Story {
    var g := GuestState(Disarm(a.g.sites, a.m), TrapRegs(a.g, a.r));
    match PlaceOf(a.g.sites, a.r.rip)
    case Dwork => During(s.before, [g])
    case SyncBack => if s.During? then After(s.before, s.sync, [g]) else s
    case _ => s
  }

  lemma DisarmHides(p: Sites, m: Mem, at: Addr, value: Byte)
    requires at in ProbeAddrs(p)
    ensures Disarm(p, WriteByte(m, at, value)) == Disarm(p, m)
  {
    DisarmAt(p, m);
    DisarmAt(p, WriteByte(m, at, value));
  }

  /** Callbacks only change probe bytes, so they do not change what teardown would leave. */
  lemma CallbacksInvisible(a: Machine, n: nat)
    requires InvAt(a, n) && !a.paused
    ensures !a.due && Trapping(a) ==> Disarm(a.g.sites, AfterTrap(a).m) == Disarm(a.g.sites, a.m)
    ensures a.due ==> Disarm(a.g.sites, AfterStep(a).m) == Disarm(a.g.sites, a.m)
  {
    var l := Lifted(a.g.sites, a.r.rip);
    if a.due {
      DisarmHides(a.g.sites, a.m, a.g.stepRewriteLoc, BREAK);
    } else if Trapping(a) {
      DisarmHides(a.g.sites, a.m, l.at, l.saved);
    }
  }

  /** Off the probes, and at the instruction about to run, memory is already what teardown would leave. */
  lemma CleanWhereRead(a: Machine, n: nat)
    requires InvAt(a, n) && !Trapping(a)
    ensures var clean := Disarm(a.g.sites, a.m);
            && clean.Keys == a.m.Keys
            && forall x :: x in a.m && (x !in ProbeAddrs(a.g.sites) || x == a.r.rip) ==> a.m[x] == clean[x]
  {
    DisarmAt(a.g.sites, a.m);
  }

  lemma OverlayIsDisarm(p: Sites, m: Mem, m': Mem)
    requires SameAt(ProbeAddrs(p), m, m')
    ensures Overlay(m', Disarm(p, m), ProbeAddrs(p)) == Disarm(p, m')
  {
    DisarmAt(p, m);
    DisarmAt(p, m');
    forall a | a in m' ensures Overlay(m', Disarm(p, m), ProbeAddrs(p))[a] == Disarm(p, m')[a] {
      assert a in ProbeAddrs(p) <==> LastRestored(p, a).Some?;
    }
  }

  /** An instruction the armed guest executes is one the unmodified guest executes, with the same effect. */
  lemma GuestInClean(guest: Guest, a: Machine, n: nat, m: Mem, r: Regs)
    requires InvAt(a, n) && Tame(guest, ProbeAddrs(a.g.sites)) && !Trapping(a) && guest(a.m, a.r, m, r)
    ensures guest(Disarm(a.g.sites, a.m), a.r, Disarm(a.g.sites, m), r)
  {
    var p, clean := a.g.sites, Disarm(a.g.sites, a.m);
    CleanWhereRead(a, n);
    assert guest(clean, a.r, Overlay(m, clean, ProbeAddrs(p)), r);
    OverlayIsDisarm(p, a.m, m);
  }

  lemma ExtendPath(guest: Guest, path: seq<GuestState>, g: GuestState)
    requires Path(guest, path) && guest(Last(path).m, Last(path).r, g.m, g.r)
    ensures Path(guest, path + [g])
  {
    forall i | 0 <= i < |path| ensures PathAt(guest, path + [g], i) {
      assert i < |path| - 1 ==> PathAt(guest, path, i);
    }
  }

  lemma ExtendStory(guest: Guest, p: Sites, start: GuestState, s: Story, g: GuestState)
    requires IsStory(guest, p, start, s) && Now(s) != []
    requires guest(Last(Now(s)).m, Last(Now(s)).r, g.m, g.r)
    requires s.Before? ==> Last(s.before).r.rip != p.dwork.at
    requires s.During? ==> Last(s.sync).r.rip != p.syncBack.at
    ensures IsStory(guest, p, start, Extend(s, g)) && Last(Now(Extend(s, g))) == g
  {
    ExtendPath(guest, Now(s), g);
  }

  lemma GuestMatches(guest: Guest, a: Machine, n: nat, m: Mem, r: Regs, start: GuestState, s: Story)
    requires InvAt(a, n) && Tame(guest, ProbeAddrs(a.g.sites)) && !a.paused && !a.due && !Trapping(a)
    requires guest(a.m, a.r, m, r) && IsStory(guest, a.g.sites, start, s) && Matches(a, n, s)
    ensures var s' := Extend(s, GuestState(Disarm(a.g.sites, m), r));
            IsStory(guest, a.g.sites, start, s') && Matches(AfterGuest(a, m, r), n, s')
  {
    var g := GuestState(Disarm(a.g.sites, m), r);
    GuestInClean(guest, a, n, m, r);
    ExtendStory(guest, a.g.sites, start, s, g);
    if n == 4 {
      var i :| 0 <= i < |s.after| && s.after[i].r.rip == a.g.sites.dworkBack.at;
      assert (s.after + [g])[i] == s.after[i];
    }
  }

  lemma TrapMatches(guest: Guest, a: Machine, n: nat, start: GuestState, s: Story)
    requires InvAt(a, n) && !a.paused && !a.due && Trapping(a)
    requires IsStory(guest, a.g.sites, start, s) && Matches(a, n, s)
    ensures IsStory(guest, a.g.sites, start, Diverted(s, a))
    ensures Matches(AfterTrap(a), if a.r.rip in OneShots(a.g.sites) then n + 1 else n, Diverted(s, a))
  {
    WhichTrap(a, n);
    CallbacksInvisible(a, n);
    if n == 3 && a.r.rip == a.g.sites.dworkBack.at {
      assert s.after[|s.after| - 1].r.rip == a.g.sites.dworkBack.at;
    }
  }

  /**
    The story one transition further: unchanged by a step event and by the
    traps that do not jump, diverted by the two that do, and longer by exactly
    the state a guest instruction reached, as teardown would leave it.
   */
  function Told(a: Machine, b: Machine, s: Story): Story {
    if a.due then s
    else if Trapping(a) then Diverted(s, a)
    else Extend(s, GuestState(Disarm(a.g.sites, b.m), b.r))
  }

  /** The run up to `i` with its traps and step events erased. */
  function StoryOf(run: seq<Machine>, m0: Mem, i: nat): Story
    requires i < |run|
  {
    if i == 0 then Before([GuestState(m0, run[0].r)]) else Told(run[i - 1], run[i], StoryOf(run, m0, i - 1))
  }

  lemma ToldMatches(guest: Guest, a: Machine, b: Machine, start: GuestState, s: Story)
    requires Inv(a) && Tame(guest, ProbeAddrs(a.g.sites)) && Next(guest, a, b)
    requires IsStory(guest, a.g.sites, start, s) && Matches(a, |OneShotTraps(a.g.sites, a.traps)|, s)
    ensures IsStory(guest, a.g.sites, start, Told(a, b, s))
    ensures Matches(b, |OneShotTraps(a.g.sites, b.traps)|, Told(a, b, s))
  {
    var n := |OneShotTraps(a.g.sites, a.traps)|;
    if a.due {
      CallbacksInvisible(a, n);
    } else if Trapping(a) {
      TrapAppended(a.g.sites, a.traps, a.r.rip);
      TrapMatches(guest, a, n, start, s);
    } else {
      GuestMatches(guest, a, n, b.m, b.r, start, s);
    }
  }

  lemma StartMatches(guest: Guest, a: Machine, m0: Mem)
    requires Launch(a, m0)
    ensures IsStory(guest, a.g.sites, GuestState(m0, a.r), Before([GuestState(m0, a.r)]))
    ensures Matches(a, |OneShotTraps(a.g.sites, a.traps)|, Before([GuestState(m0, a.r)]))
  {
  }

  lemma StoryOfNext(run: seq<Machine>, m0: Mem, i: nat, s: Story)
    requires 0 < i < |run| && s == StoryOf(run, m0, i - 1)
    ensures StoryOf(run, m0, i) == Told(run[i - 1], run[i], s)
  {
  }

  lemma {:induction false} StoryTold(guest: Guest, run: seq<Machine>, m0: Mem, i: nat) returns (s: Story)
    requires Run(guest, run) && Launch(run[0], m0) && Tame(guest, ProbeAddrs(run[0].g.sites)) && i < |run|
    ensures s == StoryOf(run, m0, i)
    ensures IsStory(guest, run[0].g.sites, GuestState(m0, run[0].r), s)
    ensures Matches(run[i], |OneShotTraps(run[0].g.sites, run[i].traps)|, s)
    ensures run[i].g.sites == run[0].g.sites
  {
    if i == 0 {
      s := Before([GuestState(m0, run[0].r)]);
      StartMatches(guest, run[0], m0);
    } else {
      var s0 := StoryTold(guest, run, m0, i - 1);
      StoryOfNext(run, m0, i, s0);
      s := Told(run[i - 1], run[i], s0);
      RunInv(guest, run, m0, i - 1);
      assert NextAt(guest, run, i - 1);
      ToldMatches(guest, run[i - 1], run[i], GuestState(m0, run[0].r), s0);
      TrapsOnlyGrow(guest, run[i - 1], run[i]);
    }
  }

  /**
    The stuttering simulation. At every moment the run with its traps and step
    events erased is a story of the unmodified guest, from the memory the call
    found and the registers it started with. It ends in the machine's registers
    and in the memory teardown would leave; it is before `dwork`, in `sys_sync`
    or after it exactly as the one-shot traps say, and after cleanup it has come
    to `dwork_back`.
   */
  lemma Simulates(guest: Guest, run: seq<Machine>, m0: Mem, i: nat)
    requires Run(guest, run) && Launch(run[0], m0) && Tame(guest, ProbeAddrs(run[0].g.sites)) && i < |run|
    ensures IsStory(guest, run[0].g.sites, GuestState(m0, run[0].r), StoryOf(run, m0, i))
    ensures Matches(run[i], |OneShotTraps(run[0].g.sites, run[i].traps)|, StoryOf(run, m0, i))
    ensures run[i].g.sites == run[0].g.sites
  {
    var _ := StoryTold(guest, run, m0, i);
  }

  /** The state a guest instruction reached, with the probes taken out of memory; nothing for a trap or a step event. */
  function Reached(a: Machine, b: Machine): seq<GuestState> {
    if a.due || Trapping(a) then [] else [GuestState(Disarm(a.g.sites, b.m), b.r)]
  }

  /** The states reached by the guest instructions of the run, in order. */
  function Executed(run: seq<Machine>, i: nat): seq<GuestState>
    requires i < |run|
  {
    if i == 0 then [] else Executed(run, i - 1) + Reached(run[i - 1], run[i])
  }

  function Tail(path: seq<GuestState>): seq<GuestState> {
    if path == [] then [] else path[1..]
  }

  /** The states a story steps to: all but the first of each of its runs. */
  function Steps(s: Story): seq<GuestState> {
    match s
    case Before(b) => Tail(b)
    case During(b, q) => Tail(b) + Tail(q)
    case After(b, q, c) => Tail(b) + Tail(q) + Tail(c)
  }

  /** There is a present state, and a trap at `dwork` comes while the story is before it. */
  predicate Diverts(a: Machine, s: Story) {
    Now(s) != [] && (!a.due && Trapping(a) && PlaceOf(a.g.sites, a.r.rip) == Dwork ==> s.Before?)
  }

  predicate DivertsAt(run: seq<Machine>, m0: Mem, i: nat)
    requires i < |run|
  {
    Diverts(run[i], StoryOf(run, m0, i))
  }

  lemma StoryDiverts(guest: Guest, run: seq<Machine>, m0: Mem, i: nat)
    requires Run(guest, run) && Launch(run[0], m0) && Tame(guest, ProbeAddrs(run[0].g.sites)) && i + 1 < |run|
    ensures DivertsAt(run, m0, i)
  {
    Simulates(guest, run, m0, i);
    RunInv(guest, run, m0, i);
    assert NextAt(guest, run, i);
    if !run[i].due && Trapping(run[i]) {
      WhichTrap(run[i], |OneShotTraps(run[0].g.sites, run[i].traps)|);
    }
  }

  lemma ExtendSteps(s: Story, g: GuestState)
    requires Now(s) != []
    ensures Steps(Extend(s, g)) == Steps(s) + [g]
  {
    assert Tail(Now(s) + [g]) == Tail(Now(s)) + [g];
  }

  lemma DivertSteps(s: Story, a: Machine)
    requires PlaceOf(a.g.sites, a.r.rip) == Dwork ==> s.Before?
    ensures Steps(Diverted(s, a)) == Steps(s)
  {
    assert forall g: GuestState, p: seq<GuestState> :: p + Tail([g]) == p;
  }

  lemma ToldSteps(a: Machine, b: Machine, s: Story)
    requires Diverts(a, s)
    ensures Steps(Told(a, b, s)) == Steps(s) + Reached(a, b)
  {
    assert Steps(s) + [] == Steps(s);
    if !a.due && Trapping(a) {
      DivertSteps(s, a);
    } else if !a.due {
      ExtendSteps(s, GuestState(Disarm(a.g.sites, b.m), b.r));
    }
  }

  lemma NextSteps(run: seq<Machine>, m0: Mem, i: nat, s: Story, s': Story)
    requires 0 < i < |run| && s == StoryOf(run, m0, i - 1) && s' == StoryOf(run, m0, i) && Diverts(run[i - 1], s)
    ensures Steps(s') == Steps(s) + Reached(run[i - 1], run[i])
  {
    StoryOfNext(run, m0, i, s);
    ToldSteps(run[i - 1], run[i], s);
  }

  lemma {:induction false} StepsExecuted(run: seq<Machine>, m0: Mem, i: nat, s: Story)
    requires i < |run| && forall k :: 0 <= k < i ==> DivertsAt(run, m0, k)
    requires s == StoryOf(run, m0, i)
    ensures Steps(s) == Executed(run, i)
  {
    if i > 0 {
      var s0 := StoryOf(run, m0, i - 1);
      StepsExecuted(run, m0, i - 1, s0);
      assert DivertsAt(run, m0, i - 1);
      NextSteps(run, m0, i, s0, s);
    }
  }

  /** The story takes the run's own instructions, every one, in order, and no others. */
  lemma StoryIsErasure(guest: Guest, run: seq<Machine>, m0: Mem, i: nat)
    requires Run(guest, run) && Launch(run[0], m0) && Tame(guest, ProbeAddrs(run[0].g.sites)) && i < |run|
    ensures Steps(StoryOf(run, m0, i)) == Executed(run, i)
  {
    forall k | 0 <= k < i ensures DivertsAt(run, m0, k) {
      StoryDiverts(guest, run, m0, k);
    }
    StepsExecuted(run, m0, i, StoryOf(run, m0, i));
  }

  /**
    A call that leaves through cleanup has flushed: the unmodified guest, from
    the memory and registers the call found, ran to `dwork`, once through
    `sys_sync` from front to back, and on from `dwork` past `dwork_back`, by the
    very instructions of the run; the registers and the memory after teardown
    are exactly its own.
   */
  lemma FlushedCall(guest: Guest, run: seq<Machine>, m0: Mem, i: nat)
    requires Run(guest, run) && Launch(run[0], m0) && Tame(guest, ProbeAddrs(run[0].g.sites)) && i < |run|
    requires run[i].paused
    ensures var s := StoryOf(run, m0, i);
            && s.After? && IsStory(guest, run[0].g.sites, GuestState(m0, run[0].r), s)
            && Steps(s) == Executed(run, i)
            && Stands(s.after, run[0].g.sites.dworkBack.at)
            && Last(s.after) == GuestState(Disarm(run[0].g.sites, run[i].m), run[i].r)
  {
    Simulates(guest, run, m0, i);
    StoryIsErasure(guest, run, m0, i);
    CleanupImpliesFlush(guest, run, m0, i);
  }
}
