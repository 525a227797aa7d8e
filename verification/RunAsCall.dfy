/**
  A run of the instrumented guest as the event list of a `do_sync` call, so that
  what is proved about calls and what is proved about runs meet.
 */
module RunAsCall {
  import opened Options
  import opened GuestMemory
  import opened Probes
  import opened Restoration
  import opened OneVcpu
  import opened Simulation

  /** What the guest does at `a` for its memory to be `n` there. */
  function StoreOf(a: Addr, n: Mem): Event {
    Store(a, if a in n then Some(n[a]) else None)
  }

  ghost function StoresAt(s: set<Addr>, n: Mem): seq<Event> {
    if s == {} then []
    else
      var a :| a in s;
      [StoreOf(a, n)] + StoresAt(s - {a}, n)
  }

  function Changed(m: Mem, n: Mem): set<Addr> {
    set a | a in m.Keys + n.Keys && (a !in m || a !in n || m[a] != n[a])
  }

  /** `m` with what `n` has at `s`, mapped or not. */
  function Patched(m: Mem, n: Mem, s: set<Addr>): Mem {
    map a | a in m.Keys + n.Keys && (if a in s then a in n else a in m) :: if a in s then n[a] else m[a]
  }

  /** One transition of the machine as events: a step, a trap, or the memory changes of a guest instruction. */
  ghost function EventsAt(a: Machine, b: Machine): seq<Event> {
    if a.due then [Step(0)]
    else if Trapping(a) then [Trap(0, a.r)]
    else StoresAt(Changed(a.m, b.m), b.m)
  }

  ghost function EventsOf(run: seq<Machine>, i: nat): seq<Event>
    requires i < |run|
  {
    if i == 0 then [] else EventsOf(run, i - 1) + EventsAt(run[i - 1], run[i])
  }

  lemma PatchedOne(m: Mem, n: Mem, s: set<Addr>, a: Addr)
    requires a in s
    ensures Patched(GuestWrite(m, a, StoreOf(a, n).value), n, s - {a}) == Patched(m, n, s)
  {
  }

  lemma {:induction false} StoresApplied(w: World, s: set<Addr>, n: Mem)
    requires s !! ProbeAddrs(w.g.sites)
    ensures AllLegal(w, StoresAt(s, n))
    ensures HandleAll(w, StoresAt(s, n)) == World(w.g, Patched(w.m, n, s), w.stepping, Patched(w.plain, n, s))
    decreases s
  {
    if s == {} {
      assert Patched(w.m, n, s) == w.m && Patched(w.plain, n, s) == w.plain;
    } else {
      var events := StoresAt(s, n);
      var a :| a in s && events == [StoreOf(a, n)] + StoresAt(s - {a}, n);
      var w' := Handle(w, StoreOf(a, n));
      StoresApplied(w', s - {a}, n);
      assert events[1..] == StoresAt(s - {a}, n);
      PatchedOne(w.m, n, s, a);
      PatchedOne(w.plain, n, s, a);
    }
  }

  lemma OneEvent(w: World, e: Event)
    ensures HandleAll(w, [e]) == Handle(w, e) && (AllLegal(w, [e]) <==> Legal(w, e))
  {
    assert [e][1..] == [];
  }

  /** The world of the callbacks is the machine's. */
  predicate Shows(w: World, a: Machine) {
    w.g == a.g && w.stepping == Stepping(a) && w.m == a.m
  }

  lemma NextIsEvents(guest: Guest, a: Machine, b: Machine, w: World)
    requires Tame(guest, ProbeAddrs(a.g.sites)) && Inv(a) && Next(guest, a, b) && Shows(w, a)
    ensures AllLegal(w, EventsAt(a, b)) && Shows(HandleAll(w, EventsAt(a, b)), b)
  {
    if a.due {
      OneEvent(w, Step(0));
    } else if Trapping(a) {
      OneEvent(w, Trap(0, a.r));
    } else {
      StoresApplied(w, Changed(a.m, b.m), b.m);
      assert Patched(a.m, b.m, Changed(a.m, b.m)) == b.m;
    }
  }

  /** `events` are legal and lead from `w` to the machine's state. */
  predicate Received(w: World, events: seq<Event>, a: Machine) {
    AllLegal(w, events) && Shows(HandleAll(w, events), a)
  }

  lemma ReceivesNext(guest: Guest, w: World, events: seq<Event>, a: Machine, b: Machine)
    requires Tame(guest, ProbeAddrs(a.g.sites)) && Inv(a) && Next(guest, a, b) && Received(w, events, a)
    ensures Received(w, events + EventsAt(a, b), b)
  {
    NextIsEvents(guest, a, b, HandleAll(w, events));
    HandledInTwo(w, events, EventsAt(a, b));
  }

  ghost predicate ReceivedAt(run: seq<Machine>, w: World, i: nat)
    requires i < |run|
  {
    Received(w, EventsOf(run, i), run[i])
  }

  lemma RunReceivesNext(guest: Guest, run: seq<Machine>, m0: Mem, w: World, i: nat)
    requires Run(guest, run) && Launch(run[0], m0) && Tame(guest, ProbeAddrs(run[0].g.sites)) && i + 1 < |run|
    requires ReceivedAt(run, w, i)
    ensures ReceivedAt(run, w, i + 1)
  {
    RunInv(guest, run, m0, i);
    assert NextAt(guest, run, i);
    ReceivesNext(guest, w, EventsOf(run, i), run[i], run[i + 1]);
  }

  /** A whole run up to any moment is a legal list of events with the same globals, single-step flag and memory. */
  lemma RunIsEvents(guest: Guest, run: seq<Machine>, m0: Mem, w: World, i: nat)
    requires Run(guest, run) && Launch(run[0], m0) && Tame(guest, ProbeAddrs(run[0].g.sites)) && i < |run|
    requires Shows(w, run[0])
    ensures AllLegal(w, EventsOf(run, i)) && Shows(HandleAll(w, EventsOf(run, i)), run[i])
  {
    assert ReceivedAt(run, w, 0);
    for k := 0 to i
      invariant ReceivedAt(run, w, k)
    {
      RunReceivesNext(guest, run, m0, w, k);
    }
  }

  // ------------------------------------------------------------- the run as a call

  /** Every listen succeeds, and only the last may set `interrupted`, so the loop makes all of them. */
  predicate AllMade(w: World, listens: seq<Listen>)
    decreases |listens|
  {
    listens == [] || (w.g.interrupted == 0 && listens[0].ok && AllMade(AfterListen(w, listens[0]), listens[1..]))
  }

  /** Such a loop does not depend on how its events are split into listens. */
  lemma {:induction false} LoopIsEvents(w: World, listens: seq<Listen>)
    requires AllMade(w, listens)
    ensures Loop(w, listens) == HandleAll(w, AllEvents(listens))
    ensures LegalLoop(w, listens) <==> AllLegal(w, AllEvents(listens))
    decreases |listens|
  {
    if listens != [] {
      LoopIsEvents(AfterListen(w, listens[0]), listens[1..]);
      HandledInTwo(w, listens[0].events, AllEvents(listens[1..]));
    }
  }

  /** The vCPU when the loop of a call starts. */
  function Launched(w: World, s: Symbols, r: Regs): Machine {
    Machine(Started(w, s).g, Started(w, s).m, r, false, false, false, None, [])
  }

  /** What a call needs for the results about runs: see `ArmingLaunches`. */
  predicate Ready(w: World, s: Symbols, r: Regs) {
    && w.m == w.plain && w.g.interrupted == 0 && !w.g.doCleanup && Located(w, s)
    && var p := Started(w, s).g.sites;
       && |ProbeAddrs(p)| == 5
       && (forall a :: a in ProbeAddrs(p) ==> a in w.m && w.m[a] != BREAK)
       && r.rip !in {p.syncFront.at, p.syncBack.at, p.dworkBack.at}
  }

  /** The run starts where the loop of the call starts. */
  ghost predicate RunsIn(guest: Guest, run: seq<Machine>, w: World, s: Symbols, r: Regs) {
    Run(guest, run) && run[0] == Launched(w, s, r) && Tame(guest, ProbeAddrs(run[0].g.sites))
  }

  /** The call receives just what the run does up to `i`, in any number of listens. */
  ghost predicate Receives(w: World, s: Symbols, listens: seq<Listen>, run: seq<Machine>, i: nat)
    requires i < |run|
  {
    AllMade(Started(w, s), listens) && AllEvents(listens) == EventsOf(run, i)
  }

  lemma OneListenReceives(w: World, s: Symbols, run: seq<Machine>, i: nat)
    requires w.g.interrupted == 0 && i < |run|
    ensures Receives(w, s, [Listen(EventsOf(run, i), true)], run, i)
  {
    var l := [Listen(EventsOf(run, i), true)];
    assert l[1..] == [] && EventsOf(run, i) + [] == EventsOf(run, i);
    assert AllEvents(l) == EventsOf(run, i);
  }

  /**
    A run that starts where a call starts to listen is what that call receives:
    however it comes in listens, the call is legal, has the run's globals, and
    has returned iff the run has set `interrupted`; its memory is the run's,
    then disarmed.
   */
  lemma RunIsCall(
      guest: Guest, run: seq<Machine>, w: World, s: Symbols, r: Regs, listens: seq<Listen>, i: nat)
    requires Ready(w, s, r) && RunsIn(guest, run, w, s, r) && i < |run| && Receives(w, s, listens, run, i)
    ensures var a, out := run[i], DoSync(w, s, listens);
            && LegalCall(w, s, listens) && out.g == a.g
            && (Returns(w, s, listens) <==> a.g.interrupted != 0)
            && out.m == if a.g.interrupted != 0 then Disarm(a.g.sites, a.m) else a.m
  {
    ArmingLaunches(w, s, r);
    RunIsEvents(guest, run, w.m, Started(w, s), i);
    RunInv(guest, run, w.m, i);
    LoopIsEvents(Started(w, s), listens);
  }

  lemma ReadyNeverClashes(w: World, s: Symbols, r: Regs)
    requires Ready(w, s, r)
    ensures !Clash(Started(w, s).g.sites, w.m)
  {
    ArmingLaunches(w, s, r);
  }

  /**
    A `do_sync` that leaves through cleanup has flushed, and returns with the
    guest exactly where the unmodified guest would be: past `dwork_back`, after
    one `sys_sync`, with every byte of memory its own.
   */
  lemma {:induction false} CleanupCallFlushes(
      guest: Guest, run: seq<Machine>, w: World, s: Symbols, r: Regs, listens: seq<Listen>, i: nat)
    requires Ready(w, s, r) && RunsIn(guest, run, w, s, r) && i < |run| && Receives(w, s, listens, run, i)
    requires run[i].paused
    ensures var out, story := DoSync(w, s, listens), StoryOf(run, w.m, i);
            && LegalCall(w, s, listens) && Returns(w, s, listens)
            && story.After? && IsStory(guest, out.g.sites, GuestState(w.m, r), story)
            && Steps(story) == Executed(run, i)
            && Stands(story.after, out.g.sites.dworkBack.at)
            && Last(story.after) == GuestState(out.m, run[i].r)
            && out.m == out.plain
  {
    ArmingLaunches(w, s, r);
    RunIsCall(guest, run, w, s, r, listens, i);
    CleanupImpliesFlush(guest, run, w.m, i);
    FlushedCall(guest, run, w.m, i);
    RunInv(guest, run, w.m, i);
    ReadyNeverClashes(w, s, r);
    LoopKeepsSites(Started(w, s), listens);
    DoSyncRestores(w, s, listens);
  }
}
