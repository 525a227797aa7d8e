/**
  How many callbacks the process can take: `interrupted` never returns to 0 and
  `safety` is never reset, so the first 51 traps are all there will ever be.
 */
module TrapBudget {
  import opened GuestMemory
  import opened Probes

  function One(b: bool): nat {
    if b then 1 else 0
  }

  /** Trap callbacks among `events` that start with `interrupted == 0`. */
  function TrapsIn(w: World, events: seq<Event>): nat
    decreases |events|
  {
    if events == [] then 0
    else One(events[0].Trap? && w.g.interrupted == 0) + TrapsIn(Handle(w, events[0]), events[1..])
  }

  /** Step callbacks among `events` that start with `interrupted == 0`. */
  function StepsIn(w: World, events: seq<Event>): nat
    decreases |events|
  {
    if events == [] then 0
    else One(events[0].Step? && w.g.interrupted == 0) + StepsIn(Handle(w, events[0]), events[1..])
  }

  function TrapsInLoop(w: World, listens: seq<Listen>): nat
    decreases |listens|
  {
    if w.g.interrupted != 0 || listens == [] then 0
    else TrapsIn(w, listens[0].events) + TrapsInLoop(AfterListen(w, listens[0]), listens[1..])
  }

  function StepsInLoop(w: World, listens: seq<Listen>): nat
    decreases |listens|
  {
    if w.g.interrupted != 0 || listens == [] then 0
    else StepsIn(w, listens[0].events) + StepsInLoop(AfterListen(w, listens[0]), listens[1..])
  }

  function TrapsInCall(w: World, s: Symbols, listens: seq<Listen>): nat {
    if Located(w, s) then TrapsInLoop(Started(w, s), listens) else 0
  }

  function StepsInCall(w: World, s: Symbols, listens: seq<Listen>): nat {
    if Located(w, s) then StepsInLoop(Started(w, s), listens) else 0
  }

  function TrapsInCalls(p: Process, calls: seq<Call>): nat
    decreases |calls|
  {
    if calls == [] then 0
    else
      TrapsInCall(BeforeCall(p, calls[0]), calls[0].s, calls[0].listens)
      + TrapsInCalls(AfterCall(p, calls[0]), calls[1..])
  }

  function StepsInCalls(p: Process, calls: seq<Call>): nat
    decreases |calls|
  {
    if calls == [] then 0
    else
      StepsInCall(BeforeCall(p, calls[0]), calls[0].s, calls[0].listens)
      + StepsInCalls(AfterCall(p, calls[0]), calls[1..])
  }

  /** Step callbacks only reach vCPUs whose single-step flag is on. */
  predicate StepsOnly(w: World, events: seq<Event>)
    decreases |events|
  {
    events == [] ||
    ((events[0].Step? ==> events[0].vcpu in w.stepping) && StepsOnly(Handle(w, events[0]), events[1..]))
  }

  predicate StepsOnlyInLoop(w: World, listens: seq<Listen>)
    decreases |listens|
  {
    w.g.interrupted != 0 || listens == [] ||
    (StepsOnly(w, listens[0].events) && StepsOnlyInLoop(AfterListen(w, listens[0]), listens[1..]))
  }

  predicate StepsOnlyInCalls(p: Process, calls: seq<Call>)
    decreases |calls|
  {
    calls == [] ||
    var b := BeforeCall(p, calls[0]);
    && (Located(b, calls[0].s) ==> StepsOnlyInLoop(Started(b, calls[0].s), calls[0].listens))
    && StepsOnlyInCalls(AfterCall(p, calls[0]), calls[1..])
  }

  /** The halt comes before `safety` passes its limit. */
  predicate Bounded(g: Globals) {
    g.interrupted != 0 || g.safety <= SAFETY_LIMIT
  }

  /** Traps the process has left. */
  function TrapsLeft(g: Globals): int {
    if g.interrupted != 0 then 0 else SAFETY_LIMIT + 1 - g.safety
  }

  /** Steps the process has left: one for each vCPU already stepping and for each trap below the limit. */
  function StepsLeft(w: World): int {
    if w.g.interrupted != 0 then 0 else |w.stepping| + SAFETY_LIMIT - w.g.safety
  }

  lemma HandleSpends(w: World, e: Event)
    requires Bounded(w.g)
    ensures Bounded(Handle(w, e).g)
    ensures w.g.interrupted != 0 ==> Handle(w, e).g.interrupted != 0
    ensures One(e.Trap? && w.g.interrupted == 0) + TrapsLeft(Handle(w, e).g) <= TrapsLeft(w.g)
    ensures (e.Step? ==> e.vcpu in w.stepping) ==>
              One(e.Step? && w.g.interrupted == 0) + StepsLeft(Handle(w, e)) <= StepsLeft(w)
  {
  }

  lemma {:induction false} EventsSpend(w: World, events: seq<Event>)
    requires Bounded(w.g)
    ensures Bounded(HandleAll(w, events).g)
    ensures w.g.interrupted != 0 ==> HandleAll(w, events).g.interrupted != 0
    ensures TrapsIn(w, events) + TrapsLeft(HandleAll(w, events).g) <= TrapsLeft(w.g)
    ensures StepsOnly(w, events) ==> StepsIn(w, events) + StepsLeft(HandleAll(w, events)) <= StepsLeft(w)
    decreases |events|
  {
    if events != [] {
      HandleSpends(w, events[0]);
      EventsSpend(Handle(w, events[0]), events[1..]);
    }
  }

  lemma {:induction false} LoopSpends(w: World, listens: seq<Listen>)
    requires Bounded(w.g)
    ensures Bounded(Loop(w, listens).g)
    ensures w.g.interrupted != 0 ==> Loop(w, listens).g.interrupted != 0
    ensures TrapsInLoop(w, listens) + TrapsLeft(Loop(w, listens).g) <= TrapsLeft(w.g)
    ensures StepsOnlyInLoop(w, listens) ==> StepsInLoop(w, listens) + StepsLeft(Loop(w, listens)) <= StepsLeft(w)
    decreases |listens|
  {
    if w.g.interrupted == 0 && listens != [] {
      EventsSpend(w, listens[0].events);
      LoopSpends(AfterListen(w, listens[0]), listens[1..]);
    }
  }

  /** Steps a whole process has left. */
  function StepsLeftAfter(g: Globals): int {
    if g.interrupted != 0 then 0 else SAFETY_LIMIT - g.safety
  }

  lemma CallSpends(p: Process, c: Call)
    requires Bounded(p.g)
    ensures var b, p' := BeforeCall(p, c), AfterCall(p, c);
            && Bounded(p'.g)
            && (p.g.interrupted != 0 ==> p'.g.interrupted != 0)
            && TrapsInCall(b, c.s, c.listens) + TrapsLeft(p'.g) <= TrapsLeft(p.g)
            && ((Located(b, c.s) ==> StepsOnlyInLoop(Started(b, c.s), c.listens)) ==>
                  StepsInCall(b, c.s, c.listens) + StepsLeftAfter(p'.g) <= StepsLeftAfter(p.g))
  {
    LoopSpends(Started(BeforeCall(p, c), c.s), c.listens);
  }

  lemma {:induction false} CallsSpend(p: Process, calls: seq<Call>)
    requires Bounded(p.g)
    ensures Bounded(AfterCalls(p, calls).g)
    ensures TrapsInCalls(p, calls) + TrapsLeft(AfterCalls(p, calls).g) <= TrapsLeft(p.g)
    ensures StepsOnlyInCalls(p, calls) ==>
              StepsInCalls(p, calls) + StepsLeftAfter(AfterCalls(p, calls).g) <= StepsLeftAfter(p.g)
    decreases |calls|
  {
    if calls != [] {
      CallSpends(p, calls[0]);
      CallsSpend(AfterCall(p, calls[0]), calls[1..]);
    }
  }

  /**
    Over the whole life of the process, for all its guests together, at most 51
    trap callbacks start with `interrupted == 0`, whatever happens.
   */
  lemma LifetimeTraps(mems: map<nat, Mem>, calls: seq<Call>)
    ensures TrapsInCalls(AtProgramStart(mems), calls) <= 51
  {
    CallsSpend(AtProgramStart(mems), calls);
  }

  /** And at most 50 step callbacks do, on any number of vCPUs, if only single-stepping vCPUs raise them. */
  lemma LifetimeSteps(mems: map<nat, Mem>, calls: seq<Call>)
    requires StepsOnlyInCalls(AtProgramStart(mems), calls)
    ensures StepsInCalls(AtProgramStart(mems), calls) <= 50
  {
    CallsSpend(AtProgramStart(mems), calls);
  }

  // ------------------------------------------------------------ who gets to listen

  lemma {:induction false} InterruptedCallsTakeNothing(p: Process, calls: seq<Call>)
    requires p.g.interrupted != 0
    ensures TrapsInCalls(p, calls) == 0 && StepsInCalls(p, calls) == 0
    ensures AfterCalls(p, calls).g.interrupted == p.g.interrupted
    decreases |calls|
  {
    if calls != [] {
      InterruptedCallsTakeNothing(AfterCall(p, calls[0]), calls[1..]);
    }
  }

  /** A call can take a callback: some legal behaviour of its guest raises one. */
  ghost predicate CanListen(w: World, s: Symbols) {
    exists listens :: LegalCall(w, s, listens) && TrapsInCall(w, s, listens) > 0
  }

  /** A listen that brings one trap. */
  lemma OneTrapIsTaken(w: World, e: Event, l: Listen)
    requires w.g.interrupted == 0 && e.Trap? && Legal(w, e) && l == Listen([e], true)
    ensures LegalLoop(w, [l]) && TrapsInLoop(w, [l]) > 0
  {
    var w', w'' := Handle(w, e), AfterListen(w, l);
    assert [e][0] == e && [e][1..] == [] && [l][0] == l && [l][1..] == [];
    assert TrapsIn(w', []) == 0 && AllLegal(w', []);
    assert TrapsIn(w, l.events) == 1 && AllLegal(w, l.events);
    assert TrapsInLoop(w, [l]) == TrapsIn(w, l.events) + TrapsInLoop(w'', []);
    assert LegalLoop(w'', []);
  }

  /** A call that finds the work function can take a callback iff `interrupted` is 0 when it starts. */
  lemma ListensIffNotInterrupted(w: World, s: Symbols)
    requires Located(w, s)
    ensures CanListen(w, s) <==> w.g.interrupted == 0
  {
    if w.g.interrupted == 0 {
      var e := Trap(0, Regs(Started(w, s).g.sites.qworko.at, 0, 0, 0, 0, 0, []));
      var listens := [Listen([e], true)];
      OneTrapIsTaken(Started(w, s), e, listens[0]);
      assert LegalCall(w, s, listens) && TrapsInCall(w, s, listens) > 0;
    }
  }

  /** Some call of the list leaves its event loop. */
  predicate SomeLeavesLoop(p: Process, calls: seq<Call>)
    decreases |calls|
  {
    calls != [] && (LeavesLoop(p, calls[0]) || SomeLeavesLoop(AfterCall(p, calls[0]), calls[1..]))
  }

  lemma CallInterrupts(p: Process, c: Call)
    requires p.g.interrupted == 0
    ensures AfterCall(p, c).g.interrupted != 0 <==> LeavesLoop(p, c)
  {
    LoopKeepsSites(Started(BeforeCall(p, c), c.s), c.listens);
  }

  lemma {:induction false} CallsInterrupt(p: Process, calls: seq<Call>)
    requires p.g.interrupted == 0
    ensures AfterCalls(p, calls).g.interrupted != 0 <==> SomeLeavesLoop(p, calls)
    decreases |calls|
  {
    if calls != [] {
      var p' := AfterCall(p, calls[0]);
      CallInterrupts(p, calls[0]);
      if p'.g.interrupted == 0 {
        CallsInterrupt(p', calls[1..]);
      } else {
        InterruptedCallsTakeNothing(p', calls[1..]);
      }
    }
  }

  /**
    After any calls since program start, for whichever guests, the next call
    that finds the work function can take a callback iff none of the calls
    before it has left its event loop.
   */
  lemma ListensIffNoneLeftLoop(mems: map<nat, Mem>, calls: seq<Call>, next: Call)
    requires Located(BeforeCall(AfterCalls(AtProgramStart(mems), calls), next), next.s)
    ensures CanListen(BeforeCall(AfterCalls(AtProgramStart(mems), calls), next), next.s)
            <==> !SomeLeavesLoop(AtProgramStart(mems), calls)
  {
    CallsInterrupt(AtProgramStart(mems), calls);
    ListensIffNotInterrupted(BeforeCall(AfterCalls(AtProgramStart(mems), calls), next), next.s);
  }

  /**
    Once a call has left its event loop no later call in the process takes any
    callback: each arms and disarms at once, so none of them flushes.
   */
  lemma OnlyOneCallListens(p: Process, first: Call, later: seq<Call>)
    requires LeavesLoop(p, first)
    ensures TrapsInCalls(AfterCall(p, first), later) == 0 && StepsInCalls(AfterCall(p, first), later) == 0
  {
    LoopKeepsSites(Started(BeforeCall(p, first), first.s), first.listens);
    InterruptedCallsTakeNothing(AfterCall(p, first), later);
  }

  // ------------------------------------------------------------ the bounds are attained

  /** `n` times around `qworko`: trap, single step. */
  function Rounds(r: Regs, n: nat): seq<Event> {
    if n == 0 then [] else [Trap(0, r), Step(0)] + Rounds(r, n - 1)
  }

  lemma {:induction false} RoundsSpend(w: World, r: Regs, n: nat)
    requires w.g.interrupted == 0 && !w.g.doCleanup && w.stepping == {} && r.rip == w.g.sites.qworko.at
    requires 0 < n && w.g.safety + n == SAFETY_LIMIT + 1
    ensures TrapsIn(w, Rounds(r, n)) == n && StepsIn(w, Rounds(r, n)) == n - 1
    ensures AllLegal(w, Rounds(r, n)) && StepsOnly(w, Rounds(r, n))
    decreases n
  {
    var w1 := Handle(w, Trap(0, r));
    var w2 := Handle(w1, Step(0));
    var rest := Rounds(r, n - 1);
    var step := [Step(0)] + rest;
    assert Rounds(r, n)[1..] == step && step[1..] == rest && w2.stepping == {};
    assert TrapsIn(w, Rounds(r, n)) == 1 + TrapsIn(w1, step) && TrapsIn(w1, step) == TrapsIn(w2, rest);
    assert StepsIn(w, Rounds(r, n)) == StepsIn(w1, step) && StepsIn(w1, step) == One(n > 1) + StepsIn(w2, rest);
    if n > 1 {
      RoundsSpend(w2, r, n - 1);
    }
    assert AllLegal(w1, step) && StepsOnly(w1, step);
  }

  /**
    Both bounds are attained by a legal call: 51 traps at `qworko` and the 50
    steps that follow the first 50 of them.
   */
  lemma BudgetAttained(mems: map<nat, Mem>, guest: nat, s: Symbols, r: Regs)
    requires var w := BeforeCall(AtProgramStart(mems), Call(guest, [], s, []));
             Located(w, s) && r.rip == Started(w, s).g.sites.qworko.at
    ensures var c := Call(guest, [], s, [Listen(Rounds(r, 51), true)]);
            var p := AtProgramStart(mems);
            && LegalCall(BeforeCall(p, c), s, c.listens) && StepsOnlyInCalls(p, [c])
            && TrapsInCalls(p, [c]) == 51 && StepsInCalls(p, [c]) == 50
  {
    var c := Call(guest, [], s, [Listen(Rounds(r, 51), true)]);
    var w := Started(BeforeCall(AtProgramStart(mems), c), s);
    RoundsSpend(w, r, 51);
    assert c.listens[1..] == [] && [c][1..] == [];
    assert TrapsInLoop(w, c.listens) == 51 && StepsInLoop(w, c.listens) == 50;
    assert LegalLoop(w, c.listens) && StepsOnlyInLoop(w, c.listens);
  }
}
