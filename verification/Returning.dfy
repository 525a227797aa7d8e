/**
  When a call of `do_sync` returns, told by the callbacks and listens it gets
  and by where its probes are, and not by what it does with `interrupted`.
 */
module Returning {
  import opened GuestMemory
  import opened Probes
  import opened TrapBudget

  // ------------------------------------------------------------------ the events

  function TrapCount(events: seq<Event>): nat {
    if events == [] then 0 else One(events[0].Trap?) + TrapCount(events[1..])
  }

  /** A trap at `dwork_back` and at none of the sites that are tested before it. */
  predicate BackTrap(p: Sites, e: Event) {
    e.Trap? && e.regs.rip == p.dworkBack.at && e.regs.rip !in {p.qworko.at, p.dwork.at, p.syncFront.at, p.syncBack.at}
  }

  predicate SomeBackTrap(p: Sites, events: seq<Event>) {
    exists j :: 0 <= j < |events| && BackTrap(p, events[j])
  }

  /** A step after cleanup was asked for, before these events or by a trap at `dwork_back` among them. */
  predicate StepAt(p: Sites, asked: bool, events: seq<Event>, k: nat)
    requires k < |events|
  {
    events[k].Step? && (asked || SomeBackTrap(p, events[..k]))
  }

  /** Such a step comes. */
  predicate StepsInCleanup(p: Sites, asked: bool, events: seq<Event>) {
    exists k :: 0 <= k < |events| && StepAt(p, asked, events, k)
  }

  /** These events end the loop: its 51st trap of the process, or a step in cleanup. */
  predicate Ends(g: Globals, events: seq<Event>) {
    g.safety + TrapCount(events) >= 51 || StepsInCleanup(g.sites, g.doCleanup, events)
  }

  predicate Fails(listens: seq<Listen>) {
    exists k :: 0 <= k < |listens| && !listens[k].ok
  }

  // --------------------------------------------------------------- event by event

  lemma SomeBackTrapNext(p: Sites, e: Event, rest: seq<Event>)
    ensures SomeBackTrap(p, [e] + rest) <==> BackTrap(p, e) || SomeBackTrap(p, rest)
  {
    var events := [e] + rest;
    if SomeBackTrap(p, events) {
      var j :| 0 <= j < |events| && BackTrap(p, events[j]);
      assert j > 0 ==> BackTrap(p, rest[j - 1]);
    }
    if BackTrap(p, e) {
      assert BackTrap(p, events[0]);
    } else if SomeBackTrap(p, rest) {
      var j :| 0 <= j < |rest| && BackTrap(p, rest[j]);
      assert BackTrap(p, events[j + 1]);
    }
  }

  lemma StepAtNext(p: Sites, asked: bool, e: Event, rest: seq<Event>, k: nat)
    requires k < |rest|
    ensures StepAt(p, asked, [e] + rest, k + 1) <==> StepAt(p, asked || BackTrap(p, e), rest, k)
  {
    assert ([e] + rest)[..k + 1] == [e] + rest[..k];
    SomeBackTrapNext(p, e, rest[..k]);
  }

  lemma StepsInCleanupNext(p: Sites, asked: bool, e: Event, rest: seq<Event>)
    ensures StepsInCleanup(p, asked, [e] + rest) <==>
            (e.Step? && asked) || StepsInCleanup(p, asked || BackTrap(p, e), rest)
  {
    var events := [e] + rest;
    assert StepAt(p, asked, events, 0) <==> e.Step? && asked by {
      assert events[..0] == [];
    }
    if StepsInCleanup(p, asked, events) {
      var k :| 0 <= k < |events| && StepAt(p, asked, events, k);
      if k > 0 {
        StepAtNext(p, asked, e, rest, k - 1);
      }
    }
    if StepsInCleanup(p, asked || BackTrap(p, e), rest) {
      var k :| 0 <= k < |rest| && StepAt(p, asked || BackTrap(p, e), rest, k);
      StepAtNext(p, asked, e, rest, k);
    }
  }

  /** One callback that finds `interrupted` 0. */
  lemma HandleInterrupts(w: World, e: Event)
    requires w.g.interrupted == 0 && w.g.safety <= 50
    ensures var g := Handle(w, e).g;
            && g.interrupted == (if (e.Trap? && w.g.safety == 50) || (e.Step? && w.g.doCleanup) then 1 else 0)
            && g.safety == w.g.safety + One(e.Trap?) && g.sites == w.g.sites
            && (g.doCleanup <==> w.g.doCleanup || BackTrap(w.g.sites, e))
  {
  }

  lemma {:induction false} StaysInterrupted(w: World, events: seq<Event>)
    requires w.g.interrupted == 1
    ensures HandleAll(w, events).g.interrupted == 1
    decreases |events|
  {
    if events != [] {
      StaysInterrupted(Handle(w, events[0]), events[1..]);
    }
  }

  /** Handling events sets `interrupted`, to 1, iff they end the loop. */
  lemma {:induction false} InterruptsIff(w: World, events: seq<Event>)
    requires w.g.interrupted == 0 && w.g.safety <= 50
    ensures var g := HandleAll(w, events).g;
            && g.interrupted == (if Ends(w.g, events) then 1 else 0)
            && (g.interrupted == 0 ==> g.safety == w.g.safety + TrapCount(events) && g.safety <= 50)
    decreases |events|
  {
    if events != [] {
      var w' := Handle(w, events[0]);
      HandleInterrupts(w, events[0]);
      assert events == [events[0]] + events[1..];
      StepsInCleanupNext(w.g.sites, w.g.doCleanup, events[0], events[1..]);
      if w'.g.interrupted == 0 {
        InterruptsIff(w', events[1..]);
      } else {
        StaysInterrupted(w', events[1..]);
      }
    }
  }

  // -------------------------------------------------------------- listen by listen

  lemma EndsInTwo(w: World, xs: seq<Event>, ys: seq<Event>)
    requires w.g.interrupted == 0 && w.g.safety <= 50
    ensures Ends(w.g, xs + ys) <==> Ends(w.g, xs) || Ends(HandleAll(w, xs).g, ys)
    ensures Ends(w.g, xs) ==> Ends(w.g, xs + ys)
  {
    var w' := HandleAll(w, xs);
    HandledInTwo(w, xs, ys);
    InterruptsIff(w, xs);
    InterruptsIff(w, xs + ys);
    if Ends(w.g, xs) {
      StaysInterrupted(w', ys);
    } else {
      InterruptsIff(w', ys);
    }
  }

  lemma FailsNext(l: Listen, rest: seq<Listen>)
    ensures Fails([l] + rest) <==> !l.ok || Fails(rest)
  {
    var listens := [l] + rest;
    if Fails(listens) {
      var k :| 0 <= k < |listens| && !listens[k].ok;
      assert k > 0 ==> !rest[k - 1].ok;
    }
    if !l.ok {
      assert !listens[0].ok;
    } else if Fails(rest) {
      var k :| 0 <= k < |rest| && !rest[k].ok;
      assert !listens[k + 1].ok;
    }
  }

  /** The loop ends iff a listen fails or the events of all of them end it. */
  lemma {:induction false} LoopEndsIff(w: World, listens: seq<Listen>)
    requires w.g.interrupted == 0 && w.g.safety <= 50
    ensures Loop(w, listens).g.interrupted != 0 <==> Fails(listens) || Ends(w.g, AllEvents(listens))
    ensures !Fails(listens) ==> Loop(w, listens).g.interrupted in {0, 1}
    decreases |listens|
  {
    if listens == [] {
      InterruptsIff(w, []);
    } else {
      var l, rest := listens[0], listens[1..];
      var w' := HandleAll(w, l.events);
      assert listens == [l] + rest;
      FailsNext(l, rest);
      InterruptsIff(w, l.events);
      EndsInTwo(w, l.events, AllEvents(rest));
      if l.ok && !Ends(w.g, l.events) {
        LoopEndsIff(w', rest);
      }
    }
  }

  /** Listens that do not end the loop are all made, and what follows them is handled in the world they lead to. */
  lemma {:induction false} LoopGoesOn(w: World, before: seq<Listen>, rest: seq<Listen>)
    requires w.g.interrupted == 0 && w.g.safety <= 50 && !Fails(before) && !Ends(w.g, AllEvents(before))
    ensures var w' := HandleAll(w, AllEvents(before));
            w'.g.interrupted == 0 && Loop(w, before + rest) == Loop(w', rest)
    decreases |before|
  {
    InterruptsIff(w, AllEvents(before));
    if before == [] {
      assert before + rest == rest;
    } else {
      var l, more := before[0], before[1..];
      assert before == [l] + more;
      assert (before + rest)[0] == l && (before + rest)[1..] == more + rest;
      FailsNext(l, more);
      InterruptsIff(w, l.events);
      EndsInTwo(w, l.events, AllEvents(more));
      HandledInTwo(w, l.events, AllEvents(more));
      LoopGoesOn(HandleAll(w, l.events), more, rest);
    }
  }

  // ------------------------------------------------------------------ main results

  /**
    A call that finds the work function returns iff `interrupted` was not 0 when
    it started, or a listen fails, or a trap is the 51st since `safety` was 0,
    or a step comes in cleanup. What comes after the first of these is never
    made, but the call has returned then. If no listen fails `interrupted` is 1.
   */
  lemma ReturnsIff(w: World, s: Symbols, listens: seq<Listen>)
    requires Located(w, s) && Bounded(w.g)
    ensures Returns(w, s, listens) <==>
            || w.g.interrupted != 0 || Fails(listens)
            || w.g.safety + TrapCount(AllEvents(listens)) >= 51
            || StepsInCleanup(Started(w, s).g.sites, w.g.doCleanup, AllEvents(listens))
    ensures w.g.interrupted == 0 && Returns(w, s, listens) && !Fails(listens) ==>
              DoSync(w, s, listens).g.interrupted == 1
  {
    var w' := Started(w, s);
    LoopKeepsSites(w', listens);
    if w.g.interrupted == 0 {
      LoopEndsIff(w', listens);
    }
  }

  /**
    A listen that fails ends the call, with `interrupted` -1: its callbacks are
    handled, the probes are taken out, and no listen after it is made.
   */
  lemma FailedListenEnds(w: World, s: Symbols, before: seq<Listen>, l: Listen, more: seq<Listen>)
    requires Located(w, s) && w.g.interrupted == 0 && w.g.safety <= 50
    requires !Fails(before) && !Ends(Started(w, s).g, AllEvents(before)) && !l.ok
    ensures Returns(w, s, before + [l])
    ensures DoSync(w, s, before + ([l] + more)) == DoSync(w, s, before + [l])
    ensures var out := DoSync(w, s, before + [l]);
            var handled := HandleAll(HandleAll(Started(w, s), AllEvents(before)), l.events);
            && out.g == handled.g.(interrupted := -1)
            && out.m == Disarm(handled.g.sites, handled.m) && out.plain == handled.plain
  {
    var w' := HandleAll(Started(w, s), AllEvents(before));
    LoopGoesOn(Started(w, s), before, [l]);
    LoopGoesOn(Started(w, s), before, [l] + more);
    assert ([l] + more)[0] == l && ([l] + more)[1..] == more && [l][1..] == [];
    assert Loop(AfterListen(w', l), more) == AfterListen(w', l) == Loop(AfterListen(w', l), []);
    assert Loop(w', [l] + more) == AfterListen(w', l) == Loop(w', [l]);
    LoopKeepsSites(Started(w, s), before + [l]);
    LoopKeepsSites(Started(w, s), before + ([l] + more));
  }

  // -------------------------------------------------------------- the whole process

  /** As long as `interrupted` is 0, `safety` counts the traps. */
  lemma {:induction false} EventsCounted(w: World, events: seq<Event>)
    requires Bounded(w.g) && HandleAll(w, events).g.interrupted == 0
    ensures w.g.interrupted == 0 && HandleAll(w, events).g.safety == w.g.safety + TrapsIn(w, events)
    decreases |events|
  {
    if events != [] {
      HandleSpends(w, events[0]);
      EventsCounted(Handle(w, events[0]), events[1..]);
    }
  }

  lemma {:induction false} LoopCounted(w: World, listens: seq<Listen>)
    requires Bounded(w.g) && Loop(w, listens).g.interrupted == 0
    ensures w.g.interrupted == 0 && Loop(w, listens).g.safety == w.g.safety + TrapsInLoop(w, listens)
    decreases |listens|
  {
    if w.g.interrupted == 0 && listens != [] {
      EventsSpend(w, listens[0].events);
      LoopCounted(AfterListen(w, listens[0]), listens[1..]);
      EventsCounted(w, listens[0].events);
    }
  }

  lemma {:induction false} CallsCounted(p: Process, calls: seq<Call>)
    requires Bounded(p.g) && AfterCalls(p, calls).g.interrupted == 0
    ensures p.g.interrupted == 0 && AfterCalls(p, calls).g.safety == p.g.safety + TrapsInCalls(p, calls)
    decreases |calls|
  {
    if calls != [] {
      var b, c := BeforeCall(p, calls[0]), calls[0];
      CallSpends(p, c);
      CallsCounted(AfterCall(p, c), calls[1..]);
      if Located(b, c.s) {
        LoopCounted(Started(b, c.s), c.listens);
      }
    }
  }

  /**
    After any calls since program start, a call that finds the work function
    returns iff a call before it has left its loop, or a listen of its own
    fails, or one of its traps is the 51st of the process, or a step of its own
    comes in cleanup.
   */
  lemma ReturnsIffInProcess(mems: map<nat, Mem>, calls: seq<Call>, next: Call)
    requires Located(BeforeCall(AfterCalls(AtProgramStart(mems), calls), next), next.s)
    ensures var p := AtProgramStart(mems);
            var b, events := BeforeCall(AfterCalls(p, calls), next), AllEvents(next.listens);
            Returns(b, next.s, next.listens) <==>
            || SomeLeavesLoop(p, calls) || Fails(next.listens)
            || TrapsInCalls(p, calls) + TrapCount(events) >= 51
            || StepsInCleanup(Started(b, next.s).g.sites, b.g.doCleanup, events)
  {
    var p := AtProgramStart(mems);
    CallsSpend(p, calls);
    CallsInterrupt(p, calls);
    if AfterCalls(p, calls).g.interrupted == 0 {
      CallsCounted(p, calls);
    }
    ReturnsIff(BeforeCall(AfterCalls(p, calls), next), next.s, next.listens);
  }
}
