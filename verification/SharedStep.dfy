/**
  What several vCPUs do to each other through the one `step_rewrite_loc` they
  share: exactly when a step re-arms the probe it was raised for.
 */
module SharedStep {
  import opened GuestMemory
  import opened Probes
  import opened OneVcpu

  /** The address of the last trap among `events`, or `first`. */
  function LastTrap(events: seq<Event>, first: Addr): Addr
    decreases |events|
  {
    if events == [] then first
    else LastTrap(events[1..], if events[0].Trap? then events[0].regs.rip else first)
  }

  predicate TrapsAt(events: seq<Event>, at: Addr) {
    exists e :: e in events && e.Trap? && e.regs.rip == at
  }

  lemma {:induction false} SharedGlobals(w: World, events: seq<Event>)
    requires Pristine(w.g.sites)
    ensures var w', p := HandleAll(w, events), w.g.sites;
            && w'.g.sites == p
            && w'.g.stepRewriteLoc == LastTrap(events, w.g.stepRewriteLoc)
            && (w'.g.doCleanup <==> w.g.doCleanup || TrapsAt(events, p.dworkBack.at))
    decreases |events|
  {
    if events != [] {
      SharedGlobals(Handle(w, events[0]), events[1..]);
      assert events == [events[0]] + events[1..];
    }
  }

  /** Without a step a lifted probe stays lifted. */
  lemma {:induction false} OnlyStepsArm(w: World, events: seq<Event>, at: Addr)
    requires Pristine(w.g.sites) && AllLegal(w, events) && forall e :: e in events ==> !e.Step?
    requires at in ProbeAddrs(w.g.sites) && at in w.m && w.m[at] != BREAK
    ensures at in HandleAll(w, events).m && HandleAll(w, events).m[at] != BREAK
    decreases |events|
  {
    if events != [] {
      assert events[0] in events;
      OnlyStepsArm(Handle(w, events[0]), events[1..], at);
    }
  }

  /**
    A vCPU traps at a probe and later takes its step, with any legal events of
    any vCPUs between, and the probe is still lifted when the step comes. The
    step arms the probe iff the last trap before it was at that very probe and
    cleanup has not begun; else it arms the probe of that last trap, or nothing.
   */
  lemma StepArmsLastTrap(w: World, v: nat, r: Regs, between: seq<Event>)
    requires Pristine(w.g.sites) && !w.g.doCleanup && r.rip in w.m
    requires var w1 := HandleAll(Handle(w, Trap(v, r)), between);
             r.rip in w1.m && w1.m[r.rip] != BREAK
    ensures var w1 := HandleAll(Handle(w, Trap(v, r)), between);
            var w2 := Handle(w1, Step(v));
            var cleanup := r.rip == w.g.sites.dworkBack.at || TrapsAt(between, w.g.sites.dworkBack.at);
            && w2.m == (if cleanup then w1.m else WriteByte(w1.m, LastTrap(between, r.rip), BREAK))
            && r.rip in w2.m
            && (w2.m[r.rip] == BREAK <==> !cleanup && LastTrap(between, r.rip) == r.rip)
  {
    SharedGlobals(Handle(w, Trap(v, r)), between);
  }

  /** In particular with no step of anybody between: the condition on the events alone. */
  lemma RearmsIffLastTrap(w: World, v: nat, r: Regs, between: seq<Event>)
    requires Pristine(w.g.sites) && !w.g.doCleanup && r.rip in w.m
    requires AllLegal(w, [Trap(v, r)] + between) && forall e :: e in between ==> !e.Step?
    ensures var w2 := HandleAll(w, [Trap(v, r)] + between + [Step(v)]);
            var cleanup := r.rip == w.g.sites.dworkBack.at || TrapsAt(between, w.g.sites.dworkBack.at);
            r.rip in w2.m && (w2.m[r.rip] == BREAK <==> !cleanup && LastTrap(between, r.rip) == r.rip)
  {
    var w1 := Handle(w, Trap(v, r));
    assert HandleAll(w, [Trap(v, r)]) == w1 by {
      assert [Trap(v, r)][1..] == [];
    }
    HandledInTwo(w, [Trap(v, r)], between);
    HandledInTwo(w, [Trap(v, r)] + between, [Step(v)]);
    assert [Step(v)][1..] == [];
    OnlyStepsArm(w1, between, r.rip);
    StepArmsLastTrap(w, v, r, between);
  }

  /**
    Two vCPUs are enough for that. One traps at `qworko`, another at `dwork`
    before the first has stepped: the step arms `dwork`, which was to trap
    once, and `qworko` stays lifted with nobody left to arm it.
   */
  lemma TwoVcpusSwapProbes(w: World, s: Symbols, q: Regs, d: Regs)
    requires var w' := Started(w, s);
             && Pristine(w'.g.sites) && !w'.g.doCleanup && ProbeAddrs(w'.g.sites) <= w'.m.Keys
             && q.rip == w'.g.sites.qworko.at && d.rip == w'.g.sites.dwork.at
    ensures var w', events := Started(w, s), [Trap(0, q), Trap(1, d), Step(0)];
            && AllLegal(w', events)
            && var e := HandleAll(w', events);
               && q.rip in e.m && d.rip in e.m
               && e.m[d.rip] == BREAK && e.m[q.rip] == w'.g.sites.qworko.saved && e.m[q.rip] != BREAK
               && e.stepping == {}
  {
    var w', e0, e1, e2 := Started(w, s), Trap(0, q), Trap(1, d), Step(0);
    assert [e0, e1, e2][1..] == [e1, e2] && [e1, e2][1..] == [e2] && [e2][1..] == [];
    var w1 := Handle(w', e0);
    var w2 := Handle(w1, e1);
    assert HandleAll(w', [e0, e1, e2]) == HandleAll(w1, [e1, e2]) == HandleAll(w2, [e2]) == Handle(w2, e2);
    assert AllLegal(w2, [e2]) && AllLegal(w1, [e1, e2]);
  }
}
