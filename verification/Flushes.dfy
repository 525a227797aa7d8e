/**
  The mount manager and the breakpoint hijack together: every connect calls
  `do_sync` first, and over the life of the process one of those calls at most
  takes a callback.
 */
module Flushes {
  import opened Options
  import opened GuestMemory
  import opened Probes
  import opened TrapBudget
  import opened Flushing
  import opened Slots
  import opened Timevals
  import opened MountCache
  import opened Clients

  /** Whether the step connects a device: a fresh grant or a steal does, a hit, a failed pass and a release do not. */
  predicate Connects(s: State, op: Op)
    requires Possible(s, op)
  {
    match op
    case Mount(_, v, _) => HitFrom(s.cache.slots, v, 0) == DEVMAX && FreeFrom(s.cache.slots, 0) < DEVMAX
    case SpinPass(c, now, _) => Scan(s.cache.slots, now, s.clients[c].best).max >= STEAL_AGE
    case Unmount(_) => false
  }

  function GuestOf(s: State, op: Op): Vmi
    requires Possible(s, op)
  {
    match op
    case Mount(_, v, _) => v
    case SpinPass(c, _, _) => s.clients[c].v
    case Unmount(c) => s.clients[c].v
  }

  /** Some slot has another guest in `t'` than in `t`. */
  predicate GuestChanges(t: Table, t': Table) {
    exists i :: 0 <= i < DEVMAX && t'[i].vmi != t[i].vmi
  }

  lemma HitChangesNone(c: Cache, i: Slot, stamp: Timeval)
    ensures !GuestChanges(c.slots, Hit(c, i, stamp).slots)
  {
  }

  lemma AssignChanges(base: string, c: Cache, i: Slot, v: Vmi, disk: string, stamp: Timeval)
    requires c.slots[i].vmi != Some(v)
    ensures GuestChanges(c.slots, Assign(base, c, i, v, disk, stamp).slots)
  {
    assert Assign(base, c, i, v, disk, stamp).slots[i].vmi == Some(v);
  }

  lemma MountConnects(site: Site, s: State, op: Op)
    requires Possible(s, op) && op.Mount?
    ensures Connects(s, op) <==> GuestChanges(s.cache.slots, Apply(site, s, op).cache.slots)
  {
    var h, f := HitFrom(s.cache.slots, op.v, 0), FreeFrom(s.cache.slots, 0);
    RequestFinds(s.cache.slots, op.v);
    if h < DEVMAX {
      HitChangesNone(s.cache, h, op.stamp);
    } else if f < DEVMAX {
      AssignChanges(site.base, s.cache, f, op.v, site.disk(op.v), op.stamp);
    }
  }

  lemma PassConnects(site: Site, s: State, op: Op)
    requires Inv(site, s) && Enabled(s, op) && op.SpinPass?
    ensures Connects(s, op) <==> GuestChanges(s.cache.slots, Apply(site, s, op).cache.slots)
  {
    var b := Scan(s.cache.slots, op.now, s.clients[op.c].best);
    assert ClientOk(s, op.c);
    if b.max >= STEAL_AGE {
      assert Apply(site, s, op).cache.slots[b.maxix].vmi == Some(s.clients[op.c].v);
    }
  }

  /** A step connects exactly when some slot changes its guest. */
  lemma ConnectsIffSlotChanges(site: Site, s: State, op: Op)
    requires Reachable(site, s) && Enabled(s, op)
    ensures Connects(s, op) <==> GuestChanges(s.cache.slots, Apply(site, s, op).cache.slots)
  {
    ReachableInv(site, s);
    match op
    case Mount(_, _, _) => MountConnects(site, s, op);
    case SpinPass(_, _, _) => PassConnects(site, s, op);
    case Unmount(c) =>
      assert ClientOk(s, c);
      UnmountApplied(site, s, c);
  }

  /** A client's step, and the `do_sync` it makes if it connects a device. */
  datatype Move = Move(op: Op, call: Call)

  /** The call is for the guest being mounted and returns, and only then the step goes on. */
  predicate Allowed(s: State, p: Process, mv: Move) {
    && Possible(s, mv.op)
    && (Connects(s, mv.op) ==>
          mv.call.guest == GuestOf(s, mv.op) && Returns(BeforeCall(p, mv.call), mv.call.s, mv.call.listens))
  }

  function AfterMove(s: State, p: Process, mv: Move): Process
    requires Possible(s, mv.op)
  {
    if Connects(s, mv.op) then AfterCall(p, mv.call) else p
  }

  predicate AllAllowed(site: Site, s: State, p: Process, moves: seq<Move>)
    decreases |moves|
  {
    moves == [] ||
    (Allowed(s, p, moves[0]) && AllAllowed(site, Apply(site, s, moves[0].op), AfterMove(s, p, moves[0]), moves[1..]))
  }

  /** The calls of `do_sync` the moves make. */
  function CallsOf(site: Site, s: State, p: Process, moves: seq<Move>): seq<Call>
    requires AllAllowed(site, s, p, moves)
    decreases |moves|
  {
    if moves == [] then []
    else
      (if Connects(s, moves[0].op) then [moves[0].call] else [])
      + CallsOf(site, Apply(site, s, moves[0].op), AfterMove(s, p, moves[0]), moves[1..])
  }

  predicate TakesCallback(p: Process, c: Call) {
    var b := BeforeCall(p, c);
    TrapsInCall(b, c.s, c.listens) > 0 || StepsInCall(b, c.s, c.listens) > 0
  }

  /** The connects before which the guest was touched at all: a callback came in their `do_sync`. */
  function CalledBack(site: Site, s: State, p: Process, moves: seq<Move>): nat
    requires AllAllowed(site, s, p, moves)
    decreases |moves|
  {
    if moves == [] then 0
    else
      One(Connects(s, moves[0].op) && TakesCallback(p, moves[0].call))
      + CalledBack(site, Apply(site, s, moves[0].op), AfterMove(s, p, moves[0]), moves[1..])
  }

  /** The process after the moves: what their calls of `do_sync` leave. */
  function Processed(site: Site, s: State, p: Process, moves: seq<Move>): Process
    requires AllAllowed(site, s, p, moves)
    decreases |moves|
  {
    if moves == [] then p
    else Processed(site, Apply(site, s, moves[0].op), AfterMove(s, p, moves[0]), moves[1..])
  }

  lemma {:induction false} MovesAreCalls(site: Site, s: State, p: Process, moves: seq<Move>)
    requires AllAllowed(site, s, p, moves)
    ensures AfterCalls(p, CallsOf(site, s, p, moves)) == Processed(site, s, p, moves)
    decreases |moves|
  {
    if moves != [] {
      var rest := CallsOf(site, Apply(site, s, moves[0].op), AfterMove(s, p, moves[0]), moves[1..]);
      MovesAreCalls(site, Apply(site, s, moves[0].op), AfterMove(s, p, moves[0]), moves[1..]);
      if Connects(s, moves[0].op) {
        assert ([moves[0].call] + rest)[1..] == rest;
      } else {
        assert [] + rest == rest;
      }
    }
  }

  lemma InterruptedTakesNone(p: Process, c: Call)
    requires p.g.interrupted != 0
    ensures !TakesCallback(p, c) && AfterCall(p, c).g.interrupted != 0
  {
  }

  lemma {:induction false} NoMoreFlushes(site: Site, s: State, p: Process, moves: seq<Move>)
    requires AllAllowed(site, s, p, moves) && p.g.interrupted != 0
    ensures CalledBack(site, s, p, moves) == 0
    decreases |moves|
  {
    if moves != [] {
      InterruptedTakesNone(p, moves[0].call);
      NoMoreFlushes(site, Apply(site, s, moves[0].op), AfterMove(s, p, moves[0]), moves[1..]);
    }
  }

  /** A call that returned without interrupting found no work function, and so took nothing. */
  lemma ReturnedWithout(p: Process, c: Call)
    requires p.g.interrupted == 0 && Returns(BeforeCall(p, c), c.s, c.listens)
    ensures AfterCall(p, c).g.interrupted == 0 <==> !Located(BeforeCall(p, c), c.s)
    ensures AfterCall(p, c).g.interrupted == 0 ==> !TakesCallback(p, c)
  {
    CallInterrupts(p, c);
    LoopKeepsSites(Started(BeforeCall(p, c), c.s), c.listens);
  }

  lemma {:induction false} FirstTrapIsTaken(w: World, events: seq<Event>)
    requires w.g.interrupted == 0 && PlacesIn(w.g.sites, events) != []
    ensures TrapsIn(w, events) + StepsIn(w, events) > 0
    decreases |events|
  {
    if events[0].Store? {
      FirstTrapIsTaken(Handle(w, events[0]), events[1..]);
    }
  }

  lemma {:induction false} FlushTakesCallbacks(w: World, listens: seq<Listen>)
    requires PlacesInLoop(w, listens) != []
    ensures TrapsInLoop(w, listens) + StepsInLoop(w, listens) > 0
    decreases |listens|
  {
    if PlacesIn(w.g.sites, listens[0].events) != [] {
      FirstTrapIsTaken(w, listens[0].events);
    } else {
      assert PlacesInLoop(w, listens) == PlacesInLoop(AfterListen(w, listens[0]), listens[1..]);
      FlushTakesCallbacks(AfterListen(w, listens[0]), listens[1..]);
    }
  }

  /** A call that flushes takes a callback, so the result below bounds the flushes as well. */
  lemma FlushIsCalledBack(p: Process, c: Call)
    requires PlacesInCall(BeforeCall(p, c), c.s, c.listens) == FLUSH_ROUTE
    ensures TakesCallback(p, c)
  {
    FlushTakesCallbacks(Started(BeforeCall(p, c), c.s), c.listens);
  }

  /**
    In any run of any clients at most one connect is preceded by callbacks: one
    mount in the life of the process can show a disk that was flushed for it.
   */
  lemma {:induction false} OneConnectFlushes(site: Site, s: State, p: Process, moves: seq<Move>)
    requires AllAllowed(site, s, p, moves)
    ensures CalledBack(site, s, p, moves) <= 1
    decreases |moves|
  {
    if p.g.interrupted != 0 {
      NoMoreFlushes(site, s, p, moves);
    } else if moves != [] {
      var s', p' := Apply(site, s, moves[0].op), AfterMove(s, p, moves[0]);
      OneConnectFlushes(site, s', p', moves[1..]);
      if Connects(s, moves[0].op) {
        ReturnedWithout(p, moves[0].call);
        if p'.g.interrupted != 0 {
          NoMoreFlushes(site, s', p', moves[1..]);
        }
      }
    }
  }

  /** Some connect so far found the work function. */
  predicate SomeFound(site: Site, s: State, p: Process, moves: seq<Move>)
    requires AllAllowed(site, s, p, moves)
    decreases |moves|
  {
    moves != [] &&
    (|| (Connects(s, moves[0].op) && Located(BeforeCall(p, moves[0].call), moves[0].call.s))
     || SomeFound(site, Apply(site, s, moves[0].op), AfterMove(s, p, moves[0]), moves[1..]))
  }

  lemma {:induction false} StaysInterrupted(site: Site, s: State, p: Process, moves: seq<Move>)
    requires AllAllowed(site, s, p, moves) && p.g.interrupted != 0
    ensures Processed(site, s, p, moves).g.interrupted != 0
    decreases |moves|
  {
    if moves != [] {
      InterruptedTakesNone(p, moves[0].call);
      StaysInterrupted(site, Apply(site, s, moves[0].op), AfterMove(s, p, moves[0]), moves[1..]);
    }
  }

  lemma {:induction false} InterruptedIffFound(site: Site, s: State, p: Process, moves: seq<Move>)
    requires AllAllowed(site, s, p, moves) && p.g.interrupted == 0
    ensures Processed(site, s, p, moves).g.interrupted != 0 <==> SomeFound(site, s, p, moves)
    decreases |moves|
  {
    if moves != [] {
      var s', p' := Apply(site, s, moves[0].op), AfterMove(s, p, moves[0]);
      if Connects(s, moves[0].op) {
        ReturnedWithout(p, moves[0].call);
      }
      if p'.g.interrupted == 0 {
        InterruptedIffFound(site, s', p', moves[1..]);
      } else {
        StaysInterrupted(site, s', p', moves[1..]);
      }
    }
  }

  /**
    After any run since program start, the next connect can flush its guest iff
    no connect before it, for whichever guest, has found the work function, and
    it finds it itself with no probe taken for another one.
   */
  lemma ConnectFlushesIffFirst(site: Site, s: State, mems: map<nat, Mem>, moves: seq<Move>, next: Call)
    requires AllAllowed(site, s, AtProgramStart(mems), moves)
    ensures var b := BeforeCall(Processed(site, s, AtProgramStart(mems), moves), next);
            CanFlush(b, next.s) <==>
            && !SomeFound(site, s, AtProgramStart(mems), moves)
            && Located(b, next.s) && OwnPlaces(Started(b, next.s).g.sites)
  {
    InterruptedIffFound(site, s, AtProgramStart(mems), moves);
    FlushesIff(BeforeCall(Processed(site, s, AtProgramStart(mems), moves), next), next.s);
  }

  /** Over any such run all connects together take at most 51 traps. */
  lemma ConnectsShareBudget(site: Site, s: State, mems: map<nat, Mem>, moves: seq<Move>)
    requires AllAllowed(site, s, AtProgramStart(mems), moves)
    ensures TrapsInCalls(AtProgramStart(mems), CallsOf(site, s, AtProgramStart(mems), moves)) <= 51
    ensures AfterCalls(AtProgramStart(mems), CallsOf(site, s, AtProgramStart(mems), moves))
         == Processed(site, s, AtProgramStart(mems), moves)
  {
    LifetimeTraps(mems, CallsOf(site, s, AtProgramStart(mems), moves));
    MovesAreCalls(site, s, AtProgramStart(mems), moves);
  }
}
