/** What a flush is to the callbacks, the four one-shot traps in order, and exactly which calls can bring one about. */
module Flushing {
  import opened GuestMemory
  import opened Probes
  import opened TrapBudget

  /** The one-shot places of the traps among `events`, in order. */
  function PlacesIn(p: Sites, events: seq<Event>): seq<Place>
    decreases |events|
  {
    if events == [] then []
    else
      (if events[0].Trap? && PlaceOf(p, events[0].regs.rip) !in {Qworko, Unknown}
       then [PlaceOf(p, events[0].regs.rip)] else [])
      + PlacesIn(p, events[1..])
  }

  function PlacesInLoop(w: World, listens: seq<Listen>): seq<Place>
    decreases |listens|
  {
    if w.g.interrupted != 0 || listens == [] then []
    else PlacesIn(w.g.sites, listens[0].events) + PlacesInLoop(AfterListen(w, listens[0]), listens[1..])
  }

  function PlacesInCall(w: World, s: Symbols, listens: seq<Listen>): seq<Place> {
    if Located(w, s) then PlacesInLoop(Started(w, s), listens) else []
  }

  /** Into `sys_sync` at `dwork`, through it from front to back, and on past `dwork_back`. */
  const FLUSH_ROUTE := [Dwork, SyncFront, SyncBack, DworkBack]

  /** Some legal behaviour of its guest takes the call once through `sys_sync`, and it returns. */
  ghost predicate CanFlush(w: World, s: Symbols) {
    exists listens ::
      LegalCall(w, s, listens) && Returns(w, s, listens) && PlacesInCall(w, s, listens) == FLUSH_ROUTE
  }

  /** The five addresses are different, so at each probe the callback takes the branch meant for it. */
  predicate OwnPlaces(p: Sites) {
    && p.qworko.at !in OneShots(p)
    && p.dwork.at !in {p.dworkBack.at, p.syncFront.at, p.syncBack.at}
    && p.dworkBack.at !in {p.syncFront.at, p.syncBack.at} && p.syncFront.at != p.syncBack.at
  }

  // ------------------------------------------------------------------- only if

  /** Some address takes the branch of `place`. */
  predicate HasPlace(p: Sites, place: Place) {
    PlaceOf(p, p.dwork.at) == place || PlaceOf(p, p.syncFront.at) == place
    || PlaceOf(p, p.syncBack.at) == place || PlaceOf(p, p.dworkBack.at) == place
  }

  lemma {:induction false} PlacesExist(p: Sites, events: seq<Event>)
    ensures forall place :: place in PlacesIn(p, events) ==> HasPlace(p, place)
    decreases |events|
  {
    if events != [] {
      PlacesExist(p, events[1..]);
    }
  }

  lemma {:induction false} LoopPlacesExist(w: World, listens: seq<Listen>)
    ensures forall place :: place in PlacesInLoop(w, listens) ==> HasPlace(w.g.sites, place)
    decreases |listens|
  {
    if w.g.interrupted == 0 && listens != [] {
      PlacesExist(w.g.sites, listens[0].events);
      ProbesKept(w, listens[0].events);
      LoopPlacesExist(AfterListen(w, listens[0]), listens[1..]);
    }
  }

  lemma RouteNeedsOwnPlaces(w: World, listens: seq<Listen>)
    requires PlacesInLoop(w, listens) == FLUSH_ROUTE
    ensures OwnPlaces(w.g.sites)
  {
    LoopPlacesExist(w, listens);
    assert forall k :: 0 <= k < 4 ==> FLUSH_ROUTE[k] in PlacesInLoop(w, listens);
    assert FLUSH_ROUTE[0] == Dwork && FLUSH_ROUTE[1] == SyncFront && FLUSH_ROUTE[2] == SyncBack
           && FLUSH_ROUTE[3] == DworkBack;
  }

  // ------------------------------------------------------------------------ if

  function TrapAt(at: Addr): Event {
    Trap(0, Regs(at, 0, 0, 0, 0, 0, []))
  }

  lemma JumpsOn(w: World, at: Addr)
    requires PlaceOf(w.g.sites, at) in {Dwork, SyncFront, SyncBack}
    ensures var w', e := Handle(w, TrapAt(at)), TrapAt(at);
            && Legal(w, e) && w'.g.sites == w.g.sites && w'.stepping == w.stepping
            && forall rest :: PlacesIn(w.g.sites, [e] + rest) == [PlaceOf(w.g.sites, at)] + PlacesIn(w.g.sites, rest)
  {
    forall rest: seq<Event> ensures PlacesIn(w.g.sites, [TrapAt(at)] + rest)
                                 == [PlaceOf(w.g.sites, at)] + PlacesIn(w.g.sites, rest) {
      assert ([TrapAt(at)] + rest)[1..] == rest;
    }
  }

  /** The last trap and its step, which ends the call. */
  lemma CleansUp(w: World)
    requires PlaceOf(w.g.sites, w.g.sites.dworkBack.at) == DworkBack && w.stepping == {}
    ensures var events := [TrapAt(w.g.sites.dworkBack.at), Step(0)];
            && AllLegal(w, events) && HandleAll(w, events).g.interrupted == 1
            && PlacesIn(w.g.sites, events) == [DworkBack]
  {
    var e := TrapAt(w.g.sites.dworkBack.at);
    var w1 := Handle(w, e);
    assert [e, Step(0)][1..] == [Step(0)] && [Step(0)][1..] == [];
    assert w1.g.doCleanup && w1.stepping == {0};
    assert HandleAll(w1, [Step(0)]) == Handle(w1, Step(0)) && AllLegal(w1, [Step(0)]);
    assert PlacesIn(w.g.sites, [Step(0)]) == [];
  }

  function FlushFrom(p: Sites, k: nat): seq<Event>
    requires k <= 3
    decreases 3 - k
  {
    if k == 3 then [TrapAt(p.dworkBack.at), Step(0)]
    else [TrapAt([p.dwork.at, p.syncFront.at, p.syncBack.at][k])] + FlushFrom(p, k + 1)
  }

  lemma {:induction false} FlushRuns(w: World, k: nat)
    requires OwnPlaces(w.g.sites) && w.stepping == {} && k <= 3
    ensures var events := FlushFrom(w.g.sites, k);
            && AllLegal(w, events) && HandleAll(w, events).g.interrupted == 1
            && PlacesIn(w.g.sites, events) == FLUSH_ROUTE[k..]
    decreases 3 - k
  {
    var p := w.g.sites;
    if k == 3 {
      CleansUp(w);
    } else {
      var at := [p.dwork.at, p.syncFront.at, p.syncBack.at][k];
      var rest := FlushFrom(p, k + 1);
      JumpsOn(w, at);
      FlushRuns(Handle(w, TrapAt(at)), k + 1);
      assert ([TrapAt(at)] + rest)[0] == TrapAt(at) && ([TrapAt(at)] + rest)[1..] == rest;
      assert FLUSH_ROUTE[k..] == [FLUSH_ROUTE[k]] + FLUSH_ROUTE[k + 1..];
    }
  }

  lemma FlushesInOneListen(w: World, s: Symbols)
    requires Located(w, s) && w.g.interrupted == 0 && OwnPlaces(Started(w, s).g.sites)
    ensures CanFlush(w, s)
  {
    var w', events := Started(w, s), FlushFrom(Started(w, s).g.sites, 0);
    var l := Listen(events, true);
    var e := AfterListen(w', l);
    FlushRuns(w', 0);
    assert [l][0] == l && [l][1..] == [] && FLUSH_ROUTE[0..] == FLUSH_ROUTE;
    assert Loop(e, []) == e && Loop(w', [l]) == e;
    assert PlacesInLoop(e, []) == [] && PlacesInLoop(w', [l]) == FLUSH_ROUTE + [];
    assert LegalLoop(e, []) && LegalLoop(w', [l]);
    assert LegalCall(w, s, [l]) && Returns(w, s, [l]) && PlacesInCall(w, s, [l]) == FLUSH_ROUTE;
  }

  // -------------------------------------------------------------- main results

  /**
    A call can flush its guest iff it finds the work function, `interrupted` is
    0 when it starts, and no probe is taken for another one.
   */
  lemma FlushesIff(w: World, s: Symbols)
    ensures CanFlush(w, s) <==> Located(w, s) && w.g.interrupted == 0 && OwnPlaces(Started(w, s).g.sites)
  {
    if CanFlush(w, s) {
      var listens :| LegalCall(w, s, listens) && Returns(w, s, listens) && PlacesInCall(w, s, listens) == FLUSH_ROUTE;
      RouteNeedsOwnPlaces(Started(w, s), listens);
    } else if Located(w, s) && w.g.interrupted == 0 && OwnPlaces(Started(w, s).g.sites) {
      FlushesInOneListen(w, s);
    }
  }

  /**
    After any calls since program start, for whichever guests, the next call can
    flush its guest iff none of them has left its event loop, and it finds the
    work function with no probe taken for another one.
   */
  lemma FlushesIffNoneLeftLoop(mems: map<nat, Mem>, calls: seq<Call>, next: Call)
    ensures var b := BeforeCall(AfterCalls(AtProgramStart(mems), calls), next);
            CanFlush(b, next.s) <==>
            && !SomeLeavesLoop(AtProgramStart(mems), calls)
            && Located(b, next.s) && OwnPlaces(Started(b, next.s).g.sites)
  {
    CallsInterrupt(AtProgramStart(mems), calls);
    FlushesIff(BeforeCall(AfterCalls(AtProgramStart(mems), calls), next), next.s);
  }
}
