/**
  Exact restoration of guest memory: what any interleaving of callbacks does to
  it, what teardown leaves, and when that is the memory the call started from.
 */
module Restoration {
  import opened Options
  import opened GuestMemory
  import opened Probes

  /** `p` and `q` share an address that `qworko` does not, and whose own byte is not 0xCC. */
  predicate Shared(s: Sites, m: Mem, p: Probe, q: Probe) {
    p.at == q.at && p.at != s.qworko.at && p.at in m && m[p.at] != BREAK
  }

  /** Two of the four one-shot probes share such an address. */
  predicate Clash(p: Sites, m: Mem) {
    || Shared(p, m, p.dwork, p.dworkBack) || Shared(p, m, p.dwork, p.syncFront) || Shared(p, m, p.dwork, p.syncBack)
    || Shared(p, m, p.dworkBack, p.syncFront) || Shared(p, m, p.dworkBack, p.syncBack)
    || Shared(p, m, p.syncFront, p.syncBack)
  }

  /** What arming saved for `p`: the original byte, or 0xCC behind an earlier probe at the same place. */
  predicate SavedBehind(p: Probe, earlier: set<Addr>, m: Mem) {
    p.at in m ==> p.saved == if p.at in earlier then BREAK else m[p.at]
  }

  predicate SavedBytes(p: Sites, m: Mem) {
    && SavedBehind(p.qworko, {}, m)
    && SavedBehind(p.dwork, {p.qworko.at}, m)
    && SavedBehind(p.dworkBack, {p.qworko.at, p.dwork.at}, m)
    && SavedBehind(p.syncFront, {p.qworko.at, p.dwork.at, p.dworkBack.at}, m)
    && SavedBehind(p.syncBack, {p.qworko.at, p.dwork.at, p.dworkBack.at, p.syncFront.at}, m)
  }

  /** Outside the probes `m` is `plain`; a probe byte is the one in `plain` or 0xCC. */
  ghost predicate Agrees(p: Sites, m: Mem, plain: Mem) {
    && m.Keys == plain.Keys
    && forall a :: a in m ==> m[a] == plain[a] || (a in ProbeAddrs(p) && m[a] == BREAK)
  }

  /** The state of memory at any moment of a call; a step would re-arm a probe and nothing else. */
  ghost predicate MemoryInv(w: World) {
    && Agrees(w.g.sites, w.m, w.plain)
    && SavedBytes(w.g.sites, w.plain)
    && (w.stepping != {} ==> w.g.stepRewriteLoc in ProbeAddrs(w.g.sites))
  }

  lemma ArmedSaves(p: Sites, m: Mem, s: Symbols)
    ensures SavedBytes(ArmedSites(p, m, s), m)
  {
  }

  lemma ArmedBytes(p: Sites, m: Mem, s: Symbols)
    ensures ArmedMem(p, m, s).Keys == m.Keys
    ensures forall a :: a in m ==>
      ArmedMem(p, m, s)[a] == if a in ProbeAddrs(ArmedSites(p, m, s)) then BREAK else m[a]
  {
  }

  /** Arming writes 0xCC at every mapped probe, nothing elsewhere, and saves what lay beneath. */
  lemma ArmEstablishes(w: World, s: Symbols)
    requires w.m == w.plain
    ensures MemoryInv(Started(w, s))
    ensures forall a :: a in w.m ==>
      Started(w, s).m[a] == if a in ProbeAddrs(Started(w, s).g.sites) then BREAK else w.m[a]
  {
    ArmedSaves(w.g.sites, w.m, s);
    ArmedBytes(w.g.sites, w.m, s);
  }

  lemma LiftedPlace(p: Sites, rip: Addr)
    requires rip in ProbeAddrs(p)
    ensures Lifted(p, rip).at == rip
  {
  }

  lemma LiftedByte(p: Sites, plain: Mem, rip: Addr)
    requires SavedBytes(p, plain) && rip in ProbeAddrs(p) && rip in plain
    ensures Lifted(p, rip).at == rip
    ensures Lifted(p, rip).saved == plain[rip] || Lifted(p, rip).saved == BREAK
  {
  }

  /** `m` and `n` hold the same bytes at `s`. */
  ghost predicate SameAt(s: set<Addr>, m: Mem, n: Mem) {
    forall a :: a in s ==> (a in m <==> a in n) && (a in m ==> m[a] == n[a])
  }

  /** Writing 0xCC or the original byte at a probe. */
  lemma ProbeWriteAgrees(p: Sites, m: Mem, plain: Mem, at: Addr, value: Byte)
    requires Agrees(p, m, plain) && at in ProbeAddrs(p)
    requires at in plain ==> value == BREAK || value == plain[at]
    ensures Agrees(p, WriteByte(m, at, value), plain)
  {
  }

  lemma HandleKeeps(w: World, e: Event)
    requires MemoryInv(w) && Legal(w, e)
    ensures MemoryInv(Handle(w, e))
    ensures SameAt(ProbeAddrs(w.g.sites), Handle(w, e).plain, w.plain)
  {
    var p := w.g.sites;
    match e
    case Trap(_, r) =>
      if r.rip in w.plain {
        LiftedByte(p, w.plain, r.rip);
        ProbeWriteAgrees(p, w.m, w.plain, r.rip, Lifted(p, r.rip).saved);
      } else {
        LiftedPlace(p, r.rip);
      }
    case Step(_) =>
      ProbeWriteAgrees(p, w.m, w.plain, w.g.stepRewriteLoc, BREAK);
    case Store(_, _) =>
  }

  /** Any interleaving of legal callbacks and guest stores, on any number of vCPUs. */
  lemma {:induction false} CallbacksKeepMemory(w: World, events: seq<Event>)
    requires MemoryInv(w) && AllLegal(w, events)
    ensures MemoryInv(HandleAll(w, events)) && HandleAll(w, events).g.sites == w.g.sites
    ensures SameAt(ProbeAddrs(w.g.sites), HandleAll(w, events).plain, w.plain)
    decreases |events|
  {
    if events != [] {
      HandleKeeps(w, events[0]);
      CallbacksKeepMemory(Handle(w, events[0]), events[1..]);
    }
  }

  lemma AfterListenKeeps(w: World, l: Listen)
    requires MemoryInv(w) && AllLegal(w, l.events)
    ensures MemoryInv(AfterListen(w, l)) && AfterListen(w, l).g.sites == w.g.sites
    ensures SameAt(ProbeAddrs(w.g.sites), AfterListen(w, l).plain, w.plain)
  {
    CallbacksKeepMemory(w, l.events);
  }

  lemma {:induction false} LoopKeepsMemory(w: World, listens: seq<Listen>)
    requires MemoryInv(w) && LegalLoop(w, listens)
    ensures MemoryInv(Loop(w, listens)) && Loop(w, listens).g.sites == w.g.sites
    ensures SameAt(ProbeAddrs(w.g.sites), Loop(w, listens).plain, w.plain)
    decreases |listens|
  {
    if w.g.interrupted == 0 && listens != [] {
      AfterListenKeeps(w, listens[0]);
      LoopKeepsMemory(AfterListen(w, listens[0]), listens[1..]);
    }
  }

  /** The byte disarming leaves at `a`: the one saved for the probe there that is restored last. */
  function LastRestored(p: Sites, a: Addr): Option<Byte> {
    if a == p.qworko.at then Some(p.qworko.saved)
    else if a == p.syncBack.at then Some(p.syncBack.saved)
    else if a == p.syncFront.at then Some(p.syncFront.saved)
    else if a == p.dworkBack.at then Some(p.dworkBack.saved)
    else if a == p.dwork.at then Some(p.dwork.saved)
    else None
  }

  lemma DisarmAt(p: Sites, m: Mem)
    ensures Disarm(p, m).Keys == m.Keys
    ensures forall a :: a in m ==>
      Disarm(p, m)[a] == if LastRestored(p, a).Some? then LastRestored(p, a).value else m[a]
  {
    DisarmIsFiveWrites(p, m);
  }

  /** Away from `qworko`, the byte restored last is the original exactly when no other probe clashes there. */
  lemma LastRestoredIsOriginal(p: Sites, m: Mem)
    requires SavedBytes(p, m)
    ensures Clash(p, m) <==> exists a :: a in m && a in ProbeAddrs(p) && LastRestored(p, a) != Some(m[a])
  {
  }

  /** From any moment of a call, teardown restores all of memory unless two one-shot probes clash. */
  lemma TeardownExact(w: World)
    requires MemoryInv(w)
    ensures Disarm(w.g.sites, w.m) == w.plain <==> !Clash(w.g.sites, w.plain)
  {
    DisarmAt(w.g.sites, w.m);
    LastRestoredIsOriginal(w.g.sites, w.plain);
    var d := Disarm(w.g.sites, w.m);
    forall a | a in w.m ensures d[a] == w.plain[a] <==>
                                !(a in ProbeAddrs(w.g.sites) && LastRestored(w.g.sites, a) != Some(w.plain[a])) {
    }
  }

  /** Arming and then disarming is the identity on memory unless two one-shot probes clash. */
  lemma ArmDisarmExact(p: Sites, m: Mem, s: Symbols)
    ensures Disarm(ArmedSites(p, m, s), ArmedMem(p, m, s)) == m <==> !Clash(ArmedSites(p, m, s), m)
  {
    var w := World(PROGRAM_START.(sites := p), m, {}, m);
    ArmEstablishes(w, s);
    TeardownExact(Started(w, s));
  }

  lemma ClashUnmoved(p: Sites, m: Mem, n: Mem)
    requires SameAt(ProbeAddrs(p), m, n)
    ensures Clash(p, m) == Clash(p, n)
  {
  }

  /**
    A call that finds the work function and returns, through cleanup, the
    safety halt or a failed listen, leaves exactly the memory the guest alone
    would have made, unless two one-shot probes clash in the memory it started from.
   */
  lemma DoSyncRestores(w: World, s: Symbols, listens: seq<Listen>)
    requires w.m == w.plain && LegalCall(w, s, listens)
    requires Located(w, s) && Returns(w, s, listens)
    ensures var out := DoSync(w, s, listens);
            out.m == out.plain <==> !Clash(out.g.sites, w.m)
  {
    var w1 := Started(w, s);
    ArmEstablishes(w, s);
    LoopKeepsMemory(w1, listens);
    TeardownExact(Loop(w1, listens));
    ClashUnmoved(w1.g.sites, Loop(w1, listens).plain, w1.plain);
  }

  /** The early return never disarms: memory survives only where 0xCC was already there. */
  lemma EarlyReturnLeavesProbes(w: World, s: Symbols, listens: seq<Listen>)
    requires w.m == w.plain && !Located(w, s)
    ensures var out := DoSync(w, s, listens);
            out.m == out.plain <==> forall a :: a in ProbeAddrs(out.g.sites) && a in w.m ==> w.m[a] == BREAK
  {
    ArmEstablishes(w, s);
  }

  /** A call between whose probes nothing clashes, and which runs to its end. */
  ghost predicate Sound(w: World, s: Symbols, listens: seq<Listen>) {
    && LegalCall(w, s, listens) && Returns(w, s, listens)
    && Located(w, s)
    && !Clash(Started(w, s).g.sites, w.m)
  }

  ghost predicate AllSound(p: Process, calls: seq<Call>)
    decreases |calls|
  {
    calls == [] ||
    (Sound(BeforeCall(p, calls[0]), calls[0].s, calls[0].listens) && AllSound(AfterCall(p, calls[0]), calls[1..]))
  }

  /** Over any number of calls for any guests, with the guests running freely between them. */
  lemma {:induction false} ManyCallsRestore(p: Process, calls: seq<Call>)
    requires p.mems == p.plains && AllSound(p, calls)
    ensures AfterCalls(p, calls).mems == AfterCalls(p, calls).plains
    decreases |calls|
  {
    if calls != [] {
      var b, c := BeforeCall(p, calls[0]), calls[0];
      ArmEstablishes(b, c.s);
      LoopKeepsMemory(Started(b, c.s), c.listens);
      DoSyncRestores(b, c.s, c.listens);
      ManyCallsRestore(AfterCall(p, c), calls[1..]);
    }
  }
}
