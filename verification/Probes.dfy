/**
  What the two event callbacks and `do_sync` do to the file-scope globals, to
  guest memory and to the vCPU, as functions on values. `ProbeEngine` proves
  the imperative code against them.
 */
module Probes {
  import opened Options
  import opened GuestMemory

  const DWORK_BACK_OFFSET := 170
  const SYNC_BACK_OFFSET := 156
  const SAFETY_LIMIT := 50

  /** A probe site: its address and the byte found there when it was armed. */
  datatype Probe = Probe(at: Addr, saved: Byte)

  /** The five sites, with the names the globals have in the program. */
  datatype Sites = Sites(qworko: Probe, dwork: Probe, dworkBack: Probe, syncFront: Probe, syncBack: Probe)

  /** The registers `dwork` saves for its return: rdi, rsi and rdx, nothing else. */
  datatype Saved = Saved(rdi: Addr, rsi: Addr, rdx: Addr)

  /** The globals that outlive a call. `target_work_fn` always equals `sites.dwork.at`. */
  datatype Globals = Globals(
    interrupted: int, doCleanup: bool, safety: Addr, sites: Sites,
    stepRewriteLoc: Addr, ourStack: Addr, ourFrame: Addr, saved: Saved)

  const NO_PROBE := Probe(0, 0)

  /** The globals as the program starts. */
  const PROGRAM_START := Globals(0, false, 0, Sites(NO_PROBE, NO_PROBE, NO_PROBE, NO_PROBE, NO_PROBE),
                                 0, 0, 0, Saved(0, 0, 0))

  /** Results of the five symbol translations; a failed one leaves its variable alone. */
  datatype Symbols = Symbols(
    qworko: Option<Addr>, dwork: Option<Addr>, dworkBack: Option<Addr>,
    syncFront: Option<Addr>, syncBack: Option<Addr>)

  function ProbeAddrs(p: Sites): set<Addr> {
    {p.qworko.at} + OneShots(p)
  }

  function OneShots(p: Sites): set<Addr> {
    {p.dwork.at, p.dworkBack.at, p.syncFront.at, p.syncBack.at}
  }

  // ---------------------------------------------------------------- callbacks

  function CountTrap(g: Globals): Globals {
    var s := Wrap(g.safety + 1);
    g.(safety := s, interrupted := if s > SAFETY_LIMIT then 1 else g.interrupted)
  }

  /** Where a trap stands, decided in the order of the tests of `int_cb_front`. */
  datatype Place = Qworko | Dwork | SyncFront | SyncBack | DworkBack | Unknown

  function PlaceOf(p: Sites, rip: Addr): Place {
    if rip == p.qworko.at then Qworko
    else if rip == p.dwork.at then Dwork
    else if rip == p.syncFront.at then SyncFront
    else if rip == p.syncBack.at then SyncBack
    else if rip == p.dworkBack.at then DworkBack
    else Unknown
  }

  /** `byte_location` and `byte_replacement`; both stay 0 at an unknown address. */
  function Lifted(p: Sites, rip: Addr): Probe {
    match PlaceOf(p, rip)
    case Qworko => p.qworko
    case Dwork => p.dwork
    case SyncFront => p.syncFront
    case SyncBack => p.syncBack
    case DworkBack => p.dworkBack
    case Unknown => NO_PROBE
  }

  /** `int_cb_front` on memory: lift the 0xCC that trapped. */
  function TrapMem(g: Globals, m: Mem, r: Regs): Mem {
    Restore(m, Lifted(g.sites, r.rip))
  }

  /** `int_cb_front` on the globals. */
  function TrapGlobals(g0: Globals, r: Regs): Globals {
    var g := CountTrap(g0).(stepRewriteLoc := r.rip);
    match PlaceOf(g0.sites, r.rip)
    case Dwork => g.(ourStack := r.rsp, ourFrame := r.rbp, saved := Saved(r.rdi, r.rsi, r.rdx))
    case DworkBack => g.(doCleanup := true)
    case _ => g
  }

  /** `int_cb_front` on the vCPU: the two jumps. */
  function TrapRegs(g: Globals, r: Regs): Regs {
    match PlaceOf(g.sites, r.rip)
    case Dwork => r.(rip := g.sites.syncFront.at)
    case SyncBack => r.(rip := g.sites.dwork.at, rdi := g.saved.rdi, rsi := g.saved.rsi, rdx := g.saved.rdx)
    case _ => r
  }

  /** Whether the response asks to toggle single-step. */
  predicate TrapToggles(p: Sites, rip: Addr) {
    var place := PlaceOf(p, rip);
    place != Dwork && place != SyncFront && place != SyncBack
  }

  /** `step_cb_front` on the globals; the cleanup branch also pauses the VM. */
  function StepGlobals(g: Globals): Globals {
    if g.doCleanup then g.(interrupted := 1) else g
  }

  /** `step_cb_front` on memory. */
  function StepMem(g: Globals, m: Mem): Mem {
    if g.doCleanup then m else WriteByte(m, g.stepRewriteLoc, BREAK)
  }

  /** The sites in the order a trap is compared with them. */
  function Tested(p: Sites): seq<Probe> {
    [p.qworko, p.dwork, p.syncFront, p.syncBack, p.dworkBack]
  }

  /**
    A trap at an address of some sites is taken for the first of them that is
    tested: that site's byte is written back, and the two jumps, the saved
    registers, cleanup and single-step are those of that site.
   */
  lemma TrapTakenForFirst(g: Globals, m: Mem, r: Regs, k: nat)
    requires k < 5 && Tested(g.sites)[k].at == r.rip && forall j :: 0 <= j < k ==> Tested(g.sites)[j].at != r.rip
    ensures var g' := TrapGlobals(g, r);
            && TrapMem(g, m, r) == (if r.rip in m then m[r.rip := Tested(g.sites)[k].saved] else m)
            && g'.stepRewriteLoc == r.rip && g'.sites == g.sites
            && g'.safety == (g.safety + 1) % 0x1_0000_0000_0000_0000
            && g'.interrupted == (if g'.safety > 50 then 1 else g.interrupted)
            && (g'.doCleanup <==> g.doCleanup || k == 4)
            && (if k == 1 then g'.ourStack == r.rsp && g'.ourFrame == r.rbp && g'.saved == Saved(r.rdi, r.rsi, r.rdx)
                else g'.ourStack == g.ourStack && g'.ourFrame == g.ourFrame && g'.saved == g.saved)
    ensures TrapRegs(g, r) == (if k == 1 then r.(rip := g.sites.syncFront.at)
                               else if k == 3 then r.(rip := g.sites.dwork.at, rdi := g.saved.rdi, rsi := g.saved.rsi,
                                                      rdx := g.saved.rdx)
                               else r)
    ensures TrapToggles(g.sites, r.rip) <==> k == 0 || k == 4
  {
    assert k == 0 || k == 1 || k == 2 || k == 3 || k == 4;
    assert forall j :: 0 <= j < k ==> Tested(g.sites)[j].at != r.rip;
    assert k > 0 ==> Tested(g.sites)[0].at != r.rip;
    assert k > 1 ==> Tested(g.sites)[1].at != r.rip;
    assert k > 2 ==> Tested(g.sites)[2].at != r.rip;
    assert k > 3 ==> Tested(g.sites)[3].at != r.rip;
  }

  /** A trap anywhere else writes a 0 at address 0 and single-steps. */
  lemma TrapTakenForNone(g: Globals, m: Mem, r: Regs)
    requires r.rip !in ProbeAddrs(g.sites)
    ensures TrapMem(g, m, r) == (if 0 in m then m[0 := 0] else m) && TrapRegs(g, r) == r && TrapToggles(g.sites, r.rip)
    ensures var n := (g.safety + 1) % 0x1_0000_0000_0000_0000;
            TrapGlobals(g, r)
            == g.(safety := n, interrupted := if n > 50 then 1 else g.interrupted, stepRewriteLoc := r.rip)
  {
  }

  // ------------------------------------------------------------ arm and disarm

  function Translated(previous: Addr, symbol: Option<Addr>, offset: int): Addr {
    Wrap((if symbol.Some? then symbol.value else previous) + offset)
  }

  /** The five addresses of a call, from the symbols and the addresses of the call before. */
  function SiteAddrs(p: Sites, s: Symbols): (Addr, Addr, Addr, Addr, Addr) {
    (Translated(p.qworko.at, s.qworko, 0),
     Translated(p.dwork.at, s.dwork, 0),
     Translated(p.dworkBack.at, s.dworkBack, DWORK_BACK_OFFSET),
     Translated(p.syncFront.at, s.syncFront, 0),
     Translated(p.syncBack.at, s.syncBack, SYNC_BACK_OFFSET))
  }

  function Planted(m: Mem, at: Addr, previous: Probe): Probe {
    Probe(at, ReadByte(m, at, previous.saved))
  }

  /** Write 0xCC at the first `n` of the five addresses, in the order of `do_sync`. */
  function PatchedMem(m: Mem, l: (Addr, Addr, Addr, Addr, Addr), n: nat): Mem {
    var m1 := if n >= 1 then WriteByte(m, l.0, BREAK) else m;
    var m2 := if n >= 2 then WriteByte(m1, l.1, BREAK) else m1;
    var m3 := if n >= 3 then WriteByte(m2, l.2, BREAK) else m2;
    var m4 := if n >= 4 then WriteByte(m3, l.3, BREAK) else m3;
    if n >= 5 then WriteByte(m4, l.4, BREAK) else m4
  }

  /** The sites after arming: each byte is saved just before its own 0xCC is written. */
  function ArmedSites(p: Sites, m: Mem, s: Symbols): Sites {
    var l := SiteAddrs(p, s);
    Sites(Planted(m, l.0, p.qworko),
          Planted(PatchedMem(m, l, 1), l.1, p.dwork),
          Planted(PatchedMem(m, l, 2), l.2, p.dworkBack),
          Planted(PatchedMem(m, l, 3), l.3, p.syncFront),
          Planted(PatchedMem(m, l, 4), l.4, p.syncBack))
  }

  function ArmedMem(p: Sites, m: Mem, s: Symbols): Mem {
    PatchedMem(m, SiteAddrs(p, s), 5)
  }

  function Restore(m: Mem, p: Probe): Mem {
    WriteByte(m, p.at, p.saved)
  }

  function RestoreAll(m: Mem, probes: seq<Probe>): Mem {
    if probes == [] then m else RestoreAll(Restore(m, probes[0]), probes[1..])
  }

  /** Write the saved bytes back, in the order of `do_sync`. */
  function Disarm(p: Sites, m: Mem): Mem {
    RestoreAll(m, [p.dwork, p.dworkBack, p.syncFront, p.syncBack, p.qworko])
  }

  lemma DisarmIsFiveWrites(p: Sites, m: Mem)
    ensures Disarm(p, m)
         == Restore(Restore(Restore(Restore(Restore(m, p.dwork), p.dworkBack), p.syncFront), p.syncBack), p.qworko)
  {
    var l1 := [p.dworkBack, p.syncFront, p.syncBack, p.qworko];
    var l2 := [p.syncFront, p.syncBack, p.qworko];
    var l3 := [p.syncBack, p.qworko];
    assert [p.dwork, p.dworkBack, p.syncFront, p.syncBack, p.qworko][1..] == l1;
    assert l1[1..] == l2 && l2[1..] == l3 && l3[1..] == [p.qworko];
    var m1 := Restore(m, p.dwork);
    var m2 := Restore(m1, p.dworkBack);
    var m3 := Restore(m2, p.syncFront);
    assert RestoreAll(m1, l1) == RestoreAll(m2, l2);
    assert RestoreAll(m2, l2) == RestoreAll(m3, l3);
    var m4 := Restore(m3, p.syncBack);
    assert RestoreAll(m3, l3) == RestoreAll(m4, [p.qworko]);
    assert [p.qworko][1..] == [];
    assert RestoreAll(m4, [p.qworko]) == Restore(m4, p.qworko);
  }

  // ------------------------------------------------- the event loop of one call

  /** A callback, or a change the guest itself makes to its memory. Any number of vCPUs take part. */
  datatype Event =
    | Trap(vcpu: nat, regs: Regs)
    | Step(vcpu: nat)
    | Store(at: Addr, value: Option<Byte>)

  /**
    The system during a call. `stepping` holds the vCPUs whose single-step flag
    is on. `plain` is a history variable: memory with only the guest's own
    changes applied.
   */
  datatype World = World(g: Globals, m: Mem, stepping: set<nat>, plain: Mem)

  function Toggled(s: set<nat>, v: nat): set<nat> {
    if v in s then s - {v} else s + {v}
  }

  /** Toggling flips one vCPU's flag and no other's. */
  lemma ToggledOne(s: set<nat>, v: nat)
    ensures (v in Toggled(s, v) <==> v !in s) && forall u :: u != v ==> (u in Toggled(s, v) <==> u in s)
  {
  }

  function Handle(w: World, e: Event): World {
    match e
    case Trap(v, r) =>
      World(TrapGlobals(w.g, r), TrapMem(w.g, w.m, r),
            if TrapToggles(w.g.sites, r.rip) then Toggled(w.stepping, v) else w.stepping, w.plain)
    case Step(v) =>
      World(StepGlobals(w.g), StepMem(w.g, w.m), Toggled(w.stepping, v), w.plain)
    case Store(at, value) =>
      w.(m := GuestWrite(w.m, at, value), plain := GuestWrite(w.plain, at, value))
  }

  /** Traps come from the probes, steps from stepping vCPUs, and the guest leaves probe bytes alone. */
  predicate Legal(w: World, e: Event) {
    match e
    case Trap(v, r) => r.rip in ProbeAddrs(w.g.sites)
    case Step(v) => v in w.stepping
    case Store(at, _) => at !in ProbeAddrs(w.g.sites)
  }

  function HandleAll(w: World, events: seq<Event>): World
    decreases |events|
  {
    if events == [] then w else HandleAll(Handle(w, events[0]), events[1..])
  }

  predicate AllLegal(w: World, events: seq<Event>)
    decreases |events|
  {
    events == [] || (Legal(w, events[0]) && AllLegal(Handle(w, events[0]), events[1..]))
  }

  lemma {:induction false} HandledInTwo(w: World, xs: seq<Event>, ys: seq<Event>)
    ensures HandleAll(w, xs + ys) == HandleAll(HandleAll(w, xs), ys)
    ensures AllLegal(w, xs + ys) <==> AllLegal(w, xs) && AllLegal(HandleAll(w, xs), ys)
    decreases |xs|
  {
    if xs == [] {
      assert xs + ys == ys;
    } else {
      assert (xs + ys)[0] == xs[0] && (xs + ys)[1..] == xs[1..] + ys;
      HandledInTwo(Handle(w, xs[0]), xs[1..], ys);
    }
  }

  /** One `vmi_events_listen`: the callbacks it dispatched, and whether it succeeded. */
  datatype Listen = Listen(events: seq<Event>, ok: bool)

  /** The callbacks of all listens together, however the loop got them. */
  function AllEvents(listens: seq<Listen>): seq<Event> {
    if listens == [] then [] else listens[0].events + AllEvents(listens[1..])
  }

  function AfterListen(w: World, l: Listen): World {
    var w' := HandleAll(w, l.events);
    if l.ok then w' else w'.(g := w'.g.(interrupted := -1))
  }

  /** The `while (!interrupted)` loop, as far as `listens` reaches. */
  function Loop(w: World, listens: seq<Listen>): World
    decreases |listens|
  {
    if w.g.interrupted != 0 || listens == [] then w
    else Loop(AfterListen(w, listens[0]), listens[1..])
  }

  predicate LegalLoop(w: World, listens: seq<Listen>)
    decreases |listens|
  {
    w.g.interrupted != 0 || listens == [] ||
    (AllLegal(w, listens[0].events) && LegalLoop(AfterListen(w, listens[0]), listens[1..]))
  }

  /** The world in which the loop of a call starts: armed, nobody single-stepping. */
  function Started(w: World, s: Symbols): World {
    World(w.g.(sites := ArmedSites(w.g.sites, w.m, s)), ArmedMem(w.g.sites, w.m, s), {}, w.plain)
  }

  /**
    Where arming puts the probes: each at what its own translation gives, or at
    its own previous address if that fails, 170 bytes on for `dwork_back` and
    156 for the back of `sys_sync`.
   */
  lemma ArmedAddresses(w: World, s: Symbols)
    ensures var p, o := Started(w, s).g.sites, w.g.sites;
            && p.qworko.at == (if s.qworko.Some? then s.qworko.value else o.qworko.at)
            && p.dwork.at == (if s.dwork.Some? then s.dwork.value else o.dwork.at)
            && p.dworkBack.at
               == ((if s.dworkBack.Some? then s.dworkBack.value else o.dworkBack.at) + 170) % 0x1_0000_0000_0000_0000
            && p.syncFront.at == (if s.syncFront.Some? then s.syncFront.value else o.syncFront.at)
            && p.syncBack.at
               == ((if s.syncBack.Some? then s.syncBack.value else o.syncBack.at) + 156) % 0x1_0000_0000_0000_0000
    ensures Located(w, s) <==> (if s.dwork.Some? then s.dwork.value else w.g.sites.dwork.at) != 0
  {
  }

  /** At an unmapped address the byte saved before stays. */
  lemma UnmappedKeepsSaved(w: World, s: Symbols)
    ensures var p, o := Started(w, s).g.sites, w.g.sites;
            && (p.qworko.at !in w.m ==> p.qworko.saved == o.qworko.saved)
            && (p.dwork.at !in w.m ==> p.dwork.saved == o.dwork.saved)
            && (p.dworkBack.at !in w.m ==> p.dworkBack.saved == o.dworkBack.saved)
            && (p.syncFront.at !in w.m ==> p.syncFront.saved == o.syncFront.saved)
            && (p.syncBack.at !in w.m ==> p.syncBack.saved == o.syncBack.saved)
  {
  }

  /** The world when the call has left its loop, or when `listens` is used up. */
  function Looped(w: World, s: Symbols, listens: seq<Listen>): World {
    var w' := Started(w, s);
    if w'.g.sites.dwork.at == 0 then w' else Loop(w', listens)
  }

  /** Whether `listens` was enough for the call to return. */
  predicate Returns(w: World, s: Symbols, listens: seq<Listen>) {
    var w' := Looped(w, s, listens);
    w'.g.sites.dwork.at == 0 || w'.g.interrupted != 0
  }

  /** A whole `do_sync`; without the work function it returns before the loop and disarms nothing. */
  function DoSync(w: World, s: Symbols, listens: seq<Listen>): World {
    var w' := Looped(w, s, listens);
    if w'.g.sites.dwork.at == 0 || w'.g.interrupted == 0 then w' else w'.(m := Disarm(w'.g.sites, w'.m))
  }

  predicate LegalCall(w: World, s: Symbols, listens: seq<Listen>) {
    Started(w, s).g.sites.dwork.at != 0 ==> LegalLoop(Started(w, s), listens)
  }

  // ------------------------------------------------------------ the whole process

  /** The globals are shared by the calls for all guests; memory and its history are each guest's own. */
  datatype Process = Process(g: Globals, mems: map<nat, Mem>, plains: map<nat, Mem>)

  /** One call, the guest it is for, and what that guest did to its memory since the call for it before. */
  datatype Call = Call(guest: nat, idle: seq<(Addr, Option<Byte>)>, s: Symbols, listens: seq<Listen>)

  function AtProgramStart(mems: map<nat, Mem>): Process {
    Process(PROGRAM_START, mems, mems)
  }

  function MemOf(mems: map<nat, Mem>, guest: nat): Mem {
    if guest in mems then mems[guest] else map[]
  }

  function Idle(m: Mem, stores: seq<(Addr, Option<Byte>)>): Mem
    decreases |stores|
  {
    if stores == [] then m else Idle(GuestWrite(m, stores[0].0, stores[0].1), stores[1..])
  }

  function BeforeCall(p: Process, c: Call): World {
    World(p.g, Idle(MemOf(p.mems, c.guest), c.idle), {}, Idle(MemOf(p.plains, c.guest), c.idle))
  }

  function AfterCall(p: Process, c: Call): Process {
    var w := DoSync(BeforeCall(p, c), c.s, c.listens);
    Process(w.g, p.mems[c.guest := w.m], p.plains[c.guest := w.plain])
  }

  function AfterCalls(p: Process, calls: seq<Call>): Process
    decreases |calls|
  {
    if calls == [] then p else AfterCalls(AfterCall(p, calls[0]), calls[1..])
  }

  /** Whether the call gets to its event loop, that is, finds the work function. */
  predicate Located(w: World, s: Symbols) {
    Started(w, s).g.sites.dwork.at != 0
  }

  /** Whether the call leaves its event loop. */
  predicate LeavesLoop(p: Process, c: Call) {
    Located(BeforeCall(p, c), c.s) && Returns(BeforeCall(p, c), c.s, c.listens)
  }

  /** A call starts from the globals and its own guest's memory. */
  lemma CallStartsFromItsGuest(p: Process, c: Call)
    requires c.idle == []
    ensures BeforeCall(p, c).g == p.g
    ensures c.guest in p.mems ==> BeforeCall(p, c).m == p.mems[c.guest]
    ensures c.guest in p.plains ==> BeforeCall(p, c).plain == p.plains[c.guest]
  {
  }

  /** A call leaves every other guest's memory alone, and its history. */
  lemma CallTouchesOneGuest(p: Process, c: Call)
    ensures var p' := AfterCall(p, c);
            && p'.mems.Keys == p.mems.Keys + {c.guest} && p'.plains.Keys == p.plains.Keys + {c.guest}
            && (forall v :: v in p.mems && v != c.guest ==> p'.mems[v] == p.mems[v])
            && (forall v :: v in p.plains && v != c.guest ==> p'.plains[v] == p.plains[v])
  {
  }

  /** Between calls each address holds what the guest last put there, or what it held before. */
  lemma {:induction false} IdleKeepsLast(m: Mem, stores: seq<(Addr, Option<Byte>)>, a: Addr)
    ensures (forall k :: 0 <= k < |stores| ==> stores[k].0 != a) ==>
              (a in Idle(m, stores) <==> a in m) && (a in m ==> Idle(m, stores)[a] == m[a])
    ensures forall k :: 0 <= k < |stores| && stores[k].0 == a && (forall j :: k < j < |stores| ==> stores[j].0 != a) ==>
              match stores[k].1
              case Some(b) => a in Idle(m, stores) && Idle(m, stores)[a] == b
              case None => a !in Idle(m, stores)
    decreases |stores|
  {
    if stores != [] {
      var rest := stores[1..];
      IdleKeepsLast(GuestWrite(m, stores[0].0, stores[0].1), rest, a);
      assert forall k :: 0 < k < |stores| ==> stores[k] == rest[k - 1];
      assert forall k :: 0 <= k < |rest| ==> rest[k] == stores[k + 1];
    }
  }

  /** No event moves a probe or changes a saved byte. */
  lemma {:induction false} ProbesKept(w: World, events: seq<Event>)
    ensures HandleAll(w, events).g.sites == w.g.sites
    decreases |events|
  {
    if events != [] {
      ProbesKept(Handle(w, events[0]), events[1..]);
    }
  }

  lemma {:induction false} LoopKeepsSites(w: World, listens: seq<Listen>)
    ensures Loop(w, listens).g.sites == w.g.sites
    decreases |listens|
  {
    if w.g.interrupted == 0 && listens != [] {
      ProbesKept(w, listens[0].events);
      LoopKeepsSites(AfterListen(w, listens[0]), listens[1..]);
    }
  }
}
