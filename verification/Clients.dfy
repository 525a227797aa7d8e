/**
  Many clients mounting and unmounting disks through one mount manager: the
  step relation over its atomic steps, and what every interleaving keeps.
 */
module Clients {
  import opened Options
  import opened Slots
  import opened Timevals
  import opened Devices
  import opened MountCache

  /** Fixed for the life of the process: the mount directory and each guest's disk. */
  datatype Site = Site(base: string, disk: Vmi -> string)

  type Client = nat

  datatype Phase =
    | Idle
    | Spinning(v: Vmi, best: Best)
    | Holding(v: Vmi, slot: Slot)

  /**
    `mountdev` is the handle each agent keeps. `grants`, `releases` and
    `requested`, when each slot was last granted, are history variables.
   */
  datatype State = State(
    cache: Cache, mountdev: map<Vmi, int>, clients: map<Client, Phase>,
    grants: nat, releases: nat, requested: map<nat, Timeval>)

  datatype Op =
    | Mount(c: Client, v: Vmi, stamp: Timeval)
    | SpinPass(c: Client, now: Timeval, stamp: Timeval)
    | Unmount(c: Client)

  /** What a client can do at all: request when it is idle, pass while it spins, release what it holds. */
  predicate Possible(s: State, op: Op) {
    && op.c in s.clients
    && match op
       case Mount(c, _, _) => s.clients[c].Idle?
       case SpinPass(c, _, _) => s.clients[c].Spinning?
       case Unmount(c) => s.clients[c].Holding?
  }

  /** A possible step that keeps at most one request per guest in flight. */
  predicate Enabled(s: State, op: Op) {
    && Possible(s, op)
    && (op.Mount? ==> forall d :: d in s.clients && s.clients[d].Spinning? ==> s.clients[d].v != op.v)
  }

  function Granted(s: State, c: Client, v: Vmi, i: Slot, stamp: Timeval, cache: Cache): State {
    State(cache, s.mountdev[v := i], s.clients[c := Holding(v, i)], s.grants + 1, s.releases, s.requested[i := stamp])
  }

  function Released(s: State, c: Client, i: Slot): State {
    s.(cache := Release(s.cache, i), clients := s.clients[c := Idle], releases := s.releases + 1)
  }

  function Apply(site: Site, s: State, op: Op): State
    requires Possible(s, op)
  {
    match op
    case Mount(c, v, stamp) =>
      var h := HitFrom(s.cache.slots, v, 0);
      var f := FreeFrom(s.cache.slots, 0);
      var cache := Act(site.base, s.cache, Request(v, site.disk(v), stamp));
      if h < DEVMAX then Granted(s, c, v, h, stamp, cache)
      else if f < DEVMAX then Granted(s, c, v, f, stamp, cache)
      else s.(clients := s.clients[c := Spinning(v, NO_BEST)])
    case SpinPass(c, now, stamp) =>
      var v := s.clients[c].v;
      var b := Scan(s.cache.slots, now, s.clients[c].best);
      var cache := Act(site.base, s.cache, Pass(v, site.disk(v), now, stamp, s.clients[c].best));
      if b.max < STEAL_AGE then s.(clients := s.clients[c := Spinning(v, b)])
      else Granted(s, c, v, b.maxix, stamp, cache)
    case Unmount(c) =>
      var v := s.clients[c].v;
      if v in s.mountdev && 0 <= s.mountdev[v] < DEVMAX then Released(s, c, s.mountdev[v])
      else s   // a handle never set: outside the program's contract
  }

  predicate AllPossible(site: Site, s: State, ops: seq<Op>)
    decreases |ops|
  {
    ops == [] || (Possible(s, ops[0]) && AllPossible(site, Apply(site, s, ops[0]), ops[1..]))
  }

  predicate AllEnabled(site: Site, s: State, ops: seq<Op>): (r: bool)
    ensures r ==> AllPossible(site, s, ops)
    decreases |ops|
  {
    ops == [] || (Enabled(s, ops[0]) && AllEnabled(site, Apply(site, s, ops[0]), ops[1..]))
  }

  function ApplyAll(site: Site, s: State, ops: seq<Op>): State
    requires AllPossible(site, s, ops)
    decreases |ops|
  {
    if ops == [] then s else ApplyAll(site, Apply(site, s, ops[0]), ops[1..])
  }

  lemma {:induction false} AppliedInTwo(site: Site, s: State, xs: seq<Op>, ys: seq<Op>)
    requires AllPossible(site, s, xs) && AllPossible(site, ApplyAll(site, s, xs), ys)
    ensures AllPossible(site, s, xs + ys)
    ensures ApplyAll(site, s, xs + ys) == ApplyAll(site, ApplyAll(site, s, xs), ys)
    ensures AllEnabled(site, s, xs) && AllEnabled(site, ApplyAll(site, s, xs), ys) ==> AllEnabled(site, s, xs + ys)
    decreases |xs|
  {
    if xs == [] {
      assert xs + ys == ys;
    } else {
      var s1, zs := Apply(site, s, xs[0]), xs + ys;
      assert zs[0] == xs[0] && zs[1..] == xs[1..] + ys;
      assert ApplyAll(site, s, xs) == ApplyAll(site, s1, xs[1..]);
      AppliedInTwo(site, s1, xs[1..], ys);
      assert AllPossible(site, s, zs);
    }
  }

  /** A clean start: what the constructor leaves, and clients that hold nothing. */
  predicate Start(s: State) {
    && (forall i :: 0 <= i < DEVMAX ==>
          var r := s.cache.slots[i]; r.vmi == None && r.mountindex == -1 && r.refcount == 0 && !r.locked)
    && s.cache.nbd == map[] && s.cache.mounts == map[] && s.cache.paused == {} && !s.cache.exited
    && (forall c :: c in s.clients ==> s.clients[c] == Idle)
    && s.grants == 0 && s.releases == 0
  }

  // ------------------------------------------------------------- the invariant

  /**
    A slot's lock is held iff it has a guest iff its index is set; allotted
    slots form a prefix and belong to different guests.
   */
  predicate Shape(t: Table) {
    && (forall i :: 0 <= i < DEVMAX ==> (t[i].locked <==> t[i].vmi.Some?) && (t[i].locked <==> t[i].mountindex == i))
    && (forall i, j :: 0 <= i < j < DEVMAX ==>
          (t[j].locked ==> t[i].locked) && (t[j].vmi.Some? ==> t[i].vmi != t[j].vmi))
  }

  /** Device and mountpoint `i` show the disk of the slot's guest, or nothing if it has none. */
  predicate SlotMounted(site: Site, c: Cache, i: Slot) {
    var dev, path := DevName(i), MountPath(site.base, i);
    match c.slots[i].vmi
    case Some(v) => dev in c.nbd && c.nbd[dev] == site.disk(v) && path in c.mounts && c.mounts[path] == site.disk(v)
    case None => dev !in c.nbd && path !in c.mounts
  }

  predicate Mounted(site: Site, c: Cache) {
    !c.exited && forall i :: 0 <= i < DEVMAX ==> SlotMounted(site, c, i)
  }

  function Holders(clients: map<Client, Phase>, i: Slot): set<Client> {
    set c | c in clients && clients[c].Holding? && clients[c].slot == i
  }

  /** Each reference count is the number of grants of that slot not yet released. */
  predicate Counted(s: State) {
    forall i :: 0 <= i < DEVMAX ==> s.cache.slots[i].refcount == |Holders(s.clients, i)|
  }

  predicate ClientOk(s: State, c: Client)
    requires c in s.clients
  {
    match s.clients[c]
    case Idle => true
    case Holding(v, i) => s.cache.slots[i].vmi == Some(v) && v in s.mountdev && s.mountdev[v] == i
    case Spinning(v, b) =>
      && 0 <= b.max < STEAL_AGE
      && (forall i :: 0 <= i < DEVMAX ==> s.cache.slots[i].locked && s.cache.slots[i].vmi != Some(v))
      && (forall d :: d in s.clients && d != c && s.clients[d].Spinning? ==> s.clients[d].v != v)
  }

  predicate ClientsOk(s: State) {
    forall c :: c in s.clients ==> ClientOk(s, c)
  }

  /** `last_used` is the time of the slot's last grant; releases do not touch it. */
  predicate Stamped(s: State) {
    forall i :: 0 <= i < DEVMAX && s.cache.slots[i].locked ==>
      i in s.requested && s.requested[i] == s.cache.slots[i].lastUsed
  }

  function Total(t: seq<Record>): int {
    if t == [] then 0 else t[0].refcount + Total(t[1..])
  }

  predicate Inv(site: Site, s: State) {
    && Shape(s.cache.slots) && Mounted(site, s.cache) && Counted(s) && ClientsOk(s) && Stamped(s)
    && Total(s.cache.slots) == s.grants - s.releases
  }

  // --------------------------------------------------------------- preservation

  lemma {:induction false} TotalUpdate(t: seq<Record>, i: nat, r: Record)
    requires i < |t|
    ensures Total(t[i := r]) == Total(t) - t[i].refcount + r.refcount
  {
    if i > 0 {
      assert t[i := r][1..] == t[1..][i - 1 := r];
      TotalUpdate(t[1..], i - 1, r);
    } else {
      assert t[i := r][1..] == t[1..];
    }
  }

  lemma {:induction false} TotalZero(t: seq<Record>)
    requires forall i :: 0 <= i < |t| ==> t[i].refcount == 0
    ensures Total(t) == 0
  {
    if t != [] {
      TotalZero(t[1..]);
    }
  }

  /** Giving a client a slot adds it to that slot's holders only. */
  lemma HoldersGain(clients: map<Client, Phase>, c: Client, p: Phase, j: Slot)
    requires c in clients && !clients[c].Holding? && p.Holding?
    ensures |Holders(clients[c := p], j)| == |Holders(clients, j)| + if p.slot == j then 1 else 0
  {
    if p.slot == j {
      assert Holders(clients[c := p], j) == Holders(clients, j) + {c};
    } else {
      assert Holders(clients[c := p], j) == Holders(clients, j);
    }
  }

  lemma HoldersLose(clients: map<Client, Phase>, c: Client, p: Phase, j: Slot)
    requires c in clients && clients[c].Holding? && !p.Holding?
    ensures |Holders(clients[c := p], j)| == |Holders(clients, j)| - if clients[c].slot == j then 1 else 0
  {
    if clients[c].slot == j {
      assert Holders(clients[c := p], j) == Holders(clients, j) - {c};
    } else {
      assert Holders(clients[c := p], j) == Holders(clients, j);
    }
  }

  lemma HoldersSame(clients: map<Client, Phase>, c: Client, p: Phase, j: Slot)
    requires c in clients && !clients[c].Holding? && !p.Holding?
    ensures Holders(clients[c := p], j) == Holders(clients, j)
  {
  }

  /** A slot with no reference is held by nobody. */
  lemma UnusedMeansUnheld(s: State, i: Slot)
    requires Counted(s) && s.cache.slots[i].refcount == 0
    ensures forall c :: c in s.clients && s.clients[c].Holding? ==> s.clients[c].slot != i
  {
    forall c | c in s.clients && s.clients[c].Holding? ensures s.clients[c].slot != i {
      assert s.clients[c].slot == i <==> c in Holders(s.clients, i);
    }
  }

  /** Mounting touches the names of one slot only. */
  lemma MountKeepsOthers(site: Site, c: Cache, i: Slot, v: Vmi, disk: string)
    ensures var c' := NbdMount(site.base, c, i, v, disk);
            forall j :: 0 <= j < DEVMAX && j != i ==> SlotMounted(site, c', j) == SlotMounted(site, c, j)
    ensures var c' := NbdUnmount(site.base, c, i, v);
            forall j :: 0 <= j < DEVMAX && j != i ==> SlotMounted(site, c', j) == SlotMounted(site, c, j)
  {
    forall j | 0 <= j < DEVMAX && j != i
      ensures DevName(j) != DevName(i) && MountPath(site.base, j) != MountPath(site.base, i)
    {
      NamesInjective(site.base, i, j);
    }
  }

  /** The record a grant writes: one more reference, and `v` in a slot that was `v`'s or that nobody used. */
  predicate Grants(t: Table, i: Slot, v: Vmi, r: Record) {
    && r.vmi == Some(v) && r.mountindex == i && r.locked
    && r.refcount == t[i].refcount + 1
    && (t[i].vmi == Some(v) || t[i].refcount == 0)
    && (forall j :: 0 <= j < DEVMAX && j != i ==> t[j].vmi != Some(v))
    && (forall j :: 0 <= j < i ==> t[j].locked)
  }

  lemma GrantKeepsShape(t: Table, i: Slot, v: Vmi, r: Record)
    requires Shape(t) && Grants(t, i, v, r)
    ensures Shape(t[i := r])
  {
  }

  lemma GrantKeepsCounts(s: State, s': State, c: Client, v: Vmi, i: Slot, r: Record)
    requires Counted(s) && c in s.clients && !s.clients[c].Holding?
    requires s'.clients == s.clients[c := Holding(v, i)] && s'.cache.slots == s.cache.slots[i := r]
    requires r.refcount == s.cache.slots[i].refcount + 1
    ensures Counted(s')
  {
    forall j | 0 <= j < DEVMAX ensures s'.cache.slots[j].refcount == |Holders(s'.clients, j)| {
      HoldersGain(s.clients, c, Holding(v, i), j);
    }
  }

  lemma GrantKeepsClients(s: State, s': State, c: Client, v: Vmi, i: Slot, r: Record)
    requires Shape(s.cache.slots) && Counted(s) && ClientsOk(s) && c in s.clients
    requires Grants(s.cache.slots, i, v, r) && s'.cache.slots == s.cache.slots[i := r]
    requires s'.clients == s.clients[c := Holding(v, i)] && s'.mountdev == s.mountdev[v := i]
    requires forall d :: d in s.clients && d != c && s.clients[d].Spinning? ==> s.clients[d].v != v
    ensures ClientsOk(s')
  {
    if s.cache.slots[i].vmi != Some(v) {
      UnusedMeansUnheld(s, i);
    }
    forall d | d in s'.clients ensures ClientOk(s', d) {
      if d != c {
        assert ClientOk(s, d);
      }
    }
  }

  lemma GrantKeepsInv(site: Site, s: State, c: Client, v: Vmi, i: Slot, r: Record, cache: Cache)
    requires Inv(site, s) && c in s.clients && !s.clients[c].Holding?
    requires forall d :: d in s.clients && d != c && s.clients[d].Spinning? ==> s.clients[d].v != v
    requires Grants(s.cache.slots, i, v, r) && cache.slots == s.cache.slots[i := r] && Mounted(site, cache)
    ensures Inv(site, Granted(s, c, v, i, r.lastUsed, cache))
  {
    var s' := Granted(s, c, v, i, r.lastUsed, cache);
    GrantKeepsShape(s.cache.slots, i, v, r);
    GrantKeepsCounts(s, s', c, v, i, r);
    GrantKeepsClients(s, s', c, v, i, r);
    TotalUpdate(s.cache.slots, i, r);
  }

  /** An unallotted slot has no references. */
  lemma FreeMeansUnused(site: Site, s: State, i: Slot)
    requires Inv(site, s) && !s.cache.slots[i].locked
    ensures s.cache.slots[i].refcount == 0
  {
  }

  lemma HitKeepsInv(site: Site, s: State, c: Client, v: Vmi, i: Slot, stamp: Timeval)
    requires Inv(site, s) && Enabled(s, Mount(c, v, stamp)) && s.cache.slots[i].vmi == Some(v)
    ensures Inv(site, Granted(s, c, v, i, stamp, Hit(s.cache, i, stamp)))
  {
    var t := s.cache.slots;
    var r := t[i].(refcount := t[i].refcount + 1, lastUsed := stamp);
    assert Mounted(site, Hit(s.cache, i, stamp)) by {
      assert forall j :: 0 <= j < DEVMAX ==>
        SlotMounted(site, Hit(s.cache, i, stamp), j) == SlotMounted(site, s.cache, j);
    }
    GrantKeepsInv(site, s, c, v, i, r, Hit(s.cache, i, stamp));
  }

  /** Connecting device `i` succeeds when slot `i` has no guest, and then shows the new guest's disk. */
  lemma AssignMounts(site: Site, c: Cache, i: Slot, r: Record, v: Vmi)
    requires !c.exited && r.vmi == Some(v) && DevName(i) !in c.nbd
    requires forall j :: 0 <= j < DEVMAX && j != i ==> SlotMounted(site, c, j)
    ensures Mounted(site, NbdMount(site.base, c.(slots := c.slots[i := r]), i, v, site.disk(v)))
  {
    var c1 := c.(slots := c.slots[i := r]);
    MountKeepsOthers(site, c1, i, v, site.disk(v));
    assert forall j :: 0 <= j < DEVMAX && j != i ==> SlotMounted(site, c1, j) == SlotMounted(site, c, j);
  }

  lemma FreshKeepsInv(site: Site, s: State, c: Client, v: Vmi, i: Slot, stamp: Timeval)
    requires Inv(site, s) && Enabled(s, Mount(c, v, stamp))
    requires !s.cache.slots[i].locked && (forall j :: 0 <= j < i ==> s.cache.slots[j].locked)
    requires forall j :: 0 <= j < DEVMAX ==> s.cache.slots[j].vmi != Some(v)
    ensures Inv(site, Granted(s, c, v, i, stamp, Assign(site.base, s.cache, i, v, site.disk(v), stamp)))
  {
    var r := Record(Some(v), i, 1, stamp, true);
    assert SlotMounted(site, s.cache, i);
    FreeMeansUnused(site, s, i);
    AssignMounts(site, s.cache, i, r, v);
    GrantKeepsInv(site, s, c, v, i, r, Assign(site.base, s.cache, i, v, site.disk(v), stamp));
  }

  lemma StealKeepsInv(site: Site, s: State, c: Client, i: Slot, stamp: Timeval)
    requires Inv(site, s) && c in s.clients && s.clients[c].Spinning? && s.cache.slots[i].refcount == 0
    ensures var v := s.clients[c].v;
            Inv(site, Granted(s, c, v, i, stamp, Steal(site.base, s.cache, i, v, site.disk(v), stamp)))
  {
    var v := s.clients[c].v;
    var r := Record(Some(v), i, 1, stamp, true);
    var d := NbdUnmount(site.base, s.cache, i, v);
    assert ClientOk(s, c);
    MountKeepsOthers(site, s.cache, i, v, site.disk(v));
    AssignMounts(site, d, i, r, v);
    GrantKeepsInv(site, s, c, v, i, r, Steal(site.base, s.cache, i, v, site.disk(v), stamp));
  }

  /** Starting or going on to spin changes nothing but the client's own phase. */
  lemma SpinKeepsInv(site: Site, s: State, c: Client, v: Vmi, b: Best)
    requires Inv(site, s) && c in s.clients && !s.clients[c].Holding?
    requires 0 <= b.max < STEAL_AGE
    requires forall i :: 0 <= i < DEVMAX ==> s.cache.slots[i].locked && s.cache.slots[i].vmi != Some(v)
    requires forall d :: d in s.clients && d != c && s.clients[d].Spinning? ==> s.clients[d].v != v
    ensures Inv(site, s.(clients := s.clients[c := Spinning(v, b)]))
  {
    var s' := s.(clients := s.clients[c := Spinning(v, b)]);
    forall j | 0 <= j < DEVMAX ensures s'.cache.slots[j].refcount == |Holders(s'.clients, j)| {
      HoldersSame(s.clients, c, Spinning(v, b), j);
    }
    forall d | d in s'.clients ensures ClientOk(s', d) {
      if d != c {
        assert ClientOk(s, d);
      }
    }
  }

  lemma ReleaseKeepsSlots(site: Site, c: Cache, i: Slot)
    requires Shape(c.slots) && Mounted(site, c)
    ensures Shape(Release(c, i).slots) && Mounted(site, Release(c, i))
    ensures Total(Release(c, i).slots) == Total(c.slots) - 1
  {
    assert forall j :: 0 <= j < DEVMAX ==> SlotMounted(site, Release(c, i), j) == SlotMounted(site, c, j);
    TotalUpdate(c.slots, i, c.slots[i].(refcount := c.slots[i].refcount - 1));
  }

  lemma ReleaseKeepsCounts(s: State, c: Client)
    requires Counted(s) && c in s.clients && s.clients[c].Holding?
    ensures Counted(Released(s, c, s.clients[c].slot))
  {
    forall j | 0 <= j < DEVMAX
      ensures Release(s.cache, s.clients[c].slot).slots[j].refcount == |Holders(s.clients[c := Idle], j)|
    {
      HoldersLose(s.clients, c, Idle, j);
    }
  }

  lemma ReleaseKeepsClients(s: State, c: Client)
    requires ClientsOk(s) && c in s.clients && s.clients[c].Holding?
    ensures ClientsOk(Released(s, c, s.clients[c].slot))
  {
    var s' := Released(s, c, s.clients[c].slot);
    forall d | d in s'.clients ensures ClientOk(s', d) {
      assert ClientOk(s, d);
    }
  }

  lemma UnmountKeepsInv(site: Site, s: State, c: Client)
    requires Inv(site, s) && c in s.clients && s.clients[c].Holding?
    ensures Inv(site, Released(s, c, s.clients[c].slot))
  {
    ReleaseKeepsSlots(site, s.cache, s.clients[c].slot);
    ReleaseKeepsCounts(s, c);
    ReleaseKeepsClients(s, c);
  }

  /** What the three outcomes of a request mean for the table. */
  lemma RequestFinds(t: Table, v: Vmi)
    ensures var h, f := HitFrom(t, v, 0), FreeFrom(t, 0);
            && (h < DEVMAX ==> t[h].vmi == Some(v))
            && (h == DEVMAX ==> forall j :: 0 <= j < DEVMAX ==> t[j].vmi != Some(v))
            && (f < DEVMAX ==> !t[f].locked)
            && (forall j :: 0 <= j < f ==> t[j].locked)
  {
    HitIsFirst(t, v, 0);
    FreeIsFirst(t, 0);
  }

  lemma MountStepKeepsInv(site: Site, s: State, c: Client, v: Vmi, stamp: Timeval)
    requires Inv(site, s) && Enabled(s, Mount(c, v, stamp))
    ensures Inv(site, Apply(site, s, Mount(c, v, stamp)))
  {
    var h := HitFrom(s.cache.slots, v, 0);
    var f := FreeFrom(s.cache.slots, 0);
    RequestFinds(s.cache.slots, v);
    if h < DEVMAX {
      assert Apply(site, s, Mount(c, v, stamp)) == Granted(s, c, v, h, stamp, Hit(s.cache, h, stamp));
      HitKeepsInv(site, s, c, v, h, stamp);
    } else if f < DEVMAX {
      assert Apply(site, s, Mount(c, v, stamp))
          == Granted(s, c, v, f, stamp, Assign(site.base, s.cache, f, v, site.disk(v), stamp));
      FreshKeepsInv(site, s, c, v, f, stamp);
    } else {
      assert Apply(site, s, Mount(c, v, stamp)) == s.(clients := s.clients[c := Spinning(v, NO_BEST)]);
      SpinKeepsInv(site, s, c, v, NO_BEST);
    }
  }

  /** A deciding pass takes the right slot; a failed one keeps its candidate below the threshold. */
  lemma PassDecides(site: Site, s: State, c: Client, now: Timeval)
    requires Inv(site, s) && c in s.clients && s.clients[c].Spinning?
    ensures var b := Scan(s.cache.slots, now, s.clients[c].best);
            if b.max < STEAL_AGE then 0 <= b.max else Victim(s.cache.slots, now, b.maxix)
  {
    assert ClientOk(s, c);
    DecidingPassIsRight(s.cache.slots, now, s.clients[c].best);
    ScanToFinds(s.cache.slots, now, s.clients[c].best, DEVMAX);
  }

  lemma PassStepKeepsInv(site: Site, s: State, c: Client, now: Timeval, stamp: Timeval)
    requires Inv(site, s) && Enabled(s, SpinPass(c, now, stamp))
    ensures Inv(site, Apply(site, s, SpinPass(c, now, stamp)))
  {
    var b := Scan(s.cache.slots, now, s.clients[c].best);
    assert ClientOk(s, c);
    PassDecides(site, s, c, now);
    if b.max < STEAL_AGE {
      SpinKeepsInv(site, s, c, s.clients[c].v, b);
    } else {
      StealKeepsInv(site, s, c, b.maxix, stamp);
    }
  }

  /** Every atomic step of every client keeps the invariant. */
  lemma StepKeepsInv(site: Site, s: State, op: Op)
    requires Inv(site, s) && Enabled(s, op)
    ensures Inv(site, Apply(site, s, op))
  {
    match op
    case Mount(c, v, stamp) => MountStepKeepsInv(site, s, c, v, stamp);
    case SpinPass(c, now, stamp) => PassStepKeepsInv(site, s, c, now, stamp);
    case Unmount(c) =>
      assert ClientOk(s, c);
      UnmountApplied(site, s, c);
      UnmountKeepsInv(site, s, c);
  }

  lemma StartInv(site: Site, s: State)
    requires Start(s)
    ensures Inv(site, s)
  {
    TotalZero(s.cache.slots);
    forall i | 0 <= i < DEVMAX ensures Holders(s.clients, i) == {} {
    }
  }

  lemma {:induction false} RunKeepsInv(site: Site, s: State, ops: seq<Op>)
    requires Inv(site, s) && AllEnabled(site, s, ops)
    ensures Inv(site, ApplyAll(site, s, ops))
    decreases |ops|
  {
    if ops != [] {
      StepKeepsInv(site, s, ops[0]);
      RunKeepsInv(site, Apply(site, s, ops[0]), ops[1..]);
    }
  }

  /** Some run of some clients leads here from a clean start. */
  ghost predicate Reachable(site: Site, e: State) {
    exists s, ops :: Start(s) && AllEnabled(site, s, ops) && ApplyAll(site, s, ops) == e
  }

  lemma ReachableInv(site: Site, e: State)
    requires Reachable(site, e)
    ensures Inv(site, e)
  {
    var s, ops :| Start(s) && AllEnabled(site, s, ops) && ApplyAll(site, s, ops) == e;
    StartInv(site, s);
    RunKeepsInv(site, s, ops);
  }

  // -------------------------------------------------------------- main results

  lemma AllottedPrefix(t: Table) returns (k: nat)
    requires Shape(t)
    ensures k <= DEVMAX
    ensures forall i :: 0 <= i < DEVMAX ==>
              (i < k <==> t[i].locked) && (i < k <==> t[i].vmi.Some?) && (i < k <==> t[i].mountindex == i)
    ensures forall i, j :: 0 <= i < j < k ==> t[i].vmi != t[j].vmi
  {
    FreeIsFirst(t, 0);
    k := FreeFrom(t, 0);
  }

  /**
    The table in every reachable state: the slots that have a guest are the
    first `k`, exactly these are locked and carry their own index, and no two
    of them have the same guest.
   */
  lemma TableShape(site: Site, e: State) returns (k: nat)
    requires Reachable(site, e)
    ensures var t := e.cache.slots;
            && k <= DEVMAX
            && (forall i :: 0 <= i < DEVMAX ==>
                  (i < k <==> t[i].locked) && (i < k <==> t[i].vmi.Some?) && (i < k <==> t[i].mountindex == i))
            && (forall i, j :: 0 <= i < j < k ==> t[i].vmi != t[j].vmi)
  {
    ReachableInv(site, e);
    k := AllottedPrefix(e.cache.slots);
  }

  /** A request gets to the steal phase only when all sixteen slots are allotted, none of them to its guest. */
  lemma SpinnersSeeFullTable(site: Site, e: State, c: Client)
    requires Reachable(site, e) && c in e.clients && e.clients[c].Spinning?
    ensures forall i :: 0 <= i < DEVMAX ==> e.cache.slots[i].vmi.Some? && e.cache.slots[i].vmi != Some(e.clients[c].v)
  {
    ReachableInv(site, e);
    assert ClientOk(e, c);
  }

  /** Each slot's reference count is the number of clients holding it; over the table it is grants minus releases. */
  lemma ReferencesConserved(site: Site, e: State)
    requires Reachable(site, e)
    ensures forall i :: 0 <= i < DEVMAX ==> e.cache.slots[i].refcount == |Holders(e.clients, i)|
    ensures Total(e.cache.slots) == e.grants - e.releases
  {
    ReachableInv(site, e);
  }

  /** Device `i` and its mountpoint show the disk of slot `i`'s guest, or nothing; no connect ever hit a busy device. */
  lemma DevicesAgree(site: Site, e: State)
    requires Reachable(site, e)
    ensures !e.cache.exited
    ensures forall i :: 0 <= i < DEVMAX ==> SlotMounted(site, e.cache, i)
  {
    ReachableInv(site, e);
  }

  /**
    A pass decides, whatever its failed passes saw, exactly when its own table
    has a slot to steal, and takes the oldest one; nobody holds it.
   */
  lemma StealTakesVictim(site: Site, e: State, c: Client, now: Timeval, stamp: Timeval)
    requires Reachable(site, e) && Enabled(e, SpinPass(c, now, stamp))
    ensures var e' := Apply(site, e, SpinPass(c, now, stamp));
            && (e'.clients[c].Spinning? ==> e'.cache == e.cache)
            && (e'.clients[c].Holding? ==>
                  && Victim(e.cache.slots, now, e'.clients[c].slot)
                  && (forall d :: d in e.clients && e.clients[d].Holding? ==> e.clients[d].slot != e'.clients[c].slot))
            && (e'.clients[c].Holding? <==> exists i :: Victim(e.cache.slots, now, i))
  {
    ReachableInv(site, e);
    assert ClientOk(e, c);
    PassDecides(site, e, c, now);
    DecidingPassIsRight(e.cache.slots, now, e.clients[c].best);
    var b := Scan(e.cache.slots, now, e.clients[c].best);
    if b.max >= STEAL_AGE {
      UnusedMeansUnheld(e, b.maxix);
    }
  }

  /**
    The victim is the least recently requested slot nobody holds, up to the two
    milliseconds that truncation loses, and its last request is at least ten
    seconds back, up to one.
   */
  lemma VictimLeastRecentlyRequested(site: Site, e: State, c: Client, now: Timeval, stamp: Timeval, j: Slot)
    requires Reachable(site, e) && Enabled(e, SpinPass(c, now, stamp))
    requires Apply(site, e, SpinPass(c, now, stamp)).clients[c].Holding?
    requires Holders(e.clients, j) == {}
    requires Normal(now) && forall i :: i in e.requested ==> Normal(e.requested[i])
    ensures var i := Apply(site, e, SpinPass(c, now, stamp)).clients[c].slot;
            && i in e.requested && j in e.requested
            && Micros(e.requested[i]) < Micros(e.requested[j]) + 2_000
            && Micros(now) - Micros(e.requested[i]) > 9_999_000
  {
    ReachableInv(site, e);
    StealTakesVictim(site, e, c, now, stamp);
    SpinnersSeeFullTable(site, e, c);
    var i := Apply(site, e, SpinPass(c, now, stamp)).clients[c].slot;
    VictimNearlyOldest(e.cache.slots, now, i, j);
    DiffError(e.cache.slots[i].lastUsed, now);
  }

  /** A step leaves the other clients where they are. */
  lemma StepKeepsOthers(site: Site, s: State, op: Op, c: Client)
    requires Possible(s, op) && c in s.clients && c != op.c
    ensures var s' := Apply(site, s, op); c in s'.clients && s'.clients[c] == s.clients[c]
  {
  }

  lemma {:induction false} RunKeepsHold(site: Site, s: State, ops: seq<Op>, c: Client)
    requires Inv(site, s) && AllEnabled(site, s, ops)
    requires c in s.clients && s.clients[c].Holding? && Unmount(c) !in ops
    ensures var e := ApplyAll(site, s, ops); c in e.clients && e.clients[c] == s.clients[c]
    decreases |ops|
  {
    if ops != [] {
      StepKeepsOthers(site, s, ops[0], c);
      StepKeepsInv(site, s, ops[0]);
      RunKeepsHold(site, Apply(site, s, ops[0]), ops[1..], c);
    }
  }

  /** Every string that spells the mountpoint of a slot shows the disk of the slot's guest. */
  lemma MountpointShows(site: Site, c: Cache, i: Slot, v: Vmi)
    requires Mounted(site, c) && c.slots[i].vmi == Some(v)
    ensures forall mp :: NamesSlot(mp, site.base, i) ==> ShowsDisk(c.mounts, mp, site.disk(v))
  {
    assert SlotMounted(site, c, i);
    forall mp | NamesSlot(mp, site.base, i) ensures ShowsDisk(c.mounts, mp, site.disk(v)) {
      MountpointSpelled(site.base, i, mp);
    }
  }

  /**
    Held-slot safety. From the moment a client is granted slot `i` for guest
    `v` until it releases it, through any steps of anybody else, the slot stays
    `v`'s, it is referenced, the agent's handle is `i`, and the mountpoint the
    client was given shows `v`'s disk.
   */
  lemma HeldSlotIsSafe(site: Site, g: State, during: seq<Op>, c: Client)
    requires Reachable(site, g) && AllEnabled(site, g, during)
    requires c in g.clients && g.clients[c].Holding? && Unmount(c) !in during
    ensures var Holding(v, i) := g.clients[c];
            var e := ApplyAll(site, g, during);
            && c in e.clients && e.clients[c] == Holding(v, i)
            && e.cache.slots[i].vmi == Some(v) && e.cache.slots[i].refcount > 0
            && v in e.mountdev && e.mountdev[v] == i
            && forall mp :: NamesSlot(mp, site.base, i) ==> ShowsDisk(e.cache.mounts, mp, site.disk(v))
  {
    ReachableInv(site, g);
    RunKeepsHold(site, g, during, c);
    RunKeepsInv(site, g, during);
    var e := ApplyAll(site, g, during);
    assert ClientOk(e, c);
    assert c in Holders(e.clients, e.clients[c].slot);
    MountpointShows(site, e.cache, e.clients[c].slot, e.clients[c].v);
  }

  /** In every reachable state a request for any guest ends with a mountpoint that shows the guest's disk. */
  lemma MountedIsMountable(site: Site, e: State, v: Vmi)
    requires Reachable(site, e)
    ensures Mountable(site.base, e.cache, v, site.disk(v))
  {
    ReachableInv(site, e);
    forall i | 0 <= i < DEVMAX
      ensures e.cache.slots[i].vmi == Some(v) ==>
                && MountPath(site.base, i) in e.cache.mounts
                && e.cache.mounts[MountPath(site.base, i)] == site.disk(v)
      ensures !e.cache.slots[i].locked ==> DevName(i) !in e.cache.nbd
    {
      assert SlotMounted(site, e.cache, i);
    }
  }

  lemma HolderOk(site: Site, e: State, c: Client)
    requires Reachable(site, e) && c in e.clients
    ensures ClientOk(e, c)
  {
    ReachableInv(site, e);
  }

  lemma UnmountApplied(site: Site, e: State, c: Client)
    requires Enabled(e, Unmount(c)) && ClientOk(e, c)
    ensures Apply(site, e, Unmount(c)) == Released(e, c, e.clients[c].slot)
  {
  }

  /** `unmount_disk` through the stored handle releases exactly the slot the client holds. */
  lemma UnmountReleasesHeldSlot(site: Site, e: State, c: Client)
    requires Reachable(site, e) && Enabled(e, Unmount(c))
    ensures var e' := Apply(site, e, Unmount(c));
            var i := e.clients[c].slot;
            && e'.clients == e.clients[c := Idle]
            && e'.cache == Release(e.cache, i) && e'.releases == e.releases + 1
  {
    HolderOk(site, e, c);
    UnmountApplied(site, e, c);
  }

  lemma ReleaseThenHit(c: Cache, i: Slot, v: Vmi, stamp: Timeval)
    requires Shape(c.slots) && c.slots[i].vmi == Some(v)
    ensures HitFrom(Release(c, i).slots, v, 0) == i
    ensures Hit(Release(c, i), i, stamp)
         == c.(slots := c.slots[i := c.slots[i].(lastUsed := stamp)], paused := c.paused - {v})
  {
    var t, t' := c.slots, Release(c, i).slots;
    assert forall j :: 0 <= j < DEVMAX ==> t'[j].vmi == t[j].vmi;
    RequestFinds(t', v);
    assert t'[i].vmi == Some(v);
    var r := HitFrom(t', v, 0);
    assert t[r].vmi == t[i].vmi;
  }

  /** A release is lazy: asking again at once gets the same slot, still mounted, but its guest runs on. */
  lemma LazyRelease(site: Site, e: State, c: Client, d: Client, stamp: Timeval)
    requires Reachable(site, e) && Enabled(e, Unmount(c))
    requires Enabled(Apply(site, e, Unmount(c)), Mount(d, e.clients[c].v, stamp))
    ensures var i := e.clients[c].slot;
            var e' := Apply(site, Apply(site, e, Unmount(c)), Mount(d, e.clients[c].v, stamp));
            && d in e'.clients && e'.clients[d] == e.clients[c]
            && e'.cache == e.cache.(slots := e.cache.slots[i := e.cache.slots[i].(lastUsed := stamp)],
                                    paused := e.cache.paused - {e.clients[c].v})
  {
    UnmountReleasesHeldSlot(site, e, c);
    ReachableInv(site, e);
    assert ClientOk(e, c);
    ReleaseThenHit(e.cache, e.clients[c].slot, e.clients[c].v, stamp);
  }
}
