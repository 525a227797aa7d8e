/** The mount manager's atomic steps and `request_mount`, as functions on values. */
module MountCache {
  import opened Options
  import opened Slots
  import opened Timevals
  import opened Devices

  /**
    The table with the device table and the mounts. `paused` holds the guests
    whose VM is paused; `exited` is the `exit(-1)` after a failed connect.
   */
  datatype Cache = Cache(
    slots: Table, nbd: map<string, string>, mounts: map<string, string>, paused: set<Vmi>, exited: bool)

  /** `do_nbd_mount`: connecting a device that is already connected ends the process. */
  function NbdMount(base: string, c: Cache, i: Slot, v: Vmi, disk: string): Cache {
    if DevName(i) in c.nbd then c.(exited := true)
    else c.(nbd := c.nbd[DevName(i) := disk], mounts := c.mounts[MountPath(base, i) := disk], paused := c.paused + {v})
  }

  /** `do_nbd_unmount`; it resumes the guest that asks for the slot, not the one whose mount goes. */
  function NbdUnmount(base: string, c: Cache, i: Slot, v: Vmi): Cache {
    c.(mounts := c.mounts - {MountPath(base, i)}, nbd := c.nbd - {DevName(i)}, paused := c.paused - {v})
  }

  /** A request for a guest that has a slot. */
  function Hit(c: Cache, i: Slot, stamp: Timeval): Cache {
    c.(slots := c.slots[i := c.slots[i].(refcount := c.slots[i].refcount + 1, lastUsed := stamp)])
  }

  /** Slot `i` given to `v`, mounted and stamped. */
  function Assign(base: string, c: Cache, i: Slot, v: Vmi, disk: string, stamp: Timeval): Cache {
    NbdMount(base, c.(slots := c.slots[i := Record(Some(v), i, 1, stamp, true)]), i, v, disk)
  }

  /** The end of a deciding pass: the slot's old mount goes, the new one comes. */
  function Steal(base: string, c: Cache, i: Slot, v: Vmi, disk: string, stamp: Timeval): Cache {
    var d := NbdUnmount(base, c, i, v);
    NbdMount(base, d.(slots := d.slots[i := Record(Some(v), i, 1, stamp, d.slots[i].locked)]), i, v, disk)
  }

  function Resumed(paused: set<Vmi>, vmi: Option<Vmi>): set<Vmi> {
    match vmi
    case Some(v) => paused - {v}
    case None => paused
  }

  /** `release_mount`: the mount stays, but the guest is resumed whoever else holds it. */
  function Release(c: Cache, i: Slot): Cache {
    c.(slots := c.slots[i := c.slots[i].(refcount := c.slots[i].refcount - 1)],
       paused := Resumed(c.paused, c.slots[i].vmi))
  }

  /** The atomic steps clients take: a request up to its spin loop, one pass of that loop, a release. */
  datatype Action =
    | Request(v: Vmi, disk: string, stamp: Timeval)
    | Pass(v: Vmi, disk: string, now: Timeval, stamp: Timeval, best: Best)
    | Return(slot: Slot)

  function Act(base: string, c: Cache, a: Action): Cache {
    match a
    case Request(v, disk, stamp) =>
      var h := HitFrom(c.slots, v, 0);
      var f := FreeFrom(c.slots, 0);
      if h < DEVMAX then Hit(c, h, stamp)
      else if f < DEVMAX then Assign(base, c, f, v, disk, stamp)
      else c
    case Pass(v, disk, now, stamp, best) =>
      var b := Scan(c.slots, now, best);
      if b.max < STEAL_AGE then c else Steal(base, c, b.maxix, v, disk, stamp)
    case Return(i) => Release(c, i)
  }

  function ActAll(base: string, c: Cache, actions: seq<Action>): Cache
    decreases |actions|
  {
    if actions == [] then c else ActAll(base, Act(base, c, actions[0]), actions[1..])
  }

  /** One pass of the spin loop as its surroundings decide it: what others do before it gets `lk`, and the clock. */
  datatype Turn = Turn(others: seq<Action>, now: Timeval, stamp: Timeval)

  /** `slot` is None when the turns given were not enough. */
  datatype Outcome = Outcome(c: Cache, slot: Option<Slot>)

  /** The spin loop, with its candidate carried from pass to pass. */
  function Spin(base: string, c: Cache, v: Vmi, disk: string, turns: seq<Turn>, best: Best): Outcome
    decreases |turns|
  {
    if turns == [] then Outcome(c, None)
    else
      var c' := ActAll(base, c, turns[0].others);
      var b := Scan(c'.slots, turns[0].now, best);
      if b.max < STEAL_AGE then Spin(base, c', v, disk, turns[1..], b)
      else Outcome(Steal(base, c', b.maxix, v, disk, turns[0].stamp), Some(b.maxix))
  }

  function RequestMount(base: string, c: Cache, v: Vmi, disk: string, stamp: Timeval, turns: seq<Turn>): Outcome {
    var h := HitFrom(c.slots, v, 0);
    var f := FreeFrom(c.slots, 0);
    if h < DEVMAX then Outcome(Hit(c, h, stamp), Some(h))
    else if f < DEVMAX then Outcome(Assign(base, c, f, v, disk, stamp), Some(f))
    else Spin(base, c, v, disk, turns, NO_BEST)
  }

  // --------------------------------------------------------- what a request shows

  /** A slot of `v` shows `disk`, and a free slot has no device. */
  predicate Mountable(base: string, c: Cache, v: Vmi, disk: string) {
    forall i :: 0 <= i < DEVMAX ==>
      && (c.slots[i].vmi == Some(v) ==> MountPath(base, i) in c.mounts && c.mounts[MountPath(base, i)] == disk)
      && (!c.slots[i].locked ==> DevName(i) !in c.nbd)
  }

  lemma {:induction false} SpinShows(base: string, c: Cache, v: Vmi, disk: string, turns: seq<Turn>, best: Best)
    ensures var out := Spin(base, c, v, disk, turns, best);
            out.slot.Some? ==>
              var path := MountPath(base, out.slot.value);
              path in out.c.mounts && out.c.mounts[path] == disk
    decreases |turns|
  {
    if turns != [] {
      var c' := ActAll(base, c, turns[0].others);
      SpinShows(base, c', v, disk, turns[1..], Scan(c'.slots, turns[0].now, best));
    }
  }

  /** The mountpoint of the slot a request gets shows the disk it asked for, whatever others do while it spins. */
  lemma RequestShows(base: string, c: Cache, v: Vmi, disk: string, stamp: Timeval, turns: seq<Turn>)
    requires Mountable(base, c, v, disk)
    ensures var out := RequestMount(base, c, v, disk, stamp, turns);
            out.slot.Some? ==> ShowsDisk(out.c.mounts, Mountpoint(base, out.slot.value), disk)
  {
    var out := RequestMount(base, c, v, disk, stamp, turns);
    HitIsFirst(c.slots, v, 0);
    FreeIsFirst(c.slots, 0);
    SpinShows(base, c, v, disk, turns, NO_BEST);
    if out.slot.Some? {
      MountpointSpelled(base, out.slot.value, "");
    }
  }

  lemma RequestAssigns(base: string, c: Cache, v: Vmi, disk: string, stamp: Timeval, i: Slot)
    requires (forall j :: 0 <= j < DEVMAX ==> c.slots[j].vmi != Some(v))
    requires !c.slots[i].locked && forall j :: 0 <= j < i ==> c.slots[j].locked
    ensures Act(base, c, Request(v, disk, stamp)) == Assign(base, c, i, v, disk, stamp)
  {
    var h, f := HitFrom(c.slots, v, 0), FreeFrom(c.slots, 0);
    HitIsFirst(c.slots, v, 0);
    FreeIsFirst(c.slots, 0);
    assert h == DEVMAX && f == i;
  }

  /**
    A connect that finds its device taken ends the process: it leaves the
    devices, the mounts and the paused guests as they were.
   */
  lemma BusyConnectExits(base: string, c: Cache, v: Vmi, disk: string, stamp: Timeval, i: Slot, digits: string)
    requires IsNumeral(digits) && Value(digits) == i && "nbd" + digits in c.nbd
    requires (forall j :: 0 <= j < DEVMAX ==> c.slots[j].vmi != Some(v))
    requires !c.slots[i].locked && forall j :: 0 <= j < i ==> c.slots[j].locked
    ensures var c' := Act(base, c, Request(v, disk, stamp));
            c'.exited && c'.nbd == c.nbd && c'.mounts == c.mounts && c'.paused == c.paused
  {
    RequestAssigns(base, c, v, disk, stamp, i);
    NamesSpelled(base, i);
    assert DevName(i) in c.nbd;
  }
}
