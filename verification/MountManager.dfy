/** `syncmount` and `HAMain` as they run: slot records and per-agent handles updated in place. */
module MountManager {
  import opened Options
  import opened Slots
  import opened Timevals
  import opened Devices
  import opened MountCache

  class SyncMount {
    const base: string
    var records: array<Record>
    var nbd: map<string, string>      // connected nbd devices
    var mounts: map<string, string>   // what each mountpoint shows
    var paused: set<Vmi>              // guests whose VM is paused
    var exited: bool                  // the process has called exit(-1)

    ghost predicate Valid()
      reads this
    {
      records.Length == DEVMAX
    }

    ghost function View(): Cache
      reads this, records
      requires Valid()
    {
      Cache(records[..], nbd, mounts, paused, exited)
    }

    constructor (base: string, now: Timeval)
      ensures Valid() && fresh(records) && this.base == base
      ensures View() == Cache(seq(DEVMAX, _ => Record(None, -1, 0, now, false)), map[], map[], {}, false)
      ensures |View().slots| == 16
    {
      this.base := base;
      nbd, mounts, paused, exited := map[], map[], {}, false;
      var r := new Record[DEVMAX];
      records := r;
      new;
      for i := 0 to DEVMAX
        modifies r
        invariant forall j :: 0 <= j < i ==> r[j] == Record(None, -1, 0, now, false)
      {
        r[i] := Record(None, -1, 0, now, false);
      }
    }

    /** The connect and the mount; the `do_sync` before them is the subject of `Flushes`. */
    method DoNbdMount(i: Slot, v: Vmi, disk: string)
      requires Valid()
      modifies this`nbd, this`mounts, this`paused, this`exited
      ensures View() == NbdMount(base, old(View()), i, v, disk)
    {
      if DevName(i) in nbd {
        exited := true;
        return;
      }
      nbd := nbd[DevName(i) := disk];
      paused := paused + {v};
      mounts := mounts - {MountPath(base, i)};          // precautionary umount
      mounts := mounts[MountPath(base, i) := nbd[DevName(i)]];
    }

    /** Afterwards nothing is mounted or connected for the slot, whatever its number is spelled as. */
    method DoNbdUnmount(i: Slot, v: Vmi)
      requires Valid()
      modifies this`nbd, this`mounts, this`paused
      ensures View() == NbdUnmount(base, old(View()), i, v)
      ensures forall digits :: IsNumeral(digits) && Value(digits) == i ==>
                nbd == old(nbd) - {"nbd" + digits} && mounts == old(mounts) - {base + "nbd" + digits}
      ensures paused == old(paused) - {v}
    {
      NamesSpelled(base, i);
      mounts := mounts - {MountPath(base, i)};
      paused := paused - {v};
      nbd := nbd - {DevName(i)};
    }

    /** The loop that looks for an earlier mount of the same guest. */
    method TryRemount(v: Vmi, stamp: Timeval) returns (r: int)
      requires Valid()
      modifies records
      ensures var h := HitFrom(old(View()).slots, v, 0);
              if h < DEVMAX then r == h && View() == Hit(old(View()), h, stamp) else r == -1 && View() == old(View())
    {
      for i := 0 to DEVMAX
        invariant View() == old(View())
        invariant HitFrom(View().slots, v, 0) == HitFrom(View().slots, v, i)
      {
        if records[i].vmi == Some(v) {
          records[i] := records[i].(refcount := records[i].refcount + 1);
          records[i] := records[i].(lastUsed := stamp);
          return i;
        }
      }
      return -1;
    }

    /** The loop that takes the first slot whose lock is free. */
    method TryFresh(v: Vmi, disk: string, stamp: Timeval) returns (r: int)
      requires Valid()
      modifies this`nbd, this`mounts, this`paused, this`exited, records
      ensures var f := FreeFrom(old(View()).slots, 0);
              if f < DEVMAX then r == f && View() == Assign(base, old(View()), f, v, disk, stamp)
              else r == -1 && View() == old(View())
    {
      for i := 0 to DEVMAX
        invariant View() == old(View())
        invariant FreeFrom(View().slots, 0) == FreeFrom(View().slots, i)
      {
        if !records[i].locked {
          records[i] := Record(Some(v), i, 1, records[i].lastUsed, true);
          DoNbdMount(i, v, disk);
          records[i] := records[i].(lastUsed := stamp);
          return i;
        }
      }
      return -1;
    }

    /** The scan of one pass of the spin loop, under `lk`. */
    method ScanPass(now: Timeval, best: Best) returns (b: Best)
      requires Valid()
      ensures b == Scan(View().slots, now, best)
    {
      b := best;
      for i := 0 to DEVMAX
        invariant b == ScanTo(View().slots, now, best, i)
      {
        var d := TimevalDiff(records[i].lastUsed, now);
        if records[i].refcount == 0 {
          if b.max < d {
            b := Best(d, i);
          }
        }
      }
    }

    /** What follows a deciding pass, still under `lk`. */
    method TakeOver(i: Slot, v: Vmi, disk: string, stamp: Timeval)
      requires Valid()
      modifies this`nbd, this`mounts, this`paused, this`exited, records
      ensures View() == Steal(base, old(View()), i, v, disk, stamp)
    {
      DoNbdUnmount(i, v);
      records[i] := records[i].(refcount := 1, mountindex := i, vmi := Some(v));
      DoNbdMount(i, v, disk);
      records[i] := records[i].(lastUsed := stamp);
    }

    method ReleaseMount(dev: int)
      requires Valid() && 0 <= dev < DEVMAX
      modifies this`paused, records
      ensures View() == Release(old(View()), dev)
    {
      records[dev] := records[dev].(refcount := records[dev].refcount - 1);
      paused := Resumed(paused, records[dev].vmi);
    }

    /** One atomic step of some other client. */
    method Perform(a: Action)
      requires Valid()
      modifies this`nbd, this`mounts, this`paused, this`exited, records
      ensures View() == Act(base, old(View()), a)
    {
      match a {
        case Request(v, disk, stamp) =>
          var r := TryRemount(v, stamp);
          if r < 0 {
            r := TryFresh(v, disk, stamp);
          }
        case Pass(v, disk, now, stamp, best) =>
          var b := ScanPass(now, best);
          if b.max >= STEAL_AGE {
            TakeOver(b.maxix, v, disk, stamp);
          }
        case Return(i) =>
          ReleaseMount(i);
      }
    }

    method PerformAll(actions: seq<Action>)
      requires Valid()
      modifies this`nbd, this`mounts, this`paused, this`exited, records
      ensures View() == ActAll(base, old(View()), actions)
    {
      for i := 0 to |actions|
        invariant ActAll(base, View(), actions[i..]) == ActAll(base, old(View()), actions)
      {
        assert actions[i..][0] == actions[i] && actions[i..][1..] == actions[i + 1..];
        Perform(actions[i]);
      }
    }

    /**
      `request_mount`. Each turn gives what the other clients do while this one
      sleeps or waits for `lk`, and the clock of the pass that follows.
     */
    method RequestMount(v: Vmi, disk: string, stamp: Timeval, turns: seq<Turn>) returns (slot: Option<Slot>)
      requires Valid()
      modifies this`nbd, this`mounts, this`paused, this`exited, records
      ensures Outcome(View(), slot) == MountCache.RequestMount(base, old(View()), v, disk, stamp, turns)
    {
      var r := TryRemount(v, stamp);
      if r >= 0 {
        return Some(r);
      }
      r := TryFresh(v, disk, stamp);
      if r >= 0 {
        return Some(r);
      }
      ghost var c0 := View();
      var best := NO_BEST;
      var tries := 0;
      var keepSpinning := true;
      while keepSpinning && tries < |turns|
        invariant 0 <= tries <= |turns|
        invariant keepSpinning ==>
          Spin(base, View(), v, disk, turns[tries..], best) == Spin(base, c0, v, disk, turns, NO_BEST)
        invariant !keepSpinning ==>
          tries < |turns| && best.max >= STEAL_AGE
          && Outcome(Steal(base, View(), best.maxix, v, disk, turns[tries].stamp), Some(best.maxix))
             == Spin(base, c0, v, disk, turns, NO_BEST)
        decreases |turns| - tries, keepSpinning
      {
        assert turns[tries..][0] == turns[tries] && turns[tries..][1..] == turns[tries + 1..];
        PerformAll(turns[tries].others);
        best := ScanPass(turns[tries].now, best);
        if best.max < STEAL_AGE {
          tries := tries + 1;
        } else {
          keepSpinning := false;
        }
      }
      if keepSpinning {
        return None;
      }
      TakeOver(best.maxix, v, disk, turns[tries].stamp);
      return Some(best.maxix);
    }

    function GetMountpoint(i: Slot): string {
      Mountpoint(base, i)
    }
  }

  class HAConfig {
    const diskPath: string
    const vmi: Vmi
    var mountdev: int

    constructor (diskPath: string, vmi: Vmi)
      ensures this.diskPath == diskPath && this.vmi == vmi
    {
      this.diskPath, this.vmi := diskPath, vmi;
    }
  }

  class HAMain {
    var agents: map<string, HAConfig>
    const sm: SyncMount

    ghost predicate Valid()
      reads this, sm
    {
      sm.Valid()
    }

    constructor (mountPath: string, now: Timeval)
      ensures Valid() && fresh(sm) && fresh(sm.records) && agents == map[]
      ensures sm.View() == Cache(seq(DEVMAX, _ => Record(None, -1, 0, now, false)), map[], map[], {}, false)
    {
      agents := map[];
      sm := new SyncMount(mountPath, now);
    }

    method AddAgent(name: string, diskPath: string, vmi: Vmi)
      modifies this
      ensures agents.Keys == old(agents).Keys + {name} && fresh(agents[name])
      ensures agents[name].diskPath == diskPath && agents[name].vmi == vmi
      ensures forall n :: n in old(agents) && n != name ==> agents[n] == old(agents)[n]
    {
      var ha := new HAConfig(diskPath, vmi);
      agents := agents[name := ha];
    }

    /** `mount_disk`: None when `turns` did not see the request through. */
    method MountDisk(name: string, stamp: Timeval, turns: seq<Turn>) returns (mountpoint: Option<string>)
      requires Valid() && name in agents
      modifies sm`nbd, sm`mounts, sm`paused, sm`exited, sm.records, agents[name]
      ensures var a := agents[name];
              var out := MountCache.RequestMount(sm.base, old(sm.View()), a.vmi, a.diskPath, stamp, turns);
              && sm.View() == out.c
              && match out.slot
                 case None => mountpoint == None && a.mountdev == old(a.mountdev)
                 case Some(i) => mountpoint.Some? && NamesSlot(mountpoint.value, sm.base, i) && a.mountdev == i
      ensures mountpoint.Some? && Mountable(sm.base, old(sm.View()), agents[name].vmi, agents[name].diskPath) ==>
                ShowsDisk(sm.mounts, mountpoint.value, agents[name].diskPath)
    {
      var a := agents[name];
      ghost var c0 := sm.View();
      var m := sm.RequestMount(a.vmi, a.diskPath, stamp, turns);
      if m.None? {
        return None;
      }
      a.mountdev := m.value;
      mountpoint := Some(sm.GetMountpoint(m.value));
      MountpointSpelled(sm.base, m.value, mountpoint.value);
      if Mountable(sm.base, c0, a.vmi, a.diskPath) {
        RequestShows(sm.base, c0, a.vmi, a.diskPath, stamp, turns);
      }
    }

    /** `unmount_disk`; the agent's handle must have been set by a mount. */
    method UnmountDisk(name: string)
      requires Valid() && name in agents && 0 <= agents[name].mountdev < DEVMAX
      modifies sm`paused, sm.records
      ensures sm.View() == Release(old(sm.View()), agents[name].mountdev)
    {
      sm.ReleaseMount(agents[name].mountdev);
    }
  }
}
