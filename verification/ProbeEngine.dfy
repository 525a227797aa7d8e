/** The callbacks and `do_sync` as they run: globals and guest memory updated in place. */
module ProbeEngine {
  import opened GuestMemory
  import opened Probes

  class Engine {
    var interrupted: int
    var doCleanup: bool
    var safety: Addr
    var sites: Sites
    var stepRewriteLoc: Addr
    var ourStack: Addr
    var ourFrame: Addr
    var saved: Saved
    var mem: Mem             // guest memory, written through the introspection layer
    var stepping: set<nat>   // vCPUs in single-step mode, kept by the hypervisor
    ghost var plain: Mem     // guest memory under the guest's own stores only

    /** The globals as the program starts. */
    constructor (m: Mem)
      ensures Vars() == PROGRAM_START && mem == m
      ensures interrupted == 0 && !doCleanup && safety == 0 && stepRewriteLoc == 0 && ourStack == 0 && ourFrame == 0
      ensures saved == Saved(0, 0, 0) && sites.qworko == sites.dwork == Probe(0, 0)
      ensures sites.dworkBack == sites.syncFront == sites.syncBack == Probe(0, 0)
    {
      interrupted, doCleanup, safety := 0, false, 0;
      sites := Sites(NO_PROBE, NO_PROBE, NO_PROBE, NO_PROBE, NO_PROBE);
      stepRewriteLoc, ourStack, ourFrame, saved := 0, 0, 0, Saved(0, 0, 0);
      mem, stepping, plain := m, {}, m;
    }

    ghost function Vars(): Globals
      reads this
    {
      Globals(interrupted, doCleanup, safety, sites, stepRewriteLoc, ourStack, ourFrame, saved)
    }

    ghost function View(): World
      reads this
    {
      World(Vars(), mem, stepping, plain)
    }

    method TickSafety()
      modifies this`safety, this`interrupted
      ensures Vars() == CountTrap(old(Vars()))
    {
      safety := Wrap(safety + 1);
      if safety > SAFETY_LIMIT {
        interrupted := 1;
      }
    }

    method IntCbFront(vcpu: nat, regs: Regs) returns (after: Regs)
      modifies this
      ensures Vars() == TrapGlobals(old(Vars()), regs)
      ensures mem == TrapMem(old(Vars()), old(mem), regs) && plain == old(plain)
      ensures stepping == if TrapToggles(old(sites), regs.rip) then Toggled(old(stepping), vcpu) else old(stepping)
      ensures after == TrapRegs(old(Vars()), regs)
    {
      var byteLocation: Addr := 0;
      var byteReplacement: Byte := 0;
      var toggle := true;
      after := regs;
      TickSafety();
      if regs.rip == sites.qworko.at {
        byteLocation, byteReplacement := sites.qworko.at, sites.qworko.saved;
      } else if regs.rip == sites.dwork.at {
        byteLocation, byteReplacement := sites.dwork.at, sites.dwork.saved;
        ourStack, ourFrame := regs.rsp, regs.rbp;
        saved := Saved(regs.rdi, regs.rsi, regs.rdx);
        after := regs.(rip := sites.syncFront.at);
        toggle := false;
      } else if regs.rip == sites.syncFront.at {
        byteLocation, byteReplacement := sites.syncFront.at, sites.syncFront.saved;
        toggle := false;
      } else if regs.rip == sites.syncBack.at {
        byteLocation, byteReplacement := sites.syncBack.at, sites.syncBack.saved;
        after := regs.(rip := sites.dwork.at, rdi := saved.rdi, rsi := saved.rsi, rdx := saved.rdx);
        toggle := false;
      } else if regs.rip == sites.dworkBack.at {
        byteLocation, byteReplacement := sites.dworkBack.at, sites.dworkBack.saved;
        doCleanup := true;
      }
      mem := WriteByte(mem, byteLocation, byteReplacement);
      stepRewriteLoc := regs.rip;
      if toggle {
        stepping := Toggled(stepping, vcpu);
      }
    }

    method StepCbFront(vcpu: nat)
      modifies this
      ensures View() == Handle(old(View()), Step(vcpu))
    {
      if doCleanup {
        interrupted := 1;
      } else {
        mem := WriteByte(mem, stepRewriteLoc, BREAK);
      }
      stepping := Toggled(stepping, vcpu);
    }

    /** One `vmi_events_listen` together with the status check that follows it. */
    method EventsListen(l: Listen)
      modifies this
      ensures View() == AfterListen(old(View()), l)
    {
      ghost var w0 := View();
      for i := 0 to |l.events|
        invariant HandleAll(View(), l.events[i..]) == HandleAll(w0, l.events)
      {
        var e := l.events[i];
        assert l.events[i..][0] == e && l.events[i..][1..] == l.events[i + 1..];
        match e {
          case Trap(v, r) =>
            var _ := IntCbFront(v, r);
          case Step(v) =>
            StepCbFront(v);
          case Store(at, value) =>
            mem := GuestWrite(mem, at, value);
            plain := GuestWrite(plain, at, value);
        }
      }
      if !l.ok {
        interrupted := -1;
      }
    }

    /** The arming half of `do_sync`: for each site, locate it, save its byte, write 0xCC. */
    method ArmProbes(s: Symbols)
      modifies this`sites, this`mem
      ensures sites == ArmedSites(old(sites), old(mem), s)
      ensures mem == ArmedMem(old(sites), old(mem), s)
    {
      ghost var p, m, l := sites, mem, SiteAddrs(sites, s);
      var q := Translated(sites.qworko.at, s.qworko, 0);
      sites, mem := sites.(qworko := Planted(mem, q, sites.qworko)), WriteByte(mem, q, BREAK);
      assert mem == PatchedMem(m, l, 1);
      var d := Translated(sites.dwork.at, s.dwork, 0);
      sites, mem := sites.(dwork := Planted(mem, d, sites.dwork)), WriteByte(mem, d, BREAK);
      assert mem == PatchedMem(m, l, 2);
      var db := Translated(sites.dworkBack.at, s.dworkBack, DWORK_BACK_OFFSET);
      sites, mem := sites.(dworkBack := Planted(mem, db, sites.dworkBack)), WriteByte(mem, db, BREAK);
      assert mem == PatchedMem(m, l, 3);
      var f := Translated(sites.syncFront.at, s.syncFront, 0);
      sites, mem := sites.(syncFront := Planted(mem, f, sites.syncFront)), WriteByte(mem, f, BREAK);
      assert mem == PatchedMem(m, l, 4);
      var b := Translated(sites.syncBack.at, s.syncBack, SYNC_BACK_OFFSET);
      sites, mem := sites.(syncBack := Planted(mem, b, sites.syncBack)), WriteByte(mem, b, BREAK);
    }

    /** The disarming half of `do_sync`. */
    method ReplaceMemory()
      modifies this`mem
      ensures mem == Disarm(sites, old(mem))
    {
      DisarmIsFiveWrites(sites, mem);
      mem := Restore(mem, sites.dwork);
      mem := Restore(mem, sites.dworkBack);
      mem := Restore(mem, sites.syncFront);
      mem := Restore(mem, sites.syncBack);
      mem := Restore(mem, sites.qworko);
    }

    /**
      A whole call. `listens` is what the event loop receives; `returned` is
      false when it was not enough to leave the loop.
     */
    method DoSync(s: Symbols, listens: seq<Listen>) returns (returned: bool)
      modifies this
      ensures View() == Probes.DoSync(old(View()), s, listens)
      ensures returned <==> Returns(old(View()), s, listens)
    {
      stepping := {};   // the call before ended by clearing its step event, so no vCPU is in single-step mode
      ArmProbes(s);
      if sites.dwork.at == 0 {
        return true;
      }
      ghost var w0 := View();
      var i := 0;
      while interrupted == 0 && i < |listens|
        invariant 0 <= i <= |listens|
        invariant Loop(View(), listens[i..]) == Loop(w0, listens)
        invariant sites == w0.g.sites
        decreases |listens| - i
      {
        assert listens[i..][0] == listens[i] && listens[i..][1..] == listens[i + 1..];
        ProbesKept(View(), listens[i].events);
        EventsListen(listens[i]);
        i := i + 1;
      }
      if interrupted == 0 {
        return false;
      }
      ReplaceMemory();
      return true;
    }
  }
}
