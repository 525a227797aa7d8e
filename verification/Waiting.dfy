/** How long a request can spin, and the request's spin loop as a run of the clients' step relation. */
module Waiting {
  import opened Options
  import opened Slots
  import opened Timevals
  import opened MountCache
  import opened Clients

  // ------------------------------------------------------------ bounded waiting

  /** At every pass of the loop slot `j` has no user and was last requested at `used`. */
  predicate StaysIdle(base: string, c: Cache, turns: seq<Turn>, best: Best, j: Slot, used: Timeval)
    decreases |turns|
  {
    turns == [] ||
    var c' := ActAll(base, c, turns[0].others);
    var b := Scan(c'.slots, turns[0].now, best);
    && c'.slots[j].refcount == 0 && c'.slots[j].lastUsed == used
    && (b.max < STEAL_AGE ==> StaysIdle(base, c', turns[1..], b, j, used))
  }

  /** Each sleep takes at least a second of the clock. */
  predicate Sleeps(turns: seq<Turn>) {
    && (forall i :: 0 <= i < |turns| ==> Normal(turns[i].now))
    && (forall i :: 0 <= i < |turns| - 1 ==> Micros(turns[i + 1].now) >= Micros(turns[i].now) + 1_000_000)
  }

  /** Passes the loop makes, the deciding one included. */
  function Passes(base: string, c: Cache, turns: seq<Turn>, best: Best): nat
    decreases |turns|
  {
    if turns == [] then 0
    else
      var c' := ActAll(base, c, turns[0].others);
      var b := Scan(c'.slots, turns[0].now, best);
      if b.max < STEAL_AGE then 1 + Passes(base, c', turns[1..], b) else 1
  }

  lemma {:induction false} DecidesAfter(
      base: string, c: Cache, v: Vmi, disk: string, turns: seq<Turn>, best: Best, j: Slot, used: Timeval, slept: nat)
    requires Normal(used) && Sleeps(turns) && slept <= 10 && |turns| >= 11 - slept
    requires Micros(turns[0].now) >= Micros(used) + slept * 1_000_000
    requires best.max < STEAL_AGE && StaysIdle(base, c, turns, best, j, used)
    ensures Spin(base, c, v, disk, turns, best).slot.Some?
    ensures Passes(base, c, turns, best) <= 11 - slept
    decreases |turns|
  {
    var c' := ActAll(base, c, turns[0].others);
    var b := Scan(c'.slots, turns[0].now, best);
    if slept == 10 {
      TenSecondsSuffice(used, turns[0].now);
      DecidesOnAge(c'.slots, turns[0].now, best);
      assert Age(c'.slots, j, turns[0].now) >= STEAL_AGE;
    } else if b.max < STEAL_AGE {
      assert turns[1..][0] == turns[1];
      DecidesAfter(base, c', v, disk, turns[1..], b, j, used, slept + 1);
    }
  }

  /**
    Bounded waiting: if some slot stays unused, requested no later than the
    first pass, the loop decides within eleven passes, whatever the others do.
   */
  lemma BoundedWaiting(base: string, c: Cache, v: Vmi, disk: string, turns: seq<Turn>, j: Slot, used: Timeval)
    requires Normal(used) && Sleeps(turns) && |turns| >= 11 && Micros(used) <= Micros(turns[0].now)
    requires StaysIdle(base, c, turns, NO_BEST, j, used)
    ensures Spin(base, c, v, disk, turns, NO_BEST).slot.Some?
    ensures Passes(base, c, turns, NO_BEST) <= 11
  {
    DecidesAfter(base, c, v, disk, turns, NO_BEST, j, used, 0);
  }

  /** Exact: with all slots requested at the first pass and sleeps of a second, ten passes decide nothing. */
  lemma {:induction false} TenPassesMayNotDo(
      base: string, c: Cache, v: Vmi, disk: string, turns: seq<Turn>, best: Best, t: Timeval, slept: nat)
    requires slept + |turns| <= 10 && best.max < STEAL_AGE
    requires forall i :: 0 <= i < DEVMAX ==> c.slots[i].lastUsed == t
    requires forall i :: 0 <= i < |turns| ==>
               turns[i].now == Timeval(t.sec + slept + i, t.usec) && turns[i].others == []
    ensures Spin(base, c, v, disk, turns, best) == Outcome(c, None)
    decreases |turns|
  {
    if turns != [] {
      DecidesOnAge(c.slots, turns[0].now, best);
      assert forall i :: 0 <= i < DEVMAX ==> Age(c.slots, i, turns[0].now) == slept * 1000;
      TenPassesMayNotDo(base, c, v, disk, turns[1..], Scan(c.slots, turns[0].now, best), t, slept + 1);
    }
  }

  // ------------------------------------------- request_mount as a run of clients

  /** What a client's step does to the shared cache. */
  function ActionOf(site: Site, s: State, op: Op): Option<Action>
    requires Enabled(s, op)
  {
    match op
    case Mount(c, v, stamp) => Some(Request(v, site.disk(v), stamp))
    case SpinPass(c, now, stamp) =>
      Some(Pass(s.clients[c].v, site.disk(s.clients[c].v), now, stamp, s.clients[c].best))
    case Unmount(c) =>
      var v := s.clients[c].v;
      if v in s.mountdev && 0 <= s.mountdev[v] < DEVMAX then Some(Return(s.mountdev[v])) else None
  }

  function ActionsOf(site: Site, s: State, ops: seq<Op>): seq<Action>
    requires AllEnabled(site, s, ops)
    decreases |ops|
  {
    if ops == [] then []
    else
      var rest := ActionsOf(site, Apply(site, s, ops[0]), ops[1..]);
      match ActionOf(site, s, ops[0])
      case Some(a) => [a] + rest
      case None => rest
  }

  lemma {:induction false} OpsAreActions(site: Site, s: State, ops: seq<Op>)
    requires AllEnabled(site, s, ops)
    ensures ActAll(site.base, s.cache, ActionsOf(site, s, ops)) == ApplyAll(site, s, ops).cache
    decreases |ops|
  {
    if ops != [] {
      var s' := Apply(site, s, ops[0]);
      OpsAreActions(site, s', ops[1..]);
      match ActionOf(site, s, ops[0])
      case Some(a) =>
        assert ActionsOf(site, s, ops)[0] == a && ActionsOf(site, s, ops)[1..] == ActionsOf(site, s', ops[1..]);
      case None =>
    }
  }

  /** The steps others take before a pass of client `c`, and the clock of that pass. */
  datatype OpTurn = OpTurn(others: seq<Op>, now: Timeval, stamp: Timeval)

  /** The state in which the first of these passes is made. */
  function AtPass(site: Site, s: State, turns: seq<OpTurn>): State
    requires turns != [] && AllEnabled(site, s, turns[0].others)
  {
    ApplyAll(site, s, turns[0].others)
  }

  function PassOp(c: Client, turns: seq<OpTurn>): Op
    requires turns != []
  {
    SpinPass(c, turns[0].now, turns[0].stamp)
  }

  /** `c` spins through `turns`, the others only take steps of their own. */
  predicate Spins(site: Site, s: State, c: Client, turns: seq<OpTurn>)
    decreases |turns|
  {
    && c in s.clients && s.clients[c].Spinning?
    && (turns != [] ==>
          && AllEnabled(site, s, turns[0].others) && (forall op :: op in turns[0].others ==> op.c != c)
          && Enabled(AtPass(site, s, turns), PassOp(c, turns))
          && var s' := Apply(site, AtPass(site, s, turns), PassOp(c, turns));
             s'.clients[c].Spinning? ==> Spins(site, s', c, turns[1..]))
  }

  /** The steps of such a spin, as one interleaved list. */
  function SpinOps(site: Site, s: State, c: Client, turns: seq<OpTurn>): seq<Op>
    requires Spins(site, s, c, turns)
    decreases |turns|
  {
    if turns == [] then []
    else
      var s' := Apply(site, AtPass(site, s, turns), PassOp(c, turns));
      turns[0].others + ([PassOp(c, turns)] + if s'.clients[c].Spinning? then SpinOps(site, s', c, turns[1..]) else [])
  }

  /** The same spin as the loop of `request_mount` sees it. */
  function SpinTurns(site: Site, s: State, c: Client, turns: seq<OpTurn>): seq<Turn>
    requires Spins(site, s, c, turns)
    decreases |turns|
  {
    if turns == [] then []
    else
      var s' := Apply(site, AtPass(site, s, turns), PassOp(c, turns));
      [Turn(ActionsOf(site, s, turns[0].others), turns[0].now, turns[0].stamp)]
      + if s'.clients[c].Spinning? then SpinTurns(site, s', c, turns[1..]) else []
  }

  lemma {:induction false} OthersLeavePhase(site: Site, s: State, ops: seq<Op>, c: Client)
    requires AllEnabled(site, s, ops) && c in s.clients && forall op :: op in ops ==> op.c != c
    ensures var e := ApplyAll(site, s, ops); c in e.clients && e.clients[c] == s.clients[c]
    decreases |ops|
  {
    if ops != [] {
      assert ops[0] in ops;
      StepKeepsOthers(site, s, ops[0], c);
      OthersLeavePhase(site, Apply(site, s, ops[0]), ops[1..], c);
    }
  }

  /**
    The spin loop of `request_mount`, with its candidate carried across the
    sleeps in which others act, is exactly a run of the clients' step relation:
    same cache, and a slot returned iff the client ends up holding it.
   */
  lemma {:induction false} SpinIsRun(site: Site, s: State, c: Client, turns: seq<OpTurn>)
    requires Spins(site, s, c, turns)
    ensures AllEnabled(site, s, SpinOps(site, s, c, turns))
    ensures var e := ApplyAll(site, s, SpinOps(site, s, c, turns));
            var v := s.clients[c].v;
            var out := Spin(site.base, s.cache, v, site.disk(v), SpinTurns(site, s, c, turns), s.clients[c].best);
            && out.c == e.cache && c in e.clients
            && match out.slot
               case Some(i) => e.clients[c] == Holding(v, i) && v in e.mountdev && e.mountdev[v] == i
               case None => e.clients[c].Spinning? && e.clients[c].v == v
    decreases |turns|
  {
    if turns != [] {
      var s1 := AtPass(site, s, turns);
      var s2 := Apply(site, s1, PassOp(c, turns));
      OthersLeavePhase(site, s, turns[0].others, c);
      OpsAreActions(site, s, turns[0].others);
      var rest := if s2.clients[c].Spinning? then SpinOps(site, s2, c, turns[1..]) else [];
      if s2.clients[c].Spinning? {
        SpinIsRun(site, s2, c, turns[1..]);
      }
      var ops := [PassOp(c, turns)] + rest;
      assert ops[0] == PassOp(c, turns) && ops[1..] == rest;
      assert AllEnabled(site, s1, ops);
      AppliedInTwo(site, s, turns[0].others, ops);
      var ts := SpinTurns(site, s, c, turns);
      assert ts[0] == Turn(ActionsOf(site, s, turns[0].others), turns[0].now, turns[0].stamp);
      assert s2.clients[c].Spinning? ==> ts[1..] == SpinTurns(site, s2, c, turns[1..]);
    }
  }

  /** A whole `request_mount` by an idle client is such a run too, and leaves the agent's handle on the granted slot. */
  lemma RequestIsRun(site: Site, s: State, c: Client, v: Vmi, stamp: Timeval, turns: seq<OpTurn>)
    requires Enabled(s, Mount(c, v, stamp))
    requires var s1 := Apply(site, s, Mount(c, v, stamp));
             s1.clients[c].Spinning? ==> Spins(site, s1, c, turns)
    ensures var s1 := Apply(site, s, Mount(c, v, stamp));
            s1.clients[c].Spinning? ==> AllEnabled(site, s1, SpinOps(site, s1, c, turns))
    ensures var s1 := Apply(site, s, Mount(c, v, stamp));
            var spun := s1.clients[c].Spinning?;
            var e := if spun then ApplyAll(site, s1, SpinOps(site, s1, c, turns)) else s1;
            var passes := if spun then SpinTurns(site, s1, c, turns) else [];
            var out := RequestMount(site.base, s.cache, v, site.disk(v), stamp, passes);
            && out.c == e.cache && c in e.clients
            && match out.slot
               case Some(i) => e.clients[c] == Holding(v, i) && v in e.mountdev && e.mountdev[v] == i
               case None => e.clients[c].Spinning? && e.clients[c].v == v
  {
    var s1 := Apply(site, s, Mount(c, v, stamp));
    if s1.clients[c].Spinning? {
      SpinIsRun(site, s1, c, turns);
    }
  }
}
