/** The slot table of the mount manager and the three scans `request_mount` makes over it. */
module Slots {
  import opened Options
  import opened Timevals

  const DEVMAX := 16
  const STEAL_AGE := 10_000

  /** A guest's introspection handle: the address of an agent's `vmi` field, so never null. */
  type Vmi = nat

  type Slot = i: nat | i < DEVMAX

  /** `syncmount_record`; `locked` is its mutex `l`, which is taken once and never given back. */
  datatype Record = Record(vmi: Option<Vmi>, mountindex: int, refcount: int, lastUsed: Timeval, locked: bool)

  type Table = t: seq<Record> | |t| == DEVMAX witness seq(DEVMAX, _ => Record(None, -1, 0, Timeval(0, 0), false))

  /** The first slot from `i` on that belongs to `v`, or 16. */
  function HitFrom(t: Table, v: Vmi, i: nat): (r: nat)
    requires i <= DEVMAX
    ensures i <= r <= DEVMAX
    decreases DEVMAX - i
  {
    if i == DEVMAX || t[i].vmi == Some(v) then i else HitFrom(t, v, i + 1)
  }

  /** The first slot from `i` on whose lock is free, or 16. */
  function FreeFrom(t: Table, i: nat): (r: nat)
    requires i <= DEVMAX
    ensures i <= r <= DEVMAX
    decreases DEVMAX - i
  {
    if i == DEVMAX || !t[i].locked then i else FreeFrom(t, i + 1)
  }

  lemma {:induction false} HitIsFirst(t: Table, v: Vmi, i: nat)
    requires i <= DEVMAX
    ensures var r := HitFrom(t, v, i);
            && (forall j :: i <= j < r ==> t[j].vmi != Some(v))
            && (r < DEVMAX ==> t[r].vmi == Some(v))
    decreases DEVMAX - i
  {
    if i < DEVMAX && t[i].vmi != Some(v) {
      HitIsFirst(t, v, i + 1);
    }
  }

  lemma {:induction false} FreeIsFirst(t: Table, i: nat)
    requires i <= DEVMAX
    ensures var r := FreeFrom(t, i);
            && (forall j :: i <= j < r ==> t[j].locked)
            && (r < DEVMAX ==> !t[r].locked)
    decreases DEVMAX - i
  {
    if i < DEVMAX && t[i].locked {
      FreeIsFirst(t, i + 1);
    }
  }

  /** `max` and `maxix`: they live across the passes of one spin loop. */
  datatype Best = Best(max: int, maxix: Slot)

  const NO_BEST := Best(0, 0)

  function Age(t: Table, i: Slot, now: Timeval): int {
    TimevalDiff(t[i].lastUsed, now)
  }

  function Better(t: Table, now: Timeval, b: Best, i: Slot): Best {
    if t[i].refcount == 0 && b.max < Age(t, i, now) then Best(Age(t, i, now), i) else b
  }

  /** The first `n` iterations of one pass, starting from what earlier passes left in `b`. */
  function ScanTo(t: Table, now: Timeval, b: Best, n: nat): Best
    requires n <= DEVMAX
  {
    if n == 0 then b else Better(t, now, ScanTo(t, now, b, n - 1), n - 1)
  }

  function Scan(t: Table, now: Timeval, b: Best): Best {
    ScanTo(t, now, b, DEVMAX)
  }

  /** The right slot to steal at `now`: unused for at least ten seconds, the oldest, the first of equals. */
  predicate Victim(t: Table, now: Timeval, i: nat) {
    && i < DEVMAX && t[i].refcount == 0 && Age(t, i, now) >= STEAL_AGE
    && (forall j :: 0 <= j < DEVMAX && t[j].refcount == 0 ==> Age(t, j, now) <= Age(t, i, now))
    && (forall j :: 0 <= j < i && t[j].refcount == 0 ==> Age(t, j, now) < Age(t, i, now))
  }

  lemma {:induction false} ScanToFinds(t: Table, now: Timeval, b: Best, n: nat)
    requires n <= DEVMAX
    ensures var r := ScanTo(t, now, b, n);
            && r.max >= b.max
            && (forall j :: 0 <= j < n && t[j].refcount == 0 ==> Age(t, j, now) <= r.max)
            && (r == b || (r.max > b.max && r.maxix < n && t[r.maxix].refcount == 0 && Age(t, r.maxix, now) == r.max
                           && forall j :: 0 <= j < r.maxix && t[j].refcount == 0 ==> Age(t, j, now) < r.max))
  {
    if n > 0 {
      ScanToFinds(t, now, b, n - 1);
    }
  }

  /**
    However stale the best candidate of the failed passes is, a pass decides
    exactly when its own table has a slot to steal, and then on the right one.
   */
  lemma DecidingPassIsRight(t: Table, now: Timeval, b: Best)
    requires b.max < STEAL_AGE
    ensures var r := Scan(t, now, b);
            && (r.max >= STEAL_AGE ==> Victim(t, now, r.maxix))
            && (r.max >= STEAL_AGE <==> exists i :: Victim(t, now, i))
  {
    ScanToFinds(t, now, b, DEVMAX);
  }

  /** There is at most one right slot. */
  lemma VictimUnique(t: Table, now: Timeval, i: nat, j: nat)
    requires Victim(t, now, i) && Victim(t, now, j)
    ensures i == j
  {
  }

  /** A pass decides exactly when some slot without users was requested ten truncated seconds ago. */
  lemma DecidesOnAge(t: Table, now: Timeval, b: Best)
    requires b.max < STEAL_AGE
    ensures Scan(t, now, b).max >= STEAL_AGE <==>
            exists i :: 0 <= i < DEVMAX && t[i].refcount == 0 && Age(t, i, now) >= STEAL_AGE
  {
    ScanToFinds(t, now, b, DEVMAX);
  }

  /** The age in microseconds at which an unused slot may be stolen: ten seconds, or a little less. */
  predicate OldEnough(used: Timeval, now: Timeval) {
    var e := Micros(now) - Micros(used);
    e >= 10_000_000 || (e > 9_999_000 && now.usec < used.usec)
  }

  /** The exact age, in microseconds, at which a pass decides. */
  lemma DecidesAtMicros(t: Table, now: Timeval, b: Best)
    requires b.max < STEAL_AGE && Normal(now) && forall i :: 0 <= i < DEVMAX ==> Normal(t[i].lastUsed)
    ensures Scan(t, now, b).max >= STEAL_AGE <==>
            exists i :: 0 <= i < DEVMAX && t[i].refcount == 0 && OldEnough(t[i].lastUsed, now)
  {
    DecidesOnAge(t, now, b);
    forall i | 0 <= i < DEVMAX ensures Age(t, i, now) >= STEAL_AGE <==> OldEnough(t[i].lastUsed, now) {
      TenThousandReached(t[i].lastUsed, now);
    }
  }

  /** Truncation costs the victim less than two milliseconds against any other unused slot. */
  lemma VictimNearlyOldest(t: Table, now: Timeval, i: nat, j: nat)
    requires Victim(t, now, i) && j < DEVMAX && t[j].refcount == 0
    requires Normal(now) && Normal(t[i].lastUsed) && Normal(t[j].lastUsed)
    ensures Micros(t[i].lastUsed) < Micros(t[j].lastUsed) + 2_000
  {
  }
}
