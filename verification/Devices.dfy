/** Names of nbd devices and mountpoints. */
module Devices {
  const DIGITS := "0123456789"

  /** `std::to_string` on a non-negative number. */
  function Decimal(n: nat): string {
    if n < 10 then [DIGITS[n]] else Decimal(n / 10) + [DIGITS[n % 10]]
  }

  lemma DecimalShape(n: nat)
    ensures var s := Decimal(n);
            && |s| > 0 && s[|s| - 1] == DIGITS[n % 10]
            && (s[..|s| - 1] == if n < 10 then [] else Decimal(n / 10))
            && (n >= 10 ==> |s| > 1)
  {
  }

  lemma {:induction false} DecimalInjective(a: nat, b: nat)
    requires Decimal(a) == Decimal(b)
    ensures a == b
  {
    DecimalShape(a);
    DecimalShape(b);
    if a >= 10 && b >= 10 {
      DecimalInjective(a / 10, b / 10);
    }
    DigitsDistinct(a % 10, b % 10);
  }

  lemma DigitsDistinct(i: nat, j: nat)
    requires i < 10 && j < 10 && DIGITS[i] == DIGITS[j]
    ensures i == j
  {
  }

  function DevName(i: nat): string {
    "nbd" + Decimal(i)
  }

  /** Where device `i` is mounted. */
  function MountPath(base: string, i: nat): string {
    base + DevName(i)
  }

  /** `get_mountpoint`. */
  function Mountpoint(base: string, i: nat): string {
    MountPath(base, i) + "/"
  }

  // --------------------------------------------------------- what the names say

  predicate IsDigit(c: char) {
    '0' <= c <= '9'
  }

  /** A decimal numeral without leading zeros. */
  predicate IsNumeral(s: string) {
    |s| > 0 && (forall i :: 0 <= i < |s| ==> IsDigit(s[i])) && (|s| > 1 ==> s[0] != '0')
  }

  /** The number a string of digits stands for. */
  function Value(s: string): int {
    if s == [] then 0 else 10 * Value(s[..|s| - 1]) + (s[|s| - 1] as int - '0' as int)
  }

  lemma DigitValue(d: nat)
    requires d < 10
    ensures IsDigit(DIGITS[d]) && DIGITS[d] as int - '0' as int == d
  {
  }

  lemma {:induction false} DecimalIsNumeral(n: nat)
    ensures IsNumeral(Decimal(n)) && Value(Decimal(n)) == n && (n > 0 ==> Decimal(n)[0] != '0')
  {
    var s := Decimal(n);
    DecimalShape(n);
    DigitValue(n % 10);
    if n >= 10 {
      DecimalIsNumeral(n / 10);
      assert s[..|s| - 1] == Decimal(n / 10);
    } else {
      assert s[..|s| - 1] == [];
      assert n == 1 || n == 2 || n == 3 || n == 4 || n == 5 || n == 6 || n == 7 || n == 8 || n == 9 || n == 0;
    }
  }

  lemma {:induction false} NumeralPositive(s: string)
    requires IsNumeral(s) && s[0] != '0'
    ensures Value(s) > 0
  {
    if |s| > 1 {
      NumeralPositive(s[..|s| - 1]);
    } else {
      assert s[..|s| - 1] == [];
    }
  }

  /** There is one numeral for each number. */
  lemma {:induction false} NumeralUnique(s: string, t: string)
    requires IsNumeral(s) && IsNumeral(t) && Value(s) == Value(t)
    ensures s == t
    decreases |s| + |t|
  {
    var s', t' := s[..|s| - 1], t[..|t| - 1];
    var c, d := s[|s| - 1], t[|t| - 1];
    assert IsDigit(c) && IsDigit(d);
    assert s == s' + [c] && t == t' + [d];
    if |s| > 1 {
      NumeralPositive(s');
    }
    if |t| > 1 {
      NumeralPositive(t');
    }
    assert Value(s') == Value(t') && c == d;
    if |s| > 1 && |t| > 1 {
      NumeralUnique(s', t');
    }
  }

  /** `mp` is `base`, then "nbd", then the number `i`, then a slash. */
  ghost predicate NamesSlot(mp: string, base: string, i: nat) {
    exists digits :: IsNumeral(digits) && Value(digits) == i && mp == base + "nbd" + digits + "/"
  }

  /** The mount at the directory `mp` names shows `disk`. */
  predicate ShowsDisk(mounts: map<string, string>, mp: string, disk: string) {
    |mp| > 0 && mp[|mp| - 1] == '/' && mp[..|mp| - 1] in mounts && mounts[mp[..|mp| - 1]] == disk
  }

  /** The names spelled out: "nbd", then the number of the device. */
  lemma NamesSpelled(base: string, i: nat)
    ensures exists digits :: IsNumeral(digits) && Value(digits) == i
    ensures forall digits :: IsNumeral(digits) && Value(digits) == i ==>
              DevName(i) == "nbd" + digits && MountPath(base, i) == base + "nbd" + digits
  {
    DecimalIsNumeral(i);
    forall digits | IsNumeral(digits) && Value(digits) == i
      ensures DevName(i) == "nbd" + digits && MountPath(base, i) == base + "nbd" + digits
    {
      NumeralUnique(digits, Decimal(i));
      assert base + ("nbd" + digits) == base + "nbd" + digits;
    }
  }

  /** A string is the mountpoint of slot `i` iff it spells it. */
  lemma MountpointSpelled(base: string, i: nat, mp: string)
    ensures mp == Mountpoint(base, i) <==> NamesSlot(mp, base, i)
    ensures Mountpoint(base, i)[..|Mountpoint(base, i)| - 1] == MountPath(base, i)
  {
    DecimalIsNumeral(i);
    assert Mountpoint(base, i) == base + "nbd" + Decimal(i) + "/";
    if NamesSlot(mp, base, i) {
      var digits :| IsNumeral(digits) && Value(digits) == i && mp == base + "nbd" + digits + "/";
      NumeralUnique(digits, Decimal(i));
    }
  }

  /** Different devices have different names, mount paths and mountpoints. */
  lemma NamesInjective(base: string, i: nat, j: nat)
    ensures DevName(i) == DevName(j) ==> i == j
    ensures MountPath(base, i) == MountPath(base, j) ==> i == j
    ensures Mountpoint(base, i) == Mountpoint(base, j) ==> i == j
  {
    assert DevName(i)[3..] == Decimal(i) && DevName(j)[3..] == Decimal(j);
    assert MountPath(base, i)[|base|..] == DevName(i) && MountPath(base, j)[|base|..] == DevName(j);
    var p, q := Mountpoint(base, i), Mountpoint(base, j);
    assert p[..|p| - 1] == MountPath(base, i) && q[..|q| - 1] == MountPath(base, j);
    if DevName(i) == DevName(j) {
      DecimalInjective(i, j);
    }
  }
}
