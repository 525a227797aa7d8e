/** The environment-block parser of `actuators/17.py`. */
module Environment {
  import opened Options
  import opened Splitting

  const NUL: char := '\0'

  /** The part of the result the loop builds: `env_list`, `user` and `shell`. */
  datatype Env = Env(list: map<string, string>, user: string, shell: string)

  type Pair = (string, string)

  /** `item.split('=', 1)`; None is the ValueError of an item without '='. */
  function Cut(item: string): Option<Pair> {
    if item == [] then None
    else if item[0] == '=' then Some(("", item[1..]))
    else match Cut(item[1..])
         case None => None
         case Some(p) => Some(([item[0]] + p.0, p.1))
  }

  function LastPart(s: string): string {
    var parts := Split(s, '/');
    parts[|parts| - 1]
  }

  function Store(e: Env, p: Pair, full: bool): Env {
    var e1 := if full then e.(list := e.list[p.0 := p.1]) else e;
    if p.0 == "USER" then e1.(user := p.1)
    else if p.0 == "SHELL" then e1.(shell := LastPart(p.1))
    else e1
  }

  function ParseItem(e: Env, item: string, full: bool): Env {
    match Cut(item)
    case None => e
    case Some(p) => Store(e, p, full)
  }

  /** The effect of the items in order. */
  function ParseItems(e: Env, items: seq<string>, full: bool): Env {
    if items == [] then e else ParseItem(ParseItems(e, items[..|items| - 1], full), items[|items| - 1], full)
  }

  const NOTHING := Env(map[], "", "")

  function Parsed(env: string, full: bool): Env {
    ParseItems(NOTHING, Split(env, NUL), full)
  }

  method Parse(env: string, full: bool) returns (e: Env)
    ensures e == Parsed(env, full)
  {
    var envList: map<string, string> := map[];
    var user, shell := "", "";
    var items := Split(env, NUL);
    for i := 0 to |items|
      invariant Env(envList, user, shell) == ParseItems(NOTHING, items[..i], full)
    {
      assert items[..i + 1][..i] == items[..i];
      var cut := Cut(items[i]);
      if cut.Some? {
        var (key, val) := cut.value;
        if full {
          envList := envList[key := val];
        }
        if key == "USER" {
          user := val;
        } else if key == "SHELL" {
          var parts := Split(val, '/');
          shell := parts[|parts| - 1];
        }
      }
    }
    assert items[..|items|] == items;
    return Env(envList, user, shell);
  }

  // ------------------------------------------------------------------ round trip

  function Item(p: Pair): string {
    p.0 + "=" + p.1
  }

  function Items(pairs: seq<Pair>): seq<string> {
    seq(|pairs|, i requires 0 <= i < |pairs| => Item(pairs[i]))
  }

  /** The block a process would have: each pair as key=value, ended by a NUL. */
  function Serialize(pairs: seq<Pair>): string {
    if pairs == [] then "" else Item(pairs[0]) + [NUL] + Serialize(pairs[1..])
  }

  /** Keys hold neither '=' nor NUL, values no NUL. */
  predicate Clean(pairs: seq<Pair>) {
    forall i :: 0 <= i < |pairs| ==> '=' !in pairs[i].0 && NUL !in pairs[i].0 && NUL !in pairs[i].1
  }

  /** The first '=' is the one that cuts. */
  lemma {:induction false} CutOfItem(p: Pair)
    requires '=' !in p.0
    ensures Cut(Item(p)) == Some(p)
    decreases |p.0|
  {
    if p.0 == "" {
      assert Item(p)[1..] == p.1;
    } else {
      assert Item(p)[1..] == Item((p.0[1..], p.1));
      CutOfItem((p.0[1..], p.1));
      assert p.0 == [p.0[0]] + p.0[1..];
    }
  }

  /** Conversely every item with a '=' is the item of what it is cut into. */
  lemma {:induction false} ItemOfCut(item: string)
    ensures Cut(item).Some? <==> '=' in item
    ensures Cut(item).Some? ==> Item(Cut(item).value) == item && '=' !in Cut(item).value.0
  {
    if item != [] && item[0] != '=' {
      ItemOfCut(item[1..]);
      assert item == [item[0]] + item[1..];
    }
  }

  lemma {:induction false} SerializeIsJoin(pairs: seq<Pair>)
    ensures Serialize(pairs) == Join(Items(pairs) + [""], NUL)
  {
    if pairs != [] {
      SerializeIsJoin(pairs[1..]);
      assert (Items(pairs) + [""])[1..] == Items(pairs[1..]) + [""];
    }
  }

  lemma SplitOfSerialize(pairs: seq<Pair>)
    requires Clean(pairs)
    ensures Split(Serialize(pairs), NUL) == Items(pairs) + [""]
  {
    SerializeIsJoin(pairs);
    SplitOfCleanJoin(Items(pairs) + [""], NUL);
  }

  /** The map a list of pairs stands for, the last pair of a key winning. */
  ghost predicate LastWins(m: map<string, string>, pairs: seq<Pair>) {
    && (forall i :: 0 <= i < |pairs| ==> pairs[i].0 in m)
    && (forall k :: k in m ==> exists i :: 0 <= i < |pairs| && pairs[i] == (k, m[k])
                                           && forall j :: i < j < |pairs| ==> pairs[j].0 != k)
  }

  /** `x` is what follows the last slash of `s`, all of it if there is none. */
  predicate AfterLastSlash(x: string, s: string) {
    && '/' !in x && |x| <= |s| && s[|s| - |x|..] == x
    && (|x| < |s| ==> s[|s| - |x| - 1] == '/')
  }

  predicate ShellOf(shell: string, m: map<string, string>) {
    if "SHELL" in m then AfterLastSlash(shell, m["SHELL"]) else shell == ""
  }

  /** `user` and `shell` as the map determines them. */
  predicate Named(e: Env, m: map<string, string>) {
    && e.user == (if "USER" in m then m["USER"] else "")
    && ShellOf(e.shell, m)
  }

  /** A join ends in its last item, behind a separator if there is another. */
  lemma {:induction false} JoinEnds(items: seq<string>)
    requires |items| > 0
    ensures var s, x := Join(items, '/'), items[|items| - 1];
            |x| <= |s| && s[|s| - |x|..] == x && (|x| < |s| ==> s[|s| - |x| - 1] == '/')
  {
    if |items| > 1 {
      var x, t := items[|items| - 1], Join(items[1..], '/');
      JoinEnds(items[1..]);
      var s := items[0] + ['/'] + t;
      assert s[|s| - |t|..] == t;
      assert s[|s| - |x|..] == t[|t| - |x|..];
      assert |x| < |t| ==> s[|s| - |x| - 1] == t[|t| - |x| - 1];
    }
  }

  lemma LastPartAfterSlash(s: string)
    ensures AfterLastSlash(LastPart(s), s)
  {
    JoinOfSplit(s, '/');
    JoinEnds(Split(s, '/'));
  }

  lemma OtherKeyKeepsShell(shell: string, m: map<string, string>, k: string, v: string)
    requires ShellOf(shell, m) && k != "SHELL"
    ensures ShellOf(shell, m[k := v])
  {
    var m' := m[k := v];
    assert "SHELL" in m' <==> "SHELL" in m;
    assert "SHELL" in m ==> m'["SHELL"] == m["SHELL"];
  }

  lemma StoreNames(e: Env, m: map<string, string>, p: Pair)
    requires Named(e, m)
    ensures Named(Store(e, p, true), m[p.0 := p.1])
  {
    if p.0 == "SHELL" {
      assert p.0[0] != "USER"[0];
      LastPartAfterSlash(p.1);
    } else {
      OtherKeyKeepsShell(e.shell, m, p.0, p.1);
    }
  }

  lemma LastWinsStep(m: map<string, string>, pairs: seq<Pair>, p: Pair)
    requires LastWins(m, pairs)
    ensures LastWins(m[p.0 := p.1], pairs + [p])
  {
    var m', ps := m[p.0 := p.1], pairs + [p];
    forall k | k in m'
      ensures exists i :: 0 <= i < |ps| && ps[i] == (k, m'[k]) && forall j :: i < j < |ps| ==> ps[j].0 != k
    {
      if k == p.0 {
        assert ps[|pairs|] == (k, m'[k]);
      } else {
        var i :| 0 <= i < |pairs| && pairs[i] == (k, m[k]) && forall j :: i < j < |pairs| ==> pairs[j].0 != k;
        assert ps[i] == (k, m'[k]);
      }
    }
  }

  lemma StoreKeeps(e: Env, pairs: seq<Pair>, p: Pair)
    requires LastWins(e.list, pairs) && Named(e, e.list)
    ensures var e' := Store(e, p, true); LastWins(e'.list, pairs + [p]) && Named(e', e'.list)
  {
    LastWinsStep(e.list, pairs, p);
    StoreNames(e, e.list, p);
  }

  lemma {:induction false} ItemsParsed(pairs: seq<Pair>)
    requires Clean(pairs)
    ensures var e := ParseItems(NOTHING, Items(pairs), true); LastWins(e.list, pairs) && Named(e, e.list)
  {
    if pairs != [] {
      var front, p := pairs[..|pairs| - 1], pairs[|pairs| - 1];
      assert Items(pairs)[..|pairs| - 1] == Items(front);
      ItemsParsed(front);
      CutOfItem(p);
      StoreKeeps(ParseItems(NOTHING, Items(front), true), front, p);
      assert front + [p] == pairs && Items(pairs)[|pairs| - 1] == Item(p);
    }
  }

  /** Serialising any pairs and parsing them gives back the last-wins map, and `user` and `shell` from it. */
  lemma EnvironmentRoundTrip(pairs: seq<Pair>)
    requires Clean(pairs)
    ensures var e := Parsed(Serialize(pairs), true); LastWins(e.list, pairs) && Named(e, e.list)
  {
    SplitOfSerialize(pairs);
    ItemsParsed(pairs);
    assert (Items(pairs) + [""])[..|pairs|] == Items(pairs);
  }

  /** There is only one last-wins map. */
  lemma LastWinsUnique(m: map<string, string>, n: map<string, string>, pairs: seq<Pair>)
    requires LastWins(m, pairs) && LastWins(n, pairs)
    ensures m == n
  {
  }

  // --------------------------------------------------------- arbitrary guest memory

  /** The pairs among the items. */
  function PairsOf(items: seq<string>): seq<Pair> {
    if items == [] then []
    else
      var front := PairsOf(items[..|items| - 1]);
      match Cut(items[|items| - 1])
      case None => front
      case Some(p) => front + [p]
  }

  /** Items without '=' change nothing, wherever they stand: only the pairs count. */
  lemma {:induction false} OnlyPairsCount(items: seq<string>, full: bool)
    ensures ParseItems(NOTHING, items, full) == ParseItems(NOTHING, Items(PairsOf(items)), full)
  {
    if items != [] {
      var front, last := items[..|items| - 1], items[|items| - 1];
      OnlyPairsCount(front, full);
      ItemOfCut(last);
      if Cut(last).Some? {
        var ps := PairsOf(items);
        assert Items(ps)[..|ps| - 1] == Items(PairsOf(front));
        assert Items(ps)[|ps| - 1] == last;
      }
    }
  }

  lemma {:induction false} PairsClean(items: seq<string>)
    requires Without(items, NUL)
    ensures Clean(PairsOf(items))
  {
    if items != [] {
      var last := items[|items| - 1];
      PairsClean(items[..|items| - 1]);
      ItemOfCut(last);
      if Cut(last).Some? {
        var p := Cut(last).value;
        assert forall c :: c in p.0 || c in p.1 ==> c in Item(p);
      }
    }
  }

  /** Whatever the guest's block holds, parsing it is parsing the clean serialisation of its pairs. */
  lemma ParseNormalises(env: string)
    ensures var pairs := PairsOf(Split(env, NUL));
            && Clean(pairs)
            && Parsed(env, true) == Parsed(Serialize(pairs), true)
            && LastWins(Parsed(env, true).list, pairs) && Named(Parsed(env, true), Parsed(env, true).list)
  {
    var pairs := PairsOf(Split(env, NUL));
    JoinOfSplit(env, NUL);
    PairsClean(Split(env, NUL));
    OnlyPairsCount(Split(env, NUL), true);
    SplitOfSerialize(pairs);
    assert (Items(pairs) + [""])[..|pairs|] == Items(pairs);
    EnvironmentRoundTrip(pairs);
  }

  /** Without `full` the same user and shell are found and no list is kept. */
  lemma {:induction false} BriefAgrees(items: seq<string>)
    ensures var b, f := ParseItems(NOTHING, items, false), ParseItems(NOTHING, items, true);
            b.user == f.user && b.shell == f.shell && b.list == map[]
  {
    if items != [] {
      BriefAgrees(items[..|items| - 1]);
    }
  }
}
