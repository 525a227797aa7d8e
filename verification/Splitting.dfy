/** Python's `str.split` on one character, and its inverse. */
module Splitting {
  function Split(s: string, sep: char): (r: seq<string>)
    ensures |r| > 0
  {
    if s == [] then [""]
    else
      var r := Split(s[1..], sep);
      if s[0] == sep then [""] + r else [[s[0]] + r[0]] + r[1..]
  }

  function Join(items: seq<string>, sep: char): string
    requires |items| > 0
  {
    if |items| == 1 then items[0] else items[0] + [sep] + Join(items[1..], sep)
  }

  predicate Without(items: seq<string>, sep: char) {
    forall i :: 0 <= i < |items| ==> sep !in items[i]
  }

  /** Splitting loses nothing and leaves no separator inside an item. */
  lemma {:induction false} JoinOfSplit(s: string, sep: char)
    ensures Without(Split(s, sep), sep)
    ensures Join(Split(s, sep), sep) == s
  {
    if s != [] {
      JoinOfSplit(s[1..], sep);
      var r := Split(s[1..], sep);
      if s[0] == sep {
        assert ([""] + r)[1..] == r;
        assert Join([""] + r, sep) == [sep] + s[1..];
      } else {
        var t := [[s[0]] + r[0]] + r[1..];
        assert t[1..] == r[1..];
        assert Join(t, sep) == [s[0]] + Join(r, sep);
      }
    }
  }

  lemma {:induction false} SplitPrefixed(x: string, s: string, sep: char)
    requires sep !in x
    ensures Split(x + s, sep) == [x + Split(s, sep)[0]] + Split(s, sep)[1..]
  {
    if x == [] {
      var r := Split(s, sep);
      assert x + s == s && x + r[0] == r[0] && r == [r[0]] + r[1..];
    } else {
      assert (x + s)[1..] == x[1..] + s;
      SplitPrefixed(x[1..], s, sep);
      var r := Split(s, sep);
      assert [x[0]] + (x[1..] + r[0]) == x + r[0];
      assert Split(x[1..] + s, sep)[1..] == r[1..];
    }
  }

  /** The items come back, in order, exactly when none of them contains the separator. */
  lemma {:induction false} SplitOfJoin(items: seq<string>, sep: char)
    requires |items| > 0
    ensures Split(Join(items, sep), sep) == items <==> Without(items, sep)
  {
    JoinOfSplit(Join(items, sep), sep);
    if Without(items, sep) {
      SplitOfCleanJoin(items, sep);
    }
  }

  lemma {:induction false} SplitOfCleanJoin(items: seq<string>, sep: char)
    requires |items| > 0 && Without(items, sep)
    ensures Split(Join(items, sep), sep) == items
  {
    if |items| == 1 {
      SplitPrefixed(items[0], "", sep);
      assert items[0] + "" == items[0];
    } else {
      SplitOfCleanJoin(items[1..], sep);
      var rest := [sep] + Join(items[1..], sep);
      assert rest[1..] == Join(items[1..], sep);
      assert Split(rest, sep) == [""] + items[1..];
      SplitPrefixed(items[0], rest, sep);
      assert Join(items, sep) == items[0] + rest;
      assert Split(rest, sep)[1..] == items[1..] && items[0] + "" == items[0];
    }
  }
}
