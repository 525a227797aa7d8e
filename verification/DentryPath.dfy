/** The path builder of `actuators/6.py`: from a VMA to the path of its file. */
module DentryPath {
  import opened Options
  import opened Splitting

  /** Guest memory as the reader sees it: pointers and strings at the addresses where reading succeeds. */
  datatype Reads = Reads(words: map<int, int>, strings: map<int, string>)

  /** The offsets of `cfg`, each the sum the code adds. */
  datatype Offsets = Offsets(vmFile: int, fileDentry: int, dentryName: int, dentryParent: int)

  const ROOT := "/"

  /** The name of a dentry; None is the exception of a failed read. */
  function NameOf(m: Reads, o: Offsets, d: int): Option<string> {
    if d + o.dentryName in m.words && m.words[d + o.dentryName] in m.strings
    then Some(m.strings[m.words[d + o.dentryName]]) else None
  }

  function ParentOf(m: Reads, o: Offsets, d: int): Option<int> {
    if d + o.dentryParent in m.words then Some(m.words[d + o.dentryParent]) else None
  }

  /** Within `n` parents of `d` there is a root or a read that fails. */
  predicate Ends(m: Reads, o: Offsets, d: int, n: nat)
    decreases n
  {
    || NameOf(m, o, d) == None || NameOf(m, o, d) == Some(ROOT) || ParentOf(m, o, d) == None
    || (n > 0 && Ends(m, o, ParentOf(m, o, d).value, n - 1))
  }

  /** The names met from `d` up to the root, the root's left out; None if a read fails on the way. */
  function NamesUp(m: Reads, o: Offsets, d: int, n: nat): Option<seq<string>>
    requires Ends(m, o, d, n)
    decreases n
  {
    var name := NameOf(m, o, d);
    if name == None then None
    else if name == Some(ROOT) then Some([])
    else match ParentOf(m, o, d)
         case None => None
         case Some(p) =>
           match NamesUp(m, o, p, n - 1)
           case None => None
           case Some(rest) => Some([name.value] + rest)
  }

  function Reverse(s: seq<string>): (r: seq<string>)
    ensures |r| == |s| && forall i :: 0 <= i < |s| ==> r[i] == s[|s| - 1 - i]
  {
    if s == [] then [] else Reverse(s[1..]) + [s[0]]
  }

  /** The absolute path with these components, the root-side one first. */
  function PathOf(components: seq<string>): string {
    if components == [] then "" else PathOf(components[..|components| - 1]) + "/" + components[|components| - 1]
  }

  /** The path of the names found from `d` on, given the names already walked past. */
  function PathUp(m: Reads, o: Offsets, d: int, n: nat, walked: seq<string>): Option<string>
    requires Ends(m, o, d, n)
  {
    match NamesUp(m, o, d, n)
    case None => None
    case Some(rest) => Some(PathOf(Reverse(walked + rest)))
  }

  /** `path_str` from `path`: the names in reverse, each behind a slash. */
  method Assemble(path: seq<string>) returns (s: string)
    ensures s == PathOf(Reverse(path))
  {
    s := "";
    var names := Reverse(path);
    for i := 0 to |names|
      invariant s == PathOf(names[..i])
    {
      assert names[..i + 1][..i] == names[..i];
      s := s + "/" + names[i];
    }
    assert names[..|names|] == names;
  }

  /**
    `get_vma_file`. None stands for the exception of a failed read. The dentry
    chain must end; `n` bounds its length and is not used by the code.
   */
  method GetVmaFile(m: Reads, o: Offsets, vma: int, ghost n: nat) returns (r: Option<string>)
    requires vma + o.vmFile in m.words && m.words[vma + o.vmFile] != 0
             && m.words[vma + o.vmFile] + o.fileDentry in m.words ==>
               Ends(m, o, m.words[m.words[vma + o.vmFile] + o.fileDentry], n)
    ensures r == if vma + o.vmFile !in m.words then None
                 else if m.words[vma + o.vmFile] == 0 then Some("")
                 else if m.words[vma + o.vmFile] + o.fileDentry !in m.words then None
                 else PathUp(m, o, m.words[m.words[vma + o.vmFile] + o.fileDentry], n, [])
  {
    if vma + o.vmFile !in m.words {
      return None;
    }
    var fileP := m.words[vma + o.vmFile];
    if fileP == 0 {
      return Some("");
    }
    if fileP + o.fileDentry !in m.words {
      return None;
    }
    var dentry := m.words[fileP + o.fileDentry];
    ghost var first, left := dentry, n;
    var path: seq<string> := [];
    while true
      invariant Ends(m, o, dentry, left)
      invariant PathUp(m, o, dentry, left, path) == PathUp(m, o, first, n, [])
      decreases left
    {
      var name := NameOf(m, o, dentry);
      if name == None {
        return None;
      }
      if name.value == ROOT {
        assert path + [] == path;
        var s := Assemble(path);
        return Some(s);
      }
      var parent := ParentOf(m, o, dentry);
      if parent == None {
        return None;
      }
      ghost var rest := NamesUp(m, o, parent.value, left - 1);
      assert rest.Some? ==> path + ([name.value] + rest.value) == path + [name.value] + rest.value;
      path := path + [name.value];
      dentry := parent.value;
      left := left - 1;
    }
  }

  // ------------------------------------------------------------------ round trip

  /** The pointer `dentryName` bytes into the dentry leads to this string. */
  predicate IsNamed(m: Reads, o: Offsets, d: int, name: string) {
    var at := d + o.dentryName;
    at in m.words && m.words[at] in m.strings && m.strings[m.words[at]] == name
  }

  /**
    A dentry chain: its names from the leaf up, each dentry's parent
    `dentryParent` bytes into it, below a dentry named '/'.
   */
  predicate Chain(m: Reads, o: Offsets, d: int, names: seq<string>)
    decreases |names|
  {
    if names == [] then IsNamed(m, o, d, "/")
    else
      && IsNamed(m, o, d, names[0]) && names[0] != "/"
      && d + o.dentryParent in m.words && Chain(m, o, m.words[d + o.dentryParent], names[1..])
  }

  /** A chain of any length ends, and the walk finds exactly its names. */
  lemma {:induction false} ChainWalked(m: Reads, o: Offsets, d: int, names: seq<string>)
    requires Chain(m, o, d, names)
    ensures Ends(m, o, d, |names|) && NamesUp(m, o, d, |names|) == Some(names)
    decreases |names|
  {
    if names != [] {
      ChainWalked(m, o, m.words[d + o.dentryParent], names[1..]);
      assert [names[0]] + names[1..] == names;
    }
  }

  /** A walk past `names` to a dentry whose name, or whose parent, cannot be read. */
  predicate Broken(m: Reads, o: Offsets, d: int, names: seq<string>)
    decreases |names|
  {
    if names == [] then
      var at := d + o.dentryName;
      || at !in m.words || m.words[at] !in m.strings
      || (m.strings[m.words[at]] != "/" && d + o.dentryParent !in m.words)
    else
      && IsNamed(m, o, d, names[0]) && names[0] != "/"
      && d + o.dentryParent in m.words && Broken(m, o, m.words[d + o.dentryParent], names[1..])
  }

  /** A failed read anywhere on the way is an exception: no part of the path is returned. */
  lemma {:induction false} BrokenChainRaises(m: Reads, o: Offsets, d: int, names: seq<string>)
    requires Broken(m, o, d, names)
    ensures Ends(m, o, d, |names|) && PathUp(m, o, d, |names|, []) == None
    decreases |names|
  {
    if names != [] {
      BrokenChainRaises(m, o, m.words[d + o.dentryParent], names[1..]);
    }
  }

  lemma {:induction false} JoinLast(items: seq<string>, x: string)
    requires |items| > 0
    ensures Join(items + [x], '/') == Join(items, '/') + "/" + x
  {
    if |items| == 1 {
      assert (items + [x])[1..] == [x];
    } else {
      assert (items + [x])[1..] == items[1..] + [x];
      JoinLast(items[1..], x);
    }
  }

  lemma {:induction false} PathIsJoin(components: seq<string>)
    ensures PathOf(components) == Join([""] + components, '/')
  {
    if components != [] {
      var front, x := components[..|components| - 1], components[|components| - 1];
      PathIsJoin(front);
      JoinLast([""] + front, x);
      assert [""] + front + [x] == [""] + components;
    }
  }

  lemma ReverseWithout(names: seq<string>)
    ensures Without([""] + Reverse(names), '/') <==> Without(names, '/')
  {
    var parts := [""] + Reverse(names);
    forall i | 0 <= i < |names| ensures names[i] == parts[|names| - i] {
    }
  }

  lemma SplitOfPath(names: seq<string>)
    ensures Split(PathOf(Reverse(names)), '/') == [""] + Reverse(names) <==> Without(names, '/')
  {
    PathIsJoin(Reverse(names));
    SplitOfJoin([""] + Reverse(names), '/');
    ReverseWithout(names);
  }

  /**
    For every dentry chain the walk ends, and splitting its path on '/' and
    dropping the empty part before the first slash gives back the chain's names
    from the root down, exactly when no name contains a '/'.
   */
  lemma PathRoundTrip(m: Reads, o: Offsets, d: int, names: seq<string>)
    requires Chain(m, o, d, names)
    ensures Ends(m, o, d, |names|)
    ensures var p := PathUp(m, o, d, |names|, []);
            && p.Some?
            && (Split(p.value, '/') == [""] + Reverse(names) <==> Without(names, '/'))
            && (Without(names, '/') ==> Split(p.value, '/')[1..] == Reverse(names))
  {
    ChainWalked(m, o, d, names);
    assert [] + names == names;
    SplitOfPath(names);
  }
}
