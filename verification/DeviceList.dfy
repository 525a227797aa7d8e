/** The walk of `actuators/13.c` over the kernel's circular list of network devices. */
module DeviceList {
  import opened GuestMemory

  /**
    What the guest answers: pointers at the addresses where reading one
    succeeds, and the addresses at which at least one byte of a hardware
    address can be read.
   */
  datatype Reads = Reads(words: map<Addr, Addr>, readable: set<Addr>)

  /** C ints, so possibly negative; address arithmetic wraps at 64 bits. */
  datatype Offsets = Offsets(net: int, dev: int, devAddr: int, devList: int)

  function Base(o: Offsets, node: Addr): Addr {
    Wrap(node - o.devList)
  }

  /** Whether any of the device's hardware address can be read; an unreadable pointer to it leaves the variable 0. */
  predicate HardwareReadAt(m: Reads, o: Offsets, base: Addr) {
    var p := Wrap(base + o.devAddr);
    (if p in m.words then m.words[p] else 0) in m.readable
  }

  predicate HardwareRead(m: Reads, o: Offsets, node: Addr) {
    HardwareReadAt(m, o, Base(o, node))
  }

  /** The loop's test for having come back to the list head. */
  predicate AtHead(initNet: Addr, o: Offsets, next: Addr) {
    Wrap(initNet + o.net) == Wrap(next + o.net - o.dev)
  }

  /** The address of `dev_base_head` in `init_net`. */
  function Head(initNet: Addr, o: Offsets): Addr {
    Wrap(initNet + o.dev)
  }

  /** The test, written with two other offsets, is exactly equality with the list head. */
  lemma AtHeadIsHead(initNet: Addr, o: Offsets, next: Addr)
    ensures AtHead(initNet, o, next) <==> next == Head(initNet, o)
  {
  }

  /** Within `n` iterations the walk comes back to the head or a read fails. */
  predicate Halts(m: Reads, initNet: Addr, o: Offsets, node: Addr, n: nat)
    decreases n
  {
    || !HardwareRead(m, o, node) || node !in m.words || AtHead(initNet, o, m.words[node])
    || (n > 0 && Halts(m, initNet, o, m.words[node], n - 1))
  }

  /** The device bases reported from `node` on. */
  function Reported(m: Reads, initNet: Addr, o: Offsets, node: Addr, n: nat): seq<Addr>
    requires Halts(m, initNet, o, node, n)
    decreases n
  {
    if !HardwareRead(m, o, node) then []
    else if node !in m.words || AtHead(initNet, o, m.words[node]) then [Base(o, node)]
    else [Base(o, node)] + Reported(m, initNet, o, m.words[node], n - 1)
  }

  /** One iteration that reports its device, with those reported before it. */
  lemma OneReported(m: Reads, initNet: Addr, o: Offsets, node: Addr, n: nat, before: seq<Addr>)
    requires Halts(m, initNet, o, node, n) && HardwareRead(m, o, node)
    ensures var found := before + [Base(o, node)];
            if node !in m.words || AtHead(initNet, o, m.words[node]) then
              before + Reported(m, initNet, o, node, n) == found
            else
              && n > 0 && Halts(m, initNet, o, m.words[node], n - 1)
              && before + Reported(m, initNet, o, node, n) == found + Reported(m, initNet, o, m.words[node], n - 1)
  {
  }

  /** `next_devptr` before the loop; a failed read is reported and leaves it 0. */
  function First(m: Reads, initNet: Addr, o: Offsets): Addr {
    var at := Wrap(Wrap(Wrap(initNet + o.net) - o.net) + o.dev);
    if at in m.words then m.words[at] else 0
  }

  /** The walk; `found` are the devices whose interface information it prints. */
  method Walk(m: Reads, initNet: Addr, o: Offsets, ghost n: nat) returns (found: seq<Addr>)
    requires Halts(m, initNet, o, First(m, initNet, o), n)
    ensures found == Reported(m, initNet, o, First(m, initNet, o), n)
  {
    var netListHead := Wrap(initNet + o.net);
    var currentNet := Wrap(netListHead - o.net);
    var next: Addr := 0;
    if Wrap(currentNet + o.dev) in m.words {
      next := m.words[Wrap(currentNet + o.dev)];
    }
    found := [];
    ghost var left, first := n, next;
    while true
      invariant Halts(m, initNet, o, next, left)
      invariant found + Reported(m, initNet, o, next, left) == Reported(m, initNet, o, first, n)
      decreases left
    {
      var current := Wrap(next - o.devList);
      if !HardwareReadAt(m, o, current) {
        break;
      }
      OneReported(m, initNet, o, next, left, found);
      found := found + [current];
      if next !in m.words {
        break;
      }
      next := m.words[next];
      if netListHead == Wrap(next + o.net - o.dev) {
        break;
      }
      left := left - 1;
    }
  }

  // ----------------------------------------------------------- well-formed lists

  /**
    A list from its head through `nodes`, none of them at the head's address:
    `closed` comes back to the head, and else the last pointer cannot be read.
   */
  ghost predicate Linked(m: Reads, head: Addr, nodes: seq<Addr>, closed: bool) {
    && head in m.words && m.words[head] == (if nodes == [] then head else nodes[0])
    && (nodes == [] ==> closed)
    && (forall i :: 0 <= i < |nodes| ==> nodes[i] != head)
    && (forall i :: 0 <= i < |nodes| - 1 ==> nodes[i] in m.words && m.words[nodes[i]] == nodes[i + 1])
    && (nodes != [] ==>
          var last := nodes[|nodes| - 1];
          if closed then last in m.words && m.words[last] == head else last !in m.words)
  }

  /** No node occurs twice: the list would never end. */
  lemma {:induction false} NodesDistinct(m: Reads, head: Addr, nodes: seq<Addr>, closed: bool, i: nat, j: nat)
    requires Linked(m, head, nodes, closed) && i < j < |nodes|
    ensures nodes[i] != nodes[j]
    decreases |nodes| - j
  {
    if j < |nodes| - 1 {
      NodesDistinct(m, head, nodes, closed, i + 1, j + 1);
    }
    assert nodes[i] in m.words && m.words[nodes[i]] == nodes[i + 1];
  }

  /** The devices at `bases` embed the nodes `devList` bytes from their start. */
  predicate Embeds(o: Offsets, bases: seq<Addr>, nodes: seq<Addr>) {
    |bases| == |nodes| && forall k :: 0 <= k < |nodes| ==> (bases[k] + o.devList) % 0x1_0000_0000_0000_0000 == nodes[k]
  }

  lemma EmbeddedAt(o: Offsets, base: Addr, node: Addr)
    requires (base + o.devList) % 0x1_0000_0000_0000_0000 == node
    ensures Base(o, node) == base
  {
  }

  /**
    The hardware address of the device at `base` can be read: it is where the
    pointer `devAddr` bytes from the device's start points, or at 0 if that
    pointer cannot be read.
   */
  predicate HasAddress(m: Reads, o: Offsets, base: Addr) {
    var at := (base + o.devAddr) % 0x1_0000_0000_0000_0000;
    || (at in m.words && m.words[at] in m.readable)
    || (at !in m.words && 0 in m.readable)
  }

  /** The first `j` devices have a readable hardware address, and the one after them, if any, has not. */
  predicate ReadableUpTo(m: Reads, o: Offsets, bases: seq<Addr>, j: nat) {
    && j <= |bases| && (forall k :: 0 <= k < j ==> HasAddress(m, o, bases[k]))
    && (j < |bases| ==> !HasAddress(m, o, bases[j]))
  }

  lemma {:induction false} ListReported(
      m: Reads, initNet: Addr, o: Offsets, nodes: seq<Addr>, closed: bool, bases: seq<Addr>, j: nat, i: nat)
    requires Linked(m, Head(initNet, o), nodes, closed) && Embeds(o, bases, nodes) && ReadableUpTo(m, o, bases, j)
    requires i < |nodes| && i <= j
    ensures Halts(m, initNet, o, nodes[i], |nodes| - 1 - i)
    ensures Reported(m, initNet, o, nodes[i], |nodes| - 1 - i) == bases[i..j]
    decreases |nodes| - i
  {
    EmbeddedAt(o, bases[i], nodes[i]);
    if nodes[i] in m.words {
      AtHeadIsHead(initNet, o, m.words[nodes[i]]);
    }
    if i < j {
      assert bases[i..j] == [bases[i]] + bases[i + 1..j];
      if i < |nodes| - 1 {
        assert nodes[i] in m.words && m.words[nodes[i]] == nodes[i + 1];
        ListReported(m, initNet, o, nodes, closed, bases, j, i + 1);
      }
    }
  }

  /** Adding and taking away `net` cancels out: the walk starts from the pointer in the list head. */
  lemma FirstFromHead(m: Reads, initNet: Addr, o: Offsets)
    ensures var head := (initNet + o.dev) % 0x1_0000_0000_0000_0000;
            First(m, initNet, o) == if head in m.words then m.words[head] else 0
  {
  }

  lemma BasesDistinct(m: Reads, head: Addr, o: Offsets, nodes: seq<Addr>, closed: bool, bases: seq<Addr>)
    requires Linked(m, head, nodes, closed) && Embeds(o, bases, nodes)
    ensures forall i, k :: 0 <= i < k < |bases| ==> bases[i] != bases[k]
  {
    forall i, k | 0 <= i < k < |bases| ensures bases[i] != bases[k] {
      NodesDistinct(m, head, nodes, closed, i, k);
    }
  }

  /**
    On every non-empty list at `init_net` plus `dev`, for any offsets, the walk
    ends having reported the devices that embed its nodes, each once, in list
    order, up to the first whose hardware address cannot be read. A list that
    does not come back to its head is reported up to its last node.
   */
  lemma WalkVisitsList(
      m: Reads, initNet: Addr, o: Offsets, nodes: seq<Addr>, closed: bool, bases: seq<Addr>, j: nat)
    requires Linked(m, (initNet + o.dev) % 0x1_0000_0000_0000_0000, nodes, closed) && nodes != []
    requires Embeds(o, bases, nodes) && ReadableUpTo(m, o, bases, j)
    ensures Halts(m, initNet, o, First(m, initNet, o), |nodes| - 1)
    ensures Reported(m, initNet, o, First(m, initNet, o), |nodes| - 1) == bases[..j]
    ensures forall i, k :: 0 <= i < k < |bases| ==> bases[i] != bases[k]
  {
    FirstFromHead(m, initNet, o);
    ListReported(m, initNet, o, nodes, closed, bases, j, 0);
    assert bases[0..j] == bases[..j];
    BasesDistinct(m, Head(initNet, o), o, nodes, closed, bases);
  }

  /** Every list has devices that embed its nodes. */
  lemma BasesExist(o: Offsets, nodes: seq<Addr>) returns (bases: seq<Addr>)
    ensures Embeds(o, bases, nodes)
  {
    bases := seq(|nodes|, i requires 0 <= i < |nodes| => Base(o, nodes[i]));
  }

  /**
    The do-while visits an empty list's head as if it were a device, and reports
    it unless its hardware address cannot be read.
   */
  lemma EmptyRingReportsHead(m: Reads, initNet: Addr, o: Offsets, base: Addr)
    requires Linked(m, (initNet + o.dev) % 0x1_0000_0000_0000_0000, [], true)
    requires Embeds(o, [base], [(initNet + o.dev) % 0x1_0000_0000_0000_0000])
    ensures Halts(m, initNet, o, First(m, initNet, o), 0)
    ensures Reported(m, initNet, o, First(m, initNet, o), 0) == if HasAddress(m, o, base) then [base] else []
  {
    FirstFromHead(m, initNet, o);
    assert ([base][0] + o.devList) % 0x1_0000_0000_0000_0000 == [Head(initNet, o)][0];
    EmbeddedAt(o, base, Head(initNet, o));
    AtHeadIsHead(initNet, o, Head(initNet, o));
    assert AtHead(initNet, o, m.words[Head(initNet, o)]);
  }
}
