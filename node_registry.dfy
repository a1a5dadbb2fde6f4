/**
 * The peer address book of node_registry.py: built-in nodes plus the
 * entries of nodes.json, de-duplicated in first-occurrence order. The file
 * is the `file` field of a NodeRegistry object.
 */
module NodeRegistry {

  import opened Wrappers
  import opened PyOps

  /** A (host, port) pair. */
  type Node = (string, int)

  const DefaultNodes: seq<Node> := [("127.0.0.1", 50007)]

  /**
   * One element of the JSON array in nodes.json, as `for host, port in data`
   * and `int(port)` see it: a pair whose port converts, or anything that
   * raises ValueError or TypeError.
   */
  datatype RawEntry = Pair(host: string, port: int) | Malformed

  /**
   * The nodes the loop appends before an exception ends it: every entry up to
   * the first malformed one (the ones appended before it stay).
   */
  function Parsed(entries: seq<RawEntry>): seq<Node>
  {
    if entries == [] || entries[0].Malformed? then []
    else [(entries[0].host, entries[0].port)] + Parsed(entries[1..])
  }

  /** The defaults followed by what the file yields; a missing or non-JSON file (None) yields nothing. */
  function Candidates(file: Option<seq<RawEntry>>): seq<Node>
  {
    DefaultNodes + (if file.Some? then Parsed(file.value) else [])
  }

  /** What `json.dump(nodes, f)` writes: one pair per node. */
  function Entries(nodes: seq<Node>): seq<RawEntry>
  {
    if nodes == [] then [] else [Pair(nodes[0].0, nodes[0].1)] + Entries(nodes[1..])
  }

  lemma {:induction false} ParsedEntries(nodes: seq<Node>)
    ensures Parsed(Entries(nodes)) == nodes
  {
    if nodes != [] {
      ParsedEntries(nodes[1..]);
    }
  }

  /** The de-duplication loop: keep each element at its first occurrence. */
  function Dedup<T(==)>(s: seq<T>): seq<T>
  {
    if s == [] then []
    else
      var d := Dedup(s[..|s| - 1]);
      if s[|s| - 1] in d then d else d + [s[|s| - 1]]
  }

  lemma {:induction false} DedupElements<T>(s: seq<T>)
    ensures forall x :: x in Dedup(s) <==> x in s
  {
    if s != [] {
      DedupElements(s[..|s| - 1]);
      assert s == s[..|s| - 1] + [s[|s| - 1]];
    }
  }

  /** Everything kept was in the input. */
  lemma {:induction false} DedupMember<T>(s: seq<T>, x: T)
    requires x in Dedup(s)
    ensures x in s
  {
    DedupElements(s);
  }

  lemma {:induction false} DedupNoDup<T>(s: seq<T>)
    ensures NoDup(Dedup(s))
  {
    if s != [] {
      DedupNoDup(s[..|s| - 1]);
    }
  }

  /** Appending an element does not move the first occurrence of an element already present. */
  lemma {:induction false} IndexOfAppend<T>(p: seq<T>, x: T, y: T)
    requires y in p
    ensures IndexOf(p + [x], y) == IndexOf(p, y) < |p|
  {
    if p[0] != y {
      assert (p + [x])[1..] == p[1..] + [x];
      IndexOfAppend(p[1..], x, y);
    }
  }

  /** Appending an element not yet present: its first occurrence is the new last position. */
  lemma {:induction false} IndexOfFresh<T>(p: seq<T>, x: T)
    requires x !in p
    ensures IndexOf(p + [x], x) == |p|
  {
    if p != [] {
      assert (p + [x])[1..] == p[1..] + [x];
      IndexOfFresh(p[1..], x);
    }
  }

  /** The kept elements appear in the order of their first occurrences. */
  lemma {:induction false} DedupFirstOccurrenceOrder<T>(s: seq<T>)
    ensures forall i, j :: 0 <= i < j < |Dedup(s)| ==> IndexOf(s, Dedup(s)[i]) < IndexOf(s, Dedup(s)[j]) < |s|
  {
    if s != [] {
      var p := s[..|s| - 1];
      var x := s[|s| - 1];
      var d := Dedup(p);
      assert s == p + [x];
      DedupFirstOccurrenceOrder(p);
      DedupElements(p);
      forall y | y in d ensures IndexOf(s, y) == IndexOf(p, y) < |p| {
        DedupMember(p, y);
        IndexOfAppend(p, x, y);
      }
      if x !in d {
        IndexOfFresh(p, x);
        var e := d + [x];
        forall i, j | 0 <= i < j < |e| ensures IndexOf(s, e[i]) < IndexOf(s, e[j]) < |s| {
          if j == |d| {
            assert e[i] == d[i];
          } else {
            assert e[i] == d[i] && e[j] == d[j];
          }
        }
      }
    }
  }

  /** A list without duplicates is its own de-duplication. */
  lemma {:induction false} DedupNoDupIdentity<T>(s: seq<T>)
    requires NoDup(s)
    ensures Dedup(s) == s
  {
    if s != [] {
      var p := s[..|s| - 1];
      assert NoDup(p);
      DedupNoDupIdentity(p);
    }
  }

  /** Appending elements already present changes nothing. */
  lemma {:induction false} DedupAbsorb<T>(s: seq<T>, t: seq<T>)
    requires forall x :: x in t ==> x in s
    ensures Dedup(s + t) == Dedup(s)
    decreases |t|
  {
    if t == [] {
      assert s + t == s;
    } else {
      var t' := t[..|t| - 1];
      assert (s + t)[..|s + t| - 1] == s + t';
      DedupAbsorb(s, t');
      DedupElements(s);
    }
  }

  /** Appending distinct new elements appends them. */
  lemma {:induction false} DedupFresh<T>(s: seq<T>, t: seq<T>)
    requires NoDup(t)
    requires forall x :: x in t ==> x !in s
    ensures Dedup(s + t) == Dedup(s) + t
    decreases |t|
  {
    if t == [] {
      assert s + t == s;
    } else {
      var t' := t[..|t| - 1];
      assert (s + t)[..|s + t| - 1] == s + t';
      assert NoDup(t');
      DedupFresh(s, t');
      DedupElements(s);
      assert t[|t| - 1] !in t';
      assert t == t' + [t[|t| - 1]];
    }
  }

  /** De-duplicating `a + b` starts with the de-duplication of `a`; the rest holds nothing of `a`. */
  lemma {:induction false} DedupPrefix<T>(a: seq<T>, b: seq<T>)
    ensures |Dedup(a)| <= |Dedup(a + b)|
    ensures Dedup(a + b)[..|Dedup(a)|] == Dedup(a)
    ensures forall x :: x in Dedup(a + b)[|Dedup(a)|..] ==> x !in a
    decreases |b|
  {
    if b == [] {
      assert a + b == a;
    } else {
      var b' := b[..|b| - 1];
      assert (a + b)[..|a + b| - 1] == a + b';
      DedupPrefix(a, b');
      DedupElements(a + b');
      var d := Dedup(a + b');
      var x := b[|b| - 1];
      if x !in d {
        assert x !in a;
        assert (d + [x])[..|Dedup(a)|] == d[..|Dedup(a)|];
        assert (d + [x])[|Dedup(a)|..] == d[|Dedup(a)|..] + [x];
      }
    }
  }

  lemma NoDupSuffix<T>(s: seq<T>, k: nat)
    requires NoDup(s) && k <= |s|
    ensures NoDup(s[k..])
  {
    forall i, j | 0 <= i < j < |s| - k ensures s[k..][i] != s[k..][j] {
      assert s[k..][i] == s[k + i] && s[k..][j] == s[k + j];
    }
  }

  /** Reloading a saved list puts the defaults in front again, which changes nothing. */
  lemma {:induction false} ReloadIsStable<T>(a: seq<T>, b: seq<T>)
    ensures Dedup(a + Dedup(a + b)) == Dedup(a + b)
  {
    var L := Dedup(a + b);
    var da := Dedup(a);
    forall z | z in da ensures z in a {
      DedupMember(a, z);
    }
    DedupAbsorb(a, da);
    DedupPrefix(a, b);
    var rest := L[|da|..];
    assert L == da + rest;
    DedupNoDup(a + b);
    NoDupSuffix(L, |da|);
    DedupElements(a);
    assert a + L == (a + da) + rest;
    assert forall x :: x in rest ==> x !in a + da;
    DedupFresh(a + da, rest);
  }

  /** Saving the loaded list plus a node it lacks, then loading, yields that list plus the node. */
  lemma SaveAppends(pre: seq<Node>, node: Node)
    requires |pre| >= |DefaultNodes| && pre[..|DefaultNodes|] == DefaultNodes
    requires node !in Dedup(pre)
    ensures Dedup(DefaultNodes + (Dedup(pre) + [node])) == Dedup(pre) + [node]
  {
    ReloadIsStable(DefaultNodes, pre[|DefaultNodes|..]);
    assert DefaultNodes + pre[|DefaultNodes|..] == pre;
    DedupElements(pre);
    assert forall x :: x in DefaultNodes ==> x in pre;
    assert DefaultNodes + (Dedup(pre) + [node]) == (DefaultNodes + Dedup(pre)) + [node];
    assert node !in DefaultNodes + Dedup(pre);
    DedupFresh(DefaultNodes + Dedup(pre), [node]);
  }

  class NodeRegistry {
    /** nodes.json: None when missing or not JSON. */
    var file: Option<seq<RawEntry>>

    constructor (file: Option<seq<RawEntry>>)
      ensures this.file == file
    {
      this.file := file;
    }

    /** The list `load_nodes` returns for the current file. */
    function Known(): seq<Node>
      reads this
    {
      Dedup(Candidates(file))
    }

    /**
     * `load_nodes`: the defaults, then the file's entries, each node once at
     * its first occurrence; a missing or undecodable file gives the defaults.
     */
    method LoadNodes() returns (unique: seq<Node>)
      ensures unique == Known()
      ensures NoDup(unique)
      ensures forall n :: n in unique <==> n in Candidates(file)
      ensures |unique| >= 1 && unique[0] == ("127.0.0.1", 50007)
      ensures file.None? ==> unique == DefaultNodes
    {
      var nodes := DefaultNodes;
      if file.Some? {
        nodes := nodes + Parsed(file.value);
      }
      unique := [];
      var i := 0;
      while i < |nodes|
        invariant 0 <= i <= |nodes|
        invariant unique == Dedup(nodes[..i])
      {
        assert nodes[..i + 1][..i] == nodes[..i];
        if nodes[i] !in unique {
          unique := unique + [nodes[i]];
        }
        i := i + 1;
      }
      assert nodes[..|nodes|] == nodes;
      assert nodes == Candidates(file);
      assert unique == Dedup(nodes);
      DedupNoDup(nodes);
      DedupElements(nodes);
      DedupPrefix(DefaultNodes, nodes[|DefaultNodes|..]);
      assert DefaultNodes + nodes[|DefaultNodes|..] == nodes;
    }

    /** `save_nodes`: overwrite the file with the given list. */
    method SaveNodes(nodes: seq<Node>)
      modifies this
      ensures file == Some(Entries(nodes))
      ensures Known() == Dedup(DefaultNodes + nodes)
    {
      file := Some(Entries(nodes));
      ParsedEntries(nodes);
    }

    /** `add_node`: a known node is a no-op; a new one goes at the end and the list is saved. */
    method AddNode(node: Node)
      modifies this
      ensures node in old(Known()) ==> file == old(file) && Known() == old(Known())
      ensures node !in old(Known()) ==> Known() == old(Known()) + [node]
    {
      var nodes := LoadNodes();
      if node !in nodes {
        nodes := nodes + [node];
        SaveNodes(nodes);
        SaveAppends(old(Candidates(file)), node);
      }
    }
  }

  /** tests/test_node_registry.py: adding the same node twice keeps one copy. */
  method RegistryScenario()
  {
    var registry := new NodeRegistry(None);
    assert Candidates(None) == DefaultNodes;
    DedupNoDupIdentity(DefaultNodes);
    registry.AddNode(("1.2.3.4", 1234));
    registry.AddNode(("1.2.3.4", 1234));
    var nodes := registry.LoadNodes();
    assert nodes == [("127.0.0.1", 50007), ("1.2.3.4", 1234)];
  }
}
