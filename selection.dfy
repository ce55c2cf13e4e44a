/**
  The checkable selection tree and the selection filter.

  The tree has a hidden root and two fixed branches, Structures and
  Isodoses; each leaf node carries one layer.  The checking model holds a
  list of checked paths without duplicates.  Checking is SIMPLE: adding or
  removing one path never changes another.  The filter turns the checked
  paths into the lists of selected layers, and layer membership is decided
  by identity key, never by position.
 */
module Selection {
  import opened RtTypes

  datatype Branch = Structures | Isodoses

  /** The payload of a leaf node (the source's instanceof checks). */
  datatype Payload = StructureItem(s: StructureLayer) | IsoDoseItem(i: IsoDoseLayer)

  /** A leaf node: a node identity (tree nodes compare by identity) and its payload. */
  datatype Node = Node(id: nat, payload: Payload)

  /** A tree path, identified by the node it ends in. */
  datatype Path = RootPath | BranchPath(b: Branch) | LeafPath(node: Node)

  /** The branch a payload kind lives under. */
  function BranchOf(p: Payload): Branch
  {
    if p.StructureItem? then Structures else Isodoses
  }

  // ---------------------------------------------------------------------
  // Identity keys

  /** Same structure key: equal roiNumber and equal roiName. */
  predicate SameStructureKey(a: Structure, b: Structure)
  {
    a.roiNumber == b.roiNumber && a.roiName == b.roiName
  }

  /** Same isodose key: equal level and equal label (isoLabel). */
  predicate SameIsoDoseKey(a: IsoDose, b: IsoDose)
  {
    a.level == b.level && a.isoLabel == b.isoLabel
  }

  /** containsStructure: is some layer of the list keyed like s? */
  function ContainsStructure(list: seq<StructureLayer>, s: Structure): (b: bool)
    ensures b <==> exists k :: 0 <= k < |list| && SameStructureKey(list[k].structure, s)
  {
    if list == [] then false
    else SameStructureKey(list[0].structure, s) || ContainsStructure(list[1..], s)
  }

  /** containsIsoDose: is some layer of the list keyed like i? */
  function ContainsIsoDose(list: seq<IsoDoseLayer>, i: IsoDose): (b: bool)
    ensures b <==> exists k :: 0 <= k < |list| && SameIsoDoseKey(list[k].isoDose, i)
  {
    if list == [] then false
    else SameIsoDoseKey(list[0].isoDose, i) || ContainsIsoDose(list[1..], i)
  }

  /** The structure lookup looks at the key only: two structures with one key are found alike. */
  lemma ContainsStructureByKey(list: seq<StructureLayer>, s: Structure, t: Structure)
    requires SameStructureKey(s, t)
    ensures ContainsStructure(list, s) == ContainsStructure(list, t)
  {
  }

  /** The structure lookup ignores position: concatenation in either order finds the same. */
  lemma {:induction false} ContainsStructureAppend(a: seq<StructureLayer>, b: seq<StructureLayer>, s: Structure)
    ensures ContainsStructure(a + b, s) == (ContainsStructure(a, s) || ContainsStructure(b, s))
    ensures ContainsStructure(a + b, s) == ContainsStructure(b + a, s)
  {
    ContainsStructureAppendOnly(a, b, s);
    ContainsStructureAppendOnly(b, a, s);
  }

  lemma {:induction false} ContainsStructureAppendOnly(a: seq<StructureLayer>, b: seq<StructureLayer>, s: Structure)
    ensures ContainsStructure(a + b, s) == (ContainsStructure(a, s) || ContainsStructure(b, s))
  {
    if a == [] {
      assert a + b == b;
    } else {
      assert (a + b)[1..] == a[1..] + b;
      ContainsStructureAppendOnly(a[1..], b, s);
    }
  }

  /** A duplicated entry changes nothing: membership is by key, not by count. */
  lemma StructureDuplicateHarmless(list: seq<StructureLayer>, k: nat, s: Structure)
    requires k < |list|
    ensures ContainsStructure(list + [list[k]], s) == ContainsStructure(list, s)
  {
    ContainsStructureAppendOnly(list, [list[k]], s);
  }

  /** The isodose lookup looks at the key only. */
  lemma ContainsIsoDoseByKey(list: seq<IsoDoseLayer>, i: IsoDose, j: IsoDose)
    requires SameIsoDoseKey(i, j)
    ensures ContainsIsoDose(list, i) == ContainsIsoDose(list, j)
  {
  }

  /** The isodose lookup ignores position. */
  lemma {:induction false} ContainsIsoDoseAppend(a: seq<IsoDoseLayer>, b: seq<IsoDoseLayer>, i: IsoDose)
    ensures ContainsIsoDose(a + b, i) == (ContainsIsoDose(a, i) || ContainsIsoDose(b, i))
  {
    if a == [] {
      assert a + b == b;
    } else {
      assert (a + b)[1..] == a[1..] + b;
      ContainsIsoDoseAppend(a[1..], b, i);
    }
  }

  /** A duplicated isodose entry changes nothing. */
  lemma IsoDoseDuplicateHarmless(list: seq<IsoDoseLayer>, k: nat, i: IsoDose)
    requires k < |list|
    ensures ContainsIsoDose(list + [list[k]], i) == ContainsIsoDose(list, i)
  {
    ContainsIsoDoseAppend(list, [list[k]], i);
  }

  // ---------------------------------------------------------------------
  // The checking model (SIMPLE mode)

  predicate NoDuplicates<T(==)>(s: seq<T>)
  {
    forall i, j :: 0 <= i < j < |s| ==> s[i] != s[j]
  }

  /** addCheckingPath: appends p unless it is already checked. */
  function AddPath(checked: seq<Path>, p: Path): (r: seq<Path>)
    ensures forall q :: q in r <==> q in checked || q == p
    ensures NoDuplicates(checked) ==> NoDuplicates(r)
  {
    if p in checked then checked else checked + [p]
  }

  /** removeCheckingPath: drops p, keeping the order of the others. */
  function RemovePath(checked: seq<Path>, p: Path): (r: seq<Path>)
    ensures forall q :: q in r <==> q in checked && q != p
    ensures |r| <= |checked|
    ensures p !in checked ==> r == checked
    ensures NoDuplicates(checked) ==> NoDuplicates(r)
  {
    if checked == [] then []
    else if checked[0] == p then RemovePath(checked[1..], p)
    else
      var rest := RemovePath(checked[1..], p);
      assert NoDuplicates(checked) ==> checked[0] !in rest by {
        if NoDuplicates(checked) {
          assert forall k :: 0 <= k < |checked[1..]| ==> checked[1..][k] == checked[k + 1] != checked[0];
        }
      }
      [checked[0]] + rest
  }

  /** The checked paths after unchecking the leaf of each node, in order. */
  function RemoveLeaves(checked: seq<Path>, ns: seq<Node>): seq<Path>
    decreases |ns|
  {
    if ns == [] then checked else RemoveLeaves(RemovePath(checked, LeafPath(ns[0])), ns[1..])
  }

  /** Unchecking leaves none of which is checked changes nothing. */
  lemma {:induction false} RemoveLeavesAbsent(checked: seq<Path>, ns: seq<Node>)
    requires forall k :: 0 <= k < |ns| ==> LeafPath(ns[k]) !in checked
    ensures RemoveLeaves(checked, ns) == checked
    decreases |ns|
  {
    if ns != [] {
      assert LeafPath(ns[0]) !in checked;
      assert forall k :: 0 <= k < |ns[1..]| ==> ns[1..][k] == ns[k + 1];
      RemoveLeavesAbsent(checked, ns[1..]);
    }
  }

  // ---------------------------------------------------------------------
  // The selection filter

  /** The structure layers of the checked leaf paths, in checked order, not de-duplicated. */
  function StructureLeaves(checked: seq<Path>): seq<StructureLayer>
  {
    if checked == [] then []
    else
      var last := checked[|checked| - 1];
      StructureLeaves(checked[..|checked| - 1])
        + (if last.LeafPath? && last.node.payload.StructureItem? then [last.node.payload.s] else [])
  }

  /** The isodose layers of the checked leaf paths, in checked order, not de-duplicated. */
  function IsoDoseLeaves(checked: seq<Path>): seq<IsoDoseLayer>
  {
    if checked == [] then []
    else
      var last := checked[|checked| - 1];
      IsoDoseLeaves(checked[..|checked| - 1])
        + (if last.LeafPath? && last.node.payload.IsoDoseItem? then [last.node.payload.i] else [])
  }

  /** getStructureSelection: empty while the Structures branch is unchecked. */
  function StructureSelection(checked: seq<Path>): (r: seq<StructureLayer>)
    ensures BranchPath(Structures) !in checked ==> r == []
  {
    if BranchPath(Structures) in checked then StructureLeaves(checked) else []
  }

  /** getIsoDoseSelection: empty while the Isodoses branch is unchecked. */
  function IsoDoseSelection(checked: seq<Path>): (r: seq<IsoDoseLayer>)
    ensures BranchPath(Isodoses) !in checked ==> r == []
  {
    if BranchPath(Isodoses) in checked then IsoDoseLeaves(checked) else []
  }

  /** The leaf filter distributes over concatenation: it keeps the checked order. */
  lemma {:induction false} StructureLeavesAppend(a: seq<Path>, b: seq<Path>)
    ensures StructureLeaves(a + b) == StructureLeaves(a) + StructureLeaves(b)
  {
    if b == [] {
      assert a + b == a;
    } else {
      var b' := b[..|b| - 1];
      assert (a + b)[..|a + b| - 1] == a + b';
      assert (a + b)[|a + b| - 1] == b[|b| - 1];
      StructureLeavesAppend(a, b');
    }
  }

  /** The isodose leaf filter distributes over concatenation. */
  lemma {:induction false} IsoDoseLeavesAppend(a: seq<Path>, b: seq<Path>)
    ensures IsoDoseLeaves(a + b) == IsoDoseLeaves(a) + IsoDoseLeaves(b)
  {
    if b == [] {
      assert a + b == a;
    } else {
      var b' := b[..|b| - 1];
      assert (a + b)[..|a + b| - 1] == a + b';
      assert (a + b)[|a + b| - 1] == b[|b| - 1];
      IsoDoseLeavesAppend(a, b');
    }
  }

  /** A layer is selected exactly when the branch and some leaf carrying it are checked. */
  lemma {:induction false} StructureLeavesMembership(checked: seq<Path>, l: StructureLayer)
    ensures l in StructureLeaves(checked) <==>
      exists k :: 0 <= k < |checked| && checked[k].LeafPath? && checked[k].node.payload == StructureItem(l)
  {
    if checked != [] {
      var init := checked[..|checked| - 1];
      StructureLeavesMembership(init, l);
      assert forall k :: 0 <= k < |init| ==> init[k] == checked[k];
    }
  }

  /** An isodose layer is selected exactly when some checked leaf carries it. */
  lemma {:induction false} IsoDoseLeavesMembership(checked: seq<Path>, l: IsoDoseLayer)
    ensures l in IsoDoseLeaves(checked) <==>
      exists k :: 0 <= k < |checked| && checked[k].LeafPath? && checked[k].node.payload == IsoDoseItem(l)
  {
    if checked != [] {
      var init := checked[..|checked| - 1];
      IsoDoseLeavesMembership(init, l);
      assert forall k :: 0 <= k < |init| ==> init[k] == checked[k];
    }
  }

  /** No de-duplication: two checked leaves carrying one layer give it twice. */
  lemma TwoLeavesTwoEntries(n1: Node, n2: Node, l: StructureLayer)
    requires n1.payload == StructureItem(l) && n2.payload == StructureItem(l)
    ensures StructureSelection([BranchPath(Structures), LeafPath(n1), LeafPath(n2)]) == [l, l]
  {
    var c := [BranchPath(Structures), LeafPath(n1), LeafPath(n2)];
    var c1 := [BranchPath(Structures)];
    var c2 := [BranchPath(Structures), LeafPath(n1)];
    assert c1[..0] == [];
    assert StructureLeaves(c1) == [];
    assert c2[..1] == c1;
    assert StructureLeaves(c2) == [l];
    assert c[..2] == c2;
    assert StructureLeaves(c) == [l, l];
    assert c[0] == BranchPath(Structures);
  }

  /** A checked branch with no checked leaf selects nothing. */
  lemma {:induction false} BranchAloneSelectsNothing(checked: seq<Path>)
    requires forall k :: 0 <= k < |checked| ==> !checked[k].LeafPath?
    ensures StructureSelection(checked) == [] && IsoDoseSelection(checked) == []
  {
    NoLeavesNoLayers(checked);
  }

  lemma {:induction false} NoLeavesNoLayers(checked: seq<Path>)
    requires forall k :: 0 <= k < |checked| ==> !checked[k].LeafPath?
    ensures StructureLeaves(checked) == [] && IsoDoseLeaves(checked) == []
  {
    if checked != [] {
      NoLeavesNoLayers(checked[..|checked| - 1]);
    }
  }

  /** Branch independence: checking or unchecking a path outside the Structures branch
      leaves the structure selection as it was. */
  lemma {:induction false} StructureSelectionIgnoresOtherPaths(checked: seq<Path>, p: Path)
    requires p != BranchPath(Structures)
    requires !(p.LeafPath? && p.node.payload.StructureItem?)
    ensures StructureSelection(AddPath(checked, p)) == StructureSelection(checked)
    ensures StructureSelection(RemovePath(checked, p)) == StructureSelection(checked)
  {
    StructureLeavesAppend(checked, [p]);
    assert [p][..0] == [];
    StructureLeavesRemove(checked, p);
  }

  lemma {:induction false} StructureLeavesRemove(checked: seq<Path>, p: Path)
    requires !(p.LeafPath? && p.node.payload.StructureItem?)
    ensures StructureLeaves(RemovePath(checked, p)) == StructureLeaves(checked)
  {
    if checked != [] {
      StructureLeavesRemove(checked[1..], p);
      assert checked == [checked[0]] + checked[1..];
      StructureLeavesAppend([checked[0]], checked[1..]);
      assert [checked[0]][..0] == [];
      if checked[0] != p {
        StructureLeavesAppend([checked[0]], RemovePath(checked[1..], p));
      }
    }
  }

  /** Branch independence: a path outside the Isodoses branch leaves the isodose selection as it was. */
  lemma {:induction false} IsoDoseSelectionIgnoresOtherPaths(checked: seq<Path>, p: Path)
    requires p != BranchPath(Isodoses)
    requires !(p.LeafPath? && p.node.payload.IsoDoseItem?)
    ensures IsoDoseSelection(AddPath(checked, p)) == IsoDoseSelection(checked)
    ensures IsoDoseSelection(RemovePath(checked, p)) == IsoDoseSelection(checked)
  {
    IsoDoseLeavesAppend(checked, [p]);
    assert [p][..0] == [];
    IsoDoseLeavesRemove(checked, p);
  }

  lemma {:induction false} IsoDoseLeavesRemove(checked: seq<Path>, p: Path)
    requires !(p.LeafPath? && p.node.payload.IsoDoseItem?)
    ensures IsoDoseLeaves(RemovePath(checked, p)) == IsoDoseLeaves(checked)
  {
    if checked != [] {
      IsoDoseLeavesRemove(checked[1..], p);
      assert checked == [checked[0]] + checked[1..];
      IsoDoseLeavesAppend([checked[0]], checked[1..]);
      assert [checked[0]][..0] == [];
      if checked[0] != p {
        IsoDoseLeavesAppend([checked[0]], RemovePath(checked[1..], p));
      }
    }
  }
}
