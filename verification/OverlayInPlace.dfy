/** mergeNode on yaml.v3 nodes (internal/config/load.go): the recursive merge
    that overwrites and extends the base tree in place. */
module OverlayInPlace {
  import opened Overlay

  datatype Kind = ScalarKind | SequenceKind | MappingKind

  /** yaml.Node. The content of a mapping alternates keys and values. */
  class Node {
    var kind: Kind
    var tag: string
    var text: string
    var content: seq<Node>

    constructor (kind: Kind, tag: string, text: string, content: seq<Node>)
      ensures this.kind == kind && this.tag == tag && this.text == text && this.content == content
    {
      this.kind, this.tag, this.text, this.content := kind, tag, text, content;
    }
  }

  /** A tree together with the nodes that hold it. */
  datatype Layout =
    | ScalarAt(node: Node, tag: string, text: string)
    | SequenceAt(node: Node, tag: string, items: seq<Layout>)
    | MappingAt(node: Node, tag: string, entries: seq<Pair>)

  datatype Pair = Pair(key: Layout, value: Layout)

  ghost function TreeOf(l: Layout): Tree {
    match l
    case ScalarAt(_, tag, text) => Scalar(tag, text)
    case SequenceAt(_, tag, items) => Sequence(tag, seq(|items|, i requires 0 <= i < |items| => TreeOf(items[i])))
    case MappingAt(_, tag, entries) => Mapping(tag, TreesOf(entries))
  }

  ghost function TreesOf(entries: seq<Pair>): (r: seq<Entry>)
    ensures |r| == |entries|
  {
    seq(|entries|, i requires 0 <= i < |entries| => EntryOf(entries[i]))
  }

  ghost function EntryOf(p: Pair): Entry {
    Entry(TreeOf(p.key), TreeOf(p.value))
  }

  /** The nodes of a layout. */
  ghost function Nodes(l: Layout): set<Node> {
    match l
    case ScalarAt(n, _, _) => {n}
    case SequenceAt(n, _, items) => {n} + set i, m | 0 <= i < |items| && m in Nodes(items[i]) :: m
    case MappingAt(n, _, entries) => {n} + NodesOfAll(entries)
  }

  ghost function NodesOfAll(entries: seq<Pair>): set<Node> {
    set i, m | 0 <= i < |entries| && m in NodesOf(entries[i]) :: m
  }

  ghost function NodesOf(p: Pair): set<Node> {
    Nodes(p.key) + Nodes(p.value)
  }

  lemma PairNodes(entries: seq<Pair>, i: nat)
    requires i < |entries|
    ensures NodesOf(entries[i]) <= NodesOfAll(entries)
  {
  }

  /** The heap holds the layout. */
  ghost predicate Holds(l: Layout)
    reads Nodes(l)
    decreases l
  {
    match l
    case ScalarAt(n, tag, text) => n.kind == ScalarKind && n.tag == tag && n.text == text
    case SequenceAt(n, tag, items) =>
      && n.kind == SequenceKind && n.tag == tag && n.text == "" && |n.content| == |items|
      && forall i :: 0 <= i < |items| ==> n.content[i] == items[i].node && Holds(items[i])
    case MappingAt(n, tag, entries) =>
      && n.kind == MappingKind && n.tag == tag && n.text == ""
      && Lists(n.content, entries)
      && (forall i :: 0 <= i < |entries| ==> (PairNodes(entries, i); HoldsPair(entries[i])))
  }

  ghost predicate HoldsPair(p: Pair)
    reads NodesOf(p)
    decreases p
  {
    Holds(p.key) && Holds(p.value)
  }

  /** The content of a mapping: its keys and values in turn. */
  ghost predicate Lists(content: seq<Node>, entries: seq<Pair>) {
    && |content| == 2 * |entries|
    && forall i :: 0 <= i < |entries| ==>
         content[2 * i] == entries[i].key.node && content[2 * i + 1] == entries[i].value.node
  }

  /** No node occurs twice. */
  ghost predicate Separate(l: Layout)
    decreases l
  {
    match l
    case ScalarAt(_, _, _) => true
    case SequenceAt(n, _, items) =>
      && (forall i :: 0 <= i < |items| ==> Separate(items[i]) && n !in Nodes(items[i]))
      && (forall i, j :: 0 <= i < j < |items| ==> Nodes(items[i]) !! Nodes(items[j]))
    case MappingAt(n, _, entries) => SeparateAll(entries) && n !in NodesOfAll(entries)
  }

  ghost predicate SeparateAll(entries: seq<Pair>)
    decreases entries
  {
    && (forall i :: 0 <= i < |entries| ==> SeparatePair(entries[i]))
    && (forall i, j :: 0 <= i < j < |entries| ==> NodesOf(entries[i]) !! NodesOf(entries[j]))
  }

  ghost predicate SeparatePair(p: Pair)
    decreases p
  {
    Separate(p.key) && Separate(p.value) && Nodes(p.key) !! Nodes(p.value)
  }

  /** The base layout after the merge: its root stays, replaced data and appended
      entries are shared with the overlay. */
  ghost function Merged(base: Layout, overlay: Layout): Layout
    decreases overlay
  {
    match overlay
    case ScalarAt(_, tag, text) => ScalarAt(base.node, tag, text)
    case SequenceAt(_, tag, items) => SequenceAt(base.node, tag, items)
    case MappingAt(_, tag, entries) =>
      if base.MappingAt? then base.(entries := MergedAll(base.entries, entries)) else MappingAt(base.node, tag, entries)
  }

  ghost function MergedAll(base: seq<Pair>, overlay: seq<Pair>): seq<Pair>
    decreases overlay
  {
    if overlay == [] then base else
    var n := |overlay| - 1;
    MergedOne(MergedAll(base, overlay[..n]), overlay[n])
  }

  ghost function MergedOne(base: seq<Pair>, p: Pair): seq<Pair>
    decreases p
  {
    var k := IndexOf(TreesOf(base), IdentOf(TreeOf(p.key)));
    if k < |base| then base[k := Pair(base[k].key, Merged(base[k].value, p.value))] else base + [p]
  }

  // ----- merged layouts hold merged trees

  lemma {:induction false} MergeEntriesSnoc(base: seq<Entry>, overlay: seq<Entry>, e: Entry)
    ensures MergeEntries(base, overlay + [e]) == MergeOne(MergeEntries(base, overlay), e)
    decreases |overlay|
  {
    if overlay == [] {
      assert [] + [e] == [e] && [e][1..] == [];
    } else {
      assert (overlay + [e])[1..] == overlay[1..] + [e];
      MergeEntriesSnoc(MergeOne(base, overlay[0]), overlay[1..], e);
    }
  }

  lemma {:induction false} MergedHoldsMerge(base: Layout, overlay: Layout)
    ensures TreeOf(Merged(base, overlay)) == Merge(TreeOf(base), TreeOf(overlay))
    decreases overlay
  {
    if base.MappingAt? && overlay.MappingAt? {
      MergedAllHoldsMerge(base.entries, overlay.entries);
    }
  }

  lemma {:induction false} MergedAllHoldsMerge(base: seq<Pair>, overlay: seq<Pair>)
    ensures TreesOf(MergedAll(base, overlay)) == MergeEntries(TreesOf(base), TreesOf(overlay))
    decreases overlay
  {
    if overlay != [] {
      var n := |overlay| - 1;
      MergedAllHoldsMerge(base, overlay[..n]);
      MergedOneHoldsMerge(MergedAll(base, overlay[..n]), overlay[n]);
      assert TreesOf(overlay) == TreesOf(overlay[..n]) + [EntryOf(overlay[n])];
      MergeEntriesSnoc(TreesOf(base), TreesOf(overlay[..n]), EntryOf(overlay[n]));
    }
  }

  lemma {:induction false} MergedOneHoldsMerge(base: seq<Pair>, p: Pair)
    ensures TreesOf(MergedOne(base, p)) == MergeOne(TreesOf(base), EntryOf(p))
    decreases p
  {
    var k := IndexOf(TreesOf(base), IdentOf(TreeOf(p.key)));
    if k < |base| {
      MergedHoldsMerge(base[k].value, p.value);
    }
  }

  // ----- merged layouts stay separate, and use only nodes of the two trees

  lemma {:induction false} MergedNodes(base: Layout, overlay: Layout)
    ensures Merged(base, overlay).node == base.node
    ensures Nodes(Merged(base, overlay)) <= Nodes(base) + Nodes(overlay)
    decreases overlay
  {
    if base.MappingAt? && overlay.MappingAt? {
      MergedAllNodes(base.entries, overlay.entries);
    }
  }

  lemma {:induction false} MergedAllNodes(base: seq<Pair>, overlay: seq<Pair>)
    ensures NodesOfAll(MergedAll(base, overlay)) <= NodesOfAll(base) + NodesOfAll(overlay)
    decreases overlay
  {
    if overlay != [] {
      var n := |overlay| - 1;
      MergedAllNodes(base, overlay[..n]);
      MergedOneNodes(MergedAll(base, overlay[..n]), overlay[n]);
      assert NodesOfAll(overlay[..n]) <= NodesOfAll(overlay);
      PairNodes(overlay, n);
    }
  }

  lemma {:induction false} MergedOneNodes(base: seq<Pair>, p: Pair)
    ensures NodesOfAll(MergedOne(base, p)) <= NodesOfAll(base) + NodesOf(p)
    decreases p
  {
    var k, r := IndexOf(TreesOf(base), IdentOf(TreeOf(p.key))), MergedOne(base, p);
    forall i, m | 0 <= i < |r| && m in NodesOf(r[i]) ensures m in NodesOfAll(base) + NodesOf(p) {
      if i < |base| { PairNodes(base, i); }
      if i == k && k < |base| { MergedNodes(base[k].value, p.value); }
    }
  }

  lemma {:induction false} MergedSeparate(base: Layout, overlay: Layout)
    requires Separate(base) && Separate(overlay) && Nodes(base) !! Nodes(overlay)
    ensures Separate(Merged(base, overlay))
    decreases overlay
  {
    match overlay
    case ScalarAt(_, _, _) =>
    case SequenceAt(_, _, items) =>
      forall i | 0 <= i < |items| ensures base.node !in Nodes(items[i]) {
        assert Nodes(items[i]) <= Nodes(overlay);
      }
    case MappingAt(_, _, entries) =>
      if base.MappingAt? {
        MergedAllSeparate(base.entries, entries);
        MergedAllNodes(base.entries, entries);
      }
  }

  lemma {:induction false} MergedAllSeparate(base: seq<Pair>, overlay: seq<Pair>)
    requires SeparateAll(base) && SeparateAll(overlay) && NodesOfAll(base) !! NodesOfAll(overlay)
    ensures SeparateAll(MergedAll(base, overlay))
    decreases overlay
  {
    if overlay != [] {
      var n := |overlay| - 1;
      FrontSeparate(overlay, n);
      MergedAllSeparate(base, overlay[..n]);
      MergedAllNodes(base, overlay[..n]);
      PairNodes(overlay, n);
      MergedOneSeparate(MergedAll(base, overlay[..n]), overlay[n]);
    }
  }

  lemma FrontSeparate(entries: seq<Pair>, n: nat)
    requires SeparateAll(entries) && n < |entries|
    ensures SeparateAll(entries[..n]) && NodesOfAll(entries[..n]) <= NodesOfAll(entries)
    ensures NodesOfAll(entries[..n]) !! NodesOf(entries[n])
  {
  }

  lemma {:induction false} MergedOneSeparate(base: seq<Pair>, p: Pair)
    requires SeparateAll(base) && SeparatePair(p) && NodesOfAll(base) !! NodesOf(p)
    ensures SeparateAll(MergedOne(base, p))
    decreases p
  {
    var k, r := IndexOf(TreesOf(base), IdentOf(TreeOf(p.key))), MergedOne(base, p);
    forall i | 0 <= i < |base| ensures NodesOf(base[i]) !! NodesOf(p) { PairNodes(base, i); }
    if k < |base| {
      MergedSeparate(base[k].value, p.value);
      MergedNodes(base[k].value, p.value);
      assert SeparatePair(base[k]);
    }
  }

  // ----- the code

  lemma NodesInside(l: Layout)
    ensures l.node in Nodes(l)
    ensures l.SequenceAt? ==> forall i :: 0 <= i < |l.items| ==> Nodes(l.items[i]) <= Nodes(l)
    ensures l.MappingAt? ==> forall i :: 0 <= i < |l.entries| ==> NodesOf(l.entries[i]) <= Nodes(l)
  {
  }

  /** The nodes of a layout exist. */
  lemma {:induction false} NodesExist(l: Layout)
    ensures forall n :: n in Nodes(l) ==> allocated(n)
    decreases l
  {
    match l
    case ScalarAt(_, _, _) =>
    case SequenceAt(_, _, items) =>
      forall i, n | 0 <= i < |items| && n in Nodes(items[i]) ensures allocated(n) { NodesExist(items[i]); }
    case MappingAt(_, _, entries) =>
      forall n | n in NodesOfAll(entries) ensures allocated(n) {
        var i :| 0 <= i < |entries| && n in NodesOf(entries[i]);
        NodesOfPairExist(entries[i]);
      }
  }

  lemma {:induction false} NodesOfPairExist(p: Pair)
    ensures forall n :: n in NodesOf(p) ==> allocated(n)
    decreases p
  {
    NodesExist(p.key);
    NodesExist(p.value);
    assert forall n :: n in NodesOf(p) ==> n in Nodes(p.key) || n in Nodes(p.value);
  }

  /** Nobody wrote the given nodes. */
  twostate predicate Same(nodes: set<Node>)
    reads nodes
  {
    forall n :: n in nodes ==> old(allocated(n)) && unchanged(n)
  }

  /** A layout whose nodes nobody wrote is still held. */
  twostate lemma {:induction false} StillHeld(l: Layout)
    requires old(Holds(l)) && Same(Nodes(l))
    ensures Holds(l)
    decreases l
  {
    NodesInside(l);
    assert old(allocated(l.node)) && unchanged(l.node);
    match l
    case ScalarAt(_, _, _) =>
    case SequenceAt(_, _, items) =>
      forall i | 0 <= i < |items| ensures Holds(items[i]) { StillHeld(items[i]); }
    case MappingAt(_, _, entries) =>
      forall i | 0 <= i < |entries| ensures HoldsPair(entries[i]) { PairStillHeld(entries[i]); }
  }

  twostate lemma {:induction false} PairStillHeld(p: Pair)
    requires old(HoldsPair(p)) && Same(NodesOf(p))
    ensures HoldsPair(p)
    decreases p
  {
    StillHeld(p.key);
    StillHeld(p.value);
  }

  lemma HeldIdent(l: Layout)
    requires Holds(l)
    ensures IdentOf(TreeOf(l)) == Ident(l.node.tag, l.node.text)
    ensures l.node in Nodes(l)
    ensures l.MappingAt? <==> l.node.kind == MappingKind
  {
  }

  lemma HeldEntry(l: Layout, k: nat)
    requires l.MappingAt? && Holds(l) && k < |l.entries|
    ensures HoldsPair(l.entries[k]) && Lists(l.node.content, l.entries)
  {
  }

  predicate SameKey(a: Node, b: Node)
    reads a, b
  {
    a.tag == b.tag && a.text == b.text
  }

  /** mappingValue: the value node of the first key that compares equal. */
  method MappingValue(mapping: Node, key: Node, ghost l: Layout, ghost keyLayout: Layout) returns (value: Node?)
    requires l.MappingAt? && l.node == mapping && Holds(l) && keyLayout.node == key && Holds(keyLayout)
    ensures var k := IndexOf(TreesOf(l.entries), IdentOf(TreeOf(keyLayout)));
      value == if k < |l.entries| then l.entries[k].value.node else null
    ensures value == null <==> forall j :: 0 <= j < |l.entries| ==> !SameKey(l.entries[j].key.node, key)
    ensures value != null ==> exists j :: (0 <= j < |l.entries| && SameKey(l.entries[j].key.node, key) && value == l.entries[j].value.node
      && forall i :: 0 <= i < j ==> !SameKey(l.entries[i].key.node, key))
  {
    HeldIdent(keyLayout);
    ghost var id := IdentOf(TreeOf(keyLayout));
    var index := 0;
    ghost var k := 0;
    while index < |mapping.content|
      invariant index == 2 * k && k <= |l.entries| && Holds(l)
      invariant forall j :: 0 <= j < k ==> IdentOf(TreesOf(l.entries)[j].key) != id
      invariant forall j :: 0 <= j < k ==> !SameKey(l.entries[j].key.node, key)
    {
      var candidate := mapping.content[index];
      HeldEntry(l, k);
      HeldIdent(l.entries[k].key);
      assert TreesOf(l.entries)[k].key == TreeOf(l.entries[k].key);
      if candidate.tag == key.tag && candidate.text == key.text {
        return mapping.content[index + 1];
      }
      index := index + 2;
      k := k + 1;
    }
    return null;
  }

  /** The base entries whose keys the overlay does not name are as they were, and
      every other entry has a key of the overlay. */
  lemma {:induction false} MergedAllKeeps(base: seq<Pair>, overlay: seq<Pair>, k: nat)
    requires k < |MergedAll(base, overlay)|
    requires forall j :: 0 <= j < |overlay| ==> IdentOf(TreeOf(overlay[j].key)) != IdentOf(TreeOf(MergedAll(base, overlay)[k].key))
    ensures k < |base| && MergedAll(base, overlay)[k] == base[k]
    decreases |overlay|
  {
    if overlay != [] {
      var n := |overlay| - 1;
      var before := MergedAll(base, overlay[..n]);
      var i := IndexOf(TreesOf(before), IdentOf(TreeOf(overlay[n].key)));
      assert i < |before| ==> TreesOf(before)[i] == EntryOf(before[i]);
      assert k < |before| && before[k] == MergedAll(base, overlay)[k];
      MergedAllKeeps(base, overlay[..n], k);
    }
  }

  /** Merging keeps the nodes of the base's entries in place. */
  lemma {:induction false} MergedInPlace(base: seq<Pair>, overlay: seq<Pair>)
    ensures var r := MergedAll(base, overlay);
      |base| <= |r| && forall i :: 0 <= i < |base| ==> r[i].key == base[i].key && r[i].value.node == base[i].value.node
    decreases |overlay|
  {
    if overlay != [] {
      var n := |overlay| - 1;
      var before := MergedAll(base, overlay[..n]);
      MergedInPlace(base, overlay[..n]);
      var k := IndexOf(TreesOf(before), IdentOf(TreeOf(overlay[n].key)));
      if k < |before| { MergedNodes(before[k].value, overlay[n].value); }
    }
  }

  lemma ContentStays(before: seq<Node>, after: seq<Node>, base: seq<Pair>, overlay: seq<Pair>)
    requires Lists(before, base) && Lists(after, MergedAll(base, overlay))
    ensures before <= after
  {
    MergedInPlace(base, overlay);
    forall j | 0 <= j < |before| ensures before[j] == after[j] {
      var i, r := j / 2, MergedAll(base, overlay);
      assert r[i].key == base[i].key && r[i].value.node == base[i].value.node;
      assert j == 2 * i || j == 2 * i + 1;
    }
  }

  /** mergeNode. The heap afterwards holds the merged layout, whose tree is the
      merge of the two trees; only nodes of the base tree are written. Unless both
      are mappings the base node becomes a copy of the overlay's; otherwise it keeps
      its tag and its content, and gains entries at the end. */
  method MergeNode(base: Node, overlay: Node, ghost baseLayout: Layout, ghost overlayLayout: Layout)
    requires baseLayout.node == base && Holds(baseLayout) && Separate(baseLayout)
    requires overlayLayout.node == overlay && Holds(overlayLayout) && Separate(overlayLayout)
    requires Nodes(baseLayout) !! Nodes(overlayLayout) && UniqueKeys(TreeOf(overlayLayout))
    modifies Nodes(baseLayout)
    ensures Holds(Merged(baseLayout, overlayLayout))
    ensures old(base.kind != MappingKind || overlay.kind != MappingKind) ==>
      base.kind == old(overlay.kind) && base.tag == old(overlay.tag) && base.text == old(overlay.text)
      && base.content == old(overlay.content)
    ensures old(base.kind == MappingKind && overlay.kind == MappingKind) ==>
      base.kind == MappingKind && base.tag == old(base.tag) && old(base.content) <= base.content
    decreases overlayLayout
  {
    HeldIdent(baseLayout);
    HeldIdent(overlayLayout);
    if base.kind != MappingKind || overlay.kind != MappingKind {
      Overwrite(base, overlay, baseLayout, overlayLayout);
      return;
    }
    ghost var before := base.content;
    MergeMapping(base, overlay, baseLayout, overlayLayout);
    ContentStays(before, base.content, baseLayout.entries, overlayLayout.entries);
  }

  /** The loop over the overlay's keys. */
  method MergeMapping(base: Node, overlay: Node, ghost baseLayout: Layout, ghost overlayLayout: Layout)
    requires baseLayout.node == base && Holds(baseLayout) && Separate(baseLayout) && baseLayout.MappingAt?
    requires overlayLayout.node == overlay && Holds(overlayLayout) && Separate(overlayLayout) && overlayLayout.MappingAt?
    requires Nodes(baseLayout) !! Nodes(overlayLayout) && UniqueKeys(TreeOf(overlayLayout))
    modifies Nodes(baseLayout)
    ensures Holds(Merged(baseLayout, overlayLayout))
    decreases overlayLayout, 1
  {
    var index := 0;
    ghost var done := 0;
    ghost var entries := overlayLayout.entries;
    ghost var current := baseLayout;
    assert entries[..0] == [];
    while index < |overlay.content|
      invariant index == 2 * done && done <= |entries|
      invariant current == baseLayout.(entries := MergedAll(baseLayout.entries, entries[..done]))
      invariant Holds(current) && Holds(overlayLayout)
      decreases |entries| - done
    {
      HeldEntry(overlayLayout, done);
      var key, value := overlay.content[index], overlay.content[index + 1];
      MergeEntryAt(base, key, value, baseLayout, overlayLayout, current, done);
      MergedNext(baseLayout.entries, entries, done);
      current := current.(entries := MergedOne(current.entries, entries[done]));
      index := index + 2;
      done := done + 1;
    }
    MergedWhole(baseLayout, overlayLayout, done);
  }

  lemma MergedWhole(base: Layout, overlay: Layout, n: nat)
    requires base.MappingAt? && overlay.MappingAt? && n == |overlay.entries|
    ensures base.(entries := MergedAll(base.entries, overlay.entries[..n])) == Merged(base, overlay)
  {
    assert overlay.entries[..n] == overlay.entries;
  }

  lemma MergedNext(base: seq<Pair>, overlay: seq<Pair>, n: nat)
    requires n < |overlay|
    ensures MergedAll(base, overlay[..n + 1]) == MergedOne(MergedAll(base, overlay[..n]), overlay[n])
  {
    assert overlay[..n + 1][..n] == overlay[..n];
  }

  /** `*base = *overlay`. */
  method Overwrite(base: Node, overlay: Node, ghost baseLayout: Layout, ghost overlayLayout: Layout)
    requires baseLayout.node == base && Holds(baseLayout)
    requires overlayLayout.node == overlay && Holds(overlayLayout) && base !in Nodes(overlayLayout)
    requires !baseLayout.MappingAt? || !overlayLayout.MappingAt?
    modifies base
    ensures Holds(Merged(baseLayout, overlayLayout))
    ensures base.kind == old(overlay.kind) && base.tag == old(overlay.tag) && base.text == old(overlay.text)
    ensures base.content == old(overlay.content)
  {
    base.kind, base.tag, base.text, base.content := overlay.kind, overlay.tag, overlay.text, overlay.content;
    match overlayLayout {
      case ScalarAt(_, _, _) =>
      case SequenceAt(_, _, items) =>
        forall i | 0 <= i < |items| ensures Holds(items[i]) { assert Nodes(items[i]) <= Nodes(overlayLayout); }
      case MappingAt(_, _, entries) =>
        forall i | 0 <= i < |entries| ensures HoldsPair(entries[i]) { PairNodes(entries, i); }
    }
  }

  /** An overlay key that comes up for the first time finds, if anything, an
      entry of the base that is still as it was. */
  lemma FreshKey(baseLayout: Layout, overlayLayout: Layout, done: nat)
    requires baseLayout.MappingAt? && overlayLayout.MappingAt? && done < |overlayLayout.entries|
    requires UniqueKeys(TreeOf(overlayLayout))
    ensures var current, p := MergedAll(baseLayout.entries, overlayLayout.entries[..done]), overlayLayout.entries[done];
      var k := IndexOf(TreesOf(current), IdentOf(TreeOf(p.key)));
      k < |current| ==> k < |baseLayout.entries| && current[k] == baseLayout.entries[k]
  {
    var entries := overlayLayout.entries;
    var current, p := MergedAll(baseLayout.entries, entries[..done]), entries[done];
    var k := IndexOf(TreesOf(current), IdentOf(TreeOf(p.key)));
    if k < |current| {
      assert TreesOf(current)[k] == EntryOf(current[k]);
      forall j | 0 <= j < done ensures IdentOf(TreeOf(entries[j].key)) != IdentOf(TreeOf(p.key)) {
        assert TreeOf(overlayLayout).entries[j] == EntryOf(entries[j]);
        assert TreeOf(overlayLayout).entries[done] == EntryOf(p);
      }
      MergedAllKeeps(baseLayout.entries, entries[..done], k);
    }
  }

  /** What the loop may rely on before each round. */
  lemma RoundFacts(baseLayout: Layout, overlayLayout: Layout, done: nat)
    requires baseLayout.MappingAt? && overlayLayout.MappingAt? && done < |overlayLayout.entries|
    requires Separate(baseLayout) && Separate(overlayLayout) && Nodes(baseLayout) !! Nodes(overlayLayout)
    ensures var p, current := overlayLayout.entries[done], MergedAll(baseLayout.entries, overlayLayout.entries[..done]);
      && SeparateAll(current) && SeparatePair(p) && NodesOfAll(current) !! NodesOf(p)
      && baseLayout.node !in NodesOfAll(current) && baseLayout.node !in NodesOf(p)
      && NodesOf(p) <= Nodes(overlayLayout)
  {
    var entries := overlayLayout.entries;
    FrontSeparate(entries, done);
    MergedAllNodes(baseLayout.entries, entries[..done]);
    MergedAllSeparate(baseLayout.entries, entries[..done]);
    PairNodes(entries, done);
  }

  /** One round of the loop. */
  method MergeEntryAt(base: Node, key: Node, value: Node, ghost baseLayout: Layout, ghost overlayLayout: Layout,
      ghost current: Layout, ghost done: nat)
    requires baseLayout.MappingAt? && overlayLayout.MappingAt? && done < |overlayLayout.entries|
    requires baseLayout.node == base && Separate(baseLayout) && Separate(overlayLayout)
    requires Nodes(baseLayout) !! Nodes(overlayLayout) && UniqueKeys(TreeOf(overlayLayout))
    requires current == baseLayout.(entries := MergedAll(baseLayout.entries, overlayLayout.entries[..done]))
    requires Holds(current) && Holds(overlayLayout)
    requires key == overlayLayout.entries[done].key.node && value == overlayLayout.entries[done].value.node
    modifies Nodes(baseLayout)
    ensures Holds(current.(entries := MergedOne(current.entries, overlayLayout.entries[done])))
    ensures Holds(overlayLayout)
    decreases overlayLayout, 0
  {
    ghost var p := overlayLayout.entries[done];
    HeldEntry(overlayLayout, done);
    RoundFacts(baseLayout, overlayLayout, done);
    FreshKey(baseLayout, overlayLayout, done);
    NodesExist(current);
    NodesExist(overlayLayout);
    label before:
    var baseValue := MappingValue(base, key, current, p.key);
    StillHeld@before(current);
    StillHeld@before(overlayLayout);
    PairStillHeld@before(p);
    if baseValue == null {
      AppendEntry(base, key, value, current, p);
    } else {
      ghost var k := IndexOf(TreesOf(current.entries), IdentOf(TreeOf(p.key)));
      PairNodes(baseLayout.entries, k);
      assert TreeOf(overlayLayout).entries[done] == EntryOf(p);
      MergeValueAt(baseValue, value, current, k, p);
    }
  }

  method AppendEntry(base: Node, key: Node, value: Node, ghost current: Layout, ghost p: Pair)
    requires current.MappingAt? && current.node == base && Holds(current) && base !in NodesOfAll(current.entries)
    requires HoldsPair(p) && base !in NodesOf(p) && key == p.key.node && value == p.value.node
    modifies base
    ensures Holds(current.(entries := current.entries + [p]))
  {
    base.content := base.content + [key, value];
    forall i | 0 <= i < |current.entries| ensures HoldsPair(current.entries[i]) { PairNodes(current.entries, i); }
    assert Lists(base.content, current.entries + [p]);
  }

  method MergeValueAt(baseValue: Node, value: Node, ghost current: Layout, ghost k: nat, ghost p: Pair)
    requires current.MappingAt? && k < |current.entries| && Holds(current) && SeparateAll(current.entries)
    requires current.node !in NodesOfAll(current.entries) && NodesOfAll(current.entries) !! NodesOf(p)
    requires baseValue == current.entries[k].value.node && value == p.value.node
    requires HoldsPair(p) && SeparatePair(p) && UniqueKeys(TreeOf(p.value))
    modifies Nodes(current.entries[k].value)
    ensures Holds(current.(entries := current.entries[k := Pair(current.entries[k].key, Merged(current.entries[k].value, p.value))]))
    decreases p, 0
  {
    ghost var entries := current.entries;
    ghost var v := entries[k].value;
    HeldEntry(current, k);
    PairNodes(entries, k);
    assert SeparatePair(entries[k]);
    SeparatedFrom(entries, k);
    NodesExist(current);
    label before:
    MergeNode(baseValue, value, v, p.value);
    MergedNodes(v, p.value);
    forall i | 0 <= i < |entries| && i != k ensures HoldsPair(entries[i]) {
      PairNodes(entries, i);
      assert NodesOf(entries[i]) <= Nodes(current) && NodesOf(entries[i]) !! Nodes(v);
      PairStillHeld@before(entries[i]);
    }
    assert Nodes(entries[k].key) <= Nodes(current) && Nodes(entries[k].key) !! Nodes(v);
    StillHeld@before(entries[k].key);
    HoldsWithValue(current, k, Merged(v, p.value));
  }

  lemma SeparatedFrom(entries: seq<Pair>, k: nat)
    requires SeparateAll(entries) && k < |entries|
    ensures forall i :: 0 <= i < |entries| && i != k ==> NodesOf(entries[i]) !! Nodes(entries[k].value)
    ensures Nodes(entries[k].key) !! Nodes(entries[k].value) && Separate(entries[k].value)
  {
  }

  /** A mapping whose k-th value now has another layout. */
  lemma HoldsWithValue(current: Layout, k: nat, m: Layout)
    requires current.MappingAt? && k < |current.entries|
    requires current.node.kind == MappingKind && current.node.tag == current.tag && current.node.text == ""
    requires Lists(current.node.content, current.entries)
    requires forall i :: 0 <= i < |current.entries| && i != k ==> HoldsPair(current.entries[i])
    requires Holds(current.entries[k].key) && Holds(m) && m.node == current.entries[k].value.node
    ensures Holds(current.(entries := current.entries[k := Pair(current.entries[k].key, m)]))
  {
  }

  /** A document as readDocument leaves it: a tree with unique keys. */
  ghost predicate Document(l: Layout)
    reads Nodes(l)
  {
    Holds(l) && Separate(l) && UniqueKeys(TreeOf(l))
  }

  /** The merge of two documents is a document, on the nodes of both. */
  method MergeDocuments(base: Node, overlay: Node, ghost baseLayout: Layout, ghost overlayLayout: Layout)
    returns (ghost result: Layout)
    requires baseLayout.node == base && Document(baseLayout) && overlayLayout.node == overlay && Document(overlayLayout)
    requires Nodes(baseLayout) !! Nodes(overlayLayout)
    modifies Nodes(baseLayout)
    ensures result.node == base && Document(result) && Nodes(result) <= Nodes(baseLayout) + Nodes(overlayLayout)
    ensures TreeOf(result) == Merge(TreeOf(baseLayout), TreeOf(overlayLayout))
  {
    MergeNode(base, overlay, baseLayout, overlayLayout);
    result := Merged(baseLayout, overlayLayout);
    MergedNodes(baseLayout, overlayLayout);
    MergedSeparate(baseLayout, overlayLayout);
    MergedHoldsMerge(baseLayout, overlayLayout);
    MergeKeepsUnique(TreeOf(baseLayout), TreeOf(overlayLayout));
  }

  ghost function NodesOfFirst(layouts: seq<Layout>, k: nat): set<Node>
    requires k <= |layouts|
  {
    set i, n | 0 <= i < k && n in Nodes(layouts[i]) :: n
  }

  /** The trees merged in order, each onto the merge of those before it. */
  ghost function MergeAll(layouts: seq<Layout>): Tree
    requires layouts != []
  {
    var n := |layouts| - 1;
    if n == 0 then TreeOf(layouts[0]) else Merge(MergeAll(layouts[..n]), TreeOf(layouts[n]))
  }

  ghost predicate Apart(layouts: seq<Layout>) {
    forall i, j :: 0 <= i < j < |layouts| ==> Nodes(layouts[i]) !! Nodes(layouts[j])
  }

  lemma NextNodes(layouts: seq<Layout>, k: nat)
    requires k < |layouts|
    ensures NodesOfFirst(layouts, k + 1) == NodesOfFirst(layouts, k) + Nodes(layouts[k])
    ensures NodesOfFirst(layouts, k + 1) <= NodesOfFirst(layouts, |layouts|)
  {
  }

  /** The first k documents are merged into before, and the rest is as read. */
  ghost predicate MergedFirst(before: Layout, layouts: seq<Layout>, k: nat)
    requires 0 < k <= |layouts|
    reads Nodes(before), NodesOfFirst(layouts, |layouts|)
  {
    && Document(before) && Nodes(before) <= NodesOfFirst(layouts, k)
    && TreeOf(before) == MergeAll(layouts[..k])
    && forall j :: k <= j < |layouts| ==> (LayoutNodes(layouts, j); Document(layouts[j]))
  }

  lemma LayoutNodes(layouts: seq<Layout>, j: nat)
    requires j < |layouts|
    ensures Nodes(layouts[j]) <= NodesOfFirst(layouts, |layouts|)
  {
  }

  /** Documents that lie apart from the base are not disturbed. */
  method MergeBeside(base: Node, overlay: Node, ghost baseLayout: Layout, ghost overlayLayout: Layout, ghost others: seq<Layout>)
    returns (ghost result: Layout)
    requires baseLayout.node == base && Document(baseLayout) && overlayLayout.node == overlay && Document(overlayLayout)
    requires Nodes(baseLayout) !! Nodes(overlayLayout)
    requires forall i :: 0 <= i < |others| ==> Document(others[i]) && Nodes(baseLayout) !! Nodes(others[i])
    modifies Nodes(baseLayout)
    ensures result.node == base && Document(result) && Nodes(result) <= Nodes(baseLayout) + Nodes(overlayLayout)
    ensures TreeOf(result) == Merge(TreeOf(baseLayout), TreeOf(overlayLayout))
    ensures forall i :: 0 <= i < |others| ==> Document(others[i])
  {
    forall i | 0 <= i < |others| ensures forall n :: n in Nodes(others[i]) ==> allocated(n) { NodesExist(others[i]); }
    label merging:
    result := MergeDocuments(base, overlay, baseLayout, overlayLayout);
    forall i | 0 <= i < |others| ensures Document(others[i]) { StillHeld@merging(others[i]); }
  }

  /** One more document. */
  method MergeFragment(base: Node, fragment: Node, ghost before: Layout, ghost layouts: seq<Layout>, ghost k: nat)
    returns (ghost result: Layout)
    requires 0 < k < |layouts| && Apart(layouts) && MergedFirst(before, layouts, k)
    requires before.node == base && layouts[k].node == fragment
    modifies NodesOfFirst(layouts, k)
    ensures result.node == base && MergedFirst(result, layouts, k + 1)
  {
    ghost var rest := layouts[k + 1..];
    RestIsApart(before, layouts, k, rest);
    MergeAllNext(layouts, k);
    NextNodes(layouts, k);
    assert forall i :: 0 <= i < |rest| ==> rest[i] == layouts[k + 1 + i];
    result := MergeBeside(base, fragment, before, layouts[k], rest);
    assert forall j :: k < j < |layouts| ==> layouts[j] == rest[j - k - 1];
  }

  lemma RestIsApart(before: Layout, layouts: seq<Layout>, k: nat, rest: seq<Layout>)
    requires Apart(layouts) && k < |layouts| && rest == layouts[k + 1..] && Nodes(before) <= NodesOfFirst(layouts, k)
    ensures Nodes(before) !! Nodes(layouts[k])
    ensures forall i :: 0 <= i < |rest| ==> Nodes(before) !! Nodes(rest[i])
  {
  }

  lemma MergeAllNext(layouts: seq<Layout>, k: nat)
    requires 0 < k < |layouts|
    ensures MergeAll(layouts[..k + 1]) == Merge(MergeAll(layouts[..k]), TreeOf(layouts[k]))
  {
    assert layouts[..k + 1][..k] == layouts[..k];
  }

  /** The last document wins: whatever it has at a path of shared mappings, other
      than a mapping, is what the merge of all documents has there. */
  lemma LastDocumentWins(layouts: seq<Layout>, path: seq<Ident>)
    requires |layouts| > 1 && UniqueKeys(TreeOf(layouts[|layouts| - 1]))
    requires Shared(MergeAll(layouts[..|layouts| - 1]), TreeOf(layouts[|layouts| - 1]), path)
    ensures var last := At(TreeOf(layouts[|layouts| - 1]), path);
      last.Some? && !last.value.Mapping? ==> At(MergeAll(layouts), path) == last
    ensures At(TreeOf(layouts[|layouts| - 1]), path).None? ==>
      At(MergeAll(layouts), path) == At(MergeAll(layouts[..|layouts| - 1]), path)
  {
    MergedAt(MergeAll(layouts[..|layouts| - 1]), TreeOf(layouts[|layouts| - 1]), path);
  }

  /** The loop of load: every further document is merged into the first. The
      first document comes to share nodes with the later ones, and still no merge
      disturbs a document that is yet to come. */
  method MergeFragments(fragments: seq<Node>, ghost layouts: seq<Layout>) returns (ghost result: Layout)
    requires fragments != [] && |layouts| == |fragments| && Apart(layouts)
    requires forall i :: 0 <= i < |layouts| ==> layouts[i].node == fragments[i] && Document(layouts[i])
    modifies NodesOfFirst(layouts, |layouts|)
    ensures result.node == fragments[0] && Document(result) && TreeOf(result) == MergeAll(layouts)
  {
    result := layouts[0];
    NextNodes(layouts, 0);
    assert layouts[..1] == [layouts[0]];
    for index := 1 to |fragments|
      invariant result.node == fragments[0] && MergedFirst(result, layouts, index)
    {
      NextNodes(layouts, index - 1);
      result := MergeFragment(fragments[0], fragments[index], result, layouts, index);
    }
    assert layouts[..|layouts|] == layouts;
  }
}
