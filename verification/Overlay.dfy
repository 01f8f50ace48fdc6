/** Merging configuration documents (internal/config/load.go): what the merge of
    two YAML trees is, and its laws. */
module Overlay {
  import opened Common

  /** A YAML tree. Aliases and anchors are not part of it. */
  datatype Tree =
    | Scalar(tag: string, text: string)
    | Sequence(tag: string, items: seq<Tree>)
    | Mapping(tag: string, entries: seq<Entry>)

  datatype Entry = Entry(key: Tree, value: Tree)

  /** What keys are compared by: the tag and the text of the key node. */
  datatype Ident = Ident(tag: string, text: string)

  function IdentOf(key: Tree): Ident {
    Ident(key.tag, if key.Scalar? then key.text else "")
  }

  /** The position of the first entry with that key, or the length. */
  function IndexOf(entries: seq<Entry>, id: Ident): (k: nat)
    ensures k <= |entries|
    ensures k < |entries| ==> IdentOf(entries[k].key) == id
    ensures forall j :: 0 <= j < k ==> IdentOf(entries[j].key) != id
  {
    if entries == [] || IdentOf(entries[0].key) == id then 0 else 1 + IndexOf(entries[1..], id)
  }

  predicate Has(entries: seq<Entry>, id: Ident) {
    IndexOf(entries, id) < |entries|
  }

  /** mappingValue. */
  function Lookup(entries: seq<Entry>, id: Ident): Option<Tree> {
    if Has(entries, id) then Some(entries[IndexOf(entries, id)].value) else None
  }

  function Merge(base: Tree, overlay: Tree): Tree
    decreases overlay
  {
    if base.Mapping? && overlay.Mapping? then base.(entries := MergeEntries(base.entries, overlay.entries)) else overlay
  }

  function MergeEntries(base: seq<Entry>, overlay: seq<Entry>): seq<Entry>
    decreases overlay
  {
    if overlay == [] then base else MergeEntries(MergeOne(base, overlay[0]), overlay[1..])
  }

  function MergeOne(base: seq<Entry>, e: Entry): (r: seq<Entry>)
    decreases e
  {
    var k := IndexOf(base, IdentOf(e.key));
    if k < |base| then base[k := base[k].(value := Merge(base[k].value, e.value))] else base + [e]
  }

  ghost predicate DistinctKeys(entries: seq<Entry>) {
    forall i, j :: 0 <= i < j < |entries| ==> IdentOf(entries[i].key) != IdentOf(entries[j].key)
  }

  /** Keys are unique in every mapping of the tree. */
  ghost predicate UniqueKeys(t: Tree)
    decreases t
  {
    match t
    case Scalar(_, _) => true
    case Sequence(_, items) => forall i :: 0 <= i < |items| ==> UniqueKeys(items[i])
    case Mapping(_, entries) => DistinctKeys(entries) && forall i :: 0 <= i < |entries| ==> UniqueEntry(entries[i])
  }

  ghost predicate UniqueEntry(e: Entry)
    decreases e
  {
    UniqueKeys(e.key) && UniqueKeys(e.value)
  }

  // ----- lookups

  lemma IndexIs(entries: seq<Entry>, k: nat)
    requires k < |entries| && DistinctKeys(entries)
    ensures IndexOf(entries, IdentOf(entries[k].key)) == k
  {
  }

  /** The keys of a mapping in order. */
  function Idents(entries: seq<Entry>): (r: seq<Ident>)
    ensures |r| == |entries| && forall i :: 0 <= i < |r| ==> r[i] == IdentOf(entries[i].key)
  {
    seq(|entries|, i requires 0 <= i < |entries| => IdentOf(entries[i].key))
  }

  /** Merging one entry keeps every key in place and appends the entry's own key
      only if it is new. */
  lemma OneKeepsOrder(base: seq<Entry>, e: Entry)
    ensures Idents(MergeOne(base, e)) == Idents(base) + if Has(base, IdentOf(e.key)) then [] else [IdentOf(e.key)]
  {
  }

  lemma OneKeepsDistinct(base: seq<Entry>, e: Entry)
    requires DistinctKeys(base)
    ensures DistinctKeys(MergeOne(base, e))
  {
  }

  /** Merging one entry changes the lookup of its own key only. */
  lemma OneLooksUp(base: seq<Entry>, e: Entry, id: Ident)
    ensures Lookup(MergeOne(base, e), id)
         == if id != IdentOf(e.key) then Lookup(base, id)
            else if Has(base, id) then Some(Merge(Lookup(base, id).value, e.value))
            else Some(e.value)
  {
    var r := MergeOne(base, e);
    SameIndex(base, r, id, |base|);
    if !Has(base, IdentOf(e.key)) {
      assert r == base + [e] && r[|base|] == e;
      assert IndexOf(r, id) <= |base| || id != IdentOf(e.key);
    }
  }

  /** Positions of keys depend on the keys alone. */
  lemma SameIndex(a: seq<Entry>, b: seq<Entry>, id: Ident, n: nat)
    requires n <= |a| && n <= |b| && forall i :: 0 <= i < n ==> IdentOf(a[i].key) == IdentOf(b[i].key)
    ensures IndexOf(a, id) < n <==> IndexOf(b, id) < n
    ensures IndexOf(a, id) < n ==> IndexOf(a, id) == IndexOf(b, id)
  {
  }

  // ----- the laws

  /** The keys of overlay that base does not have, in overlay's order. */
  function NewIdents(base: seq<Entry>, overlay: seq<Entry>): seq<Ident> {
    if overlay == [] then [] else
    (if Has(base, IdentOf(overlay[0].key)) then [] else [IdentOf(overlay[0].key)]) + NewIdents(base, overlay[1..])
  }

  lemma {:induction false} NewAfterOne(base: seq<Entry>, e: Entry, overlay: seq<Entry>)
    requires forall i :: 0 <= i < |overlay| ==> IdentOf(overlay[i].key) != IdentOf(e.key)
    ensures NewIdents(MergeOne(base, e), overlay) == NewIdents(base, overlay)
  {
    if overlay != [] {
      OneLooksUp(base, e, IdentOf(overlay[0].key));
      assert forall i :: 0 <= i < |overlay[1..]| ==> overlay[1..][i] == overlay[i + 1];
      NewAfterOne(base, e, overlay[1..]);
    }
  }

  lemma DistinctTail(entries: seq<Entry>)
    requires entries != [] && DistinctKeys(entries)
    ensures DistinctKeys(entries[1..])
    ensures forall i :: 0 <= i < |entries[1..]| ==> IdentOf(entries[1..][i].key) != IdentOf(entries[0].key)
  {
  }

  /** Key order: base keys keep their order, and new overlay keys follow in
      theirs. */
  lemma {:induction false} MergeKeepsOrder(base: seq<Entry>, overlay: seq<Entry>)
    requires DistinctKeys(overlay)
    ensures Idents(MergeEntries(base, overlay)) == Idents(base) + NewIdents(base, overlay)
    decreases |overlay|
  {
    if overlay == [] {
      assert Idents(base) + [] == Idents(base);
    } else {
      var first := if Has(base, IdentOf(overlay[0].key)) then [] else [IdentOf(overlay[0].key)];
      DistinctTail(overlay);
      MergeKeepsOrder(MergeOne(base, overlay[0]), overlay[1..]);
      OneKeepsOrder(base, overlay[0]);
      NewAfterOne(base, overlay[0], overlay[1..]);
      Associative(Idents(base), first, NewIdents(base, overlay[1..]));
    }
  }

  lemma Associative<T>(a: seq<T>, b: seq<T>, c: seq<T>)
    ensures (a + b) + c == a + (b + c)
  {
  }

  /** Lookup law: a key of both is merged, a key of one is taken over; of two values
      that are not both mappings the overlay's stays. */
  lemma {:induction false} MergeLooksUp(base: seq<Entry>, overlay: seq<Entry>, id: Ident)
    requires DistinctKeys(overlay)
    ensures Lookup(MergeEntries(base, overlay), id)
         == if !Has(overlay, id) then Lookup(base, id)
            else if !Has(base, id) then Lookup(overlay, id)
            else Some(Merge(Lookup(base, id).value, Lookup(overlay, id).value))
    ensures Has(base, id) && Has(overlay, id) && !(Lookup(base, id).value.Mapping? && Lookup(overlay, id).value.Mapping?) ==>
      Lookup(MergeEntries(base, overlay), id) == Lookup(overlay, id)
    decreases |overlay|
  {
    if overlay != [] {
      DistinctTail(overlay);
      MergeLooksUp(MergeOne(base, overlay[0]), overlay[1..], id);
      OneLooksUp(base, overlay[0], id);
    }
  }

  /** The overlay wins wherever the two are not both mappings. */
  lemma OverlayWins(base: Tree, overlay: Tree)
    requires !base.Mapping? || !overlay.Mapping?
    ensures Merge(base, overlay) == overlay
  {
  }

  /** The tree at a path of keys. */
  function At(t: Tree, path: seq<Ident>): Option<Tree> {
    if path == [] then Some(t)
    else if t.Mapping? && Has(t.entries, path[0]) then At(Lookup(t.entries, path[0]).value, path[1..])
    else None
  }

  predicate MappingAt(t: Tree, path: seq<Ident>) {
    At(t, path).Some? && At(t, path).value.Mapping?
  }

  /** Both trees have mappings all the way down to the end of the path. */
  ghost predicate Shared(base: Tree, overlay: Tree, path: seq<Ident>) {
    forall n :: 0 <= n < |path| ==> MappingAt(base, path[..n]) && MappingAt(overlay, path[..n])
  }

  lemma SharedTail(base: Tree, overlay: Tree, path: seq<Ident>)
    requires path != [] && Shared(base, overlay, path)
    ensures base.Mapping? && overlay.Mapping?
    ensures Has(base.entries, path[0]) && Has(overlay.entries, path[0]) ==>
      Shared(Lookup(base.entries, path[0]).value, Lookup(overlay.entries, path[0]).value, path[1..])
  {
    assert path[..0] == [] && MappingAt(base, path[..0]) && MappingAt(overlay, path[..0]);
    if Has(base.entries, path[0]) && Has(overlay.entries, path[0]) {
      forall n | 0 <= n < |path[1..]|
        ensures MappingAt(Lookup(base.entries, path[0]).value, path[1..][..n])
        ensures MappingAt(Lookup(overlay.entries, path[0]).value, path[1..][..n])
      {
        assert path[..n + 1][0] == path[0] && path[..n + 1][1..] == path[1..][..n];
        assert MappingAt(base, path[..n + 1]) && MappingAt(overlay, path[..n + 1]);
      }
    }
  }

  /** What a merge is, at any depth and without saying how it is made. Below
      mappings that both trees share: a value that only one has is taken over, the
      overlay's replaces the base's unless both are mappings, and a mapping of both
      keeps the base's tag. */
  lemma {:induction false} MergedAt(base: Tree, overlay: Tree, path: seq<Ident>)
    requires UniqueKeys(overlay) && Shared(base, overlay, path)
    ensures var m, b, o := At(Merge(base, overlay), path), At(base, path), At(overlay, path);
      if o.None? then m == b
      else if b.None? || !b.value.Mapping? || !o.value.Mapping? then m == o
      else m.Some? && m.value.Mapping? && m.value.tag == b.value.tag
    decreases |path|
  {
    if path != [] {
      SharedTail(base, overlay, path);
      var id := path[0];
      MergeLooksUp(base.entries, overlay.entries, id);
      if Has(base.entries, id) && Has(overlay.entries, id) {
        assert UniqueEntry(overlay.entries[IndexOf(overlay.entries, id)]);
        MergedAt(Lookup(base.entries, id).value, Lookup(overlay.entries, id).value, path[1..]);
      }
    }
  }

  /** Keys are told apart by tag and text. */
  lemma SameIdent(a: Tree, b: Tree)
    requires a.Scalar? && b.Scalar?
    ensures IdentOf(a) == IdentOf(b) <==> a.tag == b.tag && a.text == b.text
  {
  }

  lemma {:induction false} MergeKeepsDistinct(base: seq<Entry>, overlay: seq<Entry>)
    requires DistinctKeys(base)
    ensures DistinctKeys(MergeEntries(base, overlay))
    decreases |overlay|
  {
    if overlay != [] {
      OneKeepsDistinct(base, overlay[0]);
      MergeKeepsDistinct(MergeOne(base, overlay[0]), overlay[1..]);
    }
  }

  ghost predicate AllUnique(entries: seq<Entry>) {
    forall i :: 0 <= i < |entries| ==> UniqueEntry(entries[i])
  }

  /** Uniqueness of keys survives the merge at every depth. */
  lemma {:induction false} MergeKeepsUnique(base: Tree, overlay: Tree)
    requires UniqueKeys(base) && UniqueKeys(overlay)
    ensures UniqueKeys(Merge(base, overlay))
    decreases overlay
  {
    if base.Mapping? && overlay.Mapping? {
      MergeKeepsDistinct(base.entries, overlay.entries);
      EntriesKeepUnique(base.entries, overlay.entries);
    }
  }

  lemma {:induction false} EntriesKeepUnique(base: seq<Entry>, overlay: seq<Entry>)
    requires AllUnique(base) && AllUnique(overlay)
    ensures AllUnique(MergeEntries(base, overlay))
    decreases overlay
  {
    if overlay != [] {
      OneKeepsUnique(base, overlay[0]);
      assert AllUnique(overlay[1..]) by {
        assert forall i :: 0 <= i < |overlay[1..]| ==> overlay[1..][i] == overlay[i + 1];
      }
      EntriesKeepUnique(MergeOne(base, overlay[0]), overlay[1..]);
    }
  }

  lemma {:induction false} OneKeepsUnique(base: seq<Entry>, e: Entry)
    requires AllUnique(base) && UniqueEntry(e)
    ensures AllUnique(MergeOne(base, e))
    decreases e
  {
    var k := IndexOf(base, IdentOf(e.key));
    if k < |base| {
      assert UniqueEntry(base[k]);
      MergeKeepsUnique(base[k].value, e.value);
    }
  }

  /** An entry that a list already absorbed changes nothing. */
  ghost predicate Absorbs(entries: seq<Entry>, e: Entry) {
    var found := Lookup(entries, IdentOf(e.key));
    found.Some? && Merge(found.value, e.value) == found.value
  }

  lemma {:induction false} AbsorbedEntries(entries: seq<Entry>, overlay: seq<Entry>)
    requires forall i :: 0 <= i < |overlay| ==> Absorbs(entries, overlay[i])
    ensures MergeEntries(entries, overlay) == entries
    decreases |overlay|
  {
    if overlay != [] {
      assert Absorbs(entries, overlay[0]);
      assert MergeOne(entries, overlay[0]) == entries;
      assert forall i :: 0 <= i < |overlay[1..]| ==> overlay[1..][i] == overlay[i + 1];
      AbsorbedEntries(entries, overlay[1..]);
    }
  }

  lemma {:induction false} SelfMerge(t: Tree)
    requires UniqueKeys(t)
    ensures Merge(t, t) == t
    decreases t
  {
    if t.Mapping? {
      forall i | 0 <= i < |t.entries| ensures Absorbs(t.entries, t.entries[i]) {
        IndexIs(t.entries, i);
        assert UniqueEntry(t.entries[i]);
        SelfMerge(t.entries[i].value);
      }
      AbsorbedEntries(t.entries, t.entries);
    }
  }

  /** Idempotence: merging the same overlay twice equals merging it once. */
  lemma {:induction false} MergeTwice(base: Tree, overlay: Tree)
    requires UniqueKeys(overlay)
    ensures Merge(Merge(base, overlay), overlay) == Merge(base, overlay)
    decreases overlay
  {
    if base.Mapping? && overlay.Mapping? {
      var once := MergeEntries(base.entries, overlay.entries);
      forall i | 0 <= i < |overlay.entries| ensures Absorbs(once, overlay.entries[i]) {
        var e := overlay.entries[i];
        IndexIs(overlay.entries, i);
        MergeLooksUp(base.entries, overlay.entries, IdentOf(e.key));
        assert UniqueEntry(e);
        if Has(base.entries, IdentOf(e.key)) {
          MergeTwice(Lookup(base.entries, IdentOf(e.key)).value, e.value);
        } else {
          SelfMerge(e.value);
        }
      }
      AbsorbedEntries(once, overlay.entries);
    } else {
      SelfMerge(overlay);
    }
  }

  /** rejectDuplicateKeys accepts exactly the trees whose keys are unique in
      every mapping. */
  method RejectDuplicateKeys(t: Tree) returns (ok: bool)
    ensures ok <==> UniqueKeys(t)
    decreases t
  {
    match t
    case Scalar(_, _) =>
      return true;
    case Sequence(_, items) =>
      for i := 0 to |items|
        invariant forall j :: 0 <= j < i ==> UniqueKeys(items[j])
      {
        var child := RejectDuplicateKeys(items[i]);
        if !child { return false; }
      }
      return true;
    case Mapping(_, entries) =>
      var seen: set<Ident> := {};
      for i := 0 to |entries|
        invariant seen == set j | 0 <= j < i :: IdentOf(entries[j].key)
        invariant DistinctKeys(entries[..i])
      {
        if IdentOf(entries[i].key) in seen { return false; }
        seen := seen + {IdentOf(entries[i].key)};
      }
      assert entries[..|entries|] == entries;
      for i := 0 to |entries|
        invariant AllUnique(entries[..i])
      {
        var key := RejectDuplicateKeys(entries[i].key);
        if !key { return false; }
        var value := RejectDuplicateKeys(entries[i].value);
        if !value { return false; }
      }
      return true;
  }
}
