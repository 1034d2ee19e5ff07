/** checkAPILimits (NotionInteractions.ts): the walk over the converted content
    tree that counts the entries tagged as blocks and measures how deeply
    `children` attributes nest. */
module ApiLimits {
  import opened Json
  import opened Strings

  function Max(a: int, b: int): int {
    if a < b then b else a
  }

  /** `value == 'block'` under JavaScript's loose equality: a string equal to
      "block", or an array whose string form is "block" (a one-element array
      holding such a value). No other value converts to "block". */
  predicate IsBlockTag(v: Value) {
    match v
    case Str(s) => s == "block"
    case Arr(items) => |items| == 1 && IsBlockTag(items[0])
    case _ => false
  }

  /** The entry the walk counts as one block. */
  predicate IsBlockEntry(e: Entry) {
    e.key == "object" && IsBlockTag(e.value)
  }

  /** The entry that raises the running depth: `children` with any value but `undefined`. */
  predicate IsChildrenEntry(e: Entry) {
    e.key == "children" && e.value != Undefined
  }

  /** `Object.keys(v)` paired with the values: an object's own entries, or an
      array's indices written in decimal. */
  function KeyedEntries(v: Value): (es: seq<Entry>)
    requires IsContainer(v)
    ensures v.Obj? ==> es == v.entries
    ensures v.Arr? ==> |es| == |v.items| && forall i :: 0 <= i < |es| ==> es[i].value == v.items[i]
  {
    match v
    case Obj(entries) => entries
    case Arr(items) => IndexEntries(items)
  }

  function IndexEntries(items: seq<Value>): (es: seq<Entry>)
    ensures |es| == |items|
    ensures forall i :: 0 <= i < |es| ==> es[i] == Entry(NatToString(i), items[i])
  {
    seq(|items|, i requires 0 <= i < |items| => Entry(NatToString(i), items[i]))
  }

  // ---------------------------------------------------------------------------
  // What the walk computes, stated without the walk

  /** The number of block-tagged entries anywhere in `v`, at any depth. */
  function BlockCount(v: Value): nat {
    match v
    case Arr(items) => ItemsBlockCount(items)
    case Obj(es) => EntriesBlockCount(es)
    case _ => 0
  }

  function ItemsBlockCount(items: seq<Value>): nat {
    if items == [] then 0
    else ItemsBlockCount(items[..|items| - 1]) + BlockCount(items[|items| - 1])
  }

  function EntriesBlockCount(es: seq<Entry>): nat {
    if es == [] then 0
    else
      var e := es[|es| - 1];
      EntriesBlockCount(es[..|es| - 1]) + (if IsBlockEntry(e) then 1 else 0) + BlockCount(e.value)
  }

  /** How many `children` entries of one object come at or before the end of `es`. */
  function Raises(es: seq<Entry>): nat {
    if es == [] then 0
    else Raises(es[..|es| - 1]) + (if IsChildrenEntry(es[|es| - 1]) then 1 else 0)
  }

  /** The deepest `children` nesting reached inside `v`, counted from 0 on
      entering `v`. Inside an object, an entry is reached at the depth raised by
      every `children` entry at or before it, so keys after `children` are also
      one level deeper. */
  function Depth(v: Value): nat {
    match v
    case Arr(items) => ItemsDepth(items)
    case Obj(es) => EntriesDepth(es)
    case _ => 0
  }

  function ItemsDepth(items: seq<Value>): nat {
    if items == [] then 0
    else Max(ItemsDepth(items[..|items| - 1]), Depth(items[|items| - 1]))
  }

  function EntriesDepth(es: seq<Entry>): nat {
    if es == [] then 0
    else Max(EntriesDepth(es[..|es| - 1]), Raises(es) + Depth(es[|es| - 1].value))
  }

  // ---------------------------------------------------------------------------
  // The walk

  class CheckApiLimits {
    var maxChildDepth: int
    var blockLength: int
    var blocks: Value

    /** Walks the whole top-level block list once, starting at depth 0. */
    constructor (blocks: seq<Value>)
      ensures this.blocks == Arr(blocks)
      ensures blockLength == BlockCount(Arr(blocks))
      ensures maxChildDepth == Depth(Arr(blocks))
    {
      this.blocks := Arr(blocks);
      maxChildDepth := 0;
      blockLength := 0;
      new;
      IterateBlocks(this.blocks, 0);
    }

    /** The callback's own effects for one key: the block tally, and the
        running depth with the overall maximum. */
    method VisitEntry(e: Entry, current: int) returns (next: int)
      requires current <= maxChildDepth
      modifies this
      ensures blocks == old(blocks)
      ensures blockLength == old(blockLength) + (if IsBlockEntry(e) then 1 else 0)
      ensures next == current + (if IsChildrenEntry(e) then 1 else 0)
      ensures maxChildDepth == Max(old(maxChildDepth), next)
    {
      next := current;
      if e.key == "object" && IsBlockTag(e.value) {
        blockLength := blockLength + 1;
      }
      if e.key == "children" && e.value != Undefined {
        next := next + 1;
        if next > maxChildDepth {
          maxChildDepth := next;
        }
      }
    }

    /** One key of the callback: its own effects, then the descent into its
        value when that is an object or an array. */
    method VisitKey(e: Entry, current: int) returns (next: int)
      requires 0 <= current <= maxChildDepth
      modifies this
      ensures blocks == old(blocks)
      ensures next == current + (if IsChildrenEntry(e) then 1 else 0)
      ensures blockLength == old(blockLength) + (if IsBlockEntry(e) then 1 else 0) + BlockCount(e.value)
      ensures maxChildDepth == Max(old(maxChildDepth), next + Depth(e.value))
      decreases e.value, 2
    {
      next := VisitEntry(e, current);
      if IsContainer(e.value) {
        IterateBlocks(e.value, next);
      }
      DepthStep(old(maxChildDepth), next, Depth(e.value));
    }

    /** iterateBlocks: visits the keys of `node` in order; counts a block tag,
        raises the running depth at `children` and records a new maximum, and
        descends into every object- or array-valued key at the running depth. */
    method IterateBlocks(node: Value, childDepth: int)
      requires IsContainer(node)
      requires 0 <= childDepth <= maxChildDepth
      modifies this
      ensures blocks == old(blocks)
      ensures blockLength == old(blockLength) + BlockCount(node)
      ensures maxChildDepth == Max(old(maxChildDepth), childDepth + Depth(node))
      decreases node, 1
    {
      var keys := KeyedEntries(node);
      KeyedEntriesAgree(node);
      var currentMaxChildDepth := childDepth;
      ghost var start, count0 := maxChildDepth, blockLength;
      // the walk's progress over keys[..i]: block count, raises and depth
      ghost var bc, rs, ed := 0, 0, 0;
      var i := 0;
      while i < |keys|
        invariant 0 <= i <= |keys|
        invariant blocks == old(blocks)
        invariant Tracks(keys, i, bc, rs, ed)
        invariant blockLength == count0 + bc
        invariant currentMaxChildDepth == childDepth + rs
        invariant maxChildDepth == Max(start, childDepth + ed)
        invariant currentMaxChildDepth <= maxChildDepth
      {
        var key, value := keys[i].key, keys[i].value;
        TracksStep(keys, i, bc, rs, ed);
        if node.Obj? {
          assert keys[i] in node.entries;
        }
        currentMaxChildDepth := VisitKey(keys[i], currentMaxChildDepth);
        MaxShift(start, childDepth, ed, currentMaxChildDepth - childDepth + Depth(value));
        bc, rs := bc + (if IsBlockEntry(keys[i]) then 1 else 0) + BlockCount(keys[i].value),
                  rs + (if IsChildrenEntry(keys[i]) then 1 else 0);
        ed := Max(ed, rs + Depth(keys[i].value));
        i := i + 1;
      }
      assert keys[..|keys|] == keys;
    }
  }

  /** The walk's tallies over the first `i` keys of one object or array. */
  ghost predicate Tracks(keys: seq<Entry>, i: nat, bc: int, rs: int, ed: int)
    requires i <= |keys|
  {
    bc == EntriesBlockCount(keys[..i]) && rs == Raises(keys[..i]) && ed == EntriesDepth(keys[..i])
  }

  /** One more key moves the tallies as the walk's loop body does. */
  lemma TracksStep(keys: seq<Entry>, i: nat, bc: int, rs: int, ed: int)
    requires i < |keys| && Tracks(keys, i, bc, rs, ed)
    ensures var rs' := rs + (if IsChildrenEntry(keys[i]) then 1 else 0);
      Tracks(keys, i + 1, bc + (if IsBlockEntry(keys[i]) then 1 else 0) + BlockCount(keys[i].value),
             rs', Max(ed, rs' + Depth(keys[i].value)))
  {
    WalkStep(keys, i);
  }

  // ---------------------------------------------------------------------------
  // Lemmas

  lemma {:induction false} KeyedEntriesAgree(v: Value)
    requires IsContainer(v)
    ensures EntriesBlockCount(KeyedEntries(v)) == BlockCount(v)
    ensures EntriesDepth(KeyedEntries(v)) == Depth(v)
  {
    if v.Arr? {
      IndexEntriesAgree(v.items);
    }
  }

  /** Array indices are decimal strings, never `object` or `children`, so an
      array adds no block and raises no depth of its own. */
  lemma {:induction false} IndexEntriesAgree(items: seq<Value>)
    ensures Raises(IndexEntries(items)) == 0
    ensures EntriesBlockCount(IndexEntries(items)) == ItemsBlockCount(items)
    ensures EntriesDepth(IndexEntries(items)) == ItemsDepth(items)
  {
    if items != [] {
      var n := |items| - 1;
      var es := IndexEntries(items);
      assert es[..n] == IndexEntries(items[..n]);
      IndexEntriesAgree(items[..n]);
      var key := NatToString(n);
      assert IsDigit(key[0]);
      assert key != "object" && key != "children";
    }
  }

  /** Some `children` entry with a value other than `undefined` occurs
      anywhere in `v`. */
  predicate HasChildren(v: Value) {
    match v
    case Arr(items) => exists i :: 0 <= i < |items| && HasChildren(items[i])
    case Obj(es) => exists i :: 0 <= i < |es| && (IsChildrenEntry(es[i]) || HasChildren(es[i].value))
    case _ => false
  }

  /** The maximum depth is 0 exactly when there is no `children` entry at all. */
  lemma {:induction false} DepthZeroIffNoChildren(v: Value)
    ensures Depth(v) == 0 <==> !HasChildren(v)
  {
    match v
    case Arr(items) => ItemsDepthZero(items);
    case Obj(es) => EntriesDepthZero(es);
    case _ =>
  }

  lemma {:induction false} ItemsDepthZero(items: seq<Value>)
    ensures ItemsDepth(items) == 0 <==> !exists i :: 0 <= i < |items| && HasChildren(items[i])
  {
    if items != [] {
      var n := |items| - 1;
      ItemsDepthZero(items[..n]);
      DepthZeroIffNoChildren(items[n]);
      assert forall i :: 0 <= i < n ==> items[..n][i] == items[i];
    }
  }

  lemma {:induction false} EntriesDepthZero(es: seq<Entry>)
    ensures EntriesDepth(es) == 0 <==> !exists i :: 0 <= i < |es| && (IsChildrenEntry(es[i]) || HasChildren(es[i].value))
    ensures Raises(es) == 0 <==> !exists i :: 0 <= i < |es| && IsChildrenEntry(es[i])
  {
    if es != [] {
      var n := |es| - 1;
      EntriesDepthZero(es[..n]);
      assert es[..n] + [es[n]] == es;
      DepthZeroIffNoChildren(es[n].value);
      assert forall i :: 0 <= i < n ==> es[..n][i] == es[i];
    }
  }

  /** Counting and depth over a list are additive and maximal over its parts:
      splitting the top-level list never moves a block or deepens a part. */
  lemma {:induction false} ItemsConcat(xs: seq<Value>, ys: seq<Value>)
    ensures ItemsBlockCount(xs + ys) == ItemsBlockCount(xs) + ItemsBlockCount(ys)
    ensures ItemsDepth(xs + ys) == Max(ItemsDepth(xs), ItemsDepth(ys))
  {
    if ys == [] {
      assert xs + ys == xs;
    } else {
      var n := |ys| - 1;
      assert (xs + ys)[..|xs + ys| - 1] == xs + ys[..n];
      ItemsConcat(xs, ys[..n]);
    }
  }

  /** A value with no `object` and no `children` key anywhere, such as a
      rich-text array. */
  predicate Inert(v: Value) {
    match v
    case Arr(items) => forall i :: 0 <= i < |items| ==> Inert(items[i])
    case Obj(es) => forall i :: 0 <= i < |es| ==> es[i].key != "object" && es[i].key != "children" && Inert(es[i].value)
    case _ => true
  }

  /** The walk descends into auxiliary structures too, but they add no block
      and no depth unless they carry `object` or `children` keys. */
  lemma {:induction false} InertAddsNothing(v: Value)
    requires Inert(v)
    ensures BlockCount(v) == 0 && Depth(v) == 0
  {
    match v
    case Arr(items) => InertItems(items);
    case Obj(es) => InertEntries(es);
    case _ =>
  }

  lemma {:induction false} InertItems(items: seq<Value>)
    requires forall i :: 0 <= i < |items| ==> Inert(items[i])
    ensures ItemsBlockCount(items) == 0 && ItemsDepth(items) == 0
  {
    if items != [] {
      var n := |items| - 1;
      InertItems(items[..n]);
      InertAddsNothing(items[n]);
    }
  }

  lemma {:induction false} InertEntries(es: seq<Entry>)
    requires forall i :: 0 <= i < |es| ==> es[i].key != "object" && es[i].key != "children" && Inert(es[i].value)
    ensures EntriesBlockCount(es) == 0 && EntriesDepth(es) == 0 && Raises(es) == 0
  {
    if es != [] {
      var n := |es| - 1;
      InertEntries(es[..n]);
      InertAddsNothing(es[n].value);
    }
  }

  /** Raising the running depth to `c` and then reaching `d` below it leaves
      the maximum at the larger of the old one and `c + d`. */
  lemma DepthStep(m: int, c: int, d: nat)
    ensures Max(Max(m, c), c + d) == Max(m, c + d)
  {
  }

  /** Folding one more depth into the maximum, seen from a base of `c`. */
  lemma MaxShift(m: int, c: int, e: int, x: int)
    ensures Max(Max(m, c + e), c + x) == Max(m, c + Max(e, x))
  {
  }

  /** The walk's step over entry `i`, in terms of the prefix before it. */
  lemma WalkStep(keys: seq<Entry>, i: nat)
    requires i < |keys|
    ensures Raises(keys[..i + 1]) == Raises(keys[..i]) + (if IsChildrenEntry(keys[i]) then 1 else 0)
    ensures EntriesDepth(keys[..i + 1]) == Max(EntriesDepth(keys[..i]), Raises(keys[..i + 1]) + Depth(keys[i].value))
    ensures EntriesBlockCount(keys[..i + 1])
      == EntriesBlockCount(keys[..i]) + (if IsBlockEntry(keys[i]) then 1 else 0) + BlockCount(keys[i].value)
  {
    assert keys[..i + 1][..i] == keys[..i];
  }

  /** One more entry at the end of an object, unfolded. */
  lemma EntriesSnoc(es: seq<Entry>, e: Entry)
    ensures Raises(es + [e]) == Raises(es) + (if IsChildrenEntry(e) then 1 else 0)
    ensures EntriesDepth(es + [e]) == Max(EntriesDepth(es), Raises(es + [e]) + Depth(e.value))
    ensures EntriesBlockCount(es + [e]) == EntriesBlockCount(es) + (if IsBlockEntry(e) then 1 else 0) + BlockCount(e.value)
  {
    assert (es + [e])[..|es|] == es;
  }

  /** A bulleted-list block: the nested items sit in `children` inside the
      type-specific object, and an item without nested items carries
      `children: undefined`, a key the walk enumerates but does not count as
      a level. */
  function ListItem(text: string, nested: seq<Value>): Value {
    Obj([
      Entry("object", Str("block")),
      Entry("type", Str("bulleted_list_item")),
      Entry("bulleted_list_item", Obj([
        Entry("rich_text", RichTextRun(text)),
        Entry("children", NestedValue(nested))
      ]))
    ])
  }

  /** The `children` value of a list item: `undefined` for a leaf. */
  function NestedValue(nested: seq<Value>): Value {
    if nested == [] then Undefined else Arr(nested)
  }

  function RichTextRun(text: string): Value {
    Arr([Obj([Entry("type", Str("text")), Entry("text", Obj([Entry("content", Str(text))]))])])
  }

  lemma RichTextRunInert(text: string)
    ensures BlockCount(RichTextRun(text)) == 0 && Depth(RichTextRun(text)) == 0
  {
    var textObj := Obj([Entry("content", Str(text))]);
    assert Inert(textObj);
    var seg := Obj([Entry("type", Str("text")), Entry("text", textObj)]);
    assert Inert(seg) by {
      assert forall i :: 0 <= i < 2 ==> seg.entries[i].key != "object" && seg.entries[i].key != "children" && Inert(seg.entries[i].value);
    }
    assert Inert(RichTextRun(text));
    InertAddsNothing(RichTextRun(text));
  }

  /** The type-specific object: its rich text adds nothing, and its `children`
      one level unless it is a leaf's `undefined`. */
  lemma ListBodyNesting(text: string, nested: seq<Value>)
    ensures var body := Obj([Entry("rich_text", RichTextRun(text)), Entry("children", NestedValue(nested))]);
      BlockCount(body) == BlockCount(Arr(nested))
      && Depth(body) == (if nested == [] then 0 else 1 + Depth(Arr(nested)))
  {
    RichTextRunInert(text);
    var e0 := Entry("rich_text", RichTextRun(text));
    var e1 := Entry("children", NestedValue(nested));
    EntriesSnoc([], e0);
    EntriesSnoc([e0], e1);
    assert [] + [e0] == [e0] && [e0] + [e1] == [e0, e1];
    if nested == [] {
      assert BlockCount(Arr(nested)) == 0;
    }
  }

  /** Nesting a list under a block adds that one block, and one level of depth
      unless the list is empty (a leaf's `children` is `undefined`); the blocks
      inside are counted the same at any depth. */
  lemma ListItemNesting(text: string, nested: seq<Value>)
    ensures BlockCount(ListItem(text, nested)) == 1 + BlockCount(Arr(nested))
    ensures Depth(ListItem(text, nested)) == (if nested == [] then 0 else 1 + Depth(Arr(nested)))
  {
    var body := Obj([Entry("rich_text", RichTextRun(text)), Entry("children", NestedValue(nested))]);
    ListBodyNesting(text, nested);
    var o0 := Entry("object", Str("block"));
    var o1 := Entry("type", Str("bulleted_list_item"));
    var o2 := Entry("bulleted_list_item", body);
    assert ListItem(text, nested) == Obj([o0, o1, o2]);
    assert IsBlockEntry(o0) && !IsChildrenEntry(o0);
    assert !IsBlockEntry(o1) && !IsChildrenEntry(o1);
    assert !IsBlockEntry(o2) && !IsChildrenEntry(o2);
    EntriesSnoc([], o0);
    assert [] + [o0] == [o0];
    assert Raises([o0]) == 0 && EntriesDepth([o0]) == 0 && EntriesBlockCount([o0]) == 1;
    EntriesSnoc([o0], o1);
    assert [o0] + [o1] == [o0, o1];
    assert Raises([o0, o1]) == 0 && EntriesDepth([o0, o1]) == 0 && EntriesBlockCount([o0, o1]) == 1;
    EntriesSnoc([o0, o1], o2);
    assert [o0, o1] + [o2] == [o0, o1, o2];
  }

  /** An item holding exactly one nested item adds one block and one level. */
  lemma NestOne(text: string, v: Value)
    ensures BlockCount(ListItem(text, [v])) == 1 + BlockCount(v)
    ensures Depth(ListItem(text, [v])) == 1 + Depth(v)
  {
    ListItemNesting(text, [v]);
    SingleItem(v);
  }

  /** A list nested three levels deep reaches depth 2, since the innermost
      item's `children` is `undefined`: it passes the limit of 2. */
  lemma ThreeLevelList()
    ensures Depth(Arr([ListItem("a", [ListItem("b", [ListItem("c", [])])])])) == 2
    ensures BlockCount(Arr([ListItem("a", [ListItem("b", [ListItem("c", [])])])])) == 3
  {
    var c := ListItem("c", []);
    var b := ListItem("b", [c]);
    var a := ListItem("a", [b]);
    assert BlockCount(c) == 1 && Depth(c) == 0 by {
      ListItemNesting("c", []);
    }
    NestOne("b", c);
    NestOne("a", b);
    SingleItem(a);
  }

  /** A list nested four levels deep reaches depth 3 and is refused. */
  lemma FourLevelList()
    ensures Depth(Arr([ListItem("a", [ListItem("b", [ListItem("c", [ListItem("d", [])])])])])) == 3
    ensures BlockCount(Arr([ListItem("a", [ListItem("b", [ListItem("c", [ListItem("d", [])])])])])) == 4
  {
    var d := ListItem("d", []);
    var c := ListItem("c", [d]);
    var b := ListItem("b", [c]);
    var a := ListItem("a", [b]);
    assert BlockCount(d) == 1 && Depth(d) == 0 by {
      ListItemNesting("d", []);
    }
    NestOne("c", d);
    NestOne("b", c);
    NestOne("a", b);
    SingleItem(a);
  }

  /** A one-item list counts and nests as its item. */
  lemma SingleItem(v: Value)
    ensures BlockCount(Arr([v])) == BlockCount(v) && Depth(Arr([v])) == Depth(v)
  {
    var items := [v];
    assert items[..|items| - 1] == [] && items[|items| - 1] == v;
    assert ItemsBlockCount(items) == BlockCount(v);
    assert ItemsDepth(items) == Max(0, Depth(v));
  }

  /** `children: null` and `children: []` raise the depth; `children: undefined`
      does not. */
  lemma EmptyChildrenRaise()
    ensures Depth(Obj([Entry("children", Null)])) == 1
    ensures Depth(Obj([Entry("children", Arr([]))])) == 1
    ensures Depth(Obj([Entry("children", Undefined)])) == 0
  {
    EntriesSnoc([], Entry("children", Null));
    EntriesSnoc([], Entry("children", Arr([])));
    EntriesSnoc([], Entry("children", Undefined));
  }

  /** The raised depth also applies to keys that come after `children` in the
      same object, but not to keys that come before it. */
  lemma LaterSiblingsInheritDepth(k: string, t: Value)
    requires k != "children"
    ensures Depth(Obj([Entry("children", Null), Entry(k, t)])) == 1 + Depth(t)
    ensures Depth(Obj([Entry(k, t), Entry("children", Null)])) == Max(Depth(t), 1)
  {
    var c, e := Entry("children", Null), Entry(k, t);
    EntriesSnoc([], c);
    EntriesSnoc([c], e);
    EntriesSnoc([], e);
    EntriesSnoc([e], c);
    assert [] + [c] == [c] && [] + [e] == [e] && [c] + [e] == [c, e] && [e] + [c] == [e, c];
  }
}
