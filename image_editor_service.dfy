/**
 * The image editor service: the stack of image changes that the editor
 * pushes, undoes by edit type and purges by image-view tag, the tag counter
 * for new image views, and the small menu-state helpers.
 */
module ImageEditor {
  import opened Wrappers

  /** AGImageEditorTypes: the two text editors and the editors that are not text editors. */
  datatype EditorType = CaptionText | DetailsText | OtherEditor(id: nat)

  /**
   * One recorded change (AGImageChangesItem): the kind of edit, the tag of
   * the image view it belongs to, and the state needed to revert it.
   */
  datatype ChangeItem<K, P> = ChangeItem(kind: K, tag: int, snapshot: P)

  /** The part of an editable image view that a change record is made from. */
  datatype EditableImageView<K, P> = EditableImageView(tag: int, kind: K, snapshot: P)

  /** AGImageChangesItem.createWith(imageView:): a record for the view's current state. */
  function CreateWith<K(!new), P(!new)>(view: EditableImageView<K, P>): (r: ChangeItem<K, P>)
    ensures r.tag == view.tag && r.kind == view.kind
  {
    ChangeItem(view.kind, view.tag, view.snapshot)
  }

  /** The `==` that `firstIndex(of:)` uses on change records. */
  type ItemEquality<!K, !P> = (ChangeItem<K, P>, ChangeItem<K, P>) -> bool

  /** Record equality is an equivalence, and equal records have equal tags. */
  ghost predicate IsItemEquality<K(!new), P(!new)>(eq: ItemEquality<K, P>)
  {
    (forall a :: eq(a, a)) &&
    (forall a, b :: eq(a, b) ==> eq(b, a)) &&
    (forall a, b, c :: eq(a, b) && eq(b, c) ==> eq(a, c)) &&
    (forall a, b :: eq(a, b) ==> a.tag == b.tag)
  }

  /** isTextEditorAvailable: only the caption and details editors edit text. */
  function IsTextEditorAvailable(t: EditorType): (r: bool)
    ensures r <==> t in {CaptionText, DetailsText}
  {
    match t
    case CaptionText => true
    case DetailsText => true
    case OtherEditor(_) => false
  }

  // ---------------------------------------------------------------------------
  // Operations on the change stack, as functions of the stack

  /** The index of the record that `filter { $0.type == type }.last` yields. */
  function LastIndexOfKind<K(==,!new), P(!new)>(s: seq<ChangeItem<K, P>>, k: K): (r: Option<nat>)
    ensures r.Some? ==> r.value < |s| && s[r.value].kind == k
    ensures r.Some? ==> forall j :: r.value < j < |s| ==> s[j].kind != k
    ensures r.None? ==> forall j :: 0 <= j < |s| ==> s[j].kind != k
  {
    if |s| == 0 then None
    else if s[|s| - 1].kind == k then Some(|s| - 1)
    else LastIndexOfKind(s[..|s| - 1], k)
  }

  /** `firstIndex(of: x)`: the first index holding a record equal to `x`. */
  function FirstIndexOf<K(!new), P(!new)>(s: seq<ChangeItem<K, P>>, x: ChangeItem<K, P>, eq: ItemEquality<K, P>): (r: Option<nat>)
    ensures r.Some? ==> r.value < |s| && eq(s[r.value], x)
    ensures r.Some? ==> forall j :: 0 <= j < r.value ==> !eq(s[j], x)
    ensures r.None? ==> forall j :: 0 <= j < |s| ==> !eq(s[j], x)
  {
    if |s| == 0 then None
    else if eq(s[0], x) then Some(0)
    else
      match FirstIndexOf(s[1..], x, eq)
      case None => None
      case Some(i) => Some(i + 1)
  }

  /** `remove(at: i)`: the sequence without its element at `i`, the others in order. */
  function RemoveAt<T>(s: seq<T>, i: nat): (r: seq<T>)
    requires i < |s|
    ensures |r| == |s| - 1
    ensures forall j :: 0 <= j < i ==> r[j] == s[j]
    ensures forall j :: i <= j < |r| ==> r[j] == s[j + 1]
  {
    s[..i] + s[i + 1..]
  }

  /** The record undoLastChangesForType(k) hands to its delegate, if any. */
  function UndoNotice<K(==,!new), P(!new)>(s: seq<ChangeItem<K, P>>, k: K): (r: Option<ChangeItem<K, P>>)
    ensures r.Some? ==> r.value in s && r.value.kind == k
    ensures r.None? <==> forall j :: 0 <= j < |s| ==> s[j].kind != k
  {
    match LastIndexOfKind(s, k)
    case None => None
    case Some(j) => Some(s[j])
  }

  /**
   * The stack after undoLastChangesForType(k): the last record of kind k is
   * looked up, and then the FIRST record equal to it is removed.
   */
  function UndoLast<K(==,!new), P(!new)>(s: seq<ChangeItem<K, P>>, k: K, eq: ItemEquality<K, P>): (r: seq<ChangeItem<K, P>>)
    ensures |r| == |s| || |r| == |s| - 1
    ensures forall y :: y in r ==> y in s
    ensures UndoNotice(s, k).None? ==> r == s
  {
    match LastIndexOfKind(s, k)
    case None => s
    case Some(j) =>
      match FirstIndexOf(s, s[j], eq)
      case None => s
      case Some(i) => RemoveAt(s, i)
  }

  /** The records whose tag is `t`, in stack order (the filter in removeImageItem). */
  function TaggedWith<K(!new), P(!new)>(s: seq<ChangeItem<K, P>>, t: int): (r: seq<ChangeItem<K, P>>)
    ensures forall y :: y in r <==> y in s && y.tag == t
    ensures |r| + |WithoutTag(s, t)| == |s|
  {
    if |s| == 0 then []
    else (if s[0].tag == t then [s[0]] else []) + TaggedWith(s[1..], t)
  }

  /** The records whose tag is not `t`, in stack order: what removeImageItem leaves. */
  function WithoutTag<K(!new), P(!new)>(s: seq<ChangeItem<K, P>>, t: int): (r: seq<ChangeItem<K, P>>)
    ensures |r| <= |s|
    ensures forall y :: y in r <==> y in s && y.tag != t
  {
    if |s| == 0 then []
    else (if s[0].tag != t then [s[0]] else []) + WithoutTag(s[1..], t)
  }

  /**
   * The `forEach` of removeImageItem: for each record of `l` in turn, remove
   * the first record of the stack equal to it, if there is one.
   */
  function RemoveEach<K(!new), P(!new)>(s: seq<ChangeItem<K, P>>, l: seq<ChangeItem<K, P>>, eq: ItemEquality<K, P>): (r: seq<ChangeItem<K, P>>)
    ensures |r| <= |s| && |s| - |r| <= |l|
    ensures forall y :: y in r ==> y in s
    decreases |l|
  {
    if |l| == 0 then s
    else
      var s' := match FirstIndexOf(s, l[0], eq) case None => s case Some(i) => RemoveAt(s, i);
      RemoveEach(s', l[1..], eq)
  }

  /** The number of records in `s` equal to `x`. */
  function CountEq<K(!new), P(!new)>(s: seq<ChangeItem<K, P>>, x: ChangeItem<K, P>, eq: ItemEquality<K, P>): nat
  {
    if |s| == 0 then 0
    else (if eq(s[0], x) then 1 else 0) + CountEq(s[1..], x, eq)
  }

  // ---------------------------------------------------------------------------
  // Properties of undo

  /** Without a record of kind k, undo notifies nobody and keeps the stack. */
  lemma UndoWithoutMatch<K(!new), P(!new)>(s: seq<ChangeItem<K, P>>, k: K, eq: ItemEquality<K, P>)
    requires forall j :: 0 <= j < |s| ==> s[j].kind != k
    ensures UndoNotice(s, k) == None
    ensures UndoLast(s, k, eq) == s
  {
  }

  /**
   * With a record of kind k, the delegate gets the LAST such record (index j),
   * and the stack loses exactly one record: the first one (index i <= j)
   * equal to it; all others keep their order.
   */
  lemma UndoWithMatch<K(!new), P(!new)>(s: seq<ChangeItem<K, P>>, k: K, eq: ItemEquality<K, P>, j: nat, i: nat)
    requires IsItemEquality(eq)
    requires j < |s| && s[j].kind == k && forall l :: j < l < |s| ==> s[l].kind != k
    requires i < |s| && eq(s[i], s[j]) && forall l :: 0 <= l < i ==> !eq(s[l], s[j])
    ensures i <= j
    ensures UndoNotice(s, k) == Some(s[j])
    ensures UndoLast(s, k, eq) == s[..i] + s[i + 1..]
    ensures |UndoLast(s, k, eq)| == |s| - 1
  {
  }

  /**
   * Counted up to record equality, undo removes exactly the last record of
   * kind k: the stack it leaves holds as many records equal to any x as the
   * stack without its last match.
   */
  lemma UndoRemovesLastUpToEquality<K(!new), P(!new)>(s: seq<ChangeItem<K, P>>, k: K, eq: ItemEquality<K, P>, j: nat)
    requires IsItemEquality(eq)
    requires j < |s| && s[j].kind == k && forall l :: j < l < |s| ==> s[l].kind != k
    ensures forall x :: CountEq(UndoLast(s, k, eq), x, eq) == CountEq(RemoveAt(s, j), x, eq)
  {
    var first := FirstIndexOf(s, s[j], eq);
    assert eq(s[j], s[j]);
    var i := first.value;
    UndoWithMatch(s, k, eq, j, i);
    forall x
      ensures CountEq(UndoLast(s, k, eq), x, eq) == CountEq(RemoveAt(s, j), x, eq)
    {
      CountEqRemoveAt(s, i, x, eq);
      CountEqRemoveAt(s, j, x, eq);
      assert eq(s[i], x) <==> eq(s[j], x);
    }
  }

  /**
   * The first equal record need not be the last match: with structural
   * equality and two identical records, undo reports the later one and
   * removes the earlier one.
   */
  lemma UndoRemovesFirstEqualNotLast(a: ChangeItem<int, int>, b: ChangeItem<int, int>)
    requires a.kind == 1 && b.kind == 2
    ensures UndoNotice([a, b, a], 1) == Some(a)
    ensures UndoLast([a, b, a], 1, (x, y) => x == y) == [b, a]
    ensures RemoveAt([a, b, a], 2) == [a, b]
  {
  }

  // ---------------------------------------------------------------------------
  // Properties of removal by tag

  lemma {:induction false} CountEqAppend<K(!new), P(!new)>(a: seq<ChangeItem<K, P>>, b: seq<ChangeItem<K, P>>, x: ChangeItem<K, P>, eq: ItemEquality<K, P>)
    ensures CountEq(a + b, x, eq) == CountEq(a, x, eq) + CountEq(b, x, eq)
  {
    if |a| > 0 {
      assert (a + b)[1..] == a[1..] + b;
      CountEqAppend(a[1..], b, x, eq);
    } else {
      assert a + b == b;
    }
  }

  /** Removing the record at i lowers the count of records equal to x by one exactly when s[i] is equal to x. */
  lemma CountEqRemoveAt<K(!new), P(!new)>(s: seq<ChangeItem<K, P>>, i: nat, x: ChangeItem<K, P>, eq: ItemEquality<K, P>)
    requires i < |s|
    ensures CountEq(s, x, eq) == CountEq(RemoveAt(s, i), x, eq) + (if eq(s[i], x) then 1 else 0)
  {
    assert s == s[..i] + ([s[i]] + s[i + 1..]);
    CountEqAppend(s[..i], [s[i]] + s[i + 1..], x, eq);
    CountEqAppend([s[i]], s[i + 1..], x, eq);
    CountEqAppend(s[..i], s[i + 1..], x, eq);
  }

  /** A record equal to x somewhere in s makes the count positive. */
  lemma {:induction false} CountEqPositive<K(!new), P(!new)>(s: seq<ChangeItem<K, P>>, j: nat, x: ChangeItem<K, P>, eq: ItemEquality<K, P>)
    requires j < |s| && eq(s[j], x)
    ensures CountEq(s, x, eq) > 0
  {
    if j > 0 {
      CountEqPositive(s[1..], j - 1, x, eq);
    }
  }

  /** Only records with x's tag can be equal to x, so filtering by that tag keeps the count. */
  lemma {:induction false} CountEqTagged<K(!new), P(!new)>(s: seq<ChangeItem<K, P>>, t: int, x: ChangeItem<K, P>, eq: ItemEquality<K, P>)
    requires IsItemEquality(eq) && x.tag == t
    ensures CountEq(TaggedWith(s, t), x, eq) == CountEq(s, x, eq)
  {
    if |s| > 0 {
      CountEqTagged(s[1..], t, x, eq);
      CountEqAppend(if s[0].tag == t then [s[0]] else [], TaggedWith(s[1..], t), x, eq);
    }
  }

  lemma {:induction false} WithoutTagAppend<K(!new), P(!new)>(a: seq<ChangeItem<K, P>>, b: seq<ChangeItem<K, P>>, t: int)
    ensures WithoutTag(a + b, t) == WithoutTag(a, t) + WithoutTag(b, t)
  {
    if |a| > 0 {
      assert (a + b)[1..] == a[1..] + b;
      WithoutTagAppend(a[1..], b, t);
    } else {
      assert a + b == b;
    }
  }

  /** Removing a record that has tag t does not change what is left without tag t. */
  lemma WithoutTagRemoveAt<K(!new), P(!new)>(s: seq<ChangeItem<K, P>>, i: nat, t: int)
    requires i < |s| && s[i].tag == t
    ensures WithoutTag(RemoveAt(s, i), t) == WithoutTag(s, t)
  {
    assert s == s[..i] + ([s[i]] + s[i + 1..]);
    WithoutTagAppend(s[..i], [s[i]] + s[i + 1..], t);
    WithoutTagAppend([s[i]], s[i + 1..], t);
    WithoutTagAppend(s[..i], s[i + 1..], t);
  }

  lemma {:induction false} WithoutAbsentTag<K(!new), P(!new)>(s: seq<ChangeItem<K, P>>, t: int)
    requires forall j :: 0 <= j < |s| ==> s[j].tag != t
    ensures WithoutTag(s, t) == s
  {
    if |s| > 0 {
      WithoutAbsentTag(s[1..], t);
    }
  }

  /**
   * The heart of removeImageItem: if, class by class under record equality,
   * `l` lists exactly the records of `s` that carry tag t, removing the first
   * equal record once per element of `l` removes every record with tag t and
   * nothing else.
   */
  lemma {:induction false} RemoveEachClearsTag<K(!new), P(!new)>(s: seq<ChangeItem<K, P>>, l: seq<ChangeItem<K, P>>, t: int, eq: ItemEquality<K, P>)
    requires IsItemEquality(eq)
    requires forall y :: y in l ==> y.tag == t
    requires forall x: ChangeItem<K, P> :: x.tag == t ==> CountEq(s, x, eq) == CountEq(l, x, eq)
    ensures RemoveEach(s, l, eq) == WithoutTag(s, t)
    decreases |l|
  {
    if |l| == 0 {
      forall j | 0 <= j < |s|
        ensures s[j].tag != t
      {
        if s[j].tag == t {
          CountEqPositive(s, j, s[j], eq);
          assert false;
        }
      }
      WithoutAbsentTag(s, t);
    } else {
      var x := l[0];
      assert x in l;
      CountEqPositive(l, 0, x, eq);
      var first := FirstIndexOf(s, x, eq);
      if first.None? {
        assert CountEq(s, x, eq) > 0;
        CountEqZero(s, x, eq);
        assert false;
      }
      var i := first.value;
      var s' := RemoveAt(s, i);
      assert s[i].tag == t;
      forall y: ChangeItem<K, P> | y.tag == t
        ensures CountEq(s', y, eq) == CountEq(l[1..], y, eq)
      {
        CountEqRemoveAt(s, i, y, eq);
        assert eq(s[i], y) <==> eq(x, y);
      }
      forall y | y in l[1..] ensures y.tag == t {
        assert y in l;
      }
      RemoveEachClearsTag(s', l[1..], t, eq);
      WithoutTagRemoveAt(s, i, t);
    }
  }

  /** With no equal record at any position, the count is zero. */
  lemma {:induction false} CountEqZero<K(!new), P(!new)>(s: seq<ChangeItem<K, P>>, x: ChangeItem<K, P>, eq: ItemEquality<K, P>)
    requires forall j :: 0 <= j < |s| ==> !eq(s[j], x)
    ensures CountEq(s, x, eq) == 0
  {
    if |s| > 0 {
      CountEqZero(s[1..], x, eq);
    }
  }

  /**
   * removeImageItem as written (filter by tag, then remove the first equal
   * record for each) leaves exactly the records with other tags, in their
   * original order.
   */
  lemma RemoveByTag<K(!new), P(!new)>(s: seq<ChangeItem<K, P>>, t: int, eq: ItemEquality<K, P>)
    requires IsItemEquality(eq)
    ensures RemoveEach(s, TaggedWith(s, t), eq) == WithoutTag(s, t)
    ensures forall y :: y in RemoveEach(s, TaggedWith(s, t), eq) ==> y in s && y.tag != t
  {
    forall x: ChangeItem<K, P> | x.tag == t
      ensures CountEq(s, x, eq) == CountEq(TaggedWith(s, t), x, eq)
    {
      CountEqTagged(s, t, x, eq);
    }
    RemoveEachClearsTag(s, TaggedWith(s, t), t, eq);
  }

  // ---------------------------------------------------------------------------
  // The menu items and colour items the service mutates in place

  /** AGImageEditorMainMenuItem: the flags the service writes. */
  class MainMenuItem {
    var isSelected: bool
    var isHidden: bool

    constructor (selected: bool, hidden: bool)
      ensures isSelected == selected && isHidden == hidden
    {
      isSelected := selected;
      isHidden := hidden;
    }
  }

  /** AGColorEditorItem: a slider value and its maximum. */
  class ColorEditorItem {
    var currentValue: real
    var maxValue: real

    constructor (current: real, max: real)
      ensures currentValue == current && maxValue == max
    {
      currentValue := current;
      maxValue := max;
    }
  }

  // ---------------------------------------------------------------------------
  // The service

  class ImageEditorService<K(==,!new), P(!new)> {
    /** The equality of change records that firstIndex(of:) uses. */
    const itemEquality: ItemEquality<K, P>
    /** The size, font and colour menu items, in that order. */
    const imageEditorItemList: seq<MainMenuItem>
    const editorColorItems: seq<ColorEditorItem>

    var imageChangesStack: seq<ChangeItem<K, P>>
    var tagCounter: int
    var currentType: EditorType
    /** The records passed to the delegate's undoLastChanges, oldest first. */
    var undoNotices: seq<ChangeItem<K, P>>
    /** For each call of undoLastChanges, the change stack as it stood during that call. */
    ghost var stacksAtUndoNotice: seq<seq<ChangeItem<K, P>>>

    ghost predicate Valid()
      reads this
    {
      IsItemEquality(itemEquality) && |imageEditorItemList| == 3 && tagCounter >= 100
    }

    constructor (equality: ItemEquality<K, P>, menuItems: seq<MainMenuItem>, colorItems: seq<ColorEditorItem>)
      requires IsItemEquality(equality) && |menuItems| == 3
      ensures Valid()
      ensures itemEquality == equality && imageEditorItemList == menuItems && editorColorItems == colorItems
      ensures imageChangesStack == [] && undoNotices == [] && stacksAtUndoNotice == []
      ensures tagCounter == 100 && currentType == CaptionText
    {
      itemEquality := equality;
      imageEditorItemList := menuItems;
      editorColorItems := colorItems;
      imageChangesStack := [];
      tagCounter := 100;
      currentType := CaptionText;
      undoNotices := [];
      stacksAtUndoNotice := [];
    }

    /** newImageViewTag: every read yields a tag one above the previous, the first one 101. */
    method NewImageViewTag() returns (tag: int)
      requires Valid()
      modifies this`tagCounter
      ensures Valid()
      ensures tag == old(tagCounter) + 1 && tagCounter == tag
      ensures tag > 100
    {
      tagCounter := tagCounter + 1;
      tag := tagCounter;
    }

    /** The imageEditorItems getter: shows the font item only while a text editor is current. */
    method ImageEditorItems() returns (items: seq<MainMenuItem>)
      requires Valid()
      modifies imageEditorItemList[1]
      ensures items == imageEditorItemList
      ensures items[1].isSelected == old(items[1].isSelected)
      ensures items[1].isHidden == !IsTextEditorAvailable(currentType)
    {
      imageEditorItemList[1].isHidden := !IsTextEditorAvailable(currentType);
      items := imageEditorItemList;
    }

    method UnselectAllImageEditorItems()
      modifies imageEditorItemList
      ensures forall m :: m in imageEditorItemList ==> !m.isSelected
      ensures forall m :: m in imageEditorItemList ==> m.isHidden == old(m.isHidden)
    {
      for n := 0 to |imageEditorItemList|
        invariant forall j :: 0 <= j < n ==> !imageEditorItemList[j].isSelected
        invariant forall m :: m in imageEditorItemList ==> m.isHidden == old(m.isHidden)
      {
        imageEditorItemList[n].isSelected := false;
      }
    }

    method ResetEditorColorItems()
      modifies editorColorItems
      ensures forall c :: c in editorColorItems ==> c.maxValue == old(c.maxValue)
      ensures forall c :: c in editorColorItems ==> c.currentValue == c.maxValue
    {
      for n := 0 to |editorColorItems|
        invariant forall c :: c in editorColorItems ==> c.maxValue == old(c.maxValue)
        invariant forall j :: 0 <= j < n ==> editorColorItems[j].currentValue == editorColorItems[j].maxValue
      {
        editorColorItems[n].currentValue := editorColorItems[n].maxValue;
      }
    }

    /** addNewImageItem: a nil view changes nothing; otherwise one record is pushed on top. */
    method AddNewImageItem(imageView: Option<EditableImageView<K, P>>)
      modifies this`imageChangesStack
      ensures imageView.None? ==> imageChangesStack == old(imageChangesStack)
      ensures imageView.Some? ==> imageChangesStack == old(imageChangesStack) + [CreateWith(imageView.value)]
    {
      match imageView
      case None =>
      case Some(view) =>
        imageChangesStack := imageChangesStack + [CreateWith(view)];
    }

    /** undoLastChangesForType: notify the delegate of the last record of kind k, then drop the first record equal to it. */
    method UndoLastChangesForType(k: K)
      requires Valid()
      modifies this`imageChangesStack, this`undoNotices, this`stacksAtUndoNotice
      ensures undoNotices == old(undoNotices) + OptionToSeq(UndoNotice(old(imageChangesStack), k))
      ensures stacksAtUndoNotice == old(stacksAtUndoNotice)
                + (if UndoNotice(old(imageChangesStack), k).Some? then [old(imageChangesStack)] else [])
      ensures imageChangesStack == UndoLast(old(imageChangesStack), k, itemEquality)
      ensures UndoNotice(old(imageChangesStack), k).None? ==> imageChangesStack == old(imageChangesStack)
      ensures UndoNotice(old(imageChangesStack), k).Some? ==> |imageChangesStack| == |old(imageChangesStack)| - 1
    {
      var lastImageChanges := LastIndexOfKind(imageChangesStack, k);
      if lastImageChanges.None? {
        return;
      }
      var changes := imageChangesStack[lastImageChanges.value];
      undoNotices := undoNotices + [changes];
      stacksAtUndoNotice := stacksAtUndoNotice + [imageChangesStack];
      var index := FirstIndexOf(imageChangesStack, changes, itemEquality);
      assert itemEquality(changes, changes);
      UndoWithMatch(imageChangesStack, k, itemEquality, lastImageChanges.value, index.value);
      if index.Some? {
        imageChangesStack := RemoveAt(imageChangesStack, index.value);
      }
    }

    /** removeImageItem: a nil view changes nothing; otherwise every record with the view's tag goes. */
    method RemoveImageItem(imageView: Option<EditableImageView<K, P>>)
      requires Valid()
      modifies this`imageChangesStack
      ensures imageView.None? ==> imageChangesStack == old(imageChangesStack)
      ensures imageView.Some? ==> imageChangesStack == WithoutTag(old(imageChangesStack), imageView.value.tag)
    {
      if imageView.None? {
        return;
      }
      var tag := imageView.value.tag;
      var imageViewChangesStack := TaggedWith(imageChangesStack, tag);
      for n := 0 to |imageViewChangesStack|
        invariant RemoveEach(imageChangesStack, imageViewChangesStack[n..], itemEquality)
               == RemoveEach(old(imageChangesStack), imageViewChangesStack, itemEquality)
      {
        var rest := imageViewChangesStack[n..];
        assert rest[0] == imageViewChangesStack[n] && rest[1..] == imageViewChangesStack[n + 1..];
        var index := FirstIndexOf(imageChangesStack, imageViewChangesStack[n], itemEquality);
        if index.Some? {
          imageChangesStack := RemoveAt(imageChangesStack, index.value);
        }
      }
      assert imageViewChangesStack[|imageViewChangesStack|..] == [];
      RemoveByTag(old(imageChangesStack), tag, itemEquality);
    }
  }
}
