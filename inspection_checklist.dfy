/** The inspection checklist view (src/components/AIInspectionChecklist.tsx): the
    count of completed items and the progress percentage, the grouping of the
    items by category, which of the three views is shown, and the row of one
    item with its note box. */
module InspectionChecklist {
  import opened Common
  import opened Types

  type Item = InspectionChecklistItem

  // ---------------------------------------------------------------------------
  // Progress
  // ---------------------------------------------------------------------------

  /** `items.filter(item => item.completed).length`. */
  function CompletedCount(items: seq<Item>): (n: nat)
    ensures n <= |items|
  {
    if items == [] then 0
    else (if items[0].completed then 1 else 0) + CompletedCount(items[1..])
  }

  predicate AllCompleted(items: seq<Item>) {
    forall i :: 0 <= i < |items| ==> items[i].completed
  }

  lemma {:induction false} CompletedCountFull(items: seq<Item>)
    ensures CompletedCount(items) == |items| <==> AllCompleted(items)
  {
    if items != [] {
      CompletedCountFull(items[1..]);
      assert AllCompleted(items) <==> items[0].completed && AllCompleted(items[1..]);
    }
  }

  /** `totalCount > 0 ? (completedCount / totalCount) * 100 : 0`. */
  function Progress(items: seq<Item>): real {
    if |items| > 0 then (CompletedCount(items) as real) / (|items| as real) * 100.0 else 0.0
  }

  /** The progress lies in [0, 100]; it is 0 for an empty list, and it is
      exactly 100 (the completed style) when a non-empty list is all done. */
  lemma ProgressSpec(items: seq<Item>)
    ensures 0.0 <= Progress(items) <= 100.0
    ensures items == [] ==> Progress(items) == 0.0
    ensures Progress(items) == 100.0 <==> items != [] && AllCompleted(items)
  {
    CompletedCountFull(items);
    if items != [] {
      var c, t := CompletedCount(items), |items|;
      QuotientBetween(c, t, 0, 1);
      QuotientOne(c, t);
    }
  }

  /** `Math.round(progress)`, the percentage printed beside the bar. */
  function ProgressLabel(items: seq<Item>): (r: int)
    ensures 0 <= r <= 100
  {
    if |items| > 0 then
      var c, t := CompletedCount(items), |items|;
      var p := RoundDiv(100 * c, t);
      QuotientBetween(100 * c, t, 0, 100);
      p
    else 0
  }

  // ---------------------------------------------------------------------------
  // Grouping by category
  // ---------------------------------------------------------------------------

  /** The items of one category, in list order. */
  function ItemsIn(items: seq<Item>, c: Category): (r: seq<Item>)
    ensures IsSubsequence(r, items)
    ensures forall x :: x in r ==> x in items && x.category == c
    ensures forall x :: x in items && x.category == c ==> x in r
  {
    if items == [] then []
    else
      var rest := ItemsIn(items[1..], c);
      if items[0].category == c then
        assert ([items[0]] + rest)[1..] == rest;
        [items[0]] + rest
      else
        SubsequenceOfTail(rest, items);
        rest
  }

  lemma {:induction false} ItemsInAppend(xs: seq<Item>, ys: seq<Item>, c: Category)
    ensures ItemsIn(xs + ys, c) == ItemsIn(xs, c) + ItemsIn(ys, c)
  {
    if xs == [] {
      assert xs + ys == ys;
    } else {
      assert (xs + ys)[1..] == xs[1..] + ys;
      ItemsInAppend(xs[1..], ys, c);
    }
  }

  /** The categories in the order they first occur: the order of the keys of
      the grouping object. */
  function CategoryOrder(items: seq<Item>): (order: seq<Category>)
    ensures NoDuplicates(order)
    ensures forall c :: c in order <==> exists i :: 0 <= i < |items| && items[i].category == c
  {
    if items == [] then []
    else
      var prefix := items[..|items| - 1];
      var c := items[|items| - 1].category;
      var order := CategoryOrder(prefix);
      assert forall i :: 0 <= i < |prefix| ==> prefix[i] == items[i];
      if c in order then order
      else
        var r := order + [c];
        assert forall i, j :: 0 <= i < j < |r| ==> r[i] != r[j] by {
          forall i, j | 0 <= i < j < |r| ensures r[i] != r[j] {
            if j == |order| { assert r[i] in order; }
          }
        }
        r
  }

  /** The grouping as the view renders it: groups in order of first occurrence. */
  datatype Groups = Groups(order: seq<Category>, byCategory: map<Category, seq<Item>>)

  /** What one more item does to the grouping: its category's list gains it at
      the end, and the category joins the order if it is new (with an empty list
      so far). */
  lemma GroupStep(prefix: seq<Item>, item: Item)
    ensures forall c :: ItemsIn(prefix + [item], c) == ItemsIn(prefix, c) + (if item.category == c then [item] else [])
    ensures CategoryOrder(prefix + [item]) ==
      if item.category in CategoryOrder(prefix) then CategoryOrder(prefix) else CategoryOrder(prefix) + [item.category]
    ensures item.category !in CategoryOrder(prefix) ==> ItemsIn(prefix, item.category) == []
  {
    forall c
      ensures ItemsIn(prefix + [item], c) == ItemsIn(prefix, c) + (if item.category == c then [item] else [])
    {
      ItemsInAppend(prefix, [item], c);
      assert [item][1..] == [];
    }
    assert (prefix + [item])[..|prefix|] == prefix;
    var group := ItemsIn(prefix, item.category);
    if group != [] {
      assert group[0] in prefix;
      var i :| 0 <= i < |prefix| && prefix[i] == group[0];
      assert prefix[i].category == item.category;
    }
  }

  /** The groups of `items` so far, as the loop keeps them. */
  predicate GroupsOf(items: seq<Item>, order: seq<Category>, acc: map<Category, seq<Item>>) {
    order == CategoryOrder(items)
    && (forall c :: c in acc <==> c in order)
    && (forall c :: c in acc ==> acc[c] == ItemsIn(items, c))
  }

  /** One step of the `reduce`: create the category's list on its first item,
      then push the item. */
  method AddToGroup(prefix: seq<Item>, item: Item, order: seq<Category>, acc: map<Category, seq<Item>>)
    returns (order': seq<Category>, acc': map<Category, seq<Item>>)
    requires GroupsOf(prefix, order, acc)
    ensures GroupsOf(prefix + [item], order', acc')
  {
    GroupStep(prefix, item);
    order', acc' := order, acc;
    if item.category !in acc' {
      acc' := acc'[item.category := []];
      order' := order' + [item.category];
    }
    acc' := acc'[item.category := acc'[item.category] + [item]];
  }

  /** The `reduce` of the view: one pass that creates a category's list on its
      first item and appends each item to the list of its category. */
  method GroupByCategory(items: seq<Item>) returns (groups: Groups)
    ensures groups.order == CategoryOrder(items)
    ensures forall c :: c in groups.byCategory <==> c in groups.order
    ensures forall c :: c in groups.byCategory ==> groups.byCategory[c] == ItemsIn(items, c)
  {
    var order: seq<Category> := [];
    var acc: map<Category, seq<Item>> := map[];
    for i := 0 to |items|
      invariant GroupsOf(items[..i], order, acc)
    {
      assert items[..i + 1] == items[..i] + [items[i]];
      order, acc := AddToGroup(items[..i], items[i], order, acc);
    }
    assert items[..|items|] == items;
    groups := Groups(order, acc);
  }

  /** Sum of the group sizes over a list of categories. */
  function GroupSizes(items: seq<Item>, cats: seq<Category>): nat {
    if cats == [] then 0 else |ItemsIn(items, cats[0])| + GroupSizes(items, cats[1..])
  }

  lemma {:induction false} GroupSizesAppendItem(items: seq<Item>, x: Item, cats: seq<Category>)
    requires NoDuplicates(cats)
    ensures GroupSizes(items + [x], cats) == GroupSizes(items, cats) + (if x.category in cats then 1 else 0)
  {
    if cats != [] {
      ItemsInAppend(items, [x], cats[0]);
      assert [x][1..] == [];
      assert NoDuplicates(cats[1..]) by {
        forall i, j | 0 <= i < j < |cats[1..]| ensures cats[1..][i] != cats[1..][j] {
          assert cats[1..][i] == cats[i + 1] && cats[1..][j] == cats[j + 1];
        }
      }
      GroupSizesAppendItem(items, x, cats[1..]);
      assert x.category in cats <==> x.category == cats[0] || x.category in cats[1..];
      if x.category == cats[0] {
        assert x.category !in cats[1..];
      }
    }
  }

  lemma {:induction false} GroupSizesAppendCategory(items: seq<Item>, cats: seq<Category>, c: Category)
    ensures GroupSizes(items, cats + [c]) == GroupSizes(items, cats) + |ItemsIn(items, c)|
  {
    if cats == [] {
      assert [c][1..] == [];
    } else {
      assert (cats + [c])[1..] == cats[1..] + [c];
      GroupSizesAppendCategory(items, cats[1..], c);
    }
  }

  /** The groups together hold every item exactly once: their sizes add up to
      the length of the list. */
  lemma {:induction false} GroupsCoverAll(items: seq<Item>)
    ensures GroupSizes(items, CategoryOrder(items)) == |items|
  {
    if items != [] {
      var prefix, x := items[..|items| - 1], items[|items| - 1];
      assert items == prefix + [x];
      GroupsCoverAll(prefix);
      var order := CategoryOrder(prefix);
      GroupSizesAppendItem(prefix, x, order);
      GroupStep(prefix, x);
      if x.category !in order {
        GroupSizesAppendCategory(items, order, x.category);
      }
    }
  }

  // ---------------------------------------------------------------------------
  // Which view
  // ---------------------------------------------------------------------------

  datatype ChecklistView = GeneratingView | EmptyView | ListView

  /** The generating view comes first, then the empty view for no items. */
  function ViewOf(items: seq<Item>, isGenerating: bool): (v: ChecklistView)
    ensures isGenerating <==> v == GeneratingView
    ensures v == EmptyView <==> !isGenerating && items == []
  {
    if isGenerating then GeneratingView
    else if |items| == 0 then EmptyView
    else ListView
  }

  // ---------------------------------------------------------------------------
  // One row
  // ---------------------------------------------------------------------------

  /** `!!item.notes`: an empty note counts as none. */
  predicate HasNote(item: Item) {
    item.notes.Some? && item.notes.value != ""
  }

  /** `handleNoteBlur`: the text is reported exactly when it differs from the
      stored note; a missing note differs from every text. */
  function NoteBlur(noteText: string, stored: Option<string>): (reported: Option<string>)
    ensures reported.Some? <==> stored != Some(noteText)
    ensures reported.Some? ==> reported.value == noteText
  {
    if stored == Some(noteText) then None else Some(noteText)
  }

  /** Leaving the box unedited reports nothing for an item with a stored note,
      but reports the empty text for an item without one. */
  lemma BlurWithoutEdit(item: Item)
    ensures NoteBlur(item.notes.GetOr(""), item.notes) == None <==> item.notes.Some?
  {
  }

  /** Once the parent stores the reported note, blurring again with the same
      text reports nothing. */
  lemma NoteBlurThenStored(noteText: string, stored: Option<string>)
    ensures var next := if NoteBlur(noteText, stored).Some? then NoteBlur(noteText, stored) else stored;
      NoteBlur(noteText, next) == None
  {
  }

  /** The state of `ChecklistItemRow`. `item` is the current prop: the parent
      may pass a new one on a later render, while the two `useState` values
      keep what they were initialised with. */
  class ChecklistItemRowState {
    var item: Item
    var showNote: bool
    var noteText: string

    constructor (item: Item)
      ensures this.item == item
      ensures showNote == HasNote(item) && noteText == item.notes.GetOr("")
    {
      this.item := item;
      showNote := item.notes.Some? && item.notes.value != "";
      noteText := if item.notes.Some? then item.notes.value else "";
    }

    /** Tapping the row asks for the opposite of the current flag. */
    method Press() returns (requested: bool)
      ensures requested == !item.completed
    {
      requested := !item.completed;
    }

    method ToggleNoteBox()
      modifies this`showNote
      ensures showNote == !old(showNote)
    {
      showNote := !showNote;
    }

    method ChangeNote(text: string)
      modifies this`noteText
      ensures noteText == text
    {
      noteText := text;
    }

    /** A later render with a new `item` prop: the state keeps its values. */
    method ReceiveItem(newItem: Item)
      modifies this`item
      ensures item == newItem
    {
      item := newItem;
    }

    /** `handleNoteBlur`: reports the text iff it differs from the stored note. */
    method HandleNoteBlur() returns (reported: Option<string>)
      ensures reported.Some? <==> item.notes != Some(noteText)
      ensures reported.Some? ==> reported.value == noteText
      ensures reported == NoteBlur(noteText, item.notes)
    {
      if item.notes != Some(noteText) {
        reported := Some(noteText);
      } else {
        reported := None;
      }
    }
  }
}
