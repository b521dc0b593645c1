/** The plan section (src/screens/PlanScreen.tsx): the property details, the floor
    plan, the inspection checklist generated from the property, and the photos
    taken during the inspection. */
module PlanScreen {
  import opened Common
  import opened Types

  // ---------------------------------------------------------------------------
  // The checklist generated from the property details
  // ---------------------------------------------------------------------------

  /** A checklist entry as generated: not completed, no note, no photos. */
  function Task(id: string, category: Category, task: string, priority: Priority): (item: InspectionChecklistItem)
    ensures item.id == id && item.category == category && item.task == task && item.priority == priority
    ensures !item.completed && item.completedAt == None && item.notes == None && item.photoIds == None
  {
    InspectionChecklistItem(id, category, task, priority, false, None, None, None)
  }

  /** The thirteen entries every property gets, numbered "1" to "13". */
  function BaseChecklist(): (items: seq<InspectionChecklistItem>)
    ensures |items| == 13
    ensures forall i :: 0 <= i < 13 ==> items[i].id == IdText(i + 1)
    ensures forall i :: 0 <= i < 13 ==> !items[i].completed && items[i].completedAt == None
  {
    seq(13, i requires 0 <= i < 13 => BaseEntry(i + 1))
  }

  /** Base entry `n`. */
  function BaseEntry(n: nat): (item: InspectionChecklistItem)
    requires 1 <= n <= 13
    ensures item.id == IdText(n)
    ensures !item.completed && item.completedAt == None
  {
    match n
    case 1 => Task("1", Hydraulika, "Sprawdź stan pionów wodno-kanalizacyjnych", High)
    case 2 => Task("2", Hydraulika, "Zweryfikuj ciśnienie wody w punktach poboru", Medium)
    case 3 => Task("3", Hydraulika, "Sprawdź szczelność zaworów odcinających", High)
    case 4 => Task("4", Elektryka, "Zlokalizuj i sprawdź tablicę rozdzielczą", High)
    case 5 => Task("5", Elektryka, "Zweryfikuj typ instalacji (aluminium/miedź)", High)
    case 6 => Task("6", Elektryka, "Sprawdź działanie wszystkich gniazdek", Medium)
    case 7 => Task("7", Konstrukcja, "Sprawdź ściany pod kątem pęknięć i wilgoci", High)
    case 8 => Task("8", Konstrukcja, "Zweryfikuj stan sufitów - plamy, ugięcia", Medium)
    case 9 => Task("9", Konstrukcja, "Sprawdź poziom podłóg", Medium)
    case 10 => Task("10", Stolarka, "Sprawdź stan okien i ich szczelność", Medium)
    case 11 => Task("11", Stolarka, "Zweryfikuj działanie drzwi wewnętrznych", Low)
    case 12 => Task("12", Wentylacja, "Sprawdź ciąg w kratach wentylacyjnych", High)
    case _ => Task("13", Wentylacja, "Zweryfikuj stan nawiewników okiennych", Medium) // 13
  }

  const AsbestosCheck := Task("14", Inne, "Sprawdź możliwość występowania azbestu w materiałach budowlanych", High)
  const TransportCheck := Task("15", Inne, "Zaplanuj logistykę transportu materiałów (brak windy)", Medium)
  const RenovationHistoryCheck := Task("16", Inne, "Poproś o dokumentację poprzednich remontów", Medium)

  predicate IsOldBuilding(data: PropertyData) { data.year < 1990 }
  predicate IsHighWithoutElevator(data: PropertyData) { !data.hasElevator && data.floor > 3 }
  predicate IsSecondaryMarket(data: PropertyData) { data.marketType == Secondary }

  /** The checklist for a property: the base entries, then each extra entry whose
      condition holds, in the order asbestos, transport, renovation history. */
  function MockChecklist(data: PropertyData): seq<InspectionChecklistItem> {
    BaseChecklist() + Extras(data)
  }

  function Extras(data: PropertyData): seq<InspectionChecklistItem> {
    (if IsOldBuilding(data) then [AsbestosCheck] else [])
    + (if IsHighWithoutElevator(data) then [TransportCheck] else [])
    + (if IsSecondaryMarket(data) then [RenovationHistoryCheck] else [])
  }

  /** `generateMockChecklist`: the base list with the extra entries pushed one
      condition at a time. */
  method GenerateMockChecklist(data: PropertyData) returns (items: seq<InspectionChecklistItem>)
    ensures items == MockChecklist(data)
  {
    items := BaseChecklist();
    if data.year < 1990 {
      items := items + [AsbestosCheck];
    }
    if !data.hasElevator && data.floor > 3 {
      items := items + [TransportCheck];
    }
    if data.marketType == Secondary {
      items := items + [RenovationHistoryCheck];
    }
  }

  predicate HasItem(items: seq<InspectionChecklistItem>, id: string) {
    exists i :: 0 <= i < |items| && items[i].id == id
  }

  /** Every checklist keeps `completed` and `completedAt` in step. */
  predicate CompletionConsistent(items: seq<InspectionChecklistItem>) {
    forall i :: 0 <= i < |items| ==> (items[i].completed <==> items[i].completedAt.Some?)
  }

  /** The ids of `items` are the texts of `nums`, numbers below 20. */
  predicate Numbered(items: seq<InspectionChecklistItem>, nums: seq<nat>) {
    |nums| == |items| && forall i :: 0 <= i < |nums| ==> 1 <= nums[i] < 20 && items[i].id == IdText(nums[i])
  }

  predicate Increasing(nums: seq<nat>) {
    forall i, j :: 0 <= i < j < |nums| ==> nums[i] < nums[j]
  }

  lemma NumberedConcat(a: seq<InspectionChecklistItem>, an: seq<nat>, b: seq<InspectionChecklistItem>, bn: seq<nat>)
    requires Numbered(a, an) && Numbered(b, bn) && Increasing(an) && Increasing(bn)
    requires forall i, j :: 0 <= i < |an| && 0 <= j < |bn| ==> an[i] < bn[j]
    ensures Numbered(a + b, an + bn) && Increasing(an + bn)
  {
    var items, nums := a + b, an + bn;
    forall i | 0 <= i < |nums| ensures 1 <= nums[i] < 20 && items[i].id == IdText(nums[i]) {
      if i >= |an| {
        assert nums[i] == bn[i - |an|] && items[i] == b[i - |an|];
      }
    }
    forall i, j | 0 <= i < j < |nums| ensures nums[i] < nums[j] {
      if i >= |an| {
        assert nums[i] == bn[i - |an|] && nums[j] == bn[j - |an|];
      } else if j >= |an| {
        assert nums[j] == bn[j - |an|];
      }
    }
  }

  /** Ids "1" to "13", in order. */
  lemma BaseChecklistNumbered()
    ensures Numbered(BaseChecklist(), seq(13, i => i + 1))
  {
  }

  /** The numbers of the ids of the extra entries, in order. */
  function ExtraNumbers(data: PropertyData): seq<nat> {
    (if IsOldBuilding(data) then [14] else [])
    + (if IsHighWithoutElevator(data) then [15] else [])
    + (if IsSecondaryMarket(data) then [16] else [])
  }

  lemma ExtrasNumbered(data: PropertyData)
    ensures Numbered(Extras(data), ExtraNumbers(data)) && Increasing(ExtraNumbers(data))
    ensures forall k :: k in ExtraNumbers(data) ==> 14 <= k <= 16
  {
  }

  /** The generated checklist is numbered "1", "2", ... in increasing order,
      the base entries first. */
  lemma MockChecklistNumbering(data: PropertyData)
    ensures Numbered(MockChecklist(data), seq(13, i => i + 1) + ExtraNumbers(data))
    ensures Increasing(seq(13, i => i + 1) + ExtraNumbers(data))
  {
    var base: seq<nat> := seq(13, i => i + 1);
    BaseChecklistNumbered();
    ExtrasNumbered(data);
    var en := ExtraNumbers(data);
    forall i, j | 0 <= i < |base| && 0 <= j < |en| ensures base[i] < en[j] {
      assert en[j] in en;
    }
    NumberedConcat(BaseChecklist(), base, Extras(data), en);
  }

  /** In a numbered list, an id is present exactly when its number is. */
  lemma NumberedHas(items: seq<InspectionChecklistItem>, nums: seq<nat>, n: nat)
    requires Numbered(items, nums) && 1 <= n < 20
    ensures HasItem(items, IdText(n)) <==> n in nums
  {
    if HasItem(items, IdText(n)) {
      var i :| 0 <= i < |items| && items[i].id == IdText(n);
      IdTextInjective(nums[i], n);
    }
    if n in nums {
      var k :| 0 <= k < |nums| && nums[k] == n;
      assert items[k].id == IdText(n);
    }
  }

  /** Each extra entry is present exactly when its condition holds. */
  lemma MockChecklistExtras(data: PropertyData)
    ensures HasItem(MockChecklist(data), "14") <==> IsOldBuilding(data)
    ensures HasItem(MockChecklist(data), "15") <==> IsHighWithoutElevator(data)
    ensures HasItem(MockChecklist(data), "16") <==> IsSecondaryMarket(data)
  {
    var nums: seq<nat> := seq(13, i => i + 1) + ExtraNumbers(data);
    MockChecklistNumbering(data);
    forall n | 14 <= n <= 16
      ensures HasItem(MockChecklist(data), IdText(n)) <==> n in ExtraNumbers(data)
    {
      NumberedHas(MockChecklist(data), nums, n);
      assert n in nums <==> n in ExtraNumbers(data);
    }
    assert IdText(14) == "14" && IdText(15) == "15" && IdText(16) == "16";
  }

  /** A generated checklist holds the thirteen base entries and up to three
      extras, none of them completed. */
  lemma MockChecklistFresh(data: PropertyData)
    ensures 13 <= |MockChecklist(data)| <= 16
    ensures MockChecklist(data)[..13] == BaseChecklist()
    ensures forall i :: 0 <= i < |MockChecklist(data)| ==>
      !MockChecklist(data)[i].completed && MockChecklist(data)[i].completedAt == None
    ensures CompletionConsistent(MockChecklist(data))
  {
    var base, extras := BaseChecklist(), Extras(data);
    assert forall x :: x in extras ==> !x.completed && x.completedAt == None;
    forall i | 0 <= i < |base + extras|
      ensures !(base + extras)[i].completed && (base + extras)[i].completedAt == None
    {
      if i >= 13 {
        assert (base + extras)[i] == extras[i - 13];
      }
    }
  }

  /** No two entries of a generated checklist share an id. */
  lemma MockChecklistIdsDistinct(data: PropertyData)
    ensures NoDuplicates(MapSeq(MockChecklist(data), ChecklistItemId))
  {
    var items, nums: seq<nat> := MockChecklist(data), seq(13, i => i + 1) + ExtraNumbers(data);
    MockChecklistNumbering(data);
    var ids := MapSeq(items, ChecklistItemId);
    forall i, j | 0 <= i < j < |ids|
      ensures ids[i] != ids[j]
    {
      if ids[i] == ids[j] {
        IdTextInjective(nums[i], nums[j]);
      }
    }
  }

  // ---------------------------------------------------------------------------
  // Updates of the checklist and the photos
  // ---------------------------------------------------------------------------

  /** `{...item, completed, completedAt: completed ? now : undefined}`. */
  function SetCompleted(item: InspectionChecklistItem, completed: bool, now: string): InspectionChecklistItem {
    item.(completed := completed, completedAt := if completed then Some(now) else None)
  }

  /** The checklist after `handleItemToggle(itemId, completed)` at time `now`. */
  function Toggled(items: seq<InspectionChecklistItem>, itemId: string, completed: bool, now: string): (r: seq<InspectionChecklistItem>)
    ensures |r| == |items|
  {
    UpdateWhere(items, ChecklistItemId, itemId, (item: InspectionChecklistItem) => SetCompleted(item, completed, now))
  }

  /** The checklist after `handleItemNoteChange(itemId, notes)`. */
  function WithNote(items: seq<InspectionChecklistItem>, itemId: string, notes: string): (r: seq<InspectionChecklistItem>)
    ensures |r| == |items|
  {
    UpdateWhere(items, ChecklistItemId, itemId, (item: InspectionChecklistItem) => item.(notes := Some(notes)))
  }

  /** Toggling sets the entry with the id to the requested state, stamps it only
      when it becomes completed, leaves every other entry alone and keeps the ids
      in place; `completed` and `completedAt` stay in step. */
  lemma ToggledEffect(items: seq<InspectionChecklistItem>, itemId: string, completed: bool, now: string)
    ensures var r := Toggled(items, itemId, completed, now);
      (forall i :: 0 <= i < |items| && items[i].id == itemId ==>
         r[i].completed == completed && (r[i].completedAt == Some(now) <==> completed)
         && r[i].(completed := items[i].completed, completedAt := items[i].completedAt) == items[i])
      && (forall i :: 0 <= i < |items| && items[i].id != itemId ==> r[i] == items[i])
      && MapSeq(r, ChecklistItemId) == MapSeq(items, ChecklistItemId)
      && (CompletionConsistent(items) ==> CompletionConsistent(r))
  {
    var r := Toggled(items, itemId, completed, now);
    assert forall i :: 0 <= i < |items| ==> r[i].id == items[i].id;
  }

  /** Writing a note touches only the note of the entry with the id. */
  lemma WithNoteEffect(items: seq<InspectionChecklistItem>, itemId: string, notes: string)
    ensures var r := WithNote(items, itemId, notes);
      (forall i :: 0 <= i < |items| && items[i].id == itemId ==>
         r[i].notes == Some(notes) && r[i].(notes := items[i].notes) == items[i])
      && (forall i :: 0 <= i < |items| && items[i].id != itemId ==> r[i] == items[i])
      && MapSeq(r, ChecklistItemId) == MapSeq(items, ChecklistItemId)
      && (CompletionConsistent(items) ==> CompletionConsistent(r))
  {
    var r := WithNote(items, itemId, notes);
    assert forall i :: 0 <= i < |items| ==> r[i].id == items[i].id;
  }

  /** `route.params?.projectId || 'default'`. */
  function ProjectIdParam(param: Option<string>): (r: string)
    ensures r != []
    ensures param.Some? && param.value != [] ==> r == param.value
    ensures param.None? || param.value == [] ==> r == "default"
  {
    if param.Some? && param.value != [] then param.value else "default"
  }

  /** The photo `handleAddPhoto(uri, checklistItemId)` appends, its id being the
      decimal text of the clock in milliseconds. */
  function NewPhoto(projectId: string, uri: string, checklistItemId: Option<string>, nowMillis: int, now: string): InspectionPhoto {
    InspectionPhoto(ShowInt(nowMillis), projectId, uri, Some(uri), checklistItemId, now)
  }

  /** Removing a photo just added, whose id no earlier photo had, restores the
      gallery. */
  lemma RemoveAddedPhoto(photos: seq<InspectionPhoto>, photo: InspectionPhoto)
    requires CountKey(photos, PhotoId, photo.id) == 0
    ensures Without(photos + [photo], PhotoId, photo.id) == photos
  {
    WithoutAppend(photos, [photo], PhotoId, photo.id);
    WithoutAbsent(photos, PhotoId, photo.id);
    assert Without([photo], PhotoId, photo.id) == [];
  }

  // ---------------------------------------------------------------------------
  // The screen's state
  // ---------------------------------------------------------------------------

  /** The screen's state after each handler has finished; the loading flags are
      cleared again before a handler returns. */
  class PlanScreenState {
    const projectId: string
    var propertyData: Option<PropertyData>
    var floorPlanUri: Option<string>
    var checklistItems: seq<InspectionChecklistItem>
    var photos: seq<InspectionPhoto>
    var isSaving: bool
    var isGenerating: bool
    var isUploading: bool

    constructor (projectIdParam: Option<string>)
      ensures projectId == ProjectIdParam(projectIdParam)
      ensures propertyData == None && floorPlanUri == None && checklistItems == [] && photos == []
      ensures !isSaving && !isGenerating && !isUploading
    {
      projectId := ProjectIdParam(projectIdParam);
      propertyData, floorPlanUri, checklistItems, photos := None, None, [], [];
      isSaving, isGenerating, isUploading := false, false, false;
    }

    /** `handleGenerateChecklist(data?)`: uses the given data, else the saved
        data; with neither it only warns (`refused`). */
    method HandleGenerateChecklist(data: Option<PropertyData>) returns (refused: bool)
      modifies this`checklistItems
      ensures refused <==> data.None? && propertyData.None?
      ensures refused ==> checklistItems == old(checklistItems)
      ensures !refused ==> checklistItems == MockChecklist(if data.Some? then data.value else propertyData.value)
    {
      var dataToUse := if data.Some? then data else propertyData;
      if dataToUse.None? {
        refused := true;
        return;
      }
      refused := false;
      checklistItems := GenerateMockChecklist(dataToUse.value);
    }

    /** `handlePropertySave(data)`: keeps the data and generates the checklist
        when there is none yet. */
    method HandlePropertySave(data: PropertyData)
      modifies this`propertyData, this`checklistItems
      ensures propertyData == Some(data)
      ensures checklistItems == if old(checklistItems) == [] then MockChecklist(data) else old(checklistItems)
    {
      propertyData := Some(data);
      if |checklistItems| == 0 {
        var _ := HandleGenerateChecklist(Some(data));
      }
    }

    method HandleFloorPlanSelected(uri: string)
      modifies this`floorPlanUri
      ensures floorPlanUri == Some(uri)
    {
      floorPlanUri := Some(uri);
    }

    method HandleFloorPlanRemoved()
      modifies this`floorPlanUri
      ensures floorPlanUri == None
    {
      floorPlanUri := None;
    }

    method HandleItemToggle(itemId: string, completed: bool, now: string)
      modifies this`checklistItems
      ensures checklistItems == Toggled(old(checklistItems), itemId, completed, now)
    {
      checklistItems := Toggled(checklistItems, itemId, completed, now);
    }

    method HandleItemNoteChange(itemId: string, notes: string)
      modifies this`checklistItems
      ensures checklistItems == WithNote(old(checklistItems), itemId, notes)
    {
      checklistItems := WithNote(checklistItems, itemId, notes);
    }

    method HandleAddPhoto(uri: string, checklistItemId: Option<string>, nowMillis: int, now: string)
      modifies this`photos
      ensures photos == old(photos) + [NewPhoto(projectId, uri, checklistItemId, nowMillis, now)]
    {
      photos := photos + [NewPhoto(projectId, uri, checklistItemId, nowMillis, now)];
    }

    method HandleRemovePhoto(photoId: string)
      modifies this`photos
      ensures photos == Without(old(photos), PhotoId, photoId)
    {
      photos := Without(photos, PhotoId, photoId);
    }
  }
}
