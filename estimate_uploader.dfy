/** Entering a contractor's estimate (src/components/EstimateUploader.tsx): a PDF
    picked from the device, items read from it or typed in by hand, a running
    total, the contractor's name, and the guards on saving. */
module EstimateUploader {
  import opened Common
  import opened Types

  /** The largest file accepted: 5 MB. */
  const MaxFileSize := 5 * 1024 * 1024

  datatype SelectedFile = SelectedFile(name: string, uri: string, size: int)

  /** What the document picker returns; `size` may be missing. */
  datatype PickResult = Canceled | Picked(name: string, uri: string, size: Option<int>)

  /** `file.size && file.size > 5 * 1024 * 1024`: a missing or zero size passes. */
  predicate TooLarge(size: Option<int>) {
    size.Some? && size.value != 0 && size.value > MaxFileSize
  }

  /** The sum of the items' totals (`reduce((sum, item) => sum + item.totalPrice, 0)`). */
  function ItemsTotal(items: seq<EstimateItem>): int {
    if items == [] then 0 else ItemsTotal(items[..|items| - 1]) + items[|items| - 1].totalPrice
  }

  /** Appending an item raises the total by its price. */
  lemma ItemsTotalAppend(items: seq<EstimateItem>, item: EstimateItem)
    ensures ItemsTotal(items + [item]) == ItemsTotal(items) + item.totalPrice
  {
    assert (items + [item])[..|items|] == items;
  }

  /** The items the analysis returns for every file. */
  function AnalyzedItems(): seq<EstimateItem> {
    [ EstimateItem("1", "Wymiana tablicy rozdzielczej", 1, "szt", 3500, 3500, Some("materiały")),
      EstimateItem("2", "Gniazdka podtynkowe", 15, "szt", 50, 750, Some("materiały")),
      EstimateItem("3", "Przewód YDY 3x2.5", 100, "m", 8, 800, Some("materiały")),
      EstimateItem("4", "Robocizna - instalacja elektryczna", 1, "kpl", 8000, 8000, Some("robocizna")) ]
  }

  /** Each analysed item's total is its quantity times its unit price, and they
      add up to 13050. */
  lemma AnalyzedItemsTotal()
    ensures forall i :: 0 <= i < |AnalyzedItems()| ==>
      AnalyzedItems()[i].totalPrice == AnalyzedItems()[i].quantity * AnalyzedItems()[i].unitPrice
    ensures ItemsTotal(AnalyzedItems()) == 13050
  {
    var items := AnalyzedItems();
    assert ItemsTotal(items[..1]) == 3500 by { assert items[..1][..0] == []; }
    assert ItemsTotal(items[..2]) == 4250 by { assert items[..2][..1] == items[..1]; }
    assert ItemsTotal(items[..3]) == 5050 by { assert items[..3][..2] == items[..2]; }
    assert items[..4] == items;
  }

  /** `.replace(/[_-]/g, ' ')`. */
  function SeparatorsToSpaces(s: string): (r: string)
    ensures |r| == |s|
    ensures forall i :: 0 <= i < |s| ==> r[i] == (if s[i] == '_' || s[i] == '-' then ' ' else s[i])
  {
    seq(|s|, i requires 0 <= i < |s| => if s[i] == '_' || s[i] == '-' then ' ' else s[i])
  }

  /** The contractor's name after an analysis: an entered name is kept; an empty
      one is replaced by the guess read from the file name, when there is one. */
  function NameAfterAnalysis(contractorName: string, fileNameMatch: Option<string>): (r: string)
    ensures contractorName != "" ==> r == contractorName
    ensures contractorName == "" && fileNameMatch.None? ==> r == ""
  {
    if contractorName == "" && fileNameMatch.Some? then Trim(SeparatorsToSpaces(fileNameMatch.value))
    else contractorName
  }

  /** The item a manual entry adds: quantity 1, unit `szt`, unit and total price
      both the amount; its id is the clock in milliseconds. */
  function ManualItem(name: string, amount: int, nowMillis: int): (item: EstimateItem)
    ensures item.name == name && item.quantity == 1 && item.unit == "szt"
    ensures item.unitPrice == amount && item.totalPrice == amount && item.category == None
  {
    EstimateItem(ShowInt(nowMillis), name, 1, "szt", amount, amount, None)
  }

  /** `parseFloat(text) || 0` for the quick total, on whole amounts. */
  function QuickTotal(text: string): (total: int)
    ensures ParseInt(text).Some? ==> total == ParseInt(text).value
    ensures ParseInt(text).None? ==> total == 0
  {
    if ParseInt(text).Some? then ParseInt(text).value else 0
  }

  /** What is handed on when the estimate is saved. */
  datatype EstimateDraft = EstimateDraft(contractorName: string, totalAmount: int, items: seq<EstimateItem>, fileUrl: string)

  /** The save button is disabled, and saving refused, when there is no name or
      there is neither an item nor a total. */
  predicate SaveBlocked(contractorName: string, items: seq<EstimateItem>, totalAmount: int) {
    Trim(contractorName) == "" || (|items| == 0 && totalAmount == 0)
  }

  class EstimateUploaderState {
    var selectedFile: Option<SelectedFile>
    var contractorName: string
    var parsedItems: seq<EstimateItem>
    var totalAmount: int
    var showManualEntry: bool

    /** The total agrees with the items (it stops doing so once a quick total is typed). */
    predicate TotalMatchesItems()
      reads this
    {
      totalAmount == ItemsTotal(parsedItems)
    }

    constructor ()
      ensures selectedFile == None && contractorName == "" && parsedItems == [] && totalAmount == 0 && !showManualEntry
      ensures TotalMatchesItems()
    {
      selectedFile, contractorName, parsedItems, totalAmount, showManualEntry := None, "", [], 0, false;
    }

    /** `handleSelectFile`: a canceled pick changes nothing; a file over 5 MB is
        refused (`rejected`) and changes nothing; any other file is selected and
        the items and the total start again from empty. */
    method HandleSelectFile(pick: PickResult) returns (rejected: bool)
      modifies this`selectedFile, this`parsedItems, this`totalAmount
      ensures rejected <==> pick.Picked? && TooLarge(pick.size)
      ensures pick.Canceled? || rejected ==>
        selectedFile == old(selectedFile) && parsedItems == old(parsedItems) && totalAmount == old(totalAmount)
      ensures pick.Picked? && !rejected ==>
        selectedFile == Some(SelectedFile(pick.name, pick.uri, pick.size.GetOr(0)))
        && parsedItems == [] && totalAmount == 0 && TotalMatchesItems()
    {
      rejected := false;
      if pick.Canceled? {
        return;
      }
      if pick.size.Some? && pick.size.value != 0 && pick.size.value > 5 * 1024 * 1024 {
        rejected := true;
        return;
      }
      selectedFile := Some(SelectedFile(pick.name, pick.uri, if pick.size.Some? && pick.size.value != 0 then pick.size.value else 0));
      parsedItems := [];
      totalAmount := 0;
    }

    /** `handleAnalyzeWithAI`: refused without a file; otherwise the items are the
        analysed ones, the total is their sum, and an empty contractor name takes
        the guess from the file name (`fileNameMatch`, the text the pattern
        captured, if it matched). */
    method HandleAnalyzeWithAI(fileNameMatch: Option<string>) returns (refused: bool)
      modifies this`parsedItems, this`totalAmount, this`contractorName
      ensures refused <==> selectedFile.None?
      ensures refused ==> parsedItems == old(parsedItems) && totalAmount == old(totalAmount) && contractorName == old(contractorName)
      ensures !refused ==> parsedItems == AnalyzedItems() && totalAmount == ItemsTotal(AnalyzedItems())
      ensures !refused ==> contractorName == NameAfterAnalysis(old(contractorName), fileNameMatch)
      ensures !refused ==> TotalMatchesItems()
    {
      if selectedFile.None? {
        return true;
      }
      refused := false;
      var mockItems := AnalyzedItems();
      var total := ItemsTotal(mockItems);
      parsedItems := mockItems;
      totalAmount := total;
      if contractorName == "" {
        if fileNameMatch.Some? {
          contractorName := Trim(SeparatorsToSpaces(fileNameMatch.value));
        }
      }
    }

    /** `handleManualItemAdd(name, amount)`: one item appended, the total raised by
        exactly the amount. */
    method HandleManualItemAdd(name: string, amount: int, nowMillis: int)
      modifies this`parsedItems, this`totalAmount
      ensures parsedItems == old(parsedItems) + [ManualItem(name, amount, nowMillis)]
      ensures totalAmount == old(totalAmount) + amount
      ensures old(TotalMatchesItems()) ==> TotalMatchesItems()
    {
      ItemsTotalAppend(parsedItems, ManualItem(name, amount, nowMillis));
      parsedItems := parsedItems + [ManualItem(name, amount, nowMillis)];
      totalAmount := totalAmount + amount;
    }

    /** The remove button on the selected file: file, items and total reset together. */
    method RemoveFile()
      modifies this`selectedFile, this`parsedItems, this`totalAmount
      ensures selectedFile == None && parsedItems == [] && totalAmount == 0
      ensures TotalMatchesItems()
    {
      selectedFile := None;
      parsedItems := [];
      totalAmount := 0;
    }

    /** Typing a total without items. */
    method SetQuickTotal(text: string)
      modifies this`totalAmount
      ensures totalAmount == QuickTotal(text)
    {
      totalAmount := QuickTotal(text);
    }

    method SetContractorName(name: string)
      modifies this`contractorName
      ensures contractorName == name
    {
      contractorName := name;
    }

    method ToggleManualEntry()
      modifies this`showManualEntry
      ensures showManualEntry == !old(showManualEntry)
    {
      showManualEntry := !showManualEntry;
    }

    /** `handleSave`: refused (`None`) without a name or without both items and a
        total; otherwise the trimmed name, the total, the items and the file's
        uri (or the empty text) are handed on. */
    method HandleSave() returns (draft: Option<EstimateDraft>)
      ensures draft.None? <==> SaveBlocked(contractorName, parsedItems, totalAmount)
      ensures draft.Some? ==> draft.value == EstimateDraft(Trim(contractorName), totalAmount, parsedItems,
                                                          if selectedFile.Some? then selectedFile.value.uri else "")
    {
      if Trim(contractorName) == "" {
        return None;
      }
      if |parsedItems| == 0 && totalAmount == 0 {
        return None;
      }
      draft := Some(EstimateDraft(Trim(contractorName), totalAmount, parsedItems,
                                  if selectedFile.Some? then selectedFile.value.uri else ""));
    }
  }

  /** A saved draft always names its contractor, with no surrounding blanks, and
      has an item or a non-zero total. */
  lemma SavedDraftWellFormed(contractorName: string, items: seq<EstimateItem>, totalAmount: int)
    requires !SaveBlocked(contractorName, items, totalAmount)
    ensures Trim(contractorName) != "" && Trim(Trim(contractorName)) == Trim(contractorName)
    ensures |items| > 0 || totalAmount != 0
  {
    TrimIdempotent(contractorName);
  }

  // ---------------------------------------------------------------------------
  // The manual entry form
  // ---------------------------------------------------------------------------

  /** What the form submits: the trimmed name and `parseFloat` of the amount
      (`None` standing for `NaN`). */
  datatype ManualEntry = ManualEntry(name: string, amount: Option<real>)

  class ManualEntryForm {
    var itemName: string
    var itemAmount: string

    constructor ()
      ensures itemName == "" && itemAmount == ""
    {
      itemName, itemAmount := "", "";
    }

    /** `handleAdd`: submits only with a name that is not blank and a non-empty
        amount, then clears both inputs; otherwise nothing happens. */
    method HandleAdd() returns (submitted: Option<ManualEntry>)
      modifies this`itemName, this`itemAmount
      ensures submitted.Some? <==> Trim(old(itemName)) != "" && old(itemAmount) != ""
      ensures submitted.Some? ==> submitted.value == ManualEntry(Trim(old(itemName)), ParseFloat(old(itemAmount)))
                                  && itemName == "" && itemAmount == ""
      ensures submitted.None? ==> itemName == old(itemName) && itemAmount == old(itemAmount)
    {
      if Trim(itemName) != "" && itemAmount != "" {
        submitted := Some(ManualEntry(Trim(itemName), ParseFloat(itemAmount)));
        itemName := "";
        itemAmount := "";
      } else {
        submitted := None;
      }
    }
  }
}
