/** The file list of a section (src/components/FileQuickAccess.tsx): four filters
    and their counts, the size shown for a file, the options of a file's menu
    and the empty views. */
module FileQuickAccess {
  import opened Common

  datatype FileType = Pdf | ImageFile | AudioFile | DocumentFile

  datatype FileCategory = EstimateFile | NoteFile | PhotoFile

  datatype FileItem = FileItem(
    id: string,
    name: string,
    fileType: FileType,
    url: string,
    size: int,
    createdAt: string,
    category: Option<FileCategory>)

  datatype FilterType = All | Estimates | Photos | AudioOnly

  /** The predicate of `filteredFiles` for each filter. */
  predicate Keeps(filter: FilterType, file: FileItem) {
    match filter
    case Estimates => file.category == Some(EstimateFile) || file.fileType == Pdf
    case Photos => file.fileType == ImageFile
    case AudioOnly => file.fileType == AudioFile
    case All => true
  }

  /** `files.filter(...)` for the chosen filter. */
  function FilterFiles(files: seq<FileItem>, filter: FilterType): (r: seq<FileItem>)
    ensures IsSubsequence(r, files)
    ensures forall f :: f in r ==> f in files && Keeps(filter, f)
    ensures forall f :: f in files && Keeps(filter, f) ==> f in r
  {
    if files == [] then []
    else
      var rest := FilterFiles(files[1..], filter);
      if Keeps(filter, files[0]) then
        assert ([files[0]] + rest)[1..] == rest;
        [files[0]] + rest
      else
        SubsequenceOfTail(rest, files);
        rest
  }

  /** The 'all' filter keeps the list as it is. */
  lemma {:induction false} FilterAllIsIdentity(files: seq<FileItem>)
    ensures FilterFiles(files, All) == files
  {
    if files != [] {
      FilterAllIsIdentity(files[1..]);
      assert [files[0]] + files[1..] == files;
    }
  }

  /** Number of files the filter keeps, counted one by one. */
  function CountKept(files: seq<FileItem>, filter: FilterType): (n: nat)
    ensures n <= |files|
  {
    if files == [] then 0
    else (if Keeps(filter, files[0]) then 1 else 0) + CountKept(files[1..], filter)
  }

  /** The counts on the four filter pills. */
  datatype Counts = Counts(all: nat, estimates: nat, photos: nat, audio: nat)

  function CountsOf(files: seq<FileItem>): Counts {
    Counts(|files|, CountKept(files, Estimates), CountKept(files, Photos), CountKept(files, AudioOnly))
  }

  lemma {:induction false} CountKeptIsFilterLength(files: seq<FileItem>, filter: FilterType)
    ensures CountKept(files, filter) == |FilterFiles(files, filter)|
  {
    if files != [] {
      CountKeptIsFilterLength(files[1..], filter);
    }
  }

  /** Each pill shows the length of the list its filter gives. */
  lemma CountsMatchFilters(files: seq<FileItem>)
    ensures CountsOf(files).all == |FilterFiles(files, All)| == |files|
    ensures CountsOf(files).estimates == |FilterFiles(files, Estimates)|
    ensures CountsOf(files).photos == |FilterFiles(files, Photos)|
    ensures CountsOf(files).audio == |FilterFiles(files, AudioOnly)|
  {
    FilterAllIsIdentity(files);
    CountKeptIsFilterLength(files, Estimates);
    CountKeptIsFilterLength(files, Photos);
    CountKeptIsFilterLength(files, AudioOnly);
  }

  /** Images and audio files are disjoint, so their pills add up to at most
      the total; an image filed as an estimate is counted under both
      'estimates' and 'photos'. */
  lemma {:induction false} PhotosAndAudioWithinAll(files: seq<FileItem>)
    ensures CountKept(files, Photos) + CountKept(files, AudioOnly) <= |files|
  {
    if files != [] {
      PhotosAndAudioWithinAll(files[1..]);
    }
  }

  // ---------------------------------------------------------------------------
  // Size text
  // ---------------------------------------------------------------------------

  const KiB := 1024
  const MiB := 1024 * 1024

  datatype SizeUnit = Bytes | Kilobytes | Megabytes

  /** The unit `formattedSize` picks. */
  function UnitOf(size: int): SizeUnit {
    if size < KiB then Bytes else if size < MiB then Kilobytes else Megabytes
  }

  /** `(x).toFixed(1)` of `size / scale` as tenths: the nearest tenth, a tie
      going up. */
  function Tenths(size: int, scale: int): (t: int)
    requires scale > 0
  {
    RoundDiv(10 * size, scale)
  }

  /** `x.toFixed(1)` for a non-negative `x` given in tenths: the whole part, a
      point and one digit. */
  function TenthsText(t: int): (s: string)
    ensures |s| >= 3 && s[|s| - 2] == '.'
  {
    ShowInt(t / 10) + "." + [DigitChar(t % 10)]
  }

  /** `formattedSize`: bytes below 1 KB, kilobytes below 1 MB, megabytes
      from there on. */
  function SizeText(size: int): (r: string)
    ensures size < KiB ==> r == ShowInt(size) + " B"
    ensures KiB <= size < MiB ==> |r| >= 3 && r[|r| - 3..] == " KB"
    ensures MiB <= size ==> |r| >= 3 && r[|r| - 3..] == " MB"
  {
    match UnitOf(size)
    case Bytes => ShowInt(size) + " B"
    case Kilobytes => TenthsText(Tenths(size, KiB)) + " KB"
    case Megabytes => TenthsText(Tenths(size, MiB)) + " MB"
  }

  /** The shown number: kilobytes range from 1.0 to 1024.0 (a size just below a
      megabyte rounds up to 1024.0 KB), megabytes start at 1.0. */
  lemma SizeTextRange(size: int)
    ensures UnitOf(size) == Kilobytes ==> 10 <= Tenths(size, KiB) <= 10240
    ensures UnitOf(size) == Megabytes ==> 10 <= Tenths(size, MiB)
  {
    if UnitOf(size) == Kilobytes {
      QuotientBetween(10 * size, KiB, 10, 10240);
    } else if UnitOf(size) == Megabytes {
      QuotientBetween(10 * size, MiB, 10, 10 * size);
    }
  }

  /** The number in the size text is the size in the chosen unit to the
      nearest tenth: 1.0 to 1024.0 for kilobytes, at least 1.0 for megabytes. */
  lemma SizeTextShows(size: int)
    ensures KiB <= size < MiB ==> exists t {:trigger TenthsText(t)} ::
      (SizeText(size) == TenthsText(t) + " KB" && 10 <= t <= 10240 && t == Tenths(size, KiB))
    ensures MiB <= size ==> exists t {:trigger TenthsText(t)} ::
      (SizeText(size) == TenthsText(t) + " MB" && 10 <= t && t == Tenths(size, MiB))
  {
    SizeTextRange(size);
    if KiB <= size < MiB {
      assert SizeText(size) == TenthsText(Tenths(size, KiB)) + " KB";
    } else if MiB <= size {
      assert SizeText(size) == TenthsText(Tenths(size, MiB)) + " MB";
    }
  }

  // ---------------------------------------------------------------------------
  // Menu and views
  // ---------------------------------------------------------------------------

  datatype MenuOption = Preview | AnalyzeWithAI | Delete

  /** The options of a file's menu. */
  function MenuOptions(file: FileItem): (options: seq<MenuOption>)
    ensures |options| >= 2 && options[0] == Preview && options[|options| - 1] == Delete
    ensures AnalyzeWithAI in options <==> file.fileType == Pdf
  {
    [Preview] + (if file.fileType == Pdf then [AnalyzeWithAI] else []) + [Delete]
  }

  datatype FilesView = EmptyState | NoResults | FileList(shown: seq<FileItem>)

  /** An empty section shows the empty state; otherwise the filtered list, or
      the no-results note when the filter keeps nothing. */
  function ViewOf(files: seq<FileItem>, filter: FilterType): (v: FilesView)
    ensures v == EmptyState <==> files == []
    ensures v == NoResults <==> files != [] && FilterFiles(files, filter) == []
    ensures v.FileList? ==> v.shown == FilterFiles(files, filter) && v.shown != []
  {
    if |files| == 0 then EmptyState
    else
      var shown := FilterFiles(files, filter);
      if shown == [] then NoResults else FileList(shown)
  }
}
