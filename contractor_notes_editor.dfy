/** The contractor-notes editor (src/components/ContractorNotesEditor.tsx): a text
    with formatting buttons that append markup, attachments added from the
    gallery, the camera or the recorder and removed by id, a tag list fed by an
    input with suggestions, and saving that refuses blank content. */
module ContractorNotesEditor {
  import opened Common
  import opened Types

  const BoldMarkup := "**tekst**"
  const ItalicMarkup := "*tekst*"
  const ListMarkup := "\n- "

  // ---------------------------------------------------------------------------
  // Tag input with suggestions
  // ---------------------------------------------------------------------------

  /** `TAG_SUGGESTIONS[sectionType] || []`, keyed by the section's name. */
  function TagSuggestions(sectionType: string): seq<string> {
    if sectionType == "electrical" then ["gniazdka", "przewody", "bezpieczniki", "tablica", "oświetlenie", "smart-home"]
    else if sectionType == "plumbing" then ["piony", "ciśnienie", "ogrzewanie", "rury", "zawory", "bojler"]
    else if sectionType == "carpentry" then ["drzwi", "futryny", "podłogi", "parkiet", "listwy", "szafy"]
    else if sectionType == "finishing" then ["malowanie", "gładzie", "panele", "tapety", "płytki", "fuga"]
    else []
  }

  /** The suggestion contains the typed text, ignoring case. */
  predicate MatchesInput(suggestion: string, input: string) {
    Includes(Lower(suggestion), Lower(input))
  }

  /** `suggestions.filter(s => s.toLowerCase().includes(input.toLowerCase()) && !tags.includes(s))`. */
  function FilteredSuggestions(suggestions: seq<string>, input: string, tags: seq<string>): (r: seq<string>)
    ensures IsSubsequence(r, suggestions)
    ensures forall s :: s in r ==> s in suggestions && MatchesInput(s, input) && s !in tags
    ensures forall s :: s in suggestions && MatchesInput(s, input) && s !in tags ==> s in r
  {
    if suggestions == [] then []
    else
      var rest := FilteredSuggestions(suggestions[1..], input, tags);
      if MatchesInput(suggestions[0], input) && suggestions[0] !in tags then
        assert ([suggestions[0]] + rest)[1..] == rest;
        [suggestions[0]] + rest
      else
        SubsequenceOfTail(rest, suggestions);
        rest
  }

  const MaxShownSuggestions := 5

  /** `filteredSuggestions.slice(0, 5)`, rendered only while the list is open. */
  function ShownSuggestions(sectionType: string, input: string, tags: seq<string>, open: bool): (r: seq<string>)
    ensures |r| <= MaxShownSuggestions
    ensures !open ==> r == []
    ensures forall s :: s in r ==> s in TagSuggestions(sectionType) && MatchesInput(s, input) && s !in tags
  {
    var filtered := FilteredSuggestions(TagSuggestions(sectionType), input, tags);
    if !open then []
    else if |filtered| <= MaxShownSuggestions then filtered
    else
      assert forall s :: s in filtered[..MaxShownSuggestions] ==> s in filtered;
      filtered[..MaxShownSuggestions]
  }

  /** A section without suggestions offers none, whatever is typed. */
  lemma UnknownSectionSuggestsNothing(sectionType: string, input: string, tags: seq<string>, open: bool)
    requires sectionType !in {"electrical", "plumbing", "carpentry", "finishing"}
    ensures ShownSuggestions(sectionType, input, tags, open) == []
  {
  }

  /** With nothing typed every suggestion that is not yet a tag matches. */
  lemma EmptyInputKeepsAll(suggestions: seq<string>, tags: seq<string>)
    ensures forall s :: s in FilteredSuggestions(suggestions, "", tags) <==> s in suggestions && s !in tags
  {
    forall s | s in suggestions
      ensures MatchesInput(s, "")
    {
      assert Lower("") == "";
      IncludesEmpty(Lower(s));
    }
  }

  /** `tag.trim() && !tags.includes(tag.trim())`: the tag the input hands on, if any. */
  function SubmittedTag(tags: seq<string>, text: string): (r: Option<string>)
  {
    var tag := Trim(text);
    if tag != "" && tag !in tags then Some(tag) else None
  }

  /** A tag is handed on exactly when its trimmed text is non-empty and new,
      and it is handed on trimmed. */
  lemma SubmittedTagSpec(tags: seq<string>, text: string)
    ensures SubmittedTag(tags, text).Some? <==> Trim(text) != "" && Trim(text) !in tags
    ensures SubmittedTag(tags, text).Some? ==>
      var tag := SubmittedTag(tags, text).value;
      tag == Trim(text) && tag !in tags && Trim(tag) == tag
  {
    TrimIdempotent(text);
  }

  /** Adding the handed-on tag at the end keeps the list duplicate-free. */
  lemma AddSubmittedKeepsDistinct(tags: seq<string>, text: string)
    requires NoDuplicates(tags) && SubmittedTag(tags, text).Some?
    ensures NoDuplicates(tags + [SubmittedTag(tags, text).value])
  {
    var t := SubmittedTag(tags, text).value;
    var r := tags + [t];
    forall i, j | 0 <= i < j < |r|
      ensures r[i] != r[j]
    {
      if j == |tags| {
        assert r[i] in tags;
      }
    }
  }

  /** Removing a tag drops every copy of it and keeps the list duplicate-free. */
  lemma RemoveTagSpec(tags: seq<string>, tag: string)
    ensures tag !in Without(tags, TagText, tag)
    ensures IsSubsequence(Without(tags, TagText, tag), tags)
    ensures NoDuplicates(tags) ==> NoDuplicates(Without(tags, TagText, tag))
  {
    WithoutIsSubsequence(tags, TagText, tag);
    if NoDuplicates(tags) {
      SubsequenceNoDuplicates(Without(tags, TagText, tag), tags);
    }
  }

  /** The state of `TagInputWithAutocomplete`. */
  class TagInputState {
    const sectionType: string
    var inputValue: string
    var showSuggestions: bool

    /** The editor renders its tag input with the electrical suggestions. */
    constructor (sectionType: string)
      ensures this.sectionType == sectionType && inputValue == "" && !showSuggestions
    {
      this.sectionType := sectionType;
      inputValue := "";
      showSuggestions := false;
    }

    /** Typing opens the list while the text is non-empty. */
    method ChangeText(text: string)
      modifies this
      ensures inputValue == text && showSuggestions == (|text| > 0)
    {
      inputValue := text;
      showSuggestions := |text| > 0;
    }

    method Focus()
      modifies this`showSuggestions
      ensures showSuggestions == (|inputValue| > 0)
    {
      showSuggestions := |inputValue| > 0;
    }

    method Blur()
      modifies this`showSuggestions
      ensures !showSuggestions
    {
      showSuggestions := false;
    }

    /** The suggestions on screen for the current tags. */
    function Shown(tags: seq<string>): (r: seq<string>)
      reads this
      ensures |r| <= MaxShownSuggestions
    {
      ShownSuggestions(sectionType, inputValue, tags, showSuggestions)
    }

    /** `handleAddTag`: hands the trimmed tag on, then clears the input and
        closes the list; a refused tag changes nothing. */
    method HandleAddTag(tags: seq<string>, tag: string) returns (added: Option<string>)
      modifies this
      ensures added == SubmittedTag(tags, tag)
      ensures added.Some? ==> inputValue == "" && !showSuggestions
      ensures added.None? ==> inputValue == old(inputValue) && showSuggestions == old(showSuggestions)
    {
      var trimmed := Trim(tag);
      if trimmed != "" && trimmed !in tags {
        added := Some(trimmed);
        inputValue := "";
        showSuggestions := false;
      } else {
        added := None;
      }
    }
  }

  // ---------------------------------------------------------------------------
  // Attachments
  // ---------------------------------------------------------------------------

  /** What the image picker returns for one chosen image. */
  datatype PickedImage = PickedImage(uri: string, fileSize: Option<int>)

  /** The attachment made from a picked image; `prefix` is `image_` for the
      gallery and `photo_` for the camera, `stamp` the `Date.now()` in the name. */
  function ImageAttachment(id: string, prefix: string, stamp: string, asset: PickedImage, createdAt: string): (m: MediaAttachment)
    ensures m.id == id && m.mediaType == Image && m.url == asset.uri && m.thumbnailUrl == Some(asset.uri)
    ensures m.size == asset.fileSize.GetOr(0) && m.name == prefix + stamp + ".jpg"
  {
    MediaAttachment(id, Image, asset.uri, Some(asset.uri), "image/jpeg", asset.fileSize.GetOr(0), prefix + stamp + ".jpg", createdAt)
  }

  /** The placeholder attachment a stopped recording adds. */
  function AudioAttachment(id: string, stamp: string, createdAt: string): (m: MediaAttachment)
    ensures m.id == id && m.mediaType == Audio && m.url == "" && m.size == 0
    ensures m.mimeType == "audio/m4a" && m.name == "audio_" + stamp + ".m4a"
  {
    MediaAttachment(id, Audio, "", None, "audio/m4a", 0, "audio_" + stamp + ".m4a", createdAt)
  }

  /** Removing an attachment drops every attachment with that id, order kept. */
  lemma RemoveMediaSpec(media: seq<MediaAttachment>, id: string)
    ensures forall m :: m in Without(media, MediaId, id) ==> m.id != id
    ensures IsSubsequence(Without(media, MediaId, id), media)
    ensures |Without(media, MediaId, id)| == |media| - CountKey(media, MediaId, id)
  {
    WithoutIsSubsequence(media, MediaId, id);
    WithoutLength(media, MediaId, id);
  }

  /** What `onSave` receives. */
  datatype SavedNote = SavedNote(content: string, media: seq<MediaAttachment>, tags: seq<string>)

  /** `handleSave`: nothing for blank content, else the trimmed content. */
  function SaveResult(content: string, media: seq<MediaAttachment>, tags: seq<string>): (r: Option<SavedNote>)
  {
    var trimmed := Trim(content);
    if trimmed == "" then None else Some(SavedNote(trimmed, media, tags))
  }

  /** Saving is refused exactly for white-space-only content; a saved note has
      non-blank content that trimming no longer changes, and the current
      attachments and tags. */
  lemma SaveResultSpec(content: string, media: seq<MediaAttachment>, tags: seq<string>)
    ensures SaveResult(content, media, tags).None? <==> forall i :: 0 <= i < |content| ==> IsSpace(content[i])
    ensures SaveResult(content, media, tags).Some? ==>
      var saved := SaveResult(content, media, tags).value;
      saved.content != "" && Trim(saved.content) == saved.content
      && saved.media == media && saved.tags == tags
  {
    TrimEmptyIff(content);
    TrimIdempotent(content);
  }

  // ---------------------------------------------------------------------------
  // The editor
  // ---------------------------------------------------------------------------

  class ContractorNotesEditorState {
    var content: string
    var media: seq<MediaAttachment>
    var tags: seq<string>
    var isRecording: bool

    constructor (initialContent: string, initialTags: seq<string>)
      ensures content == initialContent && media == [] && tags == initialTags && !isRecording
    {
      content := initialContent;
      media := [];
      tags := initialTags;
      isRecording := false;
    }

    method SetContent(text: string)
      modifies this`content
      ensures content == text
    {
      content := text;
    }

    method HandleBold()
      modifies this`content
      ensures content == old(content) + BoldMarkup
    {
      content := content + BoldMarkup;
    }

    method HandleItalic()
      modifies this`content
      ensures content == old(content) + ItalicMarkup
    {
      content := content + ItalicMarkup;
    }

    method HandleList()
      modifies this`content
      ensures content == old(content) + ListMarkup
    {
      content := content + ListMarkup;
    }

    /** `handleAddImage` and `handleTakePhoto`: without permission, or when the
        picker is cancelled, nothing changes; otherwise one image is appended. */
    method HandlePickImage(granted: bool, picked: Option<PickedImage>, id: string, prefix: string, stamp: string, createdAt: string)
      modifies this`media
      ensures granted && picked.Some? ==> media == old(media) + [ImageAttachment(id, prefix, stamp, picked.value, createdAt)]
      ensures !(granted && picked.Some?) ==> media == old(media)
    {
      if !granted {
        return;
      }
      if picked.Some? {
        media := media + [ImageAttachment(id, prefix, stamp, picked.value, createdAt)];
      }
    }

    /** `handleRecordAudio`: flips the recording flag; stopping appends one
        audio attachment, starting appends none. */
    method HandleRecordAudio(id: string, stamp: string, createdAt: string)
      modifies this`isRecording, this`media
      ensures isRecording == !old(isRecording)
      ensures old(isRecording) ==> media == old(media) + [AudioAttachment(id, stamp, createdAt)]
      ensures !old(isRecording) ==> media == old(media)
    {
      var wasRecording := isRecording;
      isRecording := !isRecording;
      if wasRecording {
        media := media + [AudioAttachment(id, stamp, createdAt)];
      }
    }

    method HandleRemoveMedia(id: string)
      modifies this`media
      ensures media == Without(old(media), MediaId, id)
    {
      media := Without(media, MediaId, id);
    }

    method HandleAddTag(tag: string)
      modifies this`tags
      ensures tags == old(tags) + [tag]
    {
      tags := tags + [tag];
    }

    method HandleRemoveTag(tag: string)
      modifies this`tags
      ensures tags == Without(old(tags), TagText, tag)
    {
      tags := Without(tags, TagText, tag);
    }

    /** A tag submitted through the tag input: the input decides, the editor
        appends, and the tag list stays duplicate-free. */
    method SubmitTag(input: TagInputState, text: string)
      modifies this`tags, input
      ensures tags == (if SubmittedTag(old(tags), text).Some? then old(tags) + [SubmittedTag(old(tags), text).value] else old(tags))
      ensures NoDuplicates(old(tags)) ==> NoDuplicates(tags)
    {
      var added := input.HandleAddTag(tags, text);
      if added.Some? {
        if NoDuplicates(tags) {
          AddSubmittedKeepsDistinct(tags, text);
        }
        HandleAddTag(added.value);
      }
    }

    /** `handleSave`: what `onSave` receives, or nothing for blank content. */
    method HandleSave() returns (saved: Option<SavedNote>)
      ensures saved.None? <==> forall i :: 0 <= i < |content| ==> IsSpace(content[i])
      ensures saved.Some? ==> saved.value.content != "" && Trim(saved.value.content) == saved.value.content
      ensures saved.Some? ==> saved.value.content == Trim(content) && saved.value.media == media && saved.value.tags == tags
      ensures saved == SaveResult(content, media, tags)
    {
      SaveResultSpec(content, media, tags);
      var trimmed := Trim(content);
      if trimmed == "" {
        saved := None;
      } else {
        saved := Some(SavedNote(trimmed, media, tags));
      }
    }
  }
}
