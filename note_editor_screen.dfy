/** The note editor screen (src/screens/NoteEditorScreen.tsx): content, attachments
    and tags of a new note, a tag input, and saving that builds the note and
    prepends it to its section in the notes store. */
module NoteEditorScreen {
  import opened Common
  import opened Types
  import opened Store
  import ContractorNotesEditor

  /** The route parameters of the screen. */
  datatype RouteParams = RouteParams(noteId: Option<string>, sectionId: string, projectId: string)

  /** `!!noteId`: an empty id counts as absent. */
  predicate IsEditing(params: RouteParams) {
    params.noteId.Some? && params.noteId.value != ""
  }

  /** The note `handleSave` builds; `createdAt` and `updatedAt` are two reads of
      the clock. */
  function NewNote(params: RouteParams, id: string, content: string, media: seq<MediaAttachment>, tags: seq<string>, createdAt: string, updatedAt: string): (n: Note)
    ensures n.id == id && n.sectionId == params.sectionId && n.projectId == params.projectId
    ensures n.content == Trim(content) && n.media == media && n.tags == tags && n.audioTranscript == None
  {
    Note(id, params.sectionId, params.projectId, Trim(content), media, None, tags, createdAt, updatedAt)
  }

  /** The notes store after `handleSave`: unchanged for blank content, else the
      new note prepended to its section. */
  function NotesAfterSave(notes: map<string, seq<Note>>, params: RouteParams, id: string, content: string, media: seq<MediaAttachment>, tags: seq<string>, createdAt: string, updatedAt: string): map<string, seq<Note>>
  {
    if Trim(content) == "" then notes
    else WithPrepended(notes, params.sectionId, NewNote(params, id, content, media, tags, createdAt, updatedAt))
  }

  /** Blank content leaves the store as it was; otherwise the section's list
      gains exactly one note in front, with the trimmed non-blank content, the
      route's section and project and the current attachments and tags, and
      every other section is unchanged. Whether a note id was passed plays no
      part: saving always creates a note. */
  lemma NotesAfterSaveSpec(notes: map<string, seq<Note>>, params: RouteParams, id: string, content: string, media: seq<MediaAttachment>, tags: seq<string>, createdAt: string, updatedAt: string)
    ensures var r := NotesAfterSave(notes, params, id, content, media, tags, createdAt, updatedAt);
      ((forall i :: 0 <= i < |content| ==> IsSpace(content[i])) ==> r == notes)
      && (!(forall i :: 0 <= i < |content| ==> IsSpace(content[i])) ==>
        |ListOf(r, params.sectionId)| == |ListOf(notes, params.sectionId)| + 1
        && ListOf(r, params.sectionId)[1..] == ListOf(notes, params.sectionId)
        && ListOf(r, params.sectionId)[0] == NewNote(params, id, content, media, tags, createdAt, updatedAt)
        && ListOf(r, params.sectionId)[0].content != ""
        && (forall k :: k != params.sectionId ==> ListOf(r, k) == ListOf(notes, k)))
  {
    TrimEmptyIff(content);
  }

  /** The screen's `TagInput`, whose text box is `newTag`. */
  class TagInput {
    var newTag: string

    constructor ()
      ensures newTag == ""
    {
      newTag := "";
    }

    method ChangeText(text: string)
      modifies this
      ensures newTag == text
    {
      newTag := text;
    }

    /** `handleAddTag`: hands on the trimmed text when it is non-empty and new,
        then clears the box; a refused text stays in the box. */
    method HandleAddTag(tags: seq<string>) returns (added: Option<string>)
      modifies this
      ensures added == ContractorNotesEditor.SubmittedTag(tags, old(newTag))
      ensures newTag == if added.Some? then "" else old(newTag)
    {
      var trimmed := Trim(newTag);
      if trimmed != "" && trimmed !in tags {
        added := Some(trimmed);
        newTag := "";
      } else {
        added := None;
      }
    }
  }

  class NoteEditorScreenState {
    const params: RouteParams
    const store: NotesStore
    var content: string
    var media: seq<MediaAttachment>
    var tags: seq<string>
    var isRecording: bool

    constructor (params: RouteParams, store: NotesStore)
      ensures this.params == params && this.store == store
      ensures content == "" && media == [] && tags == [] && !isRecording
    {
      this.params := params;
      this.store := store;
      content := "";
      media := [];
      tags := [];
      isRecording := false;
    }

    method SetContent(text: string)
      modifies this`content
      ensures content == text
    {
      content := text;
    }

    /** `handleRecordAudio` only flips the flag on this screen. */
    method HandleRecordAudio()
      modifies this`isRecording
      ensures isRecording == !old(isRecording)
    {
      isRecording := !isRecording;
    }

    method HandleAddTag(tag: string)
      modifies this`tags
      ensures tags == old(tags) + [tag]
    {
      tags := tags + [tag];
    }

    method HandleRemoveTag(tag: string)
      modifies this`tags
      ensures tags == Without(old(tags), TagText, tag)
    {
      tags := Without(tags, TagText, tag);
    }

    method HandleRemoveMedia(id: string)
      modifies this`media
      ensures media == Without(old(media), MediaId, id)
    {
      media := Without(media, MediaId, id);
    }

    /** A tag typed into the screen's tag input: the list stays duplicate-free. */
    method SubmitTag(input: TagInput)
      modifies this`tags, input
      ensures var submitted := ContractorNotesEditor.SubmittedTag(old(tags), old(input.newTag));
        tags == if submitted.Some? then old(tags) + [submitted.value] else old(tags)
      ensures NoDuplicates(old(tags)) ==> NoDuplicates(tags)
    {
      var text := input.newTag;
      var added := input.HandleAddTag(tags);
      if added.Some? {
        if NoDuplicates(tags) {
          ContractorNotesEditor.AddSubmittedKeepsDistinct(tags, text);
        }
        HandleAddTag(added.value);
      }
    }

    /** `handleSave`: refuses blank content and leaves the store alone;
        otherwise builds the note and calls `addNote`. `id` is the
        `Date.now()` text and the two stamps the ISO times. */
    method HandleSave(id: string, createdAt: string, updatedAt: string) returns (saved: bool)
      modifies store`notesBySection
      ensures saved <==> Trim(content) != ""
      ensures store.notesBySection == NotesAfterSave(old(store.notesBySection), params, id, content, media, tags, createdAt, updatedAt)
    {
      if Trim(content) == "" {
        saved := false;
        return;
      }
      var note := Note(id, params.sectionId, params.projectId, Trim(content), media, None, tags, createdAt, updatedAt);
      store.AddNote(params.sectionId, note);
      saved := true;
    }
  }
}
