/** The client-side stores (src/store/index.ts): the project and its sections,
    notes and estimates held per section, the offline sync queue with its pending
    counter, and the assistant's suggestions. Each store is a class whose actions
    overwrite its fields; the new value of a field is given by a function of the
    old one, and those functions carry the properties. */
module Store {
  import opened Common
  import opened Types

  // ---------------------------------------------------------------------------
  // Lists held per section: `Record<string, T[]>`
  // ---------------------------------------------------------------------------

  /** `bySection[k] || []`: a missing section reads as an empty list. */
  function ListOf<T>(bySection: map<string, seq<T>>, k: string): seq<T> {
    if k in bySection then bySection[k] else []
  }

  /** `{...bySection, [k]: xs}`: section `k` is replaced, every other one kept. */
  function WithReplaced<T>(bySection: map<string, seq<T>>, k: string, xs: seq<T>): (r: map<string, seq<T>>)
    ensures r.Keys == bySection.Keys + {k}
    ensures ListOf(r, k) == xs
    ensures forall k' :: k' != k ==> ListOf(r, k') == ListOf(bySection, k')
  {
    bySection[k := xs]
  }

  /** `{...bySection, [k]: [x, ...(bySection[k] || [])]}`. */
  function WithPrepended<T>(bySection: map<string, seq<T>>, k: string, x: T): (r: map<string, seq<T>>)
    ensures r.Keys == bySection.Keys + {k}
    ensures |ListOf(r, k)| == |ListOf(bySection, k)| + 1
    ensures ListOf(r, k)[0] == x && ListOf(r, k)[1..] == ListOf(bySection, k)
    ensures forall k' :: k' != k ==> ListOf(r, k') == ListOf(bySection, k')
  {
    WithReplaced(bySection, k, [x] + ListOf(bySection, k))
  }

  /** `{...bySection, [k]: (bySection[k] || []).filter(x => key(x) !== id)}`. */
  function WithRemoved<T>(bySection: map<string, seq<T>>, k: string, key: T -> string, id: string): (r: map<string, seq<T>>)
    ensures r.Keys == bySection.Keys + {k}
    ensures IsSubsequence(ListOf(r, k), ListOf(bySection, k))
    ensures forall x :: x in ListOf(r, k) ==> x in ListOf(bySection, k) && key(x) != id
    ensures forall x :: x in ListOf(bySection, k) && key(x) != id ==> x in ListOf(r, k)
    ensures |ListOf(r, k)| == |ListOf(bySection, k)| - CountKey(ListOf(bySection, k), key, id)
    ensures forall k' :: k' != k ==> ListOf(r, k') == ListOf(bySection, k')
  {
    var before := ListOf(bySection, k);
    WithoutIsSubsequence(before, key, id);
    WithoutLength(before, key, id);
    WithReplaced(bySection, k, Without(before, key, id))
  }

  /** `{...bySection, [k]: (bySection[k] || []).map(x => key(x) === id ? f(x) : x)}`. */
  function WithUpdated<T>(bySection: map<string, seq<T>>, k: string, key: T -> string, id: string, f: T -> T): (r: map<string, seq<T>>)
    ensures r.Keys == bySection.Keys + {k}
    ensures |ListOf(r, k)| == |ListOf(bySection, k)|
    ensures forall i :: 0 <= i < |ListOf(bySection, k)| && key(ListOf(bySection, k)[i]) != id ==>
      ListOf(r, k)[i] == ListOf(bySection, k)[i]
    ensures forall i :: 0 <= i < |ListOf(bySection, k)| && key(ListOf(bySection, k)[i]) == id ==>
      ListOf(r, k)[i] == f(ListOf(bySection, k)[i])
    ensures forall k' :: k' != k ==> ListOf(r, k') == ListOf(bySection, k')
  {
    WithReplaced(bySection, k, UpdateWhere(ListOf(bySection, k), key, id, f))
  }

  // ---------------------------------------------------------------------------
  // Partial updates: `{...x, ...updates}`
  // ---------------------------------------------------------------------------

  /** `Partial<Section>`: `None` is a field the update leaves out. */
  datatype SectionPatch = SectionPatch(
    id: Option<string>,
    projectId: Option<string>,
    sectionType: Option<SectionType>,
    status: Option<SectionStatus>,
    notes: Option<string>,
    updatedAt: Option<string>)

  function ApplySectionPatch(s: Section, p: SectionPatch): Section {
    Section(p.id.GetOr(s.id), p.projectId.GetOr(s.projectId), p.sectionType.GetOr(s.sectionType),
            p.status.GetOr(s.status), p.notes.GetOr(s.notes), p.updatedAt.GetOr(s.updatedAt))
  }

  /** `Partial<Note>`. */
  datatype NotePatch = NotePatch(
    id: Option<string>,
    sectionId: Option<string>,
    projectId: Option<string>,
    content: Option<string>,
    media: Option<seq<MediaAttachment>>,
    audioTranscript: Option<Option<string>>,
    tags: Option<seq<string>>,
    createdAt: Option<string>,
    updatedAt: Option<string>)

  function ApplyNotePatch(n: Note, p: NotePatch): Note {
    Note(p.id.GetOr(n.id), p.sectionId.GetOr(n.sectionId), p.projectId.GetOr(n.projectId),
         p.content.GetOr(n.content), p.media.GetOr(n.media), p.audioTranscript.GetOr(n.audioTranscript),
         p.tags.GetOr(n.tags), p.createdAt.GetOr(n.createdAt), p.updatedAt.GetOr(n.updatedAt))
  }

  /** `Partial<Estimate>`. */
  datatype EstimatePatch = EstimatePatch(
    id: Option<string>,
    sectionId: Option<string>,
    projectId: Option<string>,
    contractorName: Option<string>,
    fileUrl: Option<string>,
    totalAmount: Option<int>,
    items: Option<seq<EstimateItem>>,
    isAccepted: Option<bool>,
    createdAt: Option<string>,
    updatedAt: Option<string>)

  function ApplyEstimatePatch(e: Estimate, p: EstimatePatch): Estimate {
    Estimate(p.id.GetOr(e.id), p.sectionId.GetOr(e.sectionId), p.projectId.GetOr(e.projectId),
             p.contractorName.GetOr(e.contractorName), p.fileUrl.GetOr(e.fileUrl),
             p.totalAmount.GetOr(e.totalAmount), p.items.GetOr(e.items), p.isAccepted.GetOr(e.isAccepted),
             p.createdAt.GetOr(e.createdAt), p.updatedAt.GetOr(e.updatedAt))
  }

  /** The notes after `updateNote(sectionId, noteId, updates)`. */
  function NotesAfterUpdate(bySection: map<string, seq<Note>>, sectionId: string, noteId: string, updates: NotePatch): map<string, seq<Note>> {
    WithUpdated(bySection, sectionId, NoteId, noteId, (n: Note) => ApplyNotePatch(n, updates))
  }

  /** The estimates after `updateEstimate(sectionId, estimateId, updates)`. */
  function EstimatesAfterUpdate(bySection: map<string, seq<Estimate>>, sectionId: string, estimateId: string, updates: EstimatePatch): map<string, seq<Estimate>> {
    WithUpdated(bySection, sectionId, EstimateId, estimateId, (e: Estimate) => ApplyEstimatePatch(e, updates))
  }

  /** An update that does not rewrite the id keeps the section's ids in place, so
      the list keeps its order: the i-th note is still the i-th note. */
  lemma UpdateNoteKeepsIds(bySection: map<string, seq<Note>>, sectionId: string, noteId: string, updates: NotePatch)
    requires updates.id.None?
    ensures var before, after := ListOf(bySection, sectionId), ListOf(NotesAfterUpdate(bySection, sectionId, noteId, updates), sectionId);
      |after| == |before| && forall i :: 0 <= i < |before| ==> after[i].id == before[i].id
  {
  }

  /** The sections after `updateSection(sectionId, updates)`. */
  function SectionsAfterUpdate(sections: seq<Section>, sectionId: string, updates: SectionPatch): (r: seq<Section>)
    ensures |r| == |sections|
    ensures forall i :: 0 <= i < |sections| && sections[i].id != sectionId ==> r[i] == sections[i]
    ensures forall i :: 0 <= i < |sections| && sections[i].id == sectionId ==> r[i] == ApplySectionPatch(sections[i], updates)
  {
    UpdateWhere(sections, SectionId, sectionId, (s: Section) => ApplySectionPatch(s, updates))
  }

  // ---------------------------------------------------------------------------
  // Project store
  // ---------------------------------------------------------------------------

  class ProjectStore {
    var currentProject: Option<Project>
    var sections: seq<Section>
    var loading: bool
    var error: Option<string>

    constructor ()
      ensures currentProject == None && sections == [] && !loading && error == None
    {
      currentProject, sections, loading, error := None, [], false, None;
    }

    method SetCurrentProject(project: Option<Project>)
      modifies this`currentProject
      ensures currentProject == project
    {
      currentProject := project;
    }

    method SetSections(newSections: seq<Section>)
      modifies this`sections
      ensures sections == newSections
    {
      sections := newSections;
    }

    method UpdateSection(sectionId: string, updates: SectionPatch)
      modifies this`sections
      ensures sections == SectionsAfterUpdate(old(sections), sectionId, updates)
    {
      sections := SectionsAfterUpdate(sections, sectionId, updates);
    }

    method SetLoading(value: bool)
      modifies this`loading
      ensures loading == value
    {
      loading := value;
    }

    method SetError(value: Option<string>)
      modifies this`error
      ensures error == value
    {
      error := value;
    }
  }

  // ---------------------------------------------------------------------------
  // Notes store
  // ---------------------------------------------------------------------------

  class NotesStore {
    var notesBySection: map<string, seq<Note>>
    var loading: bool
    var error: Option<string>

    constructor ()
      ensures notesBySection == map[] && !loading && error == None
    {
      notesBySection, loading, error := map[], false, None;
    }

    method SetNotes(sectionId: string, notes: seq<Note>)
      modifies this`notesBySection
      ensures notesBySection == WithReplaced(old(notesBySection), sectionId, notes)
    {
      notesBySection := WithReplaced(notesBySection, sectionId, notes);
    }

    method AddNote(sectionId: string, note: Note)
      modifies this`notesBySection
      ensures notesBySection == WithPrepended(old(notesBySection), sectionId, note)
    {
      notesBySection := WithPrepended(notesBySection, sectionId, note);
    }

    method UpdateNote(sectionId: string, noteId: string, updates: NotePatch)
      modifies this`notesBySection
      ensures notesBySection == NotesAfterUpdate(old(notesBySection), sectionId, noteId, updates)
    {
      notesBySection := NotesAfterUpdate(notesBySection, sectionId, noteId, updates);
    }

    method DeleteNote(sectionId: string, noteId: string)
      modifies this`notesBySection
      ensures notesBySection == WithRemoved(old(notesBySection), sectionId, NoteId, noteId)
    {
      notesBySection := WithRemoved(notesBySection, sectionId, NoteId, noteId);
    }

    method SetLoading(value: bool)
      modifies this`loading
      ensures loading == value
    {
      loading := value;
    }

    method SetError(value: Option<string>)
      modifies this`error
      ensures error == value
    {
      error := value;
    }
  }

  // ---------------------------------------------------------------------------
  // Estimates store: the same shape as the notes store
  // ---------------------------------------------------------------------------

  class EstimatesStore {
    var estimatesBySection: map<string, seq<Estimate>>
    var loading: bool
    var error: Option<string>

    constructor ()
      ensures estimatesBySection == map[] && !loading && error == None
    {
      estimatesBySection, loading, error := map[], false, None;
    }

    method SetEstimates(sectionId: string, estimates: seq<Estimate>)
      modifies this`estimatesBySection
      ensures estimatesBySection == WithReplaced(old(estimatesBySection), sectionId, estimates)
    {
      estimatesBySection := WithReplaced(estimatesBySection, sectionId, estimates);
    }

    method AddEstimate(sectionId: string, estimate: Estimate)
      modifies this`estimatesBySection
      ensures estimatesBySection == WithPrepended(old(estimatesBySection), sectionId, estimate)
    {
      estimatesBySection := WithPrepended(estimatesBySection, sectionId, estimate);
    }

    method UpdateEstimate(sectionId: string, estimateId: string, updates: EstimatePatch)
      modifies this`estimatesBySection
      ensures estimatesBySection == EstimatesAfterUpdate(old(estimatesBySection), sectionId, estimateId, updates)
    {
      estimatesBySection := EstimatesAfterUpdate(estimatesBySection, sectionId, estimateId, updates);
    }

    method DeleteEstimate(sectionId: string, estimateId: string)
      modifies this`estimatesBySection
      ensures estimatesBySection == WithRemoved(old(estimatesBySection), sectionId, EstimateId, estimateId)
    {
      estimatesBySection := WithRemoved(estimatesBySection, sectionId, EstimateId, estimateId);
    }

    method SetLoading(value: bool)
      modifies this`loading
      ensures loading == value
    {
      loading := value;
    }

    method SetError(value: Option<string>)
      modifies this`error
      ensures error == value
    {
      error := value;
    }
  }

  // ---------------------------------------------------------------------------
  // UI store: offline flag, theme and the sync queue
  // ---------------------------------------------------------------------------

  datatype Theme = Light | Dark

  /** `Math.max(0, count - 1)`. */
  function DecrementToZero(count: int): (r: int)
    ensures r >= 0
    ensures count >= 1 ==> r == count - 1
    ensures count <= 1 ==> r == 0
  {
    if count - 1 > 0 then count - 1 else 0
  }

  /** After `removeFromSyncQueue(id)` on a queue whose counter matched its length,
      the counter still matches exactly when the queue was empty or held the id
      once: the counter drops by one whatever the filter removed. */
  lemma {:induction false} RemoveKeepsCountIff(queue: seq<SyncQueueItem>, id: string)
    ensures DecrementToZero(|queue|) == |Without(queue, SyncItemId, id)|
            <==> queue == [] || CountKey(queue, SyncItemId, id) == 1
  {
    WithoutLength(queue, SyncItemId, id);
    if queue != [] && CountKey(queue, SyncItemId, id) != 1 {
      assert DecrementToZero(|queue|) == |queue| - 1;
    }
  }

  class UIStore {
    var isOffline: bool
    var pendingSyncCount: int
    var theme: Theme
    var syncQueue: seq<SyncQueueItem>

    /** The counter never goes below zero. */
    predicate Valid()
      reads this
    {
      pendingSyncCount >= 0
    }

    constructor ()
      ensures Valid()
      ensures !isOffline && pendingSyncCount == 0 && theme == Light && syncQueue == []
    {
      isOffline, pendingSyncCount, theme, syncQueue := false, 0, Light, [];
    }

    method SetOffline(value: bool)
      modifies this`isOffline
      ensures isOffline == value
    {
      isOffline := value;
    }

    method SetTheme(value: Theme)
      modifies this`theme
      ensures theme == value
    {
      theme := value;
    }

    method AddToSyncQueue(item: SyncQueueItem)
      requires Valid()
      modifies this`syncQueue, this`pendingSyncCount
      ensures Valid()
      ensures syncQueue == old(syncQueue) + [item]
      ensures pendingSyncCount == old(pendingSyncCount) + 1
    {
      syncQueue := syncQueue + [item];
      pendingSyncCount := pendingSyncCount + 1;
    }

    method RemoveFromSyncQueue(id: string)
      requires Valid()
      modifies this`syncQueue, this`pendingSyncCount
      ensures Valid()
      ensures syncQueue == Without(old(syncQueue), SyncItemId, id)
      ensures pendingSyncCount == DecrementToZero(old(pendingSyncCount))
    {
      syncQueue := Without(syncQueue, SyncItemId, id);
      pendingSyncCount := DecrementToZero(pendingSyncCount);
    }

    method ClearSyncQueue()
      modifies this`syncQueue, this`pendingSyncCount
      ensures Valid()
      ensures syncQueue == [] && pendingSyncCount == 0
    {
      syncQueue := [];
      pendingSyncCount := 0;
    }
  }

  // ---------------------------------------------------------------------------
  // Assistant suggestions store
  // ---------------------------------------------------------------------------

  function MarkDismissed(s: AISuggestion): AISuggestion {
    s.(dismissed := true)
  }

  /** `suggestions.map(s => s.id === id ? {...s, dismissed: true} : s)`. */
  function Dismissed(suggestions: seq<AISuggestion>, id: string): (r: seq<AISuggestion>)
    ensures |r| == |suggestions|
    ensures forall i :: 0 <= i < |r| ==> r[i].dismissed == (suggestions[i].dismissed || suggestions[i].id == id)
    ensures forall i :: 0 <= i < |r| ==> r[i].(dismissed := suggestions[i].dismissed) == suggestions[i]
  {
    UpdateWhere(suggestions, SuggestionId, id, MarkDismissed)
  }

  /** Dismissing twice is dismissing once. */
  lemma DismissIdempotent(suggestions: seq<AISuggestion>, id: string)
    ensures Dismissed(Dismissed(suggestions, id), id) == Dismissed(suggestions, id)
  {
    var once := Dismissed(suggestions, id);
    var twice := Dismissed(once, id);
    assert forall i :: 0 <= i < |once| ==> twice[i] == once[i];
  }

  class AISuggestionsStore {
    var suggestions: seq<AISuggestion>
    var loading: bool

    constructor ()
      ensures suggestions == [] && !loading
    {
      suggestions, loading := [], false;
    }

    method SetSuggestions(value: seq<AISuggestion>)
      modifies this`suggestions
      ensures suggestions == value
    {
      suggestions := value;
    }

    method AddSuggestion(suggestion: AISuggestion)
      modifies this`suggestions
      ensures suggestions == [suggestion] + old(suggestions)
    {
      suggestions := [suggestion] + suggestions;
    }

    method DismissSuggestion(id: string)
      modifies this`suggestions
      ensures suggestions == Dismissed(old(suggestions), id)
    {
      suggestions := Dismissed(suggestions, id);
    }

    method SetLoading(value: bool)
      modifies this`loading
      ensures loading == value
    {
      loading := value;
    }
  }
}
