/** The records of the application (src/types/index.ts). Timestamps and ids are
    opaque strings; amounts of money, sizes and counts are integers. */
module Types {
  import opened Common

  datatype SectionType = Plan | Electrical | Plumbing | Carpentry | Finishing | Costs

  datatype SectionStatus = NotStarted | InProgress | Completed

  datatype MarketType = Primary | Secondary

  datatype Project = Project(
    id: string,
    userId: string,
    name: string,
    address: string,
    area: int,
    floor: int,
    hasElevator: bool,
    marketType: MarketType,
    budgetPlanned: int,
    budgetSpent: int,
    createdAt: string,
    updatedAt: string)

  datatype Section = Section(
    id: string,
    projectId: string,
    sectionType: SectionType,
    status: SectionStatus,
    notes: string,
    updatedAt: string)

  datatype MediaType = Image | Audio | Video | Document

  datatype MediaAttachment = MediaAttachment(
    id: string,
    mediaType: MediaType,
    url: string,
    thumbnailUrl: Option<string>,
    mimeType: string,
    size: int,
    name: string,
    createdAt: string)

  datatype Note = Note(
    id: string,
    sectionId: string,
    projectId: string,
    content: string,
    media: seq<MediaAttachment>,
    audioTranscript: Option<string>,
    tags: seq<string>,
    createdAt: string,
    updatedAt: string)

  datatype EstimateItem = EstimateItem(
    id: string,
    name: string,
    quantity: int,
    unit: string,
    unitPrice: int,
    totalPrice: int,
    category: Option<string>)

  datatype Estimate = Estimate(
    id: string,
    sectionId: string,
    projectId: string,
    contractorName: string,
    fileUrl: string,
    totalAmount: int,
    items: seq<EstimateItem>,
    isAccepted: bool,
    createdAt: string,
    updatedAt: string)

  datatype AISuggestion = AISuggestion(
    id: string,
    projectId: string,
    suggestionText: string,
    shownAt: string,
    dismissed: bool)

  /** Categories of an inspection checklist item, as the application names them. */
  datatype Category = Hydraulika | Elektryka | Konstrukcja | Stolarka | Wentylacja | Inne

  datatype Priority = High | Medium | Low

  datatype InspectionChecklistItem = InspectionChecklistItem(
    id: string,
    category: Category,
    task: string,
    priority: Priority,
    completed: bool,
    completedAt: Option<string>,
    notes: Option<string>,
    photoIds: Option<seq<string>>)

  datatype InspectionPhoto = InspectionPhoto(
    id: string,
    projectId: string,
    photoUrl: string,
    thumbnailUrl: Option<string>,
    checklistItemId: Option<string>,
    createdAt: string)

  /** What the property form produces; `area` comes from `parseFloat`, so it may
      have a fraction. */
  datatype PropertyData = PropertyData(
    area: real,
    year: int,
    floor: int,
    hasElevator: bool,
    hasParking: bool,
    marketType: MarketType)

  datatype SyncAction = Create | Update | Delete

  datatype SyncEntity = NoteEntity | EstimateEntity | ExpenseEntity

  datatype SyncQueueItem = SyncQueueItem(
    id: string,
    action: SyncAction,
    entity: SyncEntity,
    timestamp: int,
    retries: int)

  // Keys by which the stores and editors find records.
  function NoteId(n: Note): string { n.id }
  function EstimateId(e: Estimate): string { e.id }
  function SectionId(s: Section): string { s.id }
  function SyncItemId(i: SyncQueueItem): string { i.id }
  function SuggestionId(s: AISuggestion): string { s.id }
  function MediaId(m: MediaAttachment): string { m.id }
  function PhotoId(p: InspectionPhoto): string { p.id }
  function ChecklistItemId(i: InspectionChecklistItem): string { i.id }
  function TagText(t: string): string { t }
}
