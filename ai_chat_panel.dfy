/** The per-section question list (src/components/AIChatPanel.tsx): a fixed bank
    of ten questions for each trade, one extra question put in front for a
    building from before 1990, toggling a question's `asked` flag by id,
    regenerating as a shuffle that clears every flag, and the collapsed view of
    the first five questions. */
module AIChatPanel {
  import opened Common
  import opened Types

  datatype AIQuestion = AIQuestion(id: string, question: string, why: string, asked: bool)

  /** The optional project facts the panel is given. */
  datatype ProjectData = ProjectData(area: Option<int>, year: Option<int>, floor: Option<int>)

  function QuestionId(q: AIQuestion): string { q.id }

  /** A bank entry: numbered id, not yet asked. */
  function Ask(n: nat, question: string, why: string): (q: AIQuestion)
    requires 1 <= n <= 10
    ensures q.id == IdText(n) && !q.asked
  {
    AIQuestion(IdText(n), question, why, false)
  }

  /** Entry `n` of a trade's bank. */
  function BankEntry(t: SectionType, n: nat): (string, string)
    requires IsTrade(t) && 1 <= n <= 10
  {
    match t
    case Electrical => ElectricalEntry(n)
    case Plumbing => PlumbingEntry(n)
    case Carpentry => CarpentryEntry(n)
    case Finishing => FinishingEntry(n)
  }

  /** Entry `n` of the electrical bank: the question and why it matters. */
  function ElectricalEntry(n: nat): (string, string)
    requires 1 <= n <= 10
  {
    match n
    case 1 =>
      ("Czy instalacja elektryczna spełnia normę PN-HD 60364?",
       "Norma określa bezpieczeństwo instalacji - kluczowe dla gwarancji")
    case 2 =>
      ("Jaka jest grubość przewodów do urządzeń AGD?",
       "AGD wymaga przewodów min. 2.5mm² dla bezpieczeństwa")
    case 3 =>
      ("Ile obwodów powinno być w kuchni?",
       "Kuchnia wymaga min. 3-4 obwodów (AGD, oświetlenie, gniazdka)")
    case 4 =>
      ("Czy wycena zawiera wymianę tablicy rozdzielczej?",
       "Stara tablica może nie obsłużyć nowych obwodów")
    case 5 =>
      ("Jaki jest termin gwarancji na wykonane prace?",
       "Standardowa gwarancja to min. 2 lata")
    case 6 =>
      ("Kto dostarcza materiały - wykonawca czy ja?",
       "Wpływa na cenę końcową i jakość materiałów")
    case 7 =>
      ("Czy instalacja będzie miała uziemienie?",
       "Uziemienie jest wymagane przez przepisy")
    case 8 =>
      ("Czy przewidziane jest oświetlenie awaryjne?",
       "Wymagane w korytarzach i przy wyjściach")
    case 9 =>
      ("Ile gniazdek USB planowanych w pomieszczeniach?",
       "Wygoda użytkowania - nie wymaga późniejszego dokładania")
    case _ => // 10
      ("Czy wycena obejmuje protokół odbioru i pomiary?",
       "Pomiary izolacji i uziemienia są wymagane")
  }

  /** Entry `n` of the plumbing bank: the question and why it matters. */
  function PlumbingEntry(n: nat): (string, string)
    requires 1 <= n <= 10
  {
    match n
    case 1 =>
      ("Jaki jest stan pionów wodno-kanalizacyjnych?",
       "Stare piony mogą wymagać wymiany w całym budynku")
    case 2 =>
      ("Jakie ciśnienie wody jest w instalacji?",
       "Wpływa na dobór armatury i komfort użytkowania")
    case 3 =>
      ("Czy wycena obejmuje próbę szczelności?",
       "Test pod ciśnieniem to podstawa gwarancji")
    case 4 =>
      ("Jaki termin gwarancji na szczelność instalacji?",
       "Min. 3 lata - przecieki mogą pojawić się po czasie")
    case 5 =>
      ("Czy planowana jest wymiana zaworów głównych?",
       "Stare zawory mogą nie trzymać przy awarii")
    case 6 =>
      ("Jaki materiał rur będzie użyty?",
       "PEX, PP czy miedź - różne trwałości i ceny")
    case 7 =>
      ("Czy instalacja przewiduje filtr mechaniczny?",
       "Chroni armaturę przed zanieczyszczeniami")
    case 8 =>
      ("Jakie spadki kanalizacji są planowane?",
       "Min. 2% dla odpływu - zapobiega zatorom")
    case 9 =>
      ("Czy bojler/piec wymaga wymiany?",
       "Stary piec może być nieefektywny energetycznie")
    case _ => // 10
      ("Czy wycena obejmuje montaż wodomierzy?",
       "Nowe wodomierze mogą być wymagane przez spółdzielnię")
  }

  /** Entry `n` of the carpentry bank: the question and why it matters. */
  function CarpentryEntry(n: nat): (string, string)
    requires 1 <= n <= 10
  {
    match n
    case 1 =>
      ("Jaka jest wilgotność w pomieszczeniach?",
       "Wpływa na wybór materiałów i aklimatyzację drewna")
    case 2 =>
      ("Czy podłogi mają być cyklinowane czy wymieniane?",
       "Cyklinowanie jest tańsze ale nie zawsze możliwe")
    case 3 =>
      ("Jakie certyfikaty mają materiały (FSC, E1)?",
       "Certyfikaty gwarantują jakość i bezpieczeństwo")
    case 4 =>
      ("Czy drzwi będą z ościeżnicą regulowaną?",
       "Łatwiejszy montaż i korekta po osiadaniu")
    case 5 =>
      ("Jaki jest czas aklimatyzacji materiałów?",
       "Min. 48h - zapobiega deformacji po montażu")
    case 6 =>
      ("Czy wycena obejmuje listwy przypodłogowe?",
       "Często pomijane - dolicz 10-15% do podłóg")
    case 7 =>
      ("Jaki typ zamków w drzwiach wewnętrznych?",
       "Magnetyczne są cichsze i trwalsze")
    case 8 =>
      ("Czy futryny będą malowane czy okleinowane?",
       "Okleinowane są trwalsze ale droższe")
    case 9 =>
      ("Jakie progi w drzwiach (obniżone, standardowe)?",
       "Wpływa na komfort i dostępność")
    case _ => // 10
      ("Czy jest gwarancja na zawiasy i okucia?",
       "Zawiasy to element zużywalny - min. 2 lata")
  }

  /** Entry `n` of the finishing bank: the question and why it matters. */
  function FinishingEntry(n: nat): (string, string)
    requires 1 <= n <= 10
  {
    match n
    case 1 =>
      ("Jaki harmonogram prac wykończeniowych?",
       "Kolejność: gładzie → malowanie → podłogi")
    case 2 =>
      ("Ile warstw gładzi będzie nakładanych?",
       "Min. 2 warstwy dla gładkiej powierzchni")
    case 3 =>
      ("Jaki typ farby (lateksowa, akrylowa)?",
       "Lateksowa jest zmywalna i trwalsza")
    case 4 =>
      ("Czy ściany wymagają gruntowania?",
       "Grunt poprawia przyczepność i zmniejsza zużycie farby")
    case 5 =>
      ("Jakie płytki w łazience (rektyfikowane)?",
       "Rektyfikowane = wąskie fugi, nowocześniejszy wygląd")
    case 6 =>
      ("Czy wycena obejmuje izolację pod płytkami?",
       "Wymagana w strefie prysznica i wanny")
    case 7 =>
      ("Jaki typ fugi (epoksydowa, cementowa)?",
       "Epoksydowa jest droższa ale nie plami się")
    case 8 =>
      ("Czy malowanie obejmuje sufity?",
       "Sufity często wymagane osobno w wycenie")
    case 9 =>
      ("Jaka jest tolerancja na nierówności ścian?",
       "Max 2mm/m - więcej wymaga dodatkowej pracy")
    case _ => // 10
      ("Czy wykonawca sprząta po zakończeniu prac?",
       "Sprzątanie poremontowe kosztuje 500-1500 zł")
  }

  /** `SECTION_QUESTIONS[sectionType] || []`: every trade has ten questions
      numbered '1' to '10', none asked; the plan and costs sections have none. */
  function SectionQuestions(t: SectionType): (qs: seq<AIQuestion>)
    ensures |qs| == if IsTrade(t) then 10 else 0
    ensures forall i :: 0 <= i < |qs| ==> qs[i].id == IdText(i + 1) && !qs[i].asked
  {
    Bank(BankTexts(t))
  }

  /** The texts of a section's bank, in order. */
  function BankTexts(t: SectionType): (texts: seq<(string, string)>)
    ensures |texts| == if IsTrade(t) then 10 else 0
  {
    if IsTrade(t) then seq(10, i requires 0 <= i < 10 => BankEntry(t, i + 1)) else []
  }

  /** A bank built from its texts: entry `i` gets the id `i + 1`. */
  function Bank(texts: seq<(string, string)>): (qs: seq<AIQuestion>)
    requires |texts| <= 10
    ensures |qs| == |texts|
    ensures forall i :: 0 <= i < |qs| ==> qs[i].id == IdText(i + 1) && !qs[i].asked
  {
    seq(|texts|, i requires 0 <= i < |texts| => Ask(i + 1, texts[i].0, texts[i].1))
  }

  predicate IsTrade(t: SectionType) {
    t == Electrical || t == Plumbing || t == Carpentry || t == Finishing
  }

  /** Ids are unique within a list. */
  predicate DistinctIds(qs: seq<AIQuestion>) {
    forall i, j :: 0 <= i < j < |qs| ==> qs[i].id != qs[j].id
  }

  predicate NoneAsked(qs: seq<AIQuestion>) {
    forall i :: 0 <= i < |qs| ==> !qs[i].asked
  }

  /** No two questions of a bank share an id. */
  lemma SectionQuestionsDistinct(t: SectionType)
    ensures NoneAsked(SectionQuestions(t))
    ensures DistinctIds(SectionQuestions(t))
  {
    var qs := SectionQuestions(t);
    forall i, j | 0 <= i < j < |qs|
      ensures qs[i].id != qs[j].id
    {
      if qs[i].id == qs[j].id {
        IdTextInjective(i + 1, j + 1);
      }
    }
  }

  /** `projectData && projectData.year && projectData.year < 1990`: a year of 0
      counts as missing. */
  predicate IsOldBuilding(data: Option<ProjectData>) {
    data.Some? && data.value.year.Some? && data.value.year.value != 0 && data.value.year.value < 1990
  }

  /** The question put in front for an old building, for the two trades that
      have one; its id is not numeric, unlike the bank's. */
  function OldBuildingQuestion(t: SectionType, year: int): (q: Option<AIQuestion>)
    ensures q.Some? <==> t == Electrical || t == Plumbing
    ensures q.Some? ==> !q.value.asked && q.value.id == (if t == Electrical then "old-1" else "old-2")
    ensures q.Some? ==> q.value.id != [] && !IsDigit(q.value.id[0])
  {
    if t == Electrical then
      Some(AIQuestion("old-1", "Czy instalacja zawiera przewody aluminiowe?",
        "Budynek z " + ShowInt(year) + " r. może mieć aluminium - wymaga wymiany", false))
    else if t == Plumbing then
      Some(AIQuestion("old-2", "Czy rury są stalowe ocynkowane?",
        "Stare budynki (" + ShowInt(year) + ") mają rury do wymiany", false))
    else None
  }

  /** The list `loadQuestions` stores. */
  function PersonalizedQuestions(t: SectionType, data: Option<ProjectData>): seq<AIQuestion> {
    if IsOldBuilding(data) && OldBuildingQuestion(t, data.value.year.value).Some? then
      [OldBuildingQuestion(t, data.value.year.value).value] + SectionQuestions(t)
    else SectionQuestions(t)
  }

  /** A question whose id starts with a letter can go in front of a numbered
      list. */
  lemma PrependToNumbered(q: AIQuestion, bank: seq<AIQuestion>)
    requires !q.asked && q.id != [] && !IsDigit(q.id[0])
    requires |bank| < 20 && forall i :: 0 <= i < |bank| ==> bank[i].id == IdText(i + 1) && !bank[i].asked
    ensures NoneAsked([q] + bank) && DistinctIds([q] + bank)
  {
    var qs := [q] + bank;
    forall i, j | 0 <= i < j < |qs|
      ensures qs[i].id != qs[j].id
    {
      assert qs[j] == bank[j - 1];
      if i == 0 {
        IdTextStartsWithDigit(j);
      } else {
        assert qs[i] == bank[i - 1];
        if qs[i].id == qs[j].id {
          IdTextInjective(i, j);
        }
      }
    }
  }

  /** The loaded list is the section's bank, with exactly one extra question in
      front for an old building in the electrical ('old-1') or plumbing ('old-2')
      section; nothing is asked yet and ids stay unique. */
  lemma PersonalizedQuestionsSpec(t: SectionType, data: Option<ProjectData>)
    ensures var qs, extra := PersonalizedQuestions(t, data), IsOldBuilding(data) && (t == Electrical || t == Plumbing);
      (extra ==>
        |qs| == |SectionQuestions(t)| + 1 && qs[1..] == SectionQuestions(t)
        && qs[0].id == (if t == Electrical then "old-1" else "old-2"))
      && (!extra ==> qs == SectionQuestions(t))
      && NoneAsked(qs) && DistinctIds(qs)
  {
    SectionQuestionsDistinct(t);
    if IsOldBuilding(data) && (t == Electrical || t == Plumbing) {
      var q := OldBuildingQuestion(t, data.value.year.value).value;
      PrependToNumbered(q, SectionQuestions(t));
      assert ([q] + SectionQuestions(t))[1..] == SectionQuestions(t);
    }
  }

  /** Flips `asked`. */
  function Flip(q: AIQuestion): AIQuestion {
    q.(asked := !q.asked)
  }

  /** `prev.map(q => q.id === questionId ? { ...q, asked: !q.asked } : q)`. */
  function Toggled(qs: seq<AIQuestion>, id: string): (r: seq<AIQuestion>)
    ensures |r| == |qs|
    ensures forall i :: 0 <= i < |qs| ==> r[i].id == qs[i].id && r[i].question == qs[i].question && r[i].why == qs[i].why
    ensures forall i :: 0 <= i < |qs| ==> r[i].asked == (if qs[i].id == id then !qs[i].asked else qs[i].asked)
  {
    UpdateWhere(qs, QuestionId, id, Flip)
  }

  /** Toggling the same question twice restores the list. */
  lemma ToggleTwice(qs: seq<AIQuestion>, id: string)
    ensures Toggled(Toggled(qs, id), id) == qs
  {
    var r := Toggled(Toggled(qs, id), id);
    assert forall i :: 0 <= i < |qs| ==> r[i] == qs[i];
  }

  function Cleared(q: AIQuestion): AIQuestion {
    q.(asked := false)
  }

  /** Every flag cleared, as regeneration leaves the list. */
  function ResetAll(qs: seq<AIQuestion>): (r: seq<AIQuestion>)
    ensures |r| == |qs| && NoneAsked(r)
    ensures forall i :: 0 <= i < |qs| ==> r[i] == qs[i].(asked := false)
  {
    MapSeq(qs, Cleared)
  }

  /** Taking out the element at `j` takes it out of the multiset. */
  lemma SplitAt<T>(s: seq<T>, j: nat)
    requires j < |s|
    ensures multiset(s) == multiset(s[..j] + s[j + 1..]) + multiset{s[j]}
  {
    assert s == s[..j] + [s[j]] + s[j + 1..];
  }

  /** Mapping and then taking out position `j` is taking it out first. */
  lemma MapSeqSplit<T, U>(xs: seq<T>, f: T -> U, j: nat)
    requires j < |xs|
    ensures multiset(MapSeq(xs, f)) == multiset(MapSeq(xs[..j] + xs[j + 1..], f)) + multiset{f(xs[j])}
  {
    SplitAt(MapSeq(xs, f), j);
    assert MapSeq(xs[..j] + xs[j + 1..], f) == MapSeq(xs, f)[..j] + MapSeq(xs, f)[j + 1..];
  }

  lemma CancelOne<T>(x: multiset<T>, y: multiset<T>, e: T)
    requires x + multiset{e} == y + multiset{e}
    ensures x == y
  {
    forall z
      ensures x[z] == y[z]
    {
      assert (x + multiset{e})[z] == (y + multiset{e})[z];
    }
  }

  /** Two orderings of the same elements stay so once a matching pair is taken out. */
  lemma RemoveMatching<T>(a: seq<T>, b: seq<T>, j: nat)
    requires multiset(a) == multiset(b) && a != [] && j < |b| && b[j] == a[0]
    ensures multiset(a[1..]) == multiset(b[..j] + b[j + 1..])
  {
    SplitAt(a, 0);
    assert a[..0] + a[1..] == a[1..];
    SplitAt(b, j);
    CancelOne(multiset(a[1..]), multiset(b[..j] + b[j + 1..]), a[0]);
  }

  /** Mapping two orderings of the same elements gives two orderings of the
      same images. */
  lemma {:induction false} MapSeqPermutation<T, U>(a: seq<T>, b: seq<T>, f: T -> U)
    requires multiset(a) == multiset(b)
    ensures multiset(MapSeq(a, f)) == multiset(MapSeq(b, f))
    decreases |a|
  {
    if a == [] {
      assert |b| == |multiset(b)| == 0;
    } else {
      assert a[0] in multiset(b);
      var j :| 0 <= j < |b| && b[j] == a[0];
      RemoveMatching(a, b, j);
      MapSeqPermutation(a[1..], b[..j] + b[j + 1..], f);
      MapSeqStep(a, b, j, f);
    }
  }

  /** The inductive step: equal images of the rests and of the matching pair. */
  lemma MapSeqStep<T, U>(a: seq<T>, b: seq<T>, j: nat, f: T -> U)
    requires a != [] && j < |b| && b[j] == a[0]
    requires multiset(MapSeq(a[1..], f)) == multiset(MapSeq(b[..j] + b[j + 1..], f))
    ensures multiset(MapSeq(a, f)) == multiset(MapSeq(b, f))
  {
    MapSeqCons(a, f);
    MapSeqSplit(b, f, j);
  }

  lemma MapSeqCons<T, U>(a: seq<T>, f: T -> U)
    requires a != []
    ensures multiset(MapSeq(a, f)) == multiset(MapSeq(a[1..], f)) + multiset{f(a[0])}
  {
    assert MapSeq(a, f) == [f(a[0])] + MapSeq(a[1..], f);
  }

  /** Clearing the flags of two orderings of the same questions gives two
      orderings of the same cleared questions. */
  lemma ResetAllPermutation(a: seq<AIQuestion>, b: seq<AIQuestion>)
    requires multiset(a) == multiset(b)
    ensures multiset(ResetAll(a)) == multiset(ResetAll(b))
  {
    MapSeqPermutation(a, b, Cleared);
  }

  /** Regeneration yields the current questions in some order, none asked. */
  lemma RegenerateSpec(qs: seq<AIQuestion>, shuffled: seq<AIQuestion>)
    requires multiset(shuffled) == multiset(qs)
    ensures var r := ResetAll(shuffled);
      |r| == |qs| && NoneAsked(r) && AskedCount(r) == 0
      && multiset(r) == multiset(ResetAll(qs))
  {
    ResetAllPermutation(shuffled, qs);
    assert |shuffled| == |multiset(shuffled)| == |qs|;
    AskedCountNone(ResetAll(shuffled));
  }

  /** `questions.filter(q => q.asked).length`. */
  function AskedCount(qs: seq<AIQuestion>): (n: nat)
    ensures n <= |qs|
  {
    if qs == [] then 0
    else (if qs[0].asked then 1 else 0) + AskedCount(qs[1..])
  }

  lemma {:induction false} AskedCountNone(qs: seq<AIQuestion>)
    ensures AskedCount(qs) == 0 <==> NoneAsked(qs)
  {
    if qs != [] {
      AskedCountNone(qs[1..]);
      assert NoneAsked(qs) <==> !qs[0].asked && NoneAsked(qs[1..]);
    }
  }

  /** Toggling a question whose id occurs once moves the count by exactly one. */
  lemma {:induction false} ToggleAskedCount(qs: seq<AIQuestion>, i: nat)
    requires i < |qs| && DistinctIds(qs)
    ensures AskedCount(Toggled(qs, qs[i].id)) == AskedCount(qs) + (if qs[i].asked then -1 else 1)
  {
    if i == 0 {
      ToggledTailUnchanged(qs[1..], qs[0].id);
      assert Toggled(qs, qs[0].id)[1..] == Toggled(qs[1..], qs[0].id);
    } else {
      ToggleAskedCount(qs[1..], i - 1);
      assert Toggled(qs, qs[i].id)[1..] == Toggled(qs[1..], qs[i].id);
    }
  }

  lemma ToggledTailUnchanged(qs: seq<AIQuestion>, id: string)
    requires forall j :: 0 <= j < |qs| ==> qs[j].id != id
    ensures Toggled(qs, id) == qs
  {
    var r := Toggled(qs, id);
    assert forall j :: 0 <= j < |qs| ==> r[j] == qs[j];
  }

  const CollapsedCount := 5

  /** `showAllQuestions ? questions : questions.slice(0, 5)`. */
  function Displayed(qs: seq<AIQuestion>, showAll: bool): (r: seq<AIQuestion>)
    ensures showAll ==> r == qs
    ensures !showAll ==> |r| == (if |qs| < CollapsedCount then |qs| else CollapsedCount) && r == qs[..|r|]
  {
    if showAll || |qs| <= CollapsedCount then qs else qs[..CollapsedCount]
  }

  /** `questions.length > 5`: the show-more button appears exactly when the
      collapsed view hides some question. */
  predicate ShowMoreVisible(qs: seq<AIQuestion>) {
    |qs| > CollapsedCount
  }

  lemma ShowMoreIff(qs: seq<AIQuestion>)
    ensures ShowMoreVisible(qs) <==> Displayed(qs, false) != qs
  {
    if ShowMoreVisible(qs) {
      assert |Displayed(qs, false)| < |qs|;
    }
  }

  class AIChatPanelState {
    var sectionType: SectionType
    var projectData: Option<ProjectData>
    var questions: seq<AIQuestion>
    var showAllQuestions: bool

    constructor (sectionType: SectionType, projectData: Option<ProjectData>)
      ensures this.sectionType == sectionType && this.projectData == projectData
      ensures questions == [] && !showAllQuestions
    {
      this.sectionType := sectionType;
      this.projectData := projectData;
      questions := [];
      showAllQuestions := false;
    }

    /** `loadQuestions`: copies the bank and `unshift`s the old-building question. */
    method LoadQuestions()
      modifies this`questions
      ensures questions == PersonalizedQuestions(sectionType, projectData)
    {
      var personalized := SectionQuestions(sectionType);
      if projectData.Some? {
        var year := projectData.value.year;
        if year.Some? && year.value != 0 && year.value < 1990 {
          if sectionType == Electrical {
            personalized := [OldBuildingQuestion(Electrical, year.value).value] + personalized;
          }
          if sectionType == Plumbing {
            personalized := [OldBuildingQuestion(Plumbing, year.value).value] + personalized;
          }
        }
      }
      questions := personalized;
    }

    /** `handleToggleQuestion`: flips the matching question and reports the id to
        `onQuestionAsked`. */
    method HandleToggleQuestion(questionId: string) returns (reported: string)
      modifies this`questions
      ensures questions == Toggled(old(questions), questionId)
      ensures reported == questionId
    {
      questions := UpdateWhere(questions, QuestionId, questionId, Flip);
      reported := questionId;
    }

    /** `handleRegenerate`: `shuffled` is the order the random sort produced. */
    method HandleRegenerate(shuffled: seq<AIQuestion>)
      requires multiset(shuffled) == multiset(questions)
      modifies this`questions
      ensures questions == ResetAll(shuffled)
    {
      var reset: seq<AIQuestion> := [];
      for i := 0 to |shuffled|
        invariant reset == ResetAll(shuffled[..i])
      {
        reset := reset + [Cleared(shuffled[i])];
      }
      assert shuffled[..|shuffled|] == shuffled;
      questions := reset;
    }

    /** The show-more button flips between the collapsed and the full view. */
    method ToggleShowAll()
      modifies this`showAllQuestions
      ensures showAllQuestions == !old(showAllQuestions)
    {
      showAllQuestions := !showAllQuestions;
    }
  }
}
