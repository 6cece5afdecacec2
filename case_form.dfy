/** The record form of components/CaseForm.tsx: the draft it starts from,
    single-field edits, the AI-summary append rule and submission. The
    summary request itself is a network call; its answer (summary text or
    failure text alike) is a parameter. */
module CaseForm {
  import opened Types

  /** JavaScript's `s || dflt` on a string: the empty string is falsy. */
  function OrElse(s: string, dflt: string): string
  {
    if s != "" then s else dflt
  }

  /** The draft a form opens with: every field of `initialData`, or `''`
      when there is none; the medium falls back to `'Presencial'`. */
  function InitialDraft(initialData: Option<LegalCase>): (d: CaseDraft)
    ensures forall f :: IsDraftField(f) && f != Medium ==>
      DraftGet(d, f) == (if initialData.Some? then Get(initialData.value, f) else "")
    ensures d.medium == (if initialData.Some? && initialData.value.medium != "" then initialData.value.medium else Label(Presencial))
  {
    match initialData
    case None =>
      CaseDraft("", "", "", "", "", "", "", "", "", "", Label(Presencial), "")
    case Some(c) =>
      CaseDraft(
        OrElse(c.dateTime, ""), OrElse(c.nurej, ""), OrElse(c.caseNumber, ""),
        OrElse(c.city, ""), OrElse(c.characteristics, ""), OrElse(c.parties, ""),
        OrElse(c.crime, ""), OrElse(c.hearingType, ""), OrElse(c.courtRoom, ""),
        OrElse(c.lawyer, ""), OrElse(c.medium, Label(Presencial)),
        OrElse(c.observations, ""))
  }

  /** `{ ...prev, [name]: value }` on the draft. */
  function SetField(d: CaseDraft, name: Field, value: string): (r: CaseDraft)
    requires IsDraftField(name)
    ensures DraftGet(r, name) == value
    ensures forall f :: IsDraftField(f) && f != name ==> DraftGet(r, f) == DraftGet(d, f)
  {
    match name
    case DateTime => d.(dateTime := value)
    case Nurej => d.(nurej := value)
    case CaseNumber => d.(caseNumber := value)
    case City => d.(city := value)
    case Characteristics => d.(characteristics := value)
    case Parties => d.(parties := value)
    case Crime => d.(crime := value)
    case HearingType => d.(hearingType := value)
    case CourtRoom => d.(courtRoom := value)
    case Lawyer => d.(lawyer := value)
    case Medium => d.(medium := value)
    case Observations => d.(observations := value)
  }

  /** Writing a field twice keeps the last value only. */
  lemma SetFieldTwice(d: CaseDraft, name: Field, v: string, w: string)
    requires IsDraftField(name)
    ensures SetField(SetField(d, name, v), name, w) == SetField(d, name, w)
  {
    DraftsEqualByFields(SetField(SetField(d, name, v), name, w), SetField(d, name, w));
  }

  const SummaryTag: string := "Resumen IA: "

  /** The observations after an AI summary arrives: the tagged summary alone
      when there were none, else appended after a blank line. */
  function AppendSummary(observations: string, summary: string): (r: string)
    ensures observations <= r
    ensures |r| >= |observations| + |SummaryTag + summary|
    ensures r[|r| - |SummaryTag + summary|..] == SummaryTag + summary
    ensures observations != "" ==> r[|observations|..] == "\n\n" + SummaryTag + summary
    ensures observations == "" ==> r == SummaryTag + summary
  {
    if observations != "" then observations + "\n\n" + SummaryTag + summary
    else SummaryTag + summary
  }

  /** The observations after several summaries, in the order they arrive. */
  function AppendAll(observations: string, summaries: seq<string>): string
    decreases summaries
  {
    if summaries == [] then observations
    else AppendAll(AppendSummary(observations, summaries[0]), summaries[1..])
  }

  /** However many summaries arrive, the text that was there is kept as
      the start of the observations. */
  lemma {:induction false} AppendAllKeepsText(observations: string, summaries: seq<string>)
    ensures observations <= AppendAll(observations, summaries)
    ensures |AppendAll(observations, summaries)| >= |observations| + |SummaryTag| * |summaries|
    decreases summaries
  {
    if summaries != [] {
      var next := AppendSummary(observations, summaries[0]);
      AppendAllKeepsText(next, summaries[1..]);
      var all := AppendAll(next, summaries[1..]);
      assert all[..|observations|] == next[..|observations|];
    }
  }

  /** The inputs marked `required`: every text input but the two text areas. */
  const RequiredFields: seq<Field> := [
    DateTime, Nurej, CaseNumber, City, Crime, HearingType, CourtRoom, Lawyer, Parties]

  /** The required set is the draft minus the medium select and the
      characteristics and observations text areas. */
  lemma RequiredFieldsAre(f: Field)
    ensures f in RequiredFields <==>
      IsDraftField(f) && f != Medium && f != Characteristics && f != Observations
  {
  }

  /** The browser accepts the form only when no required input is empty. */
  predicate RequiredFilled(d: CaseDraft)
  {
    forall f :: f in RequiredFields ==> IsDraftField(f) && DraftGet(d, f) != ""
  }

  /** The state of an open form: the draft and the analysing flag. */
  class FormState {
    var formData: CaseDraft
    var isAnalyzing: bool

    constructor (initialData: Option<LegalCase>)
      ensures formData == InitialDraft(initialData)
      ensures !isAnalyzing
    {
      formData := InitialDraft(initialData);
      isAnalyzing := false;
    }

    /** `handleChange`: the named input's new value replaces that field only. */
    method HandleChange(name: Field, value: string)
      requires IsDraftField(name)
      modifies this`formData
      ensures formData == SetField(old(formData), name, value)
    {
      formData := SetField(formData, name, value);
    }

    /** The "Analizar con IA" button is disabled while a request is
        outstanding or when there are no characteristics to analyse. */
    function AnalyzeDisabled(): (disabled: bool)
      reads this
      ensures isAnalyzing ==> disabled
      ensures formData.characteristics == "" ==> disabled
      ensures disabled ==> isAnalyzing || formData.characteristics == ""
    {
      isAnalyzing || formData.characteristics == ""
    }

    /** `handleAIAnalysis` up to its `await`: with characteristics present it
        raises the analysing flag and issues the request (characteristics,
        crime); otherwise it returns and changes nothing. */
    method BeginAnalysis() returns (request: Option<(string, string)>)
      modifies this`isAnalyzing
      ensures old(formData.characteristics) == "" ==> request == None && isAnalyzing == old(isAnalyzing)
      ensures old(formData.characteristics) != "" ==>
        request == Some((formData.characteristics, formData.crime)) && isAnalyzing
      ensures !old(AnalyzeDisabled()) ==> request.Some?
    {
      if formData.characteristics == "" {
        return None;
      }
      isAnalyzing := true;
      request := Some((formData.characteristics, formData.crime));
    }

    /** `handleAIAnalysis` after its `await`: the summary is appended to the
        observations as they are now, and the analysing flag drops. */
    method CompleteAnalysis(summary: string)
      requires isAnalyzing
      modifies this
      ensures formData == old(formData).(observations := AppendSummary(old(formData.observations), summary))
      ensures old(formData.observations) <= formData.observations
      ensures !isAnalyzing
    {
      formData := formData.(observations := AppendSummary(formData.observations, summary));
      isAnalyzing := false;
    }

    /** `handleSubmit`: the draft goes to the caller unchanged, once the
        browser has found every required input filled. */
    method Submit() returns (submitted: Option<CaseDraft>)
      ensures submitted.Some? <==> RequiredFilled(formData)
      ensures submitted.Some? ==> submitted.value == formData
    {
      if RequiredFilled(formData) {
        submitted := Some(formData);
      } else {
        submitted := None;
      }
    }
  }
}
