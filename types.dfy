/** The record types of the case tracker (types.ts), plus the abstract
    outcome of parsing a JSON payload, which hydration and restore share. */
module Types {

  datatype Option<+T> = None | Some(value: T)

  /** The two hearing media. A stored record keeps the medium as its label
      text, because nothing at run time stops a restored record from
      carrying some other text there. */
  datatype HearingMedium = Presencial | Virtual

  function Label(m: HearingMedium): string
  {
    match m
    case Presencial => "Presencial"
    case Virtual => "Virtual"
  }

  predicate IsHearingMedium(s: string)
  {
    s == "Presencial" || s == "Virtual"
  }

  /** Reads a stored label back as a medium; exactly the two labels succeed. */
  function MediumOf(s: string): (r: Option<HearingMedium>)
    ensures r.Some? <==> IsHearingMedium(s)
    ensures r.Some? ==> Label(r.value) == s
  {
    if s == "Presencial" then Some(Presencial)
    else if s == "Virtual" then Some(Virtual)
    else None
  }

  /** The labels are distinct and each of them is a valid medium. */
  lemma LabelsAreTheMedia(m: HearingMedium, n: HearingMedium)
    ensures IsHearingMedium(Label(m))
    ensures MediumOf(Label(m)) == Some(m)
    ensures Label(m) == Label(n) <==> m == n
  {
    if m != n {
      assert Label(m)[0] != Label(n)[0];
    }
  }

  /** One hearing record. All fields are text; `medium` holds a label. */
  datatype LegalCase = LegalCase(
    id: string,
    dateTime: string,
    nurej: string,
    caseNumber: string,
    city: string,
    characteristics: string,
    parties: string,
    crime: string,
    hearingType: string,
    courtRoom: string,
    lawyer: string,
    medium: string,
    observations: string,
    createdAt: string)

  /** The names of the fourteen fields of a record. */
  datatype Field =
    | Id | DateTime | Nurej | CaseNumber | City | Characteristics | Parties
    | Crime | HearingType | CourtRoom | Lawyer | Medium | Observations | CreatedAt

  function Get(c: LegalCase, f: Field): string
  {
    match f
    case Id => c.id
    case DateTime => c.dateTime
    case Nurej => c.nurej
    case CaseNumber => c.caseNumber
    case City => c.city
    case Characteristics => c.characteristics
    case Parties => c.parties
    case Crime => c.crime
    case HearingType => c.hearingType
    case CourtRoom => c.courtRoom
    case Lawyer => c.lawyer
    case Medium => c.medium
    case Observations => c.observations
    case CreatedAt => c.createdAt
  }

  /** Two records are equal exactly when they agree on every field. */
  lemma RecordsEqualByFields(a: LegalCase, b: LegalCase)
    requires forall f :: Get(a, f) == Get(b, f)
    ensures a == b
  {
    assert Get(a, Id) == Get(b, Id) && Get(a, DateTime) == Get(b, DateTime);
    assert Get(a, Nurej) == Get(b, Nurej) && Get(a, CaseNumber) == Get(b, CaseNumber);
    assert Get(a, City) == Get(b, City) && Get(a, Characteristics) == Get(b, Characteristics);
    assert Get(a, Parties) == Get(b, Parties) && Get(a, Crime) == Get(b, Crime);
    assert Get(a, HearingType) == Get(b, HearingType) && Get(a, CourtRoom) == Get(b, CourtRoom);
    assert Get(a, Lawyer) == Get(b, Lawyer) && Get(a, Medium) == Get(b, Medium);
    assert Get(a, Observations) == Get(b, Observations) && Get(a, CreatedAt) == Get(b, CreatedAt);
  }

  /** The fields a form draft carries: all but `id` and `createdAt`. */
  predicate IsDraftField(f: Field)
  {
    f != Id && f != CreatedAt
  }

  /** A record without `id` and `createdAt`: what the form edits and submits. */
  datatype CaseDraft = CaseDraft(
    dateTime: string,
    nurej: string,
    caseNumber: string,
    city: string,
    characteristics: string,
    parties: string,
    crime: string,
    hearingType: string,
    courtRoom: string,
    lawyer: string,
    medium: string,
    observations: string)

  function DraftGet(d: CaseDraft, f: Field): string
    requires IsDraftField(f)
  {
    match f
    case DateTime => d.dateTime
    case Nurej => d.nurej
    case CaseNumber => d.caseNumber
    case City => d.city
    case Characteristics => d.characteristics
    case Parties => d.parties
    case Crime => d.crime
    case HearingType => d.hearingType
    case CourtRoom => d.courtRoom
    case Lawyer => d.lawyer
    case Medium => d.medium
    case Observations => d.observations
  }

  /** Two drafts are equal exactly when they agree on every draft field. */
  lemma DraftsEqualByFields(a: CaseDraft, b: CaseDraft)
    requires forall f :: IsDraftField(f) ==> DraftGet(a, f) == DraftGet(b, f)
    ensures a == b
  {
    assert DraftGet(a, DateTime) == DraftGet(b, DateTime) && DraftGet(a, Nurej) == DraftGet(b, Nurej);
    assert DraftGet(a, CaseNumber) == DraftGet(b, CaseNumber) && DraftGet(a, City) == DraftGet(b, City);
    assert DraftGet(a, Characteristics) == DraftGet(b, Characteristics) && DraftGet(a, Parties) == DraftGet(b, Parties);
    assert DraftGet(a, Crime) == DraftGet(b, Crime) && DraftGet(a, HearingType) == DraftGet(b, HearingType);
    assert DraftGet(a, CourtRoom) == DraftGet(b, CourtRoom) && DraftGet(a, Lawyer) == DraftGet(b, Lawyer);
    assert DraftGet(a, Medium) == DraftGet(b, Medium) && DraftGet(a, Observations) == DraftGet(b, Observations);
  }

  /** The three report formats. */
  datatype ExportType = Xlsx | Docx | Pdf

  /** The outcome of `JSON.parse` on a stored or uploaded payload, reduced to
      what the callers look at: a parse failure, a value that is not an
      array, or an array, taken as a sequence of records. */
  datatype ParseOutcome = ParseError | NotArray | ArrayOf(items: seq<LegalCase>)

  /** The alerts the application raises on the paths the model covers. The
      two restore failures are the only ones whose text starts with
      "Error". */
  datatype Notice =
    | NoDataToExport | NoDataToBackup | BackupRestored | IncompatibleFormat | CriticalReadError

  function NoticeText(n: Notice): (text: string)
    ensures "Error" <= text <==> n == IncompatibleFormat || n == CriticalReadError
  {
    var text := match n
      case NoDataToExport => "No hay datos para exportar"
      case NoDataToBackup => "No hay datos para respaldar"
      case BackupRestored => "Base de datos restaurada correctamente"
      case IncompatibleFormat => "Error: Formato de archivo incompatible"
      case CriticalReadError => "Error crítico al leer el respaldo";
    assert text[0] == 'E' <==> n == IncompatibleFormat || n == CriticalReadError;
    text
  }
}
