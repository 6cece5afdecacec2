/** The case store of App.tsx: the list of records and the pending delete,
    their startup hydration, create, edit, delete and demo insertion, and
    the derived counters and search view. Browser storage, the clock and the
    random sources are parameters. */
module App {
  import opened Types
  import opened Text
  import opened Seqs
  import opened CaseForm
  import ExportService

  /** `generateId`: the browser's UUID when `crypto.randomUUID` exists,
      else `'id-' + Date.now() + '-' + <random base-36 digits>`. Nothing
      makes two calls differ; the result is never empty. The `freshId` and
      `freshIds` parameters of hydration, `Save` and `LoadSampleData` stand
      for results of this function, which is why they require non-empty ids. */
  function GenerateId(uuid: Option<string>, nowMs: nat, randomPart: string): (id: string)
    requires uuid.Some? ==> |uuid.value| == 36
    ensures id != ""
    ensures uuid.None? ==> "id-" + NatToString(nowMs) + "-" <= id
  {
    match uuid
    case Some(u) => u
    case None => "id-" + NatToString(nowMs) + "-" + randomPart
  }

  // ---------------------------------------------------------------- hydration

  /** `{ ...c, id: c.id || generateId() }`: a present id is kept, an empty
      one is replaced by the fresh id, and no other field changes. */
  function BackfillId(c: LegalCase, freshId: string): (r: LegalCase)
    ensures r.(id := c.id) == c
    ensures c.id != "" ==> r == c
    ensures c.id == "" ==> r.id == freshId
  {
    c.(id := OrElse(c.id, freshId))
  }

  /** The hydration map over a stored array: `freshIds[i]` is what
      `generateId` would return for element `i`. Every element stays, in
      order; only an empty id is replaced; duplicates are not looked for. */
  function Sanitize(items: seq<LegalCase>, freshIds: seq<string>): (r: seq<LegalCase>)
    requires |freshIds| == |items|
    requires forall i :: 0 <= i < |freshIds| ==> freshIds[i] != ""
    ensures |r| == |items|
    ensures forall i :: 0 <= i < |r| ==> r[i].id != ""
    ensures forall i :: 0 <= i < |r| ==> r[i].(id := items[i].id) == items[i]
    ensures forall i :: 0 <= i < |r| && items[i].id != "" ==> r[i] == items[i]
  {
    seq(|items|, i requires 0 <= i < |items| => BackfillId(items[i], freshIds[i]))
  }

  /** A stored list whose ids are all present hydrates to itself, so
      hydrating twice changes nothing more. */
  lemma SanitizeKeepsCompleteList(items: seq<LegalCase>, freshIds: seq<string>)
    requires |freshIds| == |items|
    requires forall i :: 0 <= i < |freshIds| ==> freshIds[i] != ""
    requires forall i :: 0 <= i < |items| ==> items[i].id != ""
    ensures Sanitize(items, freshIds) == items
  {
  }

  /** Hydrating twice gives what hydrating once gave. */
  lemma SanitizeIdempotent(items: seq<LegalCase>, ids1: seq<string>, ids2: seq<string>)
    requires |ids1| == |items| == |ids2|
    requires forall i :: 0 <= i < |ids1| ==> ids1[i] != ""
    requires forall i :: 0 <= i < |ids2| ==> ids2[i] != ""
    ensures Sanitize(Sanitize(items, ids1), ids2) == Sanitize(items, ids1)
  {
    SanitizeKeepsCompleteList(Sanitize(items, ids1), ids2);
  }

  // ------------------------------------------------------------ edit, create

  /** `{ ...c, ...caseData }`: every draft field from the draft, the id and
      the creation stamp from the record. */
  function Merge(c: LegalCase, d: CaseDraft): (r: LegalCase)
    ensures r.id == c.id && r.createdAt == c.createdAt
    ensures forall f :: IsDraftField(f) ==> Get(r, f) == DraftGet(d, f)
  {
    LegalCase(c.id, d.dateTime, d.nurej, d.caseNumber, d.city, d.characteristics,
      d.parties, d.crime, d.hearingType, d.courtRoom, d.lawyer, d.medium,
      d.observations, c.createdAt)
  }

  /** Opening a record in the form and saving it untouched gives the record
      back, as long as its medium is not empty (an empty one becomes
      'Presencial'). */
  lemma SaveUntouchedDraft(c: LegalCase)
    requires c.medium != ""
    ensures Merge(c, InitialDraft(Some(c))) == c
  {
    var r := Merge(c, InitialDraft(Some(c)));
    forall f ensures Get(r, f) == Get(c, f) {
      if IsDraftField(f) && f != Medium {
        assert Get(r, f) == DraftGet(InitialDraft(Some(c)), f);
      }
    }
    RecordsEqualByFields(r, c);
  }

  /** The edit branch of `handleSave`: every record carrying `id` is merged
      with the draft; all other records stay as they are. */
  function ApplyEdit(cases: seq<LegalCase>, id: string, d: CaseDraft): (r: seq<LegalCase>)
    ensures |r| == |cases|
    ensures forall i :: 0 <= i < |r| ==> r[i].id == cases[i].id && r[i].createdAt == cases[i].createdAt
    ensures forall i :: 0 <= i < |r| && cases[i].id != id ==> r[i] == cases[i]
    ensures forall i, f :: 0 <= i < |r| && cases[i].id == id && IsDraftField(f) ==> Get(r[i], f) == DraftGet(d, f)
  {
    seq(|cases|, i requires 0 <= i < |cases| => if cases[i].id == id then Merge(cases[i], d) else cases[i])
  }

  /** Editing an id no record carries leaves the list as it was. */
  lemma EditMissingIdIsNoOp(cases: seq<LegalCase>, id: string, d: CaseDraft)
    requires forall c :: c in cases ==> c.id != id
    ensures ApplyEdit(cases, id, d) == cases
  {
    var r := ApplyEdit(cases, id, d);
    forall i | 0 <= i < |cases| ensures r[i] == cases[i] {
      assert cases[i] in cases;
    }
  }

  /** Saving the same draft twice is the same as saving it once. */
  lemma EditIdempotent(cases: seq<LegalCase>, id: string, d: CaseDraft)
    ensures ApplyEdit(ApplyEdit(cases, id, d), id, d) == ApplyEdit(cases, id, d)
  {
    var once := ApplyEdit(cases, id, d);
    var twice := ApplyEdit(once, id, d);
    forall i | 0 <= i < |cases| ensures twice[i] == once[i] {
      if cases[i].id == id {
        forall f ensures Get(twice[i], f) == Get(once[i], f) {
          if IsDraftField(f) {
            assert Get(twice[i], f) == DraftGet(d, f);
          }
        }
        RecordsEqualByFields(twice[i], once[i]);
      }
    }
  }

  /** The create branch of `handleSave`: the draft with a new id and a
      creation stamp. */
  function NewCase(d: CaseDraft, freshId: string, createdAt: string): (r: LegalCase)
    ensures r.id == freshId && r.createdAt == createdAt
    ensures forall f :: IsDraftField(f) ==> Get(r, f) == DraftGet(d, f)
  {
    LegalCase(freshId, d.dateTime, d.nurej, d.caseNumber, d.city, d.characteristics,
      d.parties, d.crime, d.hearingType, d.courtRoom, d.lawyer, d.medium,
      d.observations, createdAt)
  }

  /** Editing a freshly created record keeps its id and stamp and takes the
      new draft: create then edit equals create with the edited draft. */
  lemma EditAfterCreate(d: CaseDraft, d2: CaseDraft, freshId: string, createdAt: string)
    ensures Merge(NewCase(d, freshId, createdAt), d2) == NewCase(d2, freshId, createdAt)
  {
    var a, b := Merge(NewCase(d, freshId, createdAt), d2), NewCase(d2, freshId, createdAt);
    forall f ensures Get(a, f) == Get(b, f) {
      if IsDraftField(f) {
        assert Get(a, f) == DraftGet(d2, f) == Get(b, f);
      }
    }
    RecordsEqualByFields(a, b);
  }

  /** The record `loadSampleData` builds; `nurejNumber`, `caseNumber` and
      `virtual` stand for its three draws of `Math.random()`. */
  function SampleCase(freshId: string, isoNow: string, nurejNumber: nat, caseNumber: nat, virtual: bool): (c: LegalCase)
    requires freshId != ""
    ensures c.id == freshId && c.id != "" && c.createdAt == isoNow
    ensures IsHearingMedium(c.medium)
    ensures c.dateTime <= isoNow && |c.dateTime| == if |isoNow| < 16 then |isoNow| else 16
    ensures "2024" <= c.nurej && |c.nurej| > 4
    ensures forall i :: 4 <= i < |c.nurej| ==> IsDigit(c.nurej[i])
    ensures DigitsValue(c.nurej[4..]) == nurejNumber
    ensures "FIS-LPZ-" <= c.caseNumber
  {
    NatToStringRoundTrip(nurejNumber);
    var c := LegalCase(
      freshId,
      if |isoNow| < 16 then isoNow else isoNow[..16],
      "2024" + NatToString(nurejNumber),
      "FIS-LPZ-" + NatToString(caseNumber) + "/2024",
      "La Paz",
      "Caso de prueba generado automáticamente para verificar funciones.",
      "Parte A vs. Parte B",
      "Delito de Prueba",
      "Cautelares",
      "Juzgado 1ro",
      "Dr. Demo",
      Label(if virtual then Virtual else Presencial),
      "Registro generado por sistema.",
      isoNow);
    assert c.nurej[4..] == NatToString(nurejNumber);
    c
  }

  // ------------------------------------------------------------------ delete

  function KeepOther(id: string): LegalCase -> bool
  {
    (c: LegalCase) => c.id != id
  }

  function HasId(id: string): LegalCase -> bool
  {
    (c: LegalCase) => c.id == id
  }

  /** `confirmDelete`'s filter: every record carrying `id` goes, the others
      stay in their order. */
  function RemoveId(cases: seq<LegalCase>, id: string): (r: seq<LegalCase>)
    ensures forall c :: c in r <==> c in cases && c.id != id
    ensures r == cases <==> forall c :: c in cases ==> c.id != id
    ensures |r| + |Filter(cases, HasId(id))| == |cases|
    ensures multiset(r) + multiset(Filter(cases, HasId(id))) == multiset(cases)
  {
    FilterKeepsAll(cases, KeepOther(id));
    FilterDisjointCounts(cases, KeepOther(id), HasId(id));
    FilterPartition(cases, KeepOther(id), HasId(id));
    Filter(cases, KeepOther(id))
  }

  /** Deleting from a concatenation deletes from each part, so the records
      that stay keep their relative order. */
  lemma RemoveIdConcat(a: seq<LegalCase>, b: seq<LegalCase>, id: string)
    ensures RemoveId(a + b, id) == RemoveId(a, id) + RemoveId(b, id)
  {
    FilterConcat(a, b, KeepOther(id));
  }

  /** No two records of the list share an id. */
  predicate DistinctIds(cases: seq<LegalCase>)
  {
    forall i, j :: 0 <= i < |cases| && 0 <= j < |cases| && i != j ==> cases[i].id != cases[j].id
  }

  /** The rows whose action cell shows CONFIRMAR / CANCELAR. */
  function PendingRows(cases: seq<LegalCase>, deletingId: Option<string>): set<nat>
  {
    set i: nat | i < |cases| && deletingId == Some(cases[i].id)
  }

  /** With distinct ids at most one row awaits confirmation; records
      sharing the pending id would all show the confirm pair. */
  lemma {:induction false} AtMostOnePendingRow(cases: seq<LegalCase>, deletingId: Option<string>)
    requires DistinctIds(cases)
    ensures |PendingRows(cases, deletingId)| <= 1
  {
    var rows := PendingRows(cases, deletingId);
    if rows != {} {
      var i :| i in rows;
      assert rows == {i} by {
        forall j | j in rows ensures j == i {
          assert cases[j].id == cases[i].id;
        }
      }
    }
  }

  // --------------------------------------------------------- stats, search

  datatype Stats = Stats(total: nat, virtual: nat, presencial: nat)

  predicate IsVirtual(c: LegalCase)
  {
    c.medium == Label(Virtual)
  }

  predicate IsPresencial(c: LegalCase)
  {
    c.medium == Label(Presencial)
  }

  /** The three counters over the whole list. The two media counts never
      exceed the total, and fill it when every medium is a valid label. */
  function ComputeStats(cases: seq<LegalCase>): (s: Stats)
    ensures s.total == |cases|
    ensures s.virtual + s.presencial <= s.total
    ensures (forall c :: c in cases ==> IsHearingMedium(c.medium)) ==> s.virtual + s.presencial == s.total
  {
    FilterDisjointCounts(cases, IsVirtual, IsPresencial);
    Stats(|cases|, |Filter(cases, IsVirtual)|, |Filter(cases, IsPresencial)|)
  }
  /** The counters count record by record: an empty list counts nothing,
      and a record put in front adds one to the total and one to exactly
      the counter its medium label names, if any. */
  lemma {:induction false} StatsCountEachRecord(c: LegalCase, cases: seq<LegalCase>)
    ensures ComputeStats([]) == Stats(0, 0, 0)
    ensures ComputeStats([c] + cases) == Stats(
      |cases| + 1,
      ComputeStats(cases).virtual + (if c.medium == "Virtual" then 1 else 0),
      ComputeStats(cases).presencial + (if c.medium == "Presencial" then 1 else 0))
  {
    var s := [c] + cases;
    assert s[0] == c && s[1..] == cases;
    if IsVirtual(c) {
      assert Filter(s, IsVirtual) == [c] + Filter(cases, IsVirtual);
      assert Filter(s, IsPresencial) == Filter(cases, IsPresencial);
    } else if IsPresencial(c) {
      assert Filter(s, IsVirtual) == Filter(cases, IsVirtual);
      assert Filter(s, IsPresencial) == [c] + Filter(cases, IsPresencial);
    } else {
      assert Filter(s, IsVirtual) == Filter(cases, IsVirtual);
      assert Filter(s, IsPresencial) == Filter(cases, IsPresencial);
    }
  }


  /** The five searched fields. */
  const SearchFields: seq<Field> := [Nurej, CaseNumber, Crime, Lawyer, Parties]

  /** The search predicate: the lower-cased term occurs in one of the five
      lower-cased searched fields. */
  function Matches(c: LegalCase, term: string): (b: bool)
    ensures b <==> exists k :: 0 <= k < |SearchFields| && Includes(Lower(Get(c, SearchFields[k])), Lower(term))
  {
    var t := Lower(term);
    assert SearchFields[0] == Nurej && SearchFields[1] == CaseNumber && SearchFields[2] == Crime;
    assert SearchFields[3] == Lawyer && SearchFields[4] == Parties;
    Includes(Lower(c.nurej), t) || Includes(Lower(c.caseNumber), t)
      || Includes(Lower(c.crime), t) || Includes(Lower(c.lawyer), t)
      || Includes(Lower(c.parties), t)
  }

  /** A record matches exactly when the term occurs, ignoring case, in at
      least one searched field. */
  lemma MatchesIff(c: LegalCase, term: string)
    ensures Matches(c, term) <==>
      exists k :: 0 <= k < |SearchFields| && IsSubstring(Lower(term), Lower(Get(c, SearchFields[k])))
  {
    var t := Lower(term);
    if Matches(c, term) {
      var k :| 0 <= k < |SearchFields| && Includes(Lower(Get(c, SearchFields[k])), t);
      assert IsSubstring(t, Lower(Get(c, SearchFields[k])));
    } else {
      forall k | 0 <= k < |SearchFields|
        ensures !IsSubstring(t, Lower(Get(c, SearchFields[k])))
      {
        assert !Includes(Lower(Get(c, SearchFields[k])), t);
      }
    }
  }

  /** The empty term matches every record. */
  lemma EmptyTermMatches(c: LegalCase)
    ensures Matches(c, "")
  {
    IncludesEmpty(Lower(c.nurej));
  }

  function MatchesTerm(term: string): LegalCase -> bool
  {
    (c: LegalCase) => Matches(c, term)
  }

  function HearingTime(key: string -> int): LegalCase -> int
  {
    (c: LegalCase) => key(c.dateTime)
  }

  /** `filteredCases`: the matching records, most recent hearing first.
      `key` stands for `new Date(dateTime).getTime()`. */
  function FilteredCases(cases: seq<LegalCase>, term: string, key: string -> int): (r: seq<LegalCase>)
    ensures forall c :: c in r <==> c in cases && Matches(c, term)
    ensures multiset(r) == multiset(Filter(cases, MatchesTerm(term)))
    ensures forall i :: 0 <= i < |r| - 1 ==> key(r[i].dateTime) >= key(r[i + 1].dateTime)
  {
    var hits := Filter(cases, MatchesTerm(term));
    var r := SortDesc(hits, HearingTime(key));
    SortedDescAdjacent(r, HearingTime(key));
    assert forall c :: MatchesTerm(term)(c) == Matches(c, term);
    assert forall c :: c in r <==> c in multiset(r);
    assert forall c :: c in hits <==> c in multiset(hits);
    r
  }

  /** An empty search shows every record, each as often as it is stored. */
  lemma EmptySearchShowsAll(cases: seq<LegalCase>, key: string -> int)
    ensures multiset(FilteredCases(cases, "", key)) == multiset(cases)
  {
    forall c | c in cases ensures MatchesTerm("")(c) {
      EmptyTermMatches(c);
    }
    FilterKeepsAll(cases, MatchesTerm(""));
  }

  /** Two records on different days, searched with an empty term: the later
      hearing is listed first. */
  lemma LaterHearingListedFirst(a: LegalCase, b: LegalCase, key: string -> int)
    requires key(b.dateTime) > key(a.dateTime)
    ensures FilteredCases([a, b], "", key) == [b, a]
  {
    EmptySearchShowsAll([a, b], key);
    var r := FilteredCases([a, b], "", key);
    assert |r| == 2 by {
      assert |multiset(r)| == |multiset([a, b])|;
    }
    assert r == [r[0], r[1]];
    assert multiset{r[0], r[1]} == multiset{a, b};
    assert key(r[0].dateTime) >= key(r[1].dateTime);
  }

  /** With distinct ids no record is stored twice. */
  lemma {:induction false} DistinctIdsOccurOnce(s: seq<LegalCase>)
    requires DistinctIds(s)
    ensures forall x :: multiset(s)[x] <= 1
  {
    if s != [] {
      var h, t := s[0], s[1..];
      assert s == [h] + t;
      assert DistinctIds(t) by {
        forall i, j | 0 <= i < |t| && 0 <= j < |t| && i != j ensures t[i].id != t[j].id {
          assert t[i] == s[i + 1] && t[j] == s[j + 1];
        }
      }
      DistinctIdsOccurOnce(t);
      forall k | 0 <= k < |t| ensures t[k] != h {
        assert t[k] == s[k + 1];
      }
      assert multiset(s) == multiset{h} + multiset(t);
    }
  }

  /** A list drawn from a list with distinct ids, each record at most as
      often as it is stored, has distinct ids too. */
  lemma SubListKeepsDistinctIds(r: seq<LegalCase>, s: seq<LegalCase>)
    requires multiset(r) <= multiset(s)
    requires DistinctIds(s)
    ensures DistinctIds(r)
  {
    DistinctIdsOccurOnce(s);
    forall i, j | 0 <= i < |r| && 0 <= j < |r| && i != j ensures r[i].id != r[j].id {
      var lo, hi := if i < j then i else j, if i < j then j else i;
      assert r == r[..hi] + r[hi..];
      assert multiset(r) == multiset(r[..hi]) + multiset(r[hi..]);
      assert r[..hi][lo] == r[lo] && r[hi..][0] == r[hi];
      var x := r[lo];
      assert multiset(r[..hi])[x] >= 1 && multiset(r)[x] <= multiset(s)[x] <= 1;
      assert multiset(r[hi..])[x] == 0;
      assert r[hi] in multiset(r[hi..]);
      assert r[lo] != r[hi];
      assert r[i] in multiset(r) && r[j] in multiset(r);
      assert r[i] in multiset(s) && r[j] in multiset(s);
      assert r[i] in s && r[j] in s;
      var a :| 0 <= a < |s| && s[a] == r[i];
      var b :| 0 <= b < |s| && s[b] == r[j];
      assert a != b;
    }
  }

  /** The table lists `filteredCases`: with distinct ids in the store, at
      most one row on screen awaits confirmation, whatever the search. */
  lemma AtMostOnePendingRowOnScreen(cases: seq<LegalCase>, term: string, key: string -> int, deletingId: Option<string>)
    requires DistinctIds(cases)
    ensures |PendingRows(FilteredCases(cases, term, key), deletingId)| <= 1
  {
    var r := FilteredCases(cases, term, key);
    assert multiset(r) <= multiset(cases);
    SubListKeepsDistinctIds(r, cases);
    AtMostOnePendingRow(r, deletingId);
  }

  // ------------------------------------------------------------------ export

  datatype ExportOutcome = Refused(notice: Notice) | Exported(report: ExportService.Report)

  // ------------------------------------------------------------------- store

  /** The state of the App component that the handlers change. */
  class CaseStore {
    var cases: seq<LegalCase>
    var deletingId: Option<string>
    var editingCase: Option<LegalCase>
    var isFormOpen: bool

    constructor ()
      ensures cases == [] && deletingId == None && editingCase == None && !isFormOpen
    {
      cases, deletingId, editingCase, isFormOpen := [], None, None, false;
    }

    /** Startup hydration. `saved` is None when the storage slot is missing
        or empty; otherwise it is what parsing the slot gave. Only an array
        replaces the list; a parse error or another value leaves it. */
    method Hydrate(saved: Option<ParseOutcome>, freshIds: seq<string>)
      requires saved.Some? && saved.value.ArrayOf? ==> |freshIds| == |saved.value.items|
      requires forall i :: 0 <= i < |freshIds| ==> freshIds[i] != ""
      modifies this`cases
      ensures saved.Some? && saved.value.ArrayOf? ==> cases == Sanitize(saved.value.items, freshIds)
      ensures !(saved.Some? && saved.value.ArrayOf?) ==> cases == old(cases)
    {
      if saved.Some? {
        match saved.value {
          case ArrayOf(items) => cases := Sanitize(items, freshIds);
          case NotArray =>
          case ParseError =>
        }
      }
    }

    /** The "Registrar Caso" button: the form opens with no record. */
    method OpenNew()
      modifies this`editingCase, this`isFormOpen
      ensures editingCase == None && isFormOpen
    {
      editingCase, isFormOpen := None, true;
    }

    /** A row's edit button: the form opens on that record. */
    method OpenEdit(c: LegalCase)
      modifies this`editingCase, this`isFormOpen
      ensures editingCase == Some(c) && isFormOpen
    {
      editingCase, isFormOpen := Some(c), true;
    }

    /** The form's close button. */
    method CloseForm()
      modifies this`editingCase, this`isFormOpen
      ensures editingCase == None && !isFormOpen
    {
      editingCase, isFormOpen := None, false;
    }

    /** `handleSave`: an edit merges the draft into every record with the
        edited id; otherwise the new record goes in front. Either way the
        form closes. */
    method Save(draft: CaseDraft, freshId: string, createdAt: string)
      requires freshId != ""
      modifies this`cases, this`editingCase, this`isFormOpen
      ensures old(editingCase).Some? ==> cases == ApplyEdit(old(cases), old(editingCase).value.id, draft)
      ensures old(editingCase).None? ==> cases == [NewCase(draft, freshId, createdAt)] + old(cases)
      ensures editingCase == None && !isFormOpen
    {
      match editingCase {
        case Some(e) => cases := ApplyEdit(cases, e.id, draft);
        case None => cases := [NewCase(draft, freshId, createdAt)] + cases;
      }
      isFormOpen := false;
      editingCase := None;
    }

    /** `loadSampleData`: a demo record goes in front. */
    method LoadSampleData(freshId: string, isoNow: string, nurejNumber: nat, caseNumber: nat, virtual: bool)
      requires freshId != ""
      modifies this`cases
      ensures cases == [SampleCase(freshId, isoNow, nurejNumber, caseNumber, virtual)] + old(cases)
    {
      cases := [SampleCase(freshId, isoNow, nurejNumber, caseNumber, virtual)] + cases;
    }

    /** A row's delete button: that row's id becomes the pending one. */
    method RequestDelete(id: string)
      modifies this`deletingId
      ensures deletingId == Some(id)
    {
      deletingId := Some(id);
    }

    /** CANCELAR, shown only on the row awaiting confirmation: nothing is
        pending any more; the list is untouched. */
    method CancelDelete()
      requires deletingId.Some?
      modifies this`deletingId
      ensures deletingId == None
    {
      deletingId := None;
    }

    /** `confirmDelete`, called by CONFIRMAR on the row whose id is the
        pending one: every record with `id` goes; nothing is pending. */
    method ConfirmDelete(id: string)
      requires deletingId == Some(id)
      modifies this`cases, this`deletingId
      ensures cases == RemoveId(old(cases), id)
      ensures deletingId == None
    {
      cases := RemoveId(cases, id);
      deletingId := None;
    }

    /** `onRestore={setCases}`: the list is replaced as given. */
    method Restore(items: seq<LegalCase>)
      modifies this`cases
      ensures cases == items
    {
      cases := items;
    }

    /** `handleExport`: with no records only the notice is raised and no
        exporter runs; otherwise the chosen exporter gets the whole list in
        stored order. `localeStamp` stands for `toLocaleString`. */
    method Export(kind: ExportType, isoNow: string, localeStamp: string -> string) returns (outcome: ExportOutcome)
      ensures |cases| == 0 <==> outcome == Refused(NoDataToExport)
      ensures |cases| != 0 ==> outcome == Exported(ExportService.Render(kind, cases, isoNow, localeStamp))
    {
      if |cases| == 0 {
        return Refused(NoDataToExport);
      }
      outcome := Exported(ExportService.Render(kind, cases, isoNow, localeStamp));
    }
  }
}
