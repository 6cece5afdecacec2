/** The backup panel of components/BackupManager.tsx: downloading the list
    as a dated JSON file and restoring the list from an uploaded one. File
    reading and JSON parsing are reduced to their outcome (ParseOutcome);
    the serialised text is represented by the records it holds. */
module BackupManager {
  import opened Types
  import ExportService
  import App

  const BackupPrefix: string := "iurisdata_backup_"

  /** `iurisdata_backup_<date>.json`, the date being the part of the ISO
      timestamp before its `T`. */
  function BackupFileName(isoNow: string): (name: string)
    ensures BackupPrefix + ExportService.DatePart(isoNow) <= name
    ensures |name| == |BackupPrefix| + |ExportService.DatePart(isoNow)| + 5
    ensures name[|BackupPrefix| + |ExportService.DatePart(isoNow)|..] == ".json"
  {
    BackupPrefix + ExportService.DatePart(isoNow) + ".json"
  }

  /** A backup never takes the name of a report: the prefixes differ in
      their first letter. */
  lemma BackupNameIsNotAReportName(kind: ExportType, isoNow: string)
    ensures BackupFileName(isoNow) != ExportService.ReportFileName(kind, isoNow)
  {
    assert BackupFileName(isoNow)[0] == 'i';
    assert ExportService.ReportFileName(kind, isoNow)[0] == 'I';
  }

  datatype BackupFile = BackupFile(fileName: string, records: seq<LegalCase>)

  datatype DownloadOutcome = Refused(notice: Notice) | Downloaded(file: BackupFile)

  /** Where an upload leaves the list and what it tells the user: an array
      replaces the whole list as it stands, ids included or not; anything
      else leaves the list as it was. */
  function RestoreOutcome(parsed: ParseOutcome, current: seq<LegalCase>): (r: (seq<LegalCase>, Notice))
    ensures r.0 == current || (parsed.ArrayOf? && r.0 == parsed.items)
    ensures parsed.ArrayOf? <==> r.1 == BackupRestored
    ensures parsed.ArrayOf? ==> r.0 == parsed.items
    ensures parsed.NotArray? <==> r.1 == IncompatibleFormat
    ensures parsed.ParseError? <==> r.1 == CriticalReadError
  {
    match parsed
    case ArrayOf(items) => (items, BackupRestored)
    case NotArray => (current, IncompatibleFormat)
    case ParseError => (current, CriticalReadError)
  }

  /** Unlike startup hydration, a restore keeps a record whose id is empty;
      hydrating the same array would have given it an id. */
  lemma RestoreDoesNotBackfill(items: seq<LegalCase>, current: seq<LegalCase>, freshIds: seq<string>, k: nat)
    requires k < |items| && items[k].id == ""
    requires |freshIds| == |items|
    requires forall i :: 0 <= i < |freshIds| ==> freshIds[i] != ""
    ensures RestoreOutcome(ArrayOf(items), current).0[k].id == ""
    ensures App.Sanitize(items, freshIds)[k].id != ""
  {
  }

  /** The panel's own state: the value of its hidden file input. */
  class BackupPanel {
    var inputValue: string

    constructor ()
      ensures inputValue == ""
    {
      inputValue := "";
    }

    /** `handleDownload`: refused with a notice when there is nothing to
        save; otherwise the whole list goes into a dated file. */
    method Download(data: seq<LegalCase>, isoNow: string) returns (outcome: DownloadOutcome)
      ensures |data| == 0 <==> outcome == Refused(NoDataToBackup)
      ensures |data| != 0 ==> outcome == Downloaded(BackupFile(BackupFileName(isoNow), data))
    {
      if |data| == 0 {
        return Refused(NoDataToBackup);
      }
      outcome := Downloaded(BackupFile(BackupFileName(isoNow), data));
    }

    /** `handleUpload`: with no file chosen nothing happens; otherwise the
        parsed file decides the list and the notice (RestoreOutcome), and
        the input is cleared so that the same file can be chosen again. */
    method Upload(file: Option<ParseOutcome>, store: App.CaseStore) returns (notice: Option<Notice>)
      modifies this`inputValue, store`cases
      ensures file.None? ==> notice == None && inputValue == old(inputValue) && store.cases == old(store.cases)
      ensures file.Some? ==> inputValue == ""
      ensures file.Some? ==> store.cases == RestoreOutcome(file.value, old(store.cases)).0
      ensures file.Some? ==> notice == Some(RestoreOutcome(file.value, old(store.cases)).1)
    {
      if file.None? {
        return None;
      }
      match file.value {
        case ArrayOf(items) =>
          store.Restore(items);
          notice := Some(BackupRestored);
        case NotArray =>
          notice := Some(IncompatibleFormat);
        case ParseError =>
          notice := Some(CriticalReadError);
      }
      inputValue := "";
    }
  }
}
