/** The three report projections of services/exportService.ts: the
    spreadsheet rows, the PDF table and the DOCX table, with their file
    names. Rendering by the spreadsheet, PDF and document libraries is
    outside the model; what is modelled is the row and column content
    handed to them. */
module ExportService {
  import opened Types
  import opened Text

  /** `s.replace('T', ' ')`: only the first `T`, if any, becomes a space. */
  function ReplaceFirstT(s: string): (r: string)
    ensures |r| == |s|
    ensures FirstIndex(s, 'T') < |s| ==> r[FirstIndex(s, 'T')] == ' '
    ensures forall j :: 0 <= j < |s| && j != FirstIndex(s, 'T') ==> r[j] == s[j]
  {
    var k := FirstIndex(s, 'T');
    if k == |s| then s else s[..k] + " " + s[k + 1..]
  }

  /** A text without `T` passes through the date-cell rewrite unchanged. */
  lemma ReplaceFirstTWithoutT(s: string)
    requires 'T' !in s
    ensures ReplaceFirstT(s) == s
  {
    assert FirstIndex(s, 'T') == |s|;
  }

  /** `iso.split('T')[0]`: the text before the first `T`, or all of it. */
  function DatePart(iso: string): (d: string)
    ensures d <= iso
    ensures 'T' !in d
    ensures |d| < |iso| ==> iso[|d|] == 'T'
  {
    iso[..FirstIndex(iso, 'T')]
  }

  /** The rewritten date cell of a text holding a `T` starts with the date
      part followed by a space, and the rest after that is untouched. */
  lemma {:induction false} DateCellSplitsAtT(s: string)
    requires 'T' in s
    ensures DatePart(s) + " " <= ReplaceFirstT(s)
    ensures ReplaceFirstT(s)[|DatePart(s)| + 1..] == s[|DatePart(s)| + 1..]
  {
    var k := FirstIndex(s, 'T');
    assert k < |s|;
    var r := ReplaceFirstT(s);
    assert |DatePart(s)| == k;
    assert r[..k + 1] == DatePart(s) + " " by {
      forall j | 0 <= j < k + 1
        ensures r[j] == (DatePart(s) + " ")[j]
      {
      }
    }
  }

  /** Column labels of the spreadsheet, in key order. */
  const SheetLabels: seq<string> := [
    "Fecha y Hora", "NUREJ", "Nro. de Caso", "Ciudad", "Delito",
    "Partes Involucradas", "Tipo de Audiencia", "Juzgado / Sala",
    "Abogado Patrocinante", "Modalidad", "Características",
    "Observaciones / Resumen IA", "Fecha de Registro"]

  /** The record field behind each spreadsheet column. */
  const SheetFields: seq<Field> := [
    DateTime, Nurej, CaseNumber, City, Crime, Parties, HearingType,
    CourtRoom, Lawyer, Medium, Characteristics, Observations, CreatedAt]

  /** The spreadsheet shows every field except the id, each once. */
  lemma SheetCoversAllButId(f: Field)
    ensures f in SheetFields <==> f != Id
    ensures forall i, j :: 0 <= i < j < |SheetFields| ==> SheetFields[i] != SheetFields[j]
  {
  }

  /** One object of `formatDataForExcel`, as (label, cell) pairs in key
      order. `localeStamp` stands for `new Date(x).toLocaleString()`. */
  function SheetRow(item: LegalCase, localeStamp: string -> string): (row: seq<(string, string)>)
    ensures |row| == |SheetLabels| == |SheetFields| == 13
    ensures forall k :: 0 <= k < 13 ==> row[k].0 == SheetLabels[k]
    ensures row[0].1 == ReplaceFirstT(item.dateTime)
    ensures forall k :: 0 < k < 12 ==> row[k].1 == Get(item, SheetFields[k])
    ensures row[12].1 == localeStamp(item.createdAt)
  {
    [ ("Fecha y Hora", ReplaceFirstT(item.dateTime)),
      ("NUREJ", item.nurej),
      ("Nro. de Caso", item.caseNumber),
      ("Ciudad", item.city),
      ("Delito", item.crime),
      ("Partes Involucradas", item.parties),
      ("Tipo de Audiencia", item.hearingType),
      ("Juzgado / Sala", item.courtRoom),
      ("Abogado Patrocinante", item.lawyer),
      ("Modalidad", item.medium),
      ("Características", item.characteristics),
      ("Observaciones / Resumen IA", item.observations),
      ("Fecha de Registro", localeStamp(item.createdAt)) ]
  }

  /** `formatDataForExcel`: one row per record, in the records' order. */
  function FormatDataForExcel(data: seq<LegalCase>, localeStamp: string -> string): (rows: seq<seq<(string, string)>>)
    ensures |rows| == |data|
    ensures forall i :: 0 <= i < |data| ==> rows[i] == SheetRow(data[i], localeStamp)
  {
    seq(|data|, i requires 0 <= i < |data| => SheetRow(data[i], localeStamp))
  }

  /** Header of the PDF table. */
  const PdfHead: seq<string> := [
    "Fecha/Hora", "NUREJ", "Nro Caso", "Ciudad", "Delito", "Partes",
    "Audiencia", "Abogado", "Modalidad"]

  /** The record field behind each PDF column. */
  const PdfFields: seq<Field> := [
    DateTime, Nurej, CaseNumber, City, Crime, Parties, HearingType, Lawyer, Medium]

  /** One body row of the PDF table, aligned with `PdfHead`. */
  function PdfRow(item: LegalCase): (row: seq<string>)
    ensures |row| == |PdfHead| == |PdfFields| == 9
    ensures row[0] == ReplaceFirstT(item.dateTime)
    ensures forall k :: 0 < k < 9 ==> row[k] == Get(item, PdfFields[k])
  {
    [ ReplaceFirstT(item.dateTime), item.nurej, item.caseNumber, item.city,
      item.crime, item.parties, item.hearingType, item.lawyer, item.medium ]
  }

  /** The PDF body: one row per record, in the records' order. */
  function PdfBody(data: seq<LegalCase>): (rows: seq<seq<string>>)
    ensures |rows| == |data|
    ensures forall i :: 0 <= i < |data| ==> rows[i] == PdfRow(data[i])
  {
    seq(|data|, i requires 0 <= i < |data| => PdfRow(data[i]))
  }

  /** Header of the DOCX table. */
  const DocxHead: seq<string> := [
    "FECHA/HORA", "NUREJ", "NRO. CASO", "DELITO", "PARTES", "ABOGADO",
    "JUZGADO/SALA", "MODALIDAD", "OBSERVACIONES"]

  /** The record field behind each DOCX column. */
  const DocxFields: seq<Field> := [
    DateTime, Nurej, CaseNumber, Crime, Parties, Lawyer, CourtRoom, Medium, Observations]

  /** The two tables pick different columns: the DOCX one has the court room
      and the observations instead of the city and the hearing type. */
  lemma TableColumnChoice()
    ensures CourtRoom in DocxFields && Observations in DocxFields
    ensures City !in DocxFields && HearingType !in DocxFields
    ensures City in PdfFields && HearingType in PdfFields
    ensures CourtRoom !in PdfFields && Observations !in PdfFields
  {
  }

  /** One body row of the DOCX table, aligned with `DocxHead`. */
  function DocxRow(item: LegalCase): (row: seq<string>)
    ensures |row| == |DocxHead| == |DocxFields| == 9
    ensures row[0] == ReplaceFirstT(item.dateTime)
    ensures forall k :: 0 < k < 9 ==> row[k] == Get(item, DocxFields[k])
  {
    [ ReplaceFirstT(item.dateTime), item.nurej, item.caseNumber, item.crime,
      item.parties, item.lawyer, item.courtRoom, item.medium, item.observations ]
  }

  /** The DOCX table: the header row, then one row per record in order;
      records sharing an id each keep their own row. */
  function DocxTable(data: seq<LegalCase>): (rows: seq<seq<string>>)
    ensures |rows| == |data| + 1
    ensures rows[0] == DocxHead
    ensures forall i :: 0 <= i < |data| ==> rows[i + 1] == DocxRow(data[i])
    ensures forall i :: 0 <= i < |rows| ==> |rows[i]| == |DocxHead|
  {
    var body := seq(|data|, i requires 0 <= i < |data| => DocxRow(data[i]));
    assert forall i :: 0 <= i < |body| ==> |body[i]| == |DocxHead|;
    [DocxHead] + body
  }

  function Extension(kind: ExportType): string
  {
    match kind
    case Xlsx => ".xlsx"
    case Pdf => ".pdf"
    case Docx => ".docx"
  }

  const ReportPrefix: string := "IurisData_Reporte_"

  /** `IurisData_Reporte_<date>.<ext>`, the date being the part of the ISO
      timestamp before its `T`. */
  function ReportFileName(kind: ExportType, isoNow: string): (name: string)
    ensures ReportPrefix + DatePart(isoNow) <= name
    ensures name[|ReportPrefix| + |DatePart(isoNow)|..] == Extension(kind)
  {
    ReportPrefix + DatePart(isoNow) + Extension(kind)
  }

  /** The three formats written on the same day get three different names. */
  lemma ReportNamesDiffer(a: ExportType, b: ExportType, isoNow: string)
    requires a != b
    ensures ReportFileName(a, isoNow) != ReportFileName(b, isoNow)
  {
    var n := |ReportPrefix| + |DatePart(isoNow)|;
    var ea, eb := ReportFileName(a, isoNow)[n..], ReportFileName(b, isoNow)[n..];
    assert ea == Extension(a) && eb == Extension(b);
    assert Extension(a) != Extension(b) by {
      assert Extension(a)[1] != Extension(b)[1] || |Extension(a)| != |Extension(b)|;
    }
  }

  /** What each exporter hands to its library. */
  datatype Report =
    | Spreadsheet(fileName: string, sheetName: string, rows: seq<seq<(string, string)>>)
    | PdfReport(fileName: string, head: seq<string>, body: seq<seq<string>>)
    | DocxReport(fileName: string, table: seq<seq<string>>)

  /** `exportToXLSX`, `exportToPDF` or `exportToDOCX` applied to `data`. */
  function Render(kind: ExportType, data: seq<LegalCase>, isoNow: string, localeStamp: string -> string): (r: Report)
    ensures r.fileName == ReportFileName(kind, isoNow)
    ensures r.Spreadsheet? <==> kind == Xlsx
    ensures r.PdfReport? <==> kind == Pdf
    ensures r.DocxReport? <==> kind == Docx
    ensures r.Spreadsheet? ==> r.sheetName == "Casos Legales" && r.rows == FormatDataForExcel(data, localeStamp)
    ensures r.PdfReport? ==> r.head == PdfHead && r.body == PdfBody(data)
    ensures r.DocxReport? ==> r.table == DocxTable(data)
    ensures r.Spreadsheet? ==> |r.rows| == |data|
    ensures r.PdfReport? ==> |r.body| == |data|
    ensures r.DocxReport? ==> |r.table| == |data| + 1
  {
    match kind
    case Xlsx => Spreadsheet(ReportFileName(kind, isoNow), "Casos Legales", FormatDataForExcel(data, localeStamp))
    case Pdf => PdfReport(ReportFileName(kind, isoNow), PdfHead, PdfBody(data))
    case Docx => DocxReport(ReportFileName(kind, isoNow), DocxTable(data))
  }
}
