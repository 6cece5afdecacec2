# IurisData case store, in Dafny

IurisData is a single-user browser application that keeps a list of legal
hearing records ("casos"). This project models its logic:

- the record types (`types.ts`);
- the case store in `App.tsx`. It hydrates the list from browser storage and
  fills in missing ids. It creates records in front of the list, edits every
  record with the edited id, and inserts demo records. Deletion takes two
  steps through a single pending id. It also has the Virtual/Presencial
  counters, the empty-list export guard, and the search view. The search view
  matches five fields ignoring case and sorts by hearing time, latest first;
- the record form in `components/CaseForm.tsx`. It builds the initial draft,
  edits one field at a time, and appends the AI summary to the observations.
  It also has the analyse-button guard and submission with the required
  inputs;
- the report projections in `services/exportService.ts`: the 13-column
  spreadsheet rows, the 9-column PDF table and the 9-column DOCX table. Each
  rewrites the date cell, and each report gets a dated file name;
- the backup panel in `components/BackupManager.tsx`. It downloads a dated
  backup, and it restores the list from an uploaded file in one of three
  ways. It also clears the file input.

The modules are `Types`, `Text` (the string operations taken from
JavaScript), `Seqs` (`filter` and a stable descending `sort`), `App`,
`CaseForm`, `ExportService` and `BackupManager`. They live in one file each.
Component state that the handlers update becomes a class: `App.CaseStore`,
`CaseForm.FormState` and `BackupManager.BackupPanel`. Each handler is a method
whose `ensures` gives the new state as a function of the old one. Those
functions are proved to have the properties listed below.

The model stands in for these parts of the browser:

- **Storage, files and JSON.** Browser storage, file reading and `JSON.parse`
  are reduced to `Types.ParseOutcome`: a parse error, a value that is not an
  array, or an array of records.
- **Clock.** The clock gives ISO timestamp strings, which are parameters.
- **Dates.** `new Date(s).getTime()` is a parameter `key: string -> int`.
  `toLocaleString` is a parameter `localeStamp`.
- **Randomness.** `crypto.randomUUID` and `Math.random` are parameters.
- **AI summary.** The summary service is a parameter: its answer is any
  string.

The code behaves as follows on three points a reader might expect
otherwise:

- Restoring a backup does not fill in missing ids. Only startup hydration
  does (`App.tsx:30-33` against `components/BackupManager.tsx:32-33` and
  `App.tsx:178`).
- Nothing makes ids unique. An edit changes every record that carries the
  edited id, and a confirmed delete removes all of them. The DOCX table keeps
  one row per record, duplicates included.
- The search view is sorted by the Date key of `dateTime`, not by its text.

## Model

| member | source | states |
|---|---|---|
| Types.MediumOf | types.ts:2 | exactly the two labels 'Presencial' and 'Virtual' read back as a hearing medium, and each reads back to its own label |
| Types.LabelsAreTheMedia | types.ts:2 | the two medium labels are distinct valid media |
| Types.RecordsEqualByFields | types.ts:4-19 | a record is determined by its fourteen fields |
| Types.NoticeText | components/BackupManager.tsx:34-39 | the alert texts of the notices; exactly the two restore failures read as errors (start with "Error") |
| Text.Lower | App.tsx:55-59 | lower-casing keeps the length and folds each character on its own |
| Text.LowerIdempotent | App.tsx:55-59 | lower-casing an already lower-cased text changes nothing |
| Text.Includes | App.tsx:55-59 | `includes` is true exactly when the needle occurs at some position of the text |
| Text.IncludesEmpty | App.tsx:55-59 | every text includes the empty term |
| Text.FirstIndex | services/exportService.ts:11 | the result is the position of the first occurrence of the character, or the length when it does not occur |
| Text.NatToString | App.tsx:82-83 | the decimal text of a number is non-empty, all digits, with no leading zero |
| Text.NatToStringRoundTrip | App.tsx:82-83 | reading the decimal text back gives the number |
| Seqs.Filter | App.tsx:54-59 | `filter` keeps exactly the elements that pass, never more than the input holds |
| Seqs.FilterConcat | App.tsx:100 | filtering distributes over concatenation, so kept elements keep their order |
| Seqs.FilterKeepsAll | App.tsx:100 | a filter returns its input unchanged exactly when every element passes |
| Seqs.FilterPartition | App.tsx:100 | filtering by a predicate and by its negation splits the input: the two results together are the whole input as a multiset |
| Seqs.FilterDisjointCounts | App.tsx:47-51 | two exclusive filters keep at most the whole input between them, and all of it when every element passes one |
| Seqs.Insert | App.tsx:60 | inserting into a list sorted by descending key keeps it sorted and adds exactly that element |
| Seqs.SortDesc | App.tsx:60 | the sort is a permutation of its input, ordered by non-increasing key |
| Seqs.SortedDescAdjacent | App.tsx:60 | neighbours of a sorted list have non-increasing keys |
| App.GenerateId | App.tsx:9-14 | a generated id is never empty; without `randomUUID` it starts with `id-`, the timestamp and a dash |
| App.BackfillId | App.tsx:30-33 | a present id is kept, an empty one becomes the fresh id, and no other field changes |
| App.Sanitize | App.tsx:30-33 | hydration keeps every element in order, replaces only an empty id, and leaves every hydrated id non-empty |
| App.SanitizeKeepsCompleteList | App.tsx:30-33 | a stored list whose ids are all present hydrates to itself |
| App.SanitizeIdempotent | App.tsx:30-33 | hydrating an already hydrated list changes nothing |
| App.Merge | App.tsx:65 | an edited record takes every draft field from the draft and keeps its id and creation stamp |
| App.SaveUntouchedDraft | App.tsx:65 | saving a record's own draft unchanged gives the record back when its medium is set |
| App.ApplyEdit | App.tsx:65 | an edit keeps the length, the ids and stamps; each record with the id takes the draft, every other record is unchanged |
| App.EditMissingIdIsNoOp | App.tsx:65 | editing an id that no record carries leaves the list unchanged |
| App.EditIdempotent | App.tsx:65 | saving the same draft twice equals saving it once |
| App.NewCase | App.tsx:67-71 | a created record has the fresh id, the creation stamp and every draft field |
| App.EditAfterCreate | App.tsx:65-71 | editing a freshly created record equals creating it with the edited draft |
| App.SampleCase | App.tsx:79-94 | the demo record has the fresh non-empty id and the stamp, a valid medium, the stamp's first 16 characters as hearing time, and a NUREJ of "2024" plus the drawn number |
| App.RemoveId | App.tsx:100 | deleting removes exactly the records with the id; the list is unchanged exactly when none has it; the removed and kept counts add up to the length, and the removed and kept records together are the old list as a multiset |
| App.RemoveIdConcat | App.tsx:100 | deletion distributes over concatenation, so the kept records stay in their order |
| App.AtMostOnePendingRow | App.tsx:219 | in a list with distinct ids at most one row shows the confirm and cancel buttons |
| App.SubListKeepsDistinctIds | App.tsx:53-61 | a view drawn from a list with distinct ids, each record at most as often as stored, keeps the ids distinct |
| App.AtMostOnePendingRowOnScreen | App.tsx:196-219 | with distinct ids in the store, at most one row of the searched and sorted table awaits confirmation |
| App.ComputeStats | App.tsx:47-51 | total is the list length; virtual plus presencial never exceeds it and equals it when every medium is a valid label |
| App.StatsCountEachRecord | App.tsx:47-51 | an empty list counts nothing; a record adds one to the total and one to exactly the counter whose label its medium equals ('Virtual' or 'Presencial'), none for any other text |
| App.Matches | App.tsx:54-59 | a record matches exactly when the lower-cased term is included in the lower-cased text of one of the five searched fields |
| App.MatchesIff | App.tsx:54-59 | a record matches exactly when the lower-cased term occurs in one of nurej, caseNumber, crime, lawyer or parties, lower-cased |
| App.EmptyTermMatches | App.tsx:54-59 | the empty term matches every record |
| App.FilteredCases | App.tsx:53-61 | the view holds exactly the matching records, as a permutation of the filter result, with non-increasing hearing time between neighbours |
| App.EmptySearchShowsAll | App.tsx:53-61 | with an empty term the view is a permutation of the whole list |
| App.LaterHearingListedFirst | App.tsx:60 | of two records, the one with the later hearing is listed first |
| App.CaseStore.constructor | App.tsx:17-21 | the store starts with no records, nothing pending, no record in the form and the form closed |
| App.CaseStore.Hydrate | App.tsx:24-40 | only an array payload replaces the list, by its hydration; a missing, unparseable or non-array payload leaves the list as it was |
| App.CaseStore.OpenNew | App.tsx:143 | the form opens with no record being edited |
| App.CaseStore.OpenEdit | App.tsx:237 | the form opens on the chosen record |
| App.CaseStore.CloseForm | App.tsx:280 | the form closes and forgets the edited record |
| App.CaseStore.Save | App.tsx:63-76 | an edit applies the draft to every record with the edited id; a create puts the new record in front of the old list; the form closes either way |
| App.CaseStore.LoadSampleData | App.tsx:78-96 | the demo record goes in front of the old list |
| App.CaseStore.RequestDelete | App.tsx:244 | the row's id becomes the single pending id |
| App.CaseStore.CancelDelete | App.tsx:219-228 | called only while a delete is pending (the button shows on that row alone); afterwards nothing is pending and the list is untouched |
| App.CaseStore.ConfirmDelete | App.tsx:99-102 | called only with the pending id (App.tsx:219-222); every record with the id is removed, the others stay in order, and nothing is pending |
| App.CaseStore.Restore | App.tsx:178 | the list becomes the restored array as given |
| App.CaseStore.Export | App.tsx:104-116 | an empty list raises only the notice; otherwise the chosen exporter receives the whole list in stored order |
| CaseForm.InitialDraft | components/CaseForm.tsx:14-27 | each draft field is the initial record's field or empty; the medium falls back to 'Presencial' |
| CaseForm.SetField | components/CaseForm.tsx:31-34 | setting a field changes that field and no other |
| CaseForm.SetFieldTwice | components/CaseForm.tsx:31-34 | the last value written to a field wins |
| CaseForm.AppendSummary | components/CaseForm.tsx:40 | the old observations are a prefix of the new, which end with "Resumen IA: " and the summary, after a blank line when there was text |
| CaseForm.AppendAllKeepsText | components/CaseForm.tsx:40 | however many summaries arrive, the original observations stay at the start |
| CaseForm.RequiredFieldsAre | components/CaseForm.tsx:63-111 | the required inputs are all draft fields except the medium, characteristics and observations |
| CaseForm.FormState.constructor | components/CaseForm.tsx:14-29 | the form starts from the initial draft, not analysing |
| CaseForm.FormState.HandleChange | components/CaseForm.tsx:31-34 | the named field takes the new value and the rest of the draft stays |
| CaseForm.FormState.AnalyzeDisabled | components/CaseForm.tsx:120 | the analyse button is disabled exactly when a request is outstanding or there are no characteristics to analyse |
| CaseForm.FormState.BeginAnalysis | components/CaseForm.tsx:36-39 | with no characteristics nothing happens; otherwise the flag is raised and the request carries the characteristics and the crime; an enabled button always issues a request |
| CaseForm.FormState.CompleteAnalysis | components/CaseForm.tsx:40-41 | the summary is appended to the current observations, keeping them as a prefix, and the flag drops |
| CaseForm.FormState.Submit | components/CaseForm.tsx:44-47 | the draft is handed over unchanged exactly when every required input is filled |
| ExportService.ReplaceFirstT | services/exportService.ts:11 | the date cell has the same length, a space in place of the first 'T', and every other character unchanged |
| ExportService.ReplaceFirstTWithoutT | services/exportService.ts:11 | a text without 'T' is left as it is |
| ExportService.DatePart | services/exportService.ts:32 | `split('T')[0]` is the prefix before the first 'T', holding no 'T' |
| ExportService.DateCellSplitsAtT | services/exportService.ts:11 | a rewritten date cell is the date part, a space, and the untouched rest |
| ExportService.SheetCoversAllButId | services/exportService.ts:9-25 | the spreadsheet has a column for every field except the id, each once |
| ExportService.SheetRow | services/exportService.ts:10-24 | a spreadsheet row has the 13 labels in order; the date cell is rewritten, the creation stamp is locale-formatted, and every other cell copies its field |
| ExportService.FormatDataForExcel | services/exportService.ts:9-25 | one spreadsheet row per record, in the records' order |
| ExportService.PdfRow | services/exportService.ts:56-66 | a PDF row has as many cells as the 9-label header; the date cell is rewritten and the others copy their fields |
| ExportService.PdfBody | services/exportService.ts:56-66 | one PDF row per record, in order |
| ExportService.TableColumnChoice | services/exportService.ts:44-66 | the DOCX columns include the court room and observations and exclude the city and hearing type; the PDF columns are the reverse |
| ExportService.DocxRow | services/exportService.ts:105-129 | a DOCX row has 9 cells aligned with its header; the date cell is rewritten and the others copy their fields |
| ExportService.DocxTable | services/exportService.ts:84-130 | the DOCX table is the header row plus exactly one row per record, duplicates kept, every row 9 cells wide |
| ExportService.ReportFileName | services/exportService.ts:32 | a report is named "IurisData_Reporte_", the date part and the format's extension |
| ExportService.ReportNamesDiffer | services/exportService.ts:80 | the three formats get different names on the same day |
| ExportService.Render | services/exportService.ts:27-165 | each format builds its own projection of the whole list under its report name: the spreadsheet rows of FormatDataForExcel in a sheet named "Casos Legales", the PDF header and PdfBody, or the DOCX DocxTable |
| BackupManager.BackupFileName | components/BackupManager.tsx:19 | a backup is named "iurisdata_backup_", then the date part, then ".json" and nothing else |
| BackupManager.BackupNameIsNotAReportName | components/BackupManager.tsx:19 | a backup name never equals a report name |
| BackupManager.RestoreOutcome | components/BackupManager.tsx:30-40 | an array replaces the whole list as given and reports success; a non-array or a parse error leaves it and reports the incompatible-format or critical-read notice |
| BackupManager.RestoreDoesNotBackfill | components/BackupManager.tsx:32-33 | a restored record keeps an empty id, where hydration would have given it one |
| BackupManager.BackupPanel.Download | components/BackupManager.tsx:12-22 | an empty list is refused with a notice; otherwise the whole list goes into the dated backup file |
| BackupManager.BackupPanel.Upload | components/BackupManager.tsx:24-44 | with no file nothing changes; otherwise the list and the notice follow RestoreOutcome and the input is cleared |

## Left out

- Persistence: every change writes the list to browser storage (`App.tsx:43-45`). This is browser I/O. Hydration takes the parsed slot as a parameter.
- Downloads and uploads: `Blob`, object URLs, anchor clicks, `FileReader` and `FileSaver` are browser plumbing. `FileReader.onload` runs after the input reset, but the model runs it before.
- Rendering: fonts, colours, shading, margins and page orientation in the spreadsheet, PDF and DOCX libraries are foreign code. The PDF and DOCX title lines and the generation timestamp are left out too. Only the rows and columns handed to the libraries are modelled.
- The AI summary call (`services/geminiService.ts`) is a network request. Its answer, summary or failure text, is the `summary` parameter.
- JSON: parsing and serialising are not modelled. A payload is represented by its `ParseOutcome`, and a backup file by the records it holds. No round trip through JSON text is claimed.
- Record shape: restored and hydrated array elements are taken to be records whose fields are all strings, with an absent field read as "". So `(x || '')` in the search and `String(x || "")` in the DOCX cells are the identity here. An element whose `dateTime` is missing makes all three exporters throw: the spreadsheet, PDF and DOCX rows each call `dateTime.replace` (`services/exportService.ts:11, 57, 107`), the DOCX one before its `String(text || "")` wrap. The "Error al generar el archivo." alert that follows (`App.tsx:112-115`) is therefore not modelled.
- Text.Lower: folds only the ASCII letters. JavaScript's `toLowerCase` also folds other letters.
- App.FilteredCases: states the order only through the Date key. Among equal keys the order is not stated. An unparseable date gives NaN in the comparator, which is not modelled.
- App.SampleCase: its two reads of the clock (`App.tsx:81, 93`) are taken as the same instant.
- Id uniqueness: `generateId` does not guarantee it, and the model does not assume it.
- Async: the AI request is split at its `await` into `BeginAnalysis` and `CompleteAnalysis`. The DOCX export's asynchronous packing is treated as a plain call.
- The search box's own state (`App.tsx:18, 135`) is the `term` parameter of `App.FilteredCases`.
- JSX markup, the modal's rendering and the cloud-sync alert button (`components/BackupManager.tsx:63`) only display things.
