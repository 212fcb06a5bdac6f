# A verified model of JurisPredictor 360's client logic

JurisPredictor 360 is a marketing site for a legal-case outcome predictor. It has no
server side. Its "AI analysis" is a mock record, generated in the browser from random
numbers. This project models the site's two pieces of real logic in Dafny and proves what
they promise:

- **The results page** (`src/pages/CaseResults.tsx`), module `CaseResults`:
  - the outcome synthesiser `getMockCaseAnalysis`. It builds a fixed-shape record whose
    numbers are drawn from bands, then overrides some fields for the case types
    `property`, `family`, `business` and `criminal`;
  - the timeline chart formatter `formatTimelineData`: a stable sort by month, then a map
    to labelled chart points;
  - the three-way bar colour classifier `getBarColor`;
  - the upper bound read from an alternative's `"X-Y months"` timeframe.
- **The case form** (`src/pages/AnalyzeCase.tsx`), module `AnalyzeCase`:
  - the `caseDetails` length rule (50 to 1000 characters);
  - the accordion toggle;
  - the upload filter: a MIME-type allow-list and a 5 MB limit, in selection order;
  - appending uploaded files and removing one by index;
  - the consent gate of the submit handler, which decides what goes into session storage
    and whether the results page opens.

Module `NumberText` holds the JavaScript conversions the core uses on integers:
`String(n)`, `parseInt` and `split`. Module `Wrappers` holds `Option`.

How the model is built:

- **Randomness.** `Math.random()` becomes an injected stream `rs: seq<real>` of draws in
  [0, 1). The draws are used in the order the source evaluates its calls:
  1. duration, win, settlement, loss;
  2. the four drawn timeline months;
  3. the override's draws (duration first, then win or settlement).

  `Math.floor(Math.random() * n) + k` is `FloorDraw(r, n, k)`, and `DrawCount(caseType)`
  is the number of calls the source makes.
- **The synthesiser.** `GetMockCaseAnalysis` is a method, as in the source. It starts from
  the object literal (`Baseline`) and updates single fields in the `switch` branches.
  Its contract has three parts:
  - the bands, given per case type by `DurationBand`, `WinBand`, `SettlementBand` and
    `LossBand`;
  - the fixed content: three alternatives, six phases, three precedents;
  - which fields keep their baseline draw.
- **The form.** The form component is the class `AnalyzeCase.CaseForm`. Its fields are the
  component's state (`expandedSection`, `uploadedFiles`, `isUploading`, `isAnalyzing`),
  the session-storage slot `caseData`, the current route and the toasts shown so far. The
  two `setTimeout` callbacks are kept as queues of scheduled work:
  - `HandleFileUpload` schedules an upload callback and `FinishUpload` runs it;
  - `OnSubmit` schedules an analysis callback and `FinishAnalysis` runs it.

  The upload callback sets the list to the list as it was when the handler ran, followed
  by the valid files, exactly as the source's closure does. `RemoveDuringUpload` shows the
  consequence: a removal made while an upload is pending is overwritten.

Two facts about the code are easy to miss when reading it:

- The four drawn month bands ([4,7), [8,11), [12,16), [18,23)) are disjoint and
  ascending, so the months of a generated timeline always strictly increase
  (`TimelineMonthsIncreasing`). The chart's sort therefore keeps the generated order
  (`GeneratedTimelineInOrder`).
- Both Mediation and Lok Adalat are recommended in the record literal
  (`CaseResults.tsx:63`, `:77`). The family override sets Mediation's flag to the value
  it already has (`AlternativesFixed`).

## Model

| member | source | states |
|---|---|---|
| `CaseResults.FloorDraw` | src/pages/CaseResults.tsx:49-55 | `Math.floor(r * n) + k` for a draw r in [0,1) lies in the band [k, k+n) |
| `CaseResults.FloorDrawReaches` | src/pages/CaseResults.tsx:49 | the band is tight: every value of [k, k+n) comes out of some draw |
| `CaseResults.OverrideDraws` | src/pages/CaseResults.tsx:111-135 | the switch makes at most two further draws, and none exactly when the case type is not one of the four recognised ones |
| `CaseResults.BaselineTimeline` | src/pages/CaseResults.tsx:80-87 | six phases in fixed order with fixed texts; months 1 and 2, then months in [4,7), [8,11), [12,16), [18,23) |
| `CaseResults.Baseline` | src/pages/CaseResults.tsx:44-108 | the record literal: title, confidence 76, the three alternatives, the timeline and the precedents; duration in [6,30), win in [50,90), settlement in [10,40), loss in [5,25); "Proceed with Court Case" and the default narrative |
| `CaseResults.GetMockCaseAnalysis` | src/pages/CaseResults.tsx:42-138 | for every case type: the fixed shape, each field in its band, the recommendation ("Seek Specialized Legal Counsel" only for criminal) and the narrative. Fields no branch touches keep the baseline draw (timeline, loss; win except for property and criminal; settlement except for business). An unrecognised case type gets exactly the baseline record. For the four recognised types, the redrawn duration and the redrawn win or settlement come from the first and second draws after the baseline's, with the band offsets and widths of the source, so the record is fully determined by the case type and the draws. Months strictly increase |
| `CaseResults.SameDrawsSameAnalysis` | src/pages/CaseResults.tsx:42-138 | two runs with the same case type and the same draws give equal records |
| `CaseResults.TimelineMonthsIncreasing` | src/pages/CaseResults.tsx:80-87 | the month bands are disjoint and ascending, so the months of any generated timeline strictly increase |
| `CaseResults.GeneratedTimelineInOrder` | src/pages/CaseResults.tsx:80-87 | sorting a generated timeline by month leaves it unchanged |
| `CaseResults.AlternativesFixed` | src/pages/CaseResults.tsx:57-79 | exactly three alternatives, Mediation, Arbitration, Lok Adalat in that order; Arbitration never recommended; Mediation and Lok Adalat always recommended |
| `CaseResults.InsertByMonth` | src/pages/CaseResults.tsx:142 | inserting into a month-sorted list keeps it sorted and adds exactly the one entry |
| `CaseResults.SortByMonth` | src/pages/CaseResults.tsx:142 | the copy sorted by the comparator `a.month - b.month` is sorted ascending, has the same length and is a permutation of the input |
| `CaseResults.SortByMonthStable` | src/pages/CaseResults.tsx:142 | the sort is stable: entries with the same month keep their relative order |
| `CaseResults.SortedIsFixpoint` | src/pages/CaseResults.tsx:142 | a list already in month order is returned unchanged |
| `CaseResults.ChartLabel` | src/pages/CaseResults.tsx:145 | a label is "Month " followed by the month's text, which starts with a minus sign iff the month is negative |
| `CaseResults.ToChartPoint` | src/pages/CaseResults.tsx:144-149 | a chart point maps back to the entry it was made from, and its name is the label of its value |
| `CaseResults.FormatTimelineData` | src/pages/CaseResults.tsx:141-150 | one chart point per entry, values ascending, each named "Month " followed by its value. Mapped back, the points are a permutation of the timeline, and entries of equal month keep their input order |
| `CaseResults.ChartLabelReadsBack` | src/pages/CaseResults.tsx:145 | a chart label is "Month " followed by text that `parseInt` reads back as the month |
| `CaseResults.GetBarColor` | src/pages/CaseResults.tsx:197-201 | green iff value >= 70, yellow iff 40 <= value < 70, red iff value < 40 |
| `CaseResults.BarColorMonotone` | src/pages/CaseResults.tsx:197-201 | a larger value never gets a lower colour |
| `CaseResults.TimeframeUpperBound` | src/pages/CaseResults.tsx:509 | `parseInt(timeframe.split('-')[1])` can only be a number when the timeframe contains a dash |
| `CaseResults.TimeframeUpperBoundOfRange` | src/pages/CaseResults.tsx:509 | `parseInt("X-Y months".split('-')[1])` is Y for all non-negative X, Y |
| `CaseResults.TimeframeWithoutDash` | src/pages/CaseResults.tsx:509 | a timeframe without a dash has no second field, and the bound is NaN |
| `CaseResults.AlternativeUpperBounds` | src/pages/CaseResults.tsx:61-75 | the upper bounds of the three timeframes are 3, 5 and 2 |
| `NumberText.NatToString` | src/pages/CaseResults.tsx:145 | `String(n)` is a non-empty digit string with a leading zero only for 0 |
| `NumberText.IntToString` | src/pages/CaseResults.tsx:145 | `String(i)` is non-empty and starts with a minus sign iff i is negative |
| `NumberText.DigitsValueOfNatToString` | src/pages/CaseResults.tsx:145 | the decimal text of n has value n |
| `NumberText.ParseInt` | src/pages/CaseResults.tsx:509 | `parseInt` of a blank string (possibly JavaScript white space only) is NaN; a negative result needs a leading minus sign after the white space |
| `NumberText.ParseIntToString` | src/pages/CaseResults.tsx:509 | `parseInt(String(i) + rest)` is i, negative i included, when rest does not continue the number |
| `NumberText.Split` | src/pages/CaseResults.tsx:509 | `split` gives at least one field and no field contains the separator |
| `NumberText.SplitNeedsSeparator` | src/pages/CaseResults.tsx:509 | a second field exists only when the separator occurs in the string |
| `NumberText.JoinSplit` | src/pages/CaseResults.tsx:509 | `split` loses nothing: joining the fields with the separator gives the string back |
| `NumberText.SplitAfterField` | src/pages/CaseResults.tsx:509 | a field followed by the separator splits off as the first field |
| `AnalyzeCase.CaseDetailsIssues` | src/pages/AnalyzeCase.tsx:57-64 | no issue iff 50 <= length <= 1000; the too-short message iff length < 50; the too-long message iff length > 1000 |
| `AnalyzeCase.NextExpanded` | src/pages/AnalyzeCase.tsx:98-104 | after a click on a header, either nothing or that section is open; that section is open iff it was not open before |
| `AnalyzeCase.AfterClicksInSections` | src/pages/AnalyzeCase.tsx:98-104 | any sequence of header clicks leaves nothing open or exactly one of the three sections |
| `AnalyzeCase.ClickTwice` | src/pages/AnalyzeCase.tsx:98-104 | two clicks on the same header restore the state if it was that section or nothing, and otherwise close everything |
| `AnalyzeCase.IsAcceptable` | src/pages/AnalyzeCase.tsx:109-124 | a file passes iff it is at most 5242880 bytes and its type is one of application/pdf, application/msword, the DOCX type, image/jpeg, image/png |
| `AnalyzeCase.CheckFile` | src/pages/AnalyzeCase.tsx:110-124 | a file is accepted iff its type is one of the five allowed MIME types and its size is at most 5242880 bytes. The type is checked first, so a rejected file gets exactly one rejection, "too large" only for an allowed type |
| `AnalyzeCase.ValidFiles` | src/pages/AnalyzeCase.tsx:109-125 | every kept file is acceptable, and no more files are kept than were selected |
| `AnalyzeCase.ValidFilesCounts` | src/pages/AnalyzeCase.tsx:109-125 | each acceptable file is kept as many times as it was selected; no other file is kept |
| `AnalyzeCase.ValidFilesInOrder` | src/pages/AnalyzeCase.tsx:109 | the kept files are a subsequence of the selection (order preserved) |
| `AnalyzeCase.Rejections` | src/pages/AnalyzeCase.tsx:114-122 | every rejection is the checker's verdict on its file, and kept plus rejected files number exactly the selected ones |
| `AnalyzeCase.Unacceptable` | src/pages/AnalyzeCase.tsx:109-125 | the turned-down files are all unacceptable, and with the kept files they number exactly the selected ones |
| `AnalyzeCase.UnacceptableMembers` | src/pages/AnalyzeCase.tsx:109-125 | a file is turned down iff it was selected and is not acceptable |
| `AnalyzeCase.UnacceptableCounts` | src/pages/AnalyzeCase.tsx:109-125 | each unacceptable file is turned down as many times as it was selected; no acceptable file is turned down |
| `AnalyzeCase.UnacceptableInOrder` | src/pages/AnalyzeCase.tsx:109-125 | the turned-down files are a subsequence of the selection (order preserved) |
| `AnalyzeCase.RejectedFiles` | src/pages/AnalyzeCase.tsx:115-120 | the file each rejection names, in order |
| `AnalyzeCase.RejectionsOfUnacceptable` | src/pages/AnalyzeCase.tsx:109-125 | the filter raises exactly one rejection per unacceptable selected file, for that file, in selection order |
| `AnalyzeCase.RejectionMessage` | src/pages/AnalyzeCase.tsx:115-120 | the error text starts with "Invalid file type: " or "File too large: " according to the kind, followed by the file's name |
| `AnalyzeCase.RejectionKindsDistinct` | src/pages/AnalyzeCase.tsx:115-120 | the two kinds of rejection never give the same message |
| `AnalyzeCase.RejectionToasts` | src/pages/AnalyzeCase.tsx:115-120 | one error toast per rejection, in order, with the source's message |
| `AnalyzeCase.KeptOrRejected` | src/pages/AnalyzeCase.tsx:109-125 | a selected file is kept iff it is acceptable; an unacceptable one has its rejection among the filter's rejections |
| `AnalyzeCase.FilterFiles` | src/pages/AnalyzeCase.tsx:109-125 | the loop over the selection returns exactly the kept files and the error toasts raised along the way |
| `AnalyzeCase.RemoveAt` | src/pages/AnalyzeCase.tsx:139-142 | `splice(index, 1)` on a copy: the length drops by one iff the list is non-empty and index < length (a negative index counts from the end); elements before the start are unchanged and later ones shift down by one |
| `AnalyzeCase.RemoveAtInverse` | src/pages/AnalyzeCase.tsx:139-142 | for 0 <= i < length, putting the removed file back at i restores the list |
| `AnalyzeCase.SubmissionRecord` | src/pages/AnalyzeCase.tsx:146-166 | no record without consent; with consent the record is the form data with the file count |
| `AnalyzeCase.UploadedMessage` | src/pages/AnalyzeCase.tsx:133 | the success text leads with the file count, which `parseInt` reads back |
| `AnalyzeCase.ToastText` | src/pages/AnalyzeCase.tsx:133 | the upload success toast's text reads back, through `parseInt`, as the count it reports |
| `AnalyzeCase.FilterSnoc` | src/pages/AnalyzeCase.tsx:109-125 | one more selected file is appended to the kept files if acceptable, and otherwise its rejection is appended to the rejections |
| `AnalyzeCase.CaseForm.constructor` | src/pages/AnalyzeCase.tsx:81-84 | initial state: "caseInformation" open, no files, not uploading, not analysing |
| `AnalyzeCase.CaseForm.ToggleSection` | src/pages/AnalyzeCase.tsx:98-104 | the open section becomes `NextExpanded` of the old one |
| `AnalyzeCase.CaseForm.HandleFileUpload` | src/pages/AnalyzeCase.tsx:106-137 | no file list: nothing happens. Otherwise one error toast per rejected file. With at least one valid file, uploading starts and the callback is scheduled with the current list followed by the valid files; with none, nothing else changes |
| `AnalyzeCase.CaseForm.FinishUpload` | src/pages/AnalyzeCase.tsx:130-134 | the oldest upload callback sets the list it captured, clears the uploading flag and reports how many files were added |
| `AnalyzeCase.CaseForm.RemoveFile` | src/pages/AnalyzeCase.tsx:139-144 | the list becomes `RemoveAt` of the old list, and a "File removed" toast is shown |
| `AnalyzeCase.CaseForm.OnSubmit` | src/pages/AnalyzeCase.tsx:146-157 | storage and route are unchanged. Without consent only the consent error is shown. With consent, analysing starts and the record (form data, current file count) is scheduled |
| `AnalyzeCase.CaseForm.FinishAnalysis` | src/pages/AnalyzeCase.tsx:157-165 | the oldest analysis callback stores its record under `caseData`, clears the analysing flag and opens "/case-results" |
| `AnalyzeCase.UploadOnce` | src/pages/AnalyzeCase.tsx:106-137 | on a fresh form, one completed upload leaves exactly the valid files of the selection |
| `AnalyzeCase.RemoveDuringUpload` | src/pages/AnalyzeCase.tsx:127-144 | a removal made while an upload is pending is overwritten when its callback runs |
| `AnalyzeCase.UploadAndSubmit` | src/pages/AnalyzeCase.tsx:106-166 | upload, then submit: the stored record is the consent-gated record with the number of valid files, and the results page opens iff consent was given |

## Left out

- Rendering: JSX, recharts charts, badges, progress bars and the court statistics table.
  They only display values.
- The static pages, navigation bar, footer, layout and routing table. They hold no logic.
- `Math.random` itself. The model takes the draws as input. Reals are exact, so the model
  ignores IEEE rounding of `Math.random() * n`; for the small n used here that rounding
  never leaves the band.
- The "x Faster" ratio and progress value (`CaseResults.tsx:509-513`). They use floating
  division and `Math.round`. Only the parse of the timeframe's upper bound is modelled.
- The results page's load effect (`CaseResults.tsx:166-194`): reading session storage,
  `JSON.parse`, the missing-entry and parse-error redirects, the 1.5 s delay and the
  loading flag. These are browser storage and timers.
- `JSON.stringify`: the stored record is kept as a value.
- Timer delays: a scheduled callback runs when `FinishUpload` or `FinishAnalysis` is
  called. Callbacks of one kind run oldest first because they share one delay. How the
  upload and analysis callbacks interleave is left to the caller.
- `disabled` attributes and the file input's `accept` filter are UI. `HandleFileUpload` and
  `OnSubmit` can be called in any state.
- zod and react-hook-form: only the `caseDetails` length rule is modelled. The other
  checks are not: the e-mail format, required-field errors, and the fact that `onSubmit`
  runs only on data that passed validation. Lengths count Dafny characters (Unicode scalar
  values). JavaScript counts UTF-16 code units, so the two differ for characters outside
  the Basic Multilingual Plane.
- The `File` object beyond `name`, `type` and `size`. Toast ids, durations and styling.
  `console.log`.
- Numbers are unbounded integers:
  - `parseInt` is not modelled as losing precision beyond 2^53;
  - `getBarColor` takes integers, so a NaN input (which gives red) is not modelled;
  - `splice` with a non-integer index is not modelled;
  - `IntToString` writes every integer in plain decimal. JavaScript's `String(n)` switches
    to exponent notation from 1e21 on; no value in the core gets near that.
