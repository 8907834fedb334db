# Cash-flow valuation wizard: a Dafny model

This project models the logic of a three-step valuation wizard: upload a
spreadsheet, review a twelve-month cash-flow summary, and export a PDF
report. It covers the following parts:

- **Sample-data generator.** The server and the client each have their own
  identical copy. It builds twelve months labelled `Jan`..`Dec`. Each month
  has revenue from a seasonal factor and a random jitter, and expenses of 60%
  to 70% of that revenue. The generator sums the revenue and the expenses,
  takes their difference as the total cash flow, and divides it by 12 for
  the average. The DCF valuation is `Math.round(average * 10)`, with a
  multiple of 10. `Math.sin` and `Math.random` become the injected `Draw`
  values.
- **Upload path on the server.**
  - The multer file filter accepts three MIME types.
  - The size limit is 5 MB.
  - The `/api/upload` handler answers 400 when there is no file, 500 when the
    spreadsheet parser throws, and otherwise returns generated sample data.
  - The error middleware answers 400 for `LIMIT_FILE_SIZE`. Every other error
    gets 500, and the error's own message is shown only when
    `NODE_ENV === 'development'`.
  - `/api/sample-data` always succeeds.

  Responses are values. A `ServerResponse` class stands for Express's `res`
  object, and the handler methods are proved to leave it holding exactly
  those values.
- **Upload component.** Its dropzone accepts the same three MIME types. Any
  accepted drop starts the sample path and never reads the file. The
  component's `isProcessing`/`uploadStatus` state is a class.
- **Wizard page.** It is a class with `cashFlowData` and `currentStep` and
  three handlers. A pure transition function and the page's render guards
  show that every reachable state past `upload` has data. Each such state
  renders exactly one step component. Handler calls come from the rendered
  component, and `onFileProcessed` can also come late, from a sample-data
  timer armed before the upload component unmounted; the invariant holds
  for both.
- **Report component.**
  - The margin formula is not guarded against zero revenue.
  - The placeholder balance sheet balances.
  - The saved file name is built from the company name and the date part of
    an ISO timestamp.
  - `generatePDF` pages the rendered image: the image sits at offset 0 on the
    first page and at `-k * 295` on page `k`. The page count is
    `floor(h / 295) + 1` for an image of height `h >= 0`, so an exact
    multiple of the page height gets a blank trailing page. `isGenerating` is
    set, then cleared, whether or not rendering fails.

An upload of a disallowed type (for example `application/zip`) is answered
with 500 `Internal server error`, not 400. The file filter
(server/index.js:38) raises a plain `Error`, not a `MulterError`, so the
middleware's 400 branch (server/index.js:144-147) does not apply. The
response's message is the invalid-type text only in development
(`ServerApi.RejectedTypeIsServerError`).

Files: `js_math.dfy` (JavaScript rounding and division), `cash_flow_types.dfy`
(records, sums, the summary invariant), `server_api.dfy`, `file_upload.dfy`,
`client_server_agreement.dfy`, `home_page.dfy`, `valuation_report.dfy`.

## Model

| member | source | states |
|---|---|---|
| `JsMath.Divide` | client/components/ValuationReport.tsx:208 | JavaScript `/` on finite operands: finite iff the divisor is non-zero, and then `q * b == a`; NaN iff both are zero, otherwise a signed infinity |
| `JsMath.ScaleBy` | client/components/ValuationReport.tsx:208 | multiplying by a positive constant keeps a finite value finite (scaled) and leaves NaN and the infinities unchanged |
| `JsMath.Round` | server/index.js:128 | `Math.round` gives the integer within half a unit of its argument, with halves going up |
| `CashFlowTypes.SumCashFlowIsDifference` | server/index.js:124-126 | when every month has `cashFlow == revenue - expenses`, the summed cash flows equal summed revenue minus summed expenses |
| `CashFlowTypes.TotalIsSumOfMonthlyCashFlows` | server/index.js:114-126 | in a well-formed summary, `totalCashFlow` equals the sum of the monthly cash flows |
| `CashFlowTypes.AverageIsMeanOfFullYear` | server/index.js:127 | the average divides by the literal 12, so it is the true monthly mean iff there are twelve months (or the total is zero) |
| `CashFlowTypes.ValuationClosedForm` | server/index.js:127-128 | with multiple 10, `dcfValuation == floor((10 * totalCashFlow + 6) / 12)` over the integers |
| `ServerApi.SampleRevenue` | server/index.js:110-112 | the revenue is the integer `Math.round` picks within half a unit of base × seasonal factor × jitter |
| `ServerApi.SampleExpenses` | server/index.js:113 | the expenses are the integer `Math.round` picks within half a unit of revenue × (0.6 + 0.1 × random) |
| `ServerApi.SampleMonth` | server/index.js:109-122 | a month carries its label and `cashFlow == revenue - expenses`; with draws in range, revenue is in [80000, 132000] and 0 < expenses < revenue |
| `ServerApi.SampleMonthBounds` | server/index.js:110-113 | for draws in range, the rounded revenue and expenses obey those bounds |
| `ServerApi.SampleRevenueBounds` | server/index.js:110-112 | a sine in [-1, 1] and a jitter in [0, 1) give a revenue in [80000, 132000] |
| `ServerApi.SampleExpensesBounds` | server/index.js:113 | an expense ratio in [0.6, 0.7) of a revenue of at least 80000 gives expenses strictly between 0 and the revenue |
| `ServerApi.GenerateSampleData` | server/index.js:103-140 | twelve months labelled Jan..Dec in order; totals are the sums; total cash flow is the difference; average is total/12; valuation is the rounded average times 10; multiple 10; company 'Sample Corporation' |
| `ServerApi.SampleDataPositive` | server/index.js:109-128 | with draws in range, every month has positive cash flow, total revenue is in [960000, 1584000], total cash flow is at least 12 and the valuation is at least 10 |
| `ServerApi.FileFilter` | server/index.js:29-40 | accepts a MIME type iff it is one of the three spreadsheet/CSV types; otherwise rejects it with the invalid-type message |
| `ServerApi.ErrorMiddlewareResponse` | server/index.js:143-155 | 400 'File too large. Maximum size is 5MB.' iff a MulterError with code LIMIT_FILE_SIZE; otherwise 500 'Internal server error' with the error's message in development and 'Something went wrong' elsewhere |
| `ServerApi.ErrorDetailHiddenOutsideDevelopment` | server/index.js:151-154 | outside development, two errors of the same kind and code get the same response whatever their messages |
| `ServerApi.UploadRouteResponse` | server/index.js:53-82 | no file gives 400 'No file uploaded'; a parser exception gives 500 'Failed to process file' with its message; 200 iff a file is present and parsing succeeds, and then the body holds the generated sample data |
| `ServerApi.UploadResponse` | server/index.js:24-82 | through filter, size limit, handler and error middleware: 200 iff a file of an allowed type, at most 5 MB, that parses; 400 iff no file or an allowed file over 5 MB; the status is always 200, 400 or 500; a 200 body is a well-formed 12-month summary |
| `ServerApi.RejectedTypeIsServerError` | server/index.js:35-38 | a file of a disallowed type ends in 500 'Internal server error', whose message is the invalid-type text only in development |
| `ServerApi.SampleDataResponse` | server/index.js:85-100 | `/api/sample-data` always answers 200 with the generated data and 'Sample data generated successfully' |
| `ServerApi.HandleError` | server/index.js:143-155 | the middleware leaves `res` holding exactly `ErrorMiddlewareResponse` |
| `ServerApi.HandleUploadRoute` | server/index.js:53-82 | the route handler leaves `res` holding exactly `UploadRouteResponse` |
| `ServerApi.PostUpload` | server/index.js:24-41 | the whole upload pipeline leaves `res` holding exactly `UploadResponse` |
| `ServerApi.HandleSampleData` | server/index.js:85-92 | the sample-data route leaves `res` holding exactly `SampleDataResponse` |
| `FileUploadComponent.MonthFromDraw` | client/components/FileUpload.tsx:24-37 | a client month carries its label and `cashFlow == revenue - expenses` |
| `FileUploadComponent.GenerateSampleData` | client/components/FileUpload.tsx:18-55 | twelve months labelled Jan..Dec; a well-formed summary; multiple 10; company 'Sample Corporation' |
| `FileUploadComponent.DropTriggersSample` | client/components/FileUpload.tsx:71 | a drop starts the sample path iff the accepted list holds any file at all |
| `FileUploadComponent.DropIgnoresFiles` | client/components/FileUpload.tsx:70-74 | whether a drop starts the sample path depends only on whether a first accepted file exists |
| `FileUploadComponent.FileUpload.constructor` | client/components/FileUpload.tsx:14-16 | not processing, status idle, nothing handed on |
| `FileUploadComponent.FileUpload.HandleSampleData` | client/components/FileUpload.tsx:57-67 | afterwards not processing and status success, and the generated data has been handed to `onFileProcessed` |
| `FileUploadComponent.FileUpload.OnDrop` | client/components/FileUpload.tsx:70-74 | an empty accepted list changes nothing; otherwise it has the effect of the sample path |
| `ClientServerAgreement.MonthsAgree` | client/components/FileUpload.tsx:24-37 | the client's month callback equals the server's for the same draw |
| `ClientServerAgreement.GeneratorsAgree` | client/components/FileUpload.tsx:18-55 | for the same draws, the client generator returns exactly the server generator's `CashFlowData` |
| `ClientServerAgreement.AcceptListsAgree` | client/components/FileUpload.tsx:75-79 | a MIME type is a dropzone accept key iff the server's file filter accepts it |
| `HomePage.Apply` | client/app/page.tsx:14-26 | only "start over" leads to the upload step; "generate report" keeps the data; the other two handlers leave the page consistent whatever the state before |
| `HomePage.RenderedViews` | client/app/page.tsx:71-88 | the three guards render at most one component, and none exactly when a later step has no data |
| `HomePage.ApplyPreservesConsistent` | client/app/page.tsx:14-26 | a handler call offered by the rendered component, or a late `onFileProcessed`, keeps "past upload implies data" |
| `HomePage.RunPreservesConsistent` | client/app/page.tsx:71-88 | any sequence of handler calls that can arrive (offered ones and late `onFileProcessed` calls) keeps the invariant |
| `HomePage.ReachableIsConsistent` | client/app/page.tsx:11-26 | in every state reachable from the initial one, late sample callbacks included, a step other than upload comes with data |
| `HomePage.LateCallbackReturnsToReview` | client/components/FileUpload.tsx:59-67 | a late `onFileProcessed` on the report step is not offered by the report, yet it arrives and moves the page back to review with the new data |
| `HomePage.ConsistentRendersOneView` | client/app/page.tsx:71-88 | in a consistent state exactly one component is rendered, the one chosen by the step |
| `HomePage.ReviewWithoutDataRendersNothing` | client/app/page.tsx:75-81 | the state (review, null) would render nothing and offer no handler |
| `HomePage.StartOverIdempotent` | client/app/page.tsx:23-26 | starting over from any state gives the initial state, and doing it twice equals doing it once |
| `HomePage.Home.constructor` | client/app/page.tsx:11-12 | initial state: no data, step upload |
| `HomePage.Home.HandleFileProcessed` | client/app/page.tsx:14-17 | data becomes the given summary and the step becomes review |
| `HomePage.Home.HandleGenerateReport` | client/app/page.tsx:19-21 | the step becomes report and the data is unchanged |
| `HomePage.Home.HandleStartOver` | client/app/page.tsx:23-26 | the data is cleared and the step returns to upload |
| `HomePage.Home.Dispatch` | client/app/page.tsx:71-88 | a handler call from the rendered component, or a late `onFileProcessed`, has the effect of `Apply` and keeps the page consistent |
| `ValuationReportComponent.Margin` | client/components/ValuationReport.tsx:208 | finite iff revenue is non-zero, and then `margin * revenue == cashFlow * 100`; NaN iff both are zero |
| `ValuationReportComponent.RowMargin` | client/components/ValuationReport.tsx:208 | a row's margin is finite iff its revenue is non-zero, and is then 100 less the expense ratio in percent |
| `ValuationReportComponent.TotalMargin` | client/components/ValuationReport.tsx:224 | the total margin (also shown in the summary at line 329) is finite iff total revenue is non-zero, and for a well-formed summary is 100 less summed expenses over summed revenue, in percent |
| `ValuationReportComponent.MarginIsExpenseComplement` | client/components/ValuationReport.tsx:208 | a margin of `revenue - expenses` over a non-zero revenue is 100% less the expense ratio |
| `ValuationReportComponent.MarginWithinPercent` | client/components/ValuationReport.tsx:208 | a cash flow between 0 and a positive revenue gives a margin in [0, 100] |
| `ValuationReportComponent.SampleMarginsArePercentages` | client/components/ValuationReport.tsx:207-224 | for a well-formed summary whose months have positive expenses below revenue, every row margin and the total margin are finite and in [0, 100] |
| `ValuationReportComponent.SumExpensesBelowRevenue` | client/components/ValuationReport.tsx:221-224 | positive monthly expenses below revenue give total expenses strictly between 0 and total revenue |
| `ValuationReportComponent.DummyBalanceSheet` | client/components/ValuationReport.tsx:36-55 | each total is the sum of its lines, and total assets (1,000,000) equal liabilities plus equity |
| `ValuationReportComponent.DatePart` | client/components/ValuationReport.tsx:90 | `split('T')[0]` is the longest prefix without 'T', ended by a 'T' or by the string's end |
| `ValuationReportComponent.ReportFileName` | client/components/ValuationReport.tsx:90 | the name is the company name, '-Valuation-Report-', a prefix of the timestamp without 'T', and '.pdf' |
| `ValuationReportComponent.IsoTimestampFileName` | client/components/ValuationReport.tsx:90 | for an ISO timestamp, the file name is company + '-Valuation-Report-' + YYYY-MM-DD + '.pdf' |
| `ValuationReportComponent.ExactMultipleAddsTrailingPage` | client/components/ValuationReport.tsx:81-88 | an image exactly k >= 1 pages high gets k + 1 pages, the last placed at `-h` (blank) |
| `ValuationReportComponent.PageCountFromBounds` | client/components/ValuationReport.tsx:83-88 | the bounds the loop exits with fix the page count at the closed form |
| `ValuationReportComponent.Paginate` | client/components/ValuationReport.tsx:73-88 | page k holds the image at offset `-k * 295`; the loop terminates with `floor(h / 295) + 1` pages for h >= 0 and one page for h < 0 |
| `ValuationReportComponent.ImageHeight` | client/components/ValuationReport.tsx:73-75 | the image height scales the canvas height by 210 / canvas width and is non-negative |
| `ValuationReportComponent.ValuationReport.constructor` | client/components/ValuationReport.tsx:14-16 | not generating, nothing saved |
| `ValuationReportComponent.ValuationReport.GeneratePdf` | client/components/ValuationReport.tsx:57-96 | without a mounted report nothing changes; otherwise `isGenerating` is written true then false, and a successful render saves one document with the report's file name and the placements of `Paginate` |

## Left out

- Floating point: reals stand for JavaScript doubles, so `totalCashFlow / 12`, `average * 10`, the margin and the image height are exact. Double rounding is not modelled.
- `Math.sin` and `Math.random` are not modelled. Their results come in as `Draw` values, one per month, and `DrawInRange` states their ranges.
- `XLSX.read` and `sheet_to_json` are not modelled. Their result is discarded; the model keeps only whether they throw (`parseError`).
- Multer's streaming size enforcement is reduced to comparing the file's byte size with 5 MB. Its `MulterError` message is taken as 'File too large'.
- The 404 handler, the health endpoint, the template download and static serving are I/O plumbing and are not modelled. So are CORS, helmet, compression, body parsing and `app.listen`.
- `console.error` logging is left out.
- `toFixed(1)` and `Intl.NumberFormat`/`Intl.DateTimeFormat` formatting are not modelled. The margin is modelled as a number before formatting.
- `html2canvas`, `jsPDF` and `pdf.save` are not modelled. A canvas is its pixel size, a document is its list of image offsets, and any exception during rendering or export appears as a missing canvas.
- ValuationReportComponent.ValuationReport.GeneratePdf: requires a canvas of positive width. With width 0, JavaScript's division gives Infinity (and the loop would never end) or NaN.
- FileUploadComponent.FileUpload.HandleSampleData: the 1000 ms and 500 ms `setTimeout` delays are not modelled, and neither is the interleaving they allow. The steps run in the order they execute, so `isProcessing` is cleared before the data is handed on.
- ServerApi.UploadResponse: `file` stands for the single part sent in the field `file`. A part under another field name, or a second file, makes `upload.single('file')` raise a `MulterError` (`LIMIT_UNEXPECTED_FILE`); that path is covered only by `ErrorMiddlewareResponse`, which answers 500.
- The `error` state of the upload component is not modelled; it is declared but never set.
- Which files react-dropzone puts into `acceptedFiles` (filtering by type, the `multiple: false` rule) is not modelled. It is library behaviour, and the model states only the guard on the list it hands over.
- Rendering markup (`CashFlowViewer`, `Header`, `layout`, the step indicator) is not modelled. The page's three render guards are kept.
- The `new Date()` clock is not modelled. The ISO timestamp is a parameter.
