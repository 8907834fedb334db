/**
 * The Express server (server/index.js): the sample-data generator, the upload
 * file filter, the upload and sample-data routes and the error middleware.
 * Responses are values; `ServerResponse` is the `res` object the handlers
 * update with `status` and `json`.
 */
module ServerApi {
  import opened JsMath
  import opened CashFlowTypes

  const SampleCompanyName: string := "Sample Corporation"
  const BaseRevenue: real := 100000.0
  const ValuationMultiple: int := 10

  /** One month's revenue: the base, the seasonal factor and a jitter of up to 10%, rounded. */
  function SampleRevenue(d: Draw): (revenue: int)
    ensures var raw := BaseRevenue * (1.0 + d.sine * 0.2) * (1.0 + d.revenueRandom * 0.1);
      raw - 0.5 < revenue as real <= raw + 0.5
  {
    var seasonalFactor := 1.0 + d.sine * 0.2;
    Round(BaseRevenue * seasonalFactor * (1.0 + d.revenueRandom * 0.1))
  }

  /** One month's expenses: 60% to 70% of the revenue, rounded. */
  function SampleExpenses(revenue: int, d: Draw): (expenses: int)
    ensures var raw := revenue as real * (0.6 + d.expenseRandom * 0.1);
      raw - 0.5 < expenses as real <= raw + 0.5
  {
    Round(revenue as real * (0.6 + d.expenseRandom * 0.1))
  }

  /** One month of sample data; its cash flow is the exact difference, never rounded on its own. */
  function SampleMonth(month: string, d: Draw): (m: MonthlyData)
    ensures m.month == month && MonthConsistent(m)
    ensures DrawInRange(d) ==> 80000 <= m.revenue <= 132000 && 0 < m.expenses < m.revenue
  {
    var revenue := SampleRevenue(d);
    var expenses := SampleExpenses(revenue, d);
    SampleMonthBounds(d);
    MonthlyData(month, revenue, expenses, revenue - expenses)
  }

  /** The bounds of `SampleMonth`, for draws in range. */
  lemma SampleMonthBounds(d: Draw)
    ensures DrawInRange(d) ==>
      80000 <= SampleRevenue(d) <= 132000 && 0 < SampleExpenses(SampleRevenue(d), d) < SampleRevenue(d)
  {
    if DrawInRange(d) {
      SampleRevenueBounds(d);
      SampleExpensesBounds(SampleRevenue(d), d);
    }
  }

  lemma MulNonNegative(x: real, y: real)
    requires 0.0 <= x && 0.0 <= y
    ensures 0.0 <= x * y
  {
  }

  /** A sine in [-1, 1] and a jitter in [0, 1) keep the revenue within [80000, 132000]. */
  lemma SampleRevenueBounds(d: Draw)
    requires DrawInRange(d)
    ensures 80000 <= SampleRevenue(d) <= 132000
  {
    var s, j := d.sine, d.revenueRandom;
    var raw := BaseRevenue * (1.0 + s * 0.2) * (1.0 + j * 0.1);
    assert raw == 100000.0 + 20000.0 * s + 10000.0 * j + 2000.0 * (s * j);
    MulNonNegative(j, s + 1.0);
    MulNonNegative(j, 1.0 - s);
    assert j * (s + 1.0) == s * j + j && j * (1.0 - s) == j - s * j;
    assert -1.0 <= s <= 1.0 && 0.0 <= j < 1.0;
    assert s * j <= j;
    assert raw <= 100000.0 + 20000.0 * s + 12000.0 * j;
    assert 80000.0 <= raw < 132000.0;
    RoundMonotone(80000.0, raw);
    RoundMonotone(raw, 132000.0);
  }

  /** Expenses of 60% to 70% of a revenue of at least 80000 are positive and below the revenue. */
  lemma SampleExpensesBounds(revenue: int, d: Draw)
    requires DrawInRange(d) && 80000 <= revenue
    ensures 0 < SampleExpenses(revenue, d) < revenue
  {
    var rev := revenue as real;
    var e := 0.6 + d.expenseRandom * 0.1;
    MulNonNegative(rev, e - 0.6);
    MulNonNegative(rev, 0.7 - e);
    assert rev * e == rev * 0.6 + rev * (e - 0.6);
    assert rev * e == rev * 0.7 - rev * (0.7 - e);
    assert 48000.0 <= rev * e <= rev * 0.7;
    RoundMonotone(48000.0, rev * e);
  }

  /** `generateSampleData`: twelve sample months and their summary. */
  function GenerateSampleData(draws: seq<Draw>): (data: CashFlowData)
    requires |draws| == 12
    ensures |data.months| == 12
    ensures forall i :: 0 <= i < 12 ==> data.months[i].month == MonthLabels[i]
    ensures WellFormed(data)
    ensures data.companyName == SampleCompanyName && data.multiple == 10
  {
    var monthlyData := seq(12, i requires 0 <= i < 12 => SampleMonth(MonthLabels[i], draws[i]));
    var totalRevenue := SumRevenue(monthlyData);
    var totalExpenses := SumExpenses(monthlyData);
    var totalCashFlow := totalRevenue - totalExpenses;
    var averageMonthlyCashFlow := totalCashFlow as real / 12.0;
    var dcfValuation := Round(averageMonthlyCashFlow * 10.0);
    CashFlowData(SampleCompanyName, monthlyData, totalRevenue, totalExpenses, totalCashFlow,
                 averageMonthlyCashFlow, dcfValuation, ValuationMultiple)
  }

  /**
   * With the draws in the ranges `Math.sin` and `Math.random` give, every month
   * has revenue in [80000, 132000], expenses below revenue, and so a positive
   * cash flow; the totals and the valuation are then positive too.
   */
  lemma SampleDataPositive(draws: seq<Draw>)
    requires |draws| == 12
    requires forall i :: 0 <= i < 12 ==> DrawInRange(draws[i])
    ensures var data := GenerateSampleData(draws);
      && (forall i :: 0 <= i < 12 ==>
            80000 <= data.months[i].revenue <= 132000
            && 0 < data.months[i].expenses < data.months[i].revenue
            && data.months[i].cashFlow > 0)
      && 960000 <= data.totalRevenue <= 1584000
      && data.totalCashFlow >= 12
      && data.dcfValuation >= 10
  {
    var data := GenerateSampleData(draws);
    assert forall i :: 0 <= i < 12 ==> data.months[i] == SampleMonth(MonthLabels[i], draws[i]);
    SumRevenueBounds(data.months, 80000, 132000);
    TotalIsSumOfMonthlyCashFlows(data);
    SumCashFlowPositive(data.months);
    ValuationClosedForm(data);
  }

  // ---------------------------------------------------------------------------
  // Upload validation

  const MaxFileSize: int := 5 * 1024 * 1024

  const AllowedMimes: seq<string> := [
    "application/vnd.openxmlformats-officedocument.spreadsheetml.sheet",
    "application/vnd.ms-excel",
    "text/csv"
  ]

  const InvalidFileTypeMessage: string := "Invalid file type. Only Excel and CSV files are allowed."

  /** What the multer `fileFilter` passes to its callback. */
  datatype FilterOutcome = Accept | Reject(message: string)

  /** The multer `fileFilter`: only the two spreadsheet types and CSV pass. */
  function FileFilter(mimetype: string): (r: FilterOutcome)
    ensures r == Accept <==> mimetype in AllowedMimes
    ensures r != Accept ==> r == Reject(InvalidFileTypeMessage)
  {
    if mimetype in AllowedMimes then Accept else Reject(InvalidFileTypeMessage)
  }

  // ---------------------------------------------------------------------------
  // Responses

  /**
   * A JSON body the server sends: a success envelope, or an error envelope
   * whose optional `detail` is the JSON key `message`.
   */
  datatype Body =
    | SuccessBody(data: CashFlowData, message: string)
    | ErrorBody(error: string, detail: Option<string>)

  datatype Response = Response(status: int, body: Body)

  /** An error that reaches the error middleware. */
  datatype ServerError =
    | MulterError(code: string, message: string)
    | PlainError(message: string)

  /** A file multer has read into memory. */
  datatype UploadedFile = UploadedFile(mimetype: string, size: nat)

  const DevelopmentEnv: string := "development"

  /** The error middleware: an oversized upload is a client error, everything else a server error. */
  function ErrorMiddlewareResponse(error: ServerError, nodeEnv: string): (r: Response)
    ensures r.status == 400 <==> error.MulterError? && error.code == "LIMIT_FILE_SIZE"
    ensures r.status == 400 ==> r.body == ErrorBody("File too large. Maximum size is 5MB.", None)
    ensures r.status != 400 ==> r.status == 500 && r.body.ErrorBody? && r.body.error == "Internal server error"
    ensures r.status == 500 ==>
      r.body.detail == Some(if nodeEnv == DevelopmentEnv then error.message else "Something went wrong")
  {
    if error.MulterError? && error.code == "LIMIT_FILE_SIZE" then
      Response(400, ErrorBody("File too large. Maximum size is 5MB.", None))
    else
      Response(500, ErrorBody("Internal server error",
        Some(if nodeEnv == DevelopmentEnv then error.message else "Something went wrong")))
  }

  /** Outside development, the response does not depend on the error's own message. */
  lemma ErrorDetailHiddenOutsideDevelopment(e1: ServerError, e2: ServerError, nodeEnv: string)
    requires nodeEnv != DevelopmentEnv
    requires e1.MulterError? == e2.MulterError?
    requires e1.MulterError? ==> e1.code == e2.code
    ensures ErrorMiddlewareResponse(e1, nodeEnv) == ErrorMiddlewareResponse(e2, nodeEnv)
  {
  }

  /**
   * The `/api/upload` route handler, reached once multer has let the request
   * through; `parseError` is the message `XLSX.read` throws, if it throws.
   */
  function UploadRouteResponse(file: Option<UploadedFile>, parseError: Option<string>, draws: seq<Draw>): (r: Response)
    requires |draws| == 12
    ensures file.None? ==> r == Response(400, ErrorBody("No file uploaded", None))
    ensures file.Some? && parseError.Some? ==>
      r == Response(500, ErrorBody("Failed to process file", parseError))
    ensures r.status == 200 <==> file.Some? && parseError.None?
    ensures r.status == 200 ==> r.body == SuccessBody(GenerateSampleData(draws), "File processed successfully")
  {
    match file
    case None => Response(400, ErrorBody("No file uploaded", None))
    case Some(_) =>
      match parseError
      case Some(_) => Response(500, ErrorBody("Failed to process file", parseError))
      case None => Response(200, SuccessBody(GenerateSampleData(draws), "File processed successfully"))
  }

  /**
   * `POST /api/upload` end to end: the file filter, the size limit, the route
   * handler, and the error middleware for what the first two reject.
   */
  function UploadResponse(file: Option<UploadedFile>, parseError: Option<string>, draws: seq<Draw>, nodeEnv: string): (r: Response)
    requires |draws| == 12
    ensures r.status == 200 <==>
      file.Some? && file.value.mimetype in AllowedMimes && file.value.size <= MaxFileSize && parseError.None?
    ensures r.status == 200 ==> r.body.SuccessBody? && WellFormed(r.body.data) && |r.body.data.months| == 12
    ensures r.status == 400 <==>
      file.None? || (file.value.mimetype in AllowedMimes && file.value.size > MaxFileSize)
    ensures r.status in {200, 400, 500}
  {
    match file
    case None => UploadRouteResponse(file, parseError, draws)
    case Some(f) =>
      match FileFilter(f.mimetype)
      case Reject(msg) => ErrorMiddlewareResponse(PlainError(msg), nodeEnv)
      case Accept =>
        if f.size > MaxFileSize then
          ErrorMiddlewareResponse(MulterError("LIMIT_FILE_SIZE", "File too large"), nodeEnv)
        else
          UploadRouteResponse(file, parseError, draws)
  }

  /**
   * A file of a type the filter rejects gets a 500 "Internal server error",
   * not a 400: the filter's error is a plain `Error`, not a `MulterError`.
   */
  lemma RejectedTypeIsServerError(f: UploadedFile, parseError: Option<string>, draws: seq<Draw>, nodeEnv: string)
    requires |draws| == 12
    requires f.mimetype !in AllowedMimes
    ensures var r := UploadResponse(Some(f), parseError, draws, nodeEnv);
      && r.status == 500
      && r.body == ErrorBody("Internal server error",
           Some(if nodeEnv == DevelopmentEnv then InvalidFileTypeMessage else "Something went wrong"))
  {
  }

  /** `GET /api/sample-data`: the generator cannot fail, so the answer is always a success. */
  function SampleDataResponse(draws: seq<Draw>): (r: Response)
    requires |draws| == 12
    ensures r.status == 200 && r.body.SuccessBody?
    ensures r.body.data == GenerateSampleData(draws)
    ensures r.body.message == "Sample data generated successfully"
  {
    Response(200, SuccessBody(GenerateSampleData(draws), "Sample data generated successfully"))
  }

  // ---------------------------------------------------------------------------
  // The `res` object and the handlers that drive it

  /** Express's `res`: a status code (200 until set) and the JSON body once sent. */
  class ServerResponse {
    var statusCode: int
    var sentBody: Option<Body>

    constructor ()
      ensures statusCode == 200 && sentBody == None
    {
      statusCode := 200;
      sentBody := None;
    }

    /** The response once `json` has been called. */
    function Sent(): Option<Response>
      reads this
    {
      if sentBody.Some? then Some(Response(statusCode, sentBody.value)) else None
    }

    /** `res.status(code)` */
    method Status(code: int)
      modifies this
      ensures statusCode == code && sentBody == old(sentBody)
    {
      statusCode := code;
    }

    /** `res.json(body)`: a response is sent once. */
    method Json(body: Body)
      requires sentBody == None
      modifies this
      ensures statusCode == old(statusCode) && sentBody == Some(body)
    {
      sentBody := Some(body);
    }
  }

  /** The error middleware writing to `res`. */
  method HandleError(error: ServerError, nodeEnv: string, res: ServerResponse)
    requires res.sentBody == None
    modifies res
    ensures res.Sent() == Some(ErrorMiddlewareResponse(error, nodeEnv))
  {
    if error.MulterError? {
      if error.code == "LIMIT_FILE_SIZE" {
        res.Status(400);
        res.Json(ErrorBody("File too large. Maximum size is 5MB.", None));
        return;
      }
    }
    res.Status(500);
    var detail := if nodeEnv == DevelopmentEnv then error.message else "Something went wrong";
    res.Json(ErrorBody("Internal server error", Some(detail)));
  }

  /** The `/api/upload` route handler writing to `res`. */
  method HandleUploadRoute(file: Option<UploadedFile>, parseError: Option<string>, draws: seq<Draw>, res: ServerResponse)
    requires |draws| == 12
    requires res.sentBody == None && res.statusCode == 200
    modifies res
    ensures res.Sent() == Some(UploadRouteResponse(file, parseError, draws))
  {
    if file.None? {
      res.Status(400);
      res.Json(ErrorBody("No file uploaded", None));
      return;
    }
    if parseError.Some? {
      res.Status(500);
      res.Json(ErrorBody("Failed to process file", parseError));
      return;
    }
    var sampleData := GenerateSampleData(draws);
    res.Json(SuccessBody(sampleData, "File processed successfully"));
  }

  /** `POST /api/upload` through multer, the route and the error middleware. */
  method PostUpload(file: Option<UploadedFile>, parseError: Option<string>, draws: seq<Draw>, nodeEnv: string, res: ServerResponse)
    requires |draws| == 12
    requires res.sentBody == None && res.statusCode == 200
    modifies res
    ensures res.Sent() == Some(UploadResponse(file, parseError, draws, nodeEnv))
  {
    if file.Some? {
      var outcome := FileFilter(file.value.mimetype);
      if outcome.Reject? {
        HandleError(PlainError(outcome.message), nodeEnv, res);
        return;
      }
      if file.value.size > MaxFileSize {
        HandleError(MulterError("LIMIT_FILE_SIZE", "File too large"), nodeEnv, res);
        return;
      }
    }
    HandleUploadRoute(file, parseError, draws, res);
  }

  /** `GET /api/sample-data` writing to `res`. */
  method HandleSampleData(draws: seq<Draw>, res: ServerResponse)
    requires |draws| == 12
    requires res.sentBody == None && res.statusCode == 200
    modifies res
    ensures res.Sent() == Some(SampleDataResponse(draws))
  {
    var sampleData := GenerateSampleData(draws);
    res.Json(SuccessBody(sampleData, "Sample data generated successfully"));
  }
}
