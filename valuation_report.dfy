/**
 * The report step (client/components/ValuationReport.tsx): the margin column,
 * the fixed balance sheet, the saved file's name, and `generatePDF`, which
 * pages a rendered image of the report onto A4 pages. The canvas renderer and
 * the PDF library are abstracted: a rendered canvas is its size, and a PDF is
 * the list of vertical offsets at which the image is placed, one per page.
 */
module ValuationReportComponent {
  import opened JsMath
  import opened CashFlowTypes

  // ---------------------------------------------------------------------------
  // Margins

  /** `(cashFlow / revenue) * 100`, before `toFixed(1)`; nothing guards a zero revenue. */
  function Margin(cashFlow: int, revenue: int): (m: JsNumber)
    ensures m.Finite? <==> revenue != 0
    ensures m.Finite? ==> m.value * revenue as real == cashFlow as real * 100.0
    ensures m == NaN <==> revenue == 0 && cashFlow == 0
  {
    ScaleBy(Divide(cashFlow as real, revenue as real), 100.0)
  }

  /** The margin cell of one month's row: 100% less the expense ratio, when revenue is not zero. */
  function RowMargin(m: MonthlyData): (r: JsNumber)
    ensures r.Finite? <==> m.revenue != 0
    ensures r.Finite? && MonthConsistent(m) ==>
      r.value == 100.0 - m.expenses as real * 100.0 / m.revenue as real
  {
    var r := Margin(m.cashFlow, m.revenue);
    if r.Finite? && MonthConsistent(m) then
      MarginIsExpenseComplement(r.value, m.revenue, m.expenses);
      r
    else
      r
  }

  /**
   * The margin of the total row and of the valuation summary: for a
   * well-formed summary, 100% less the ratio of the summed expenses to the
   * summed revenue.
   */
  function TotalMargin(d: CashFlowData): (r: JsNumber)
    ensures r.Finite? <==> d.totalRevenue != 0
    ensures r.Finite? && WellFormed(d) ==>
      r.value == 100.0 - SumExpenses(d.months) as real * 100.0 / SumRevenue(d.months) as real
  {
    var r := Margin(d.totalCashFlow, d.totalRevenue);
    if r.Finite? && WellFormed(d) then
      MarginIsExpenseComplement(r.value, d.totalRevenue, d.totalExpenses);
      r
    else
      r
  }

  /** A margin of `revenue - expenses` is 100% less the expense ratio. */
  lemma MarginIsExpenseComplement(margin: real, revenue: int, expenses: int)
    requires revenue != 0
    requires margin * revenue as real == (revenue - expenses) as real * 100.0
    ensures margin == 100.0 - expenses as real * 100.0 / revenue as real
  {
    var rev := revenue as real;
    var exp := expenses as real;
    assert margin == (rev - exp) * 100.0 / rev;
    var a := rev * 100.0;
    var b := exp * 100.0;
    assert (rev - exp) * 100.0 == a - b;
    assert (a - b) / rev == a / rev - b / rev;
    assert a / rev == 100.0;
  }

  /** A cash flow between zero and the revenue is a margin between 0% and 100%. */
  lemma MarginWithinPercent(cashFlow: int, revenue: int)
    requires 0 < revenue && 0 <= cashFlow <= revenue
    ensures Margin(cashFlow, revenue).Finite?
    ensures 0.0 <= Margin(cashFlow, revenue).value <= 100.0
  {
  }

  /** With the sample draws in range, every month's margin and the total margin are percentages. */
  lemma SampleMarginsArePercentages(data: CashFlowData)
    requires WellFormed(data)
    requires forall i :: 0 <= i < |data.months| ==> 0 < data.months[i].expenses < data.months[i].revenue
    requires |data.months| > 0
    ensures forall i :: 0 <= i < |data.months| ==>
      RowMargin(data.months[i]).Finite? && 0.0 <= RowMargin(data.months[i]).value <= 100.0
    ensures TotalMargin(data).Finite? && 0.0 <= TotalMargin(data).value <= 100.0
  {
    forall i | 0 <= i < |data.months|
      ensures RowMargin(data.months[i]).Finite? && 0.0 <= RowMargin(data.months[i]).value <= 100.0
    {
      assert MonthConsistent(data.months[i]);
      MarginWithinPercent(data.months[i].cashFlow, data.months[i].revenue);
    }
    SumExpensesBelowRevenue(data.months);
    MarginWithinPercent(data.totalCashFlow, data.totalRevenue);
  }

  /** Positive expenses below revenue in every month add up the same way. */
  lemma {:induction false} SumExpensesBelowRevenue(months: seq<MonthlyData>)
    requires |months| > 0
    requires forall i :: 0 <= i < |months| ==> 0 < months[i].expenses < months[i].revenue
    ensures 0 < SumExpenses(months) < SumRevenue(months)
  {
    var init := months[..|months| - 1];
    if |init| > 0 {
      assert forall i :: 0 <= i < |init| ==> 0 < init[i].expenses < init[i].revenue by {
        forall i | 0 <= i < |init| ensures 0 < init[i].expenses < init[i].revenue {
          assert init[i] == months[i];
        }
      }
      SumExpensesBelowRevenue(init);
    }
  }

  // ---------------------------------------------------------------------------
  // Balance sheet

  /** The placeholder balance sheet the report shows. */
  function DummyBalanceSheet(): (b: BalanceSheetData)
    ensures Balanced(b)
    ensures b.assets.totalAssets == 1000000
  {
    BalanceSheetData(
      Assets(250000, 180000, 120000, 450000, 1000000),
      Liabilities(85000, 150000, 300000, 535000),
      Equity(400000, 65000, 465000))
  }

  // ---------------------------------------------------------------------------
  // File name

  /** `s.split('T')[0]`: everything before the first `T`, or all of `s`. */
  function DatePart(s: string): (d: string)
    ensures d <= s && 'T' !in d
    ensures |d| < |s| ==> s[|d|] == 'T'
  {
    if |s| == 0 || s[0] == 'T' then [] else [s[0]] + DatePart(s[1..])
  }

  /**
   * `${companyName}-Valuation-Report-${date}.pdf`: between the fixed prefix
   * and the extension sits a prefix of the timestamp without a `T`.
   */
  function ReportFileName(companyName: string, isoNow: string): (name: string)
    ensures |companyName| + 22 <= |name|
    ensures name == companyName + "-Valuation-Report-" + name[|companyName| + 18 .. |name| - 4] + ".pdf"
    ensures name[|companyName| + 18 .. |name| - 4] <= isoNow
    ensures 'T' !in name[|companyName| + 18 .. |name| - 4]
  {
    companyName + "-Valuation-Report-" + DatePart(isoNow) + ".pdf"
  }

  /** The shape of `Date.prototype.toISOString()`: `YYYY-MM-DDTHH:mm:ss.sssZ`. */
  predicate IsIsoTimestamp(s: string) {
    |s| == 24 && s[10] == 'T' && forall i :: 0 <= i < 10 ==> s[i] != 'T'
  }

  /** For an ISO timestamp, the file name carries exactly the `YYYY-MM-DD` date. */
  lemma IsoTimestampFileName(companyName: string, isoNow: string)
    requires IsIsoTimestamp(isoNow)
    ensures DatePart(isoNow) == isoNow[..10]
    ensures ReportFileName(companyName, isoNow) == companyName + "-Valuation-Report-" + isoNow[..10] + ".pdf"
  {
  }

  // ---------------------------------------------------------------------------
  // Pagination

  const ImageWidth: real := 210.0
  const PageHeight: real := 295.0

  /** The number of pages `generatePDF` produces for an image of the given height. */
  function PageCount(imgHeight: real): (n: nat)
    ensures n >= 1
  {
    if imgHeight < 0.0 then 1 else (imgHeight / PageHeight).Floor + 1
  }

  /** The image's offset on each page: page `k` shows it shifted up by `k` page heights. */
  function Placements(imgHeight: real): (ps: seq<real>) {
    seq(PageCount(imgHeight), k => -(k as real) * PageHeight)
  }

  /** An image an exact number of pages high gets one more page, which shows nothing. */
  lemma ExactMultipleAddsTrailingPage(pages: nat)
    requires pages >= 1
    ensures PageCount(pages as real * PageHeight) == pages + 1
    ensures Placements(pages as real * PageHeight)[pages] == -(pages as real * PageHeight)
  {
    assert pages as real * PageHeight / PageHeight == pages as real;
  }

  /** The page-count closed form from the bounds the loop leaves behind. */
  lemma PageCountFromBounds(imgHeight: real, n: nat)
    requires n >= 1
    requires imgHeight < n as real * PageHeight
    requires n == 1 || (n - 1) as real * PageHeight <= imgHeight
    ensures PageCount(imgHeight) == n
  {
    if imgHeight >= 0.0 {
      var q := imgHeight / PageHeight;
      assert q * PageHeight == imgHeight;
      assert (n - 1) as real <= q < n as real;
    }
  }

  /**
   * The pagination loop: the first page shows the image at offset 0, and each
   * further page is added while some of the image is left, at an offset one
   * page height further up.
   */
  method Paginate(imgHeight: real) returns (positions: seq<real>)
    ensures |positions| == PageCount(imgHeight)
    ensures forall k :: 0 <= k < |positions| ==> positions[k] == -(k as real) * PageHeight
  {
    var heightLeft := imgHeight;
    var position := 0.0;
    positions := [position];
    heightLeft := heightLeft - PageHeight;
    while heightLeft >= 0.0
      invariant |positions| >= 1
      invariant heightLeft == imgHeight - |positions| as real * PageHeight
      invariant |positions| == 1 || (|positions| - 1) as real * PageHeight <= imgHeight
      invariant forall k :: 0 <= k < |positions| ==> positions[k] == -(k as real) * PageHeight
      decreases heightLeft.Floor
    {
      position := heightLeft - imgHeight;
      positions := positions + [position];
      heightLeft := heightLeft - PageHeight;
    }
    PageCountFromBounds(imgHeight, |positions|);
  }

  /** What `html2canvas` returns: the rendered report's pixel size. */
  datatype Canvas = Canvas(width: nat, height: nat)

  /** The image height in millimetres once scaled to the page width. */
  function ImageHeight(c: Canvas): (h: real)
    requires c.width > 0
    ensures h >= 0.0
    ensures h * c.width as real == c.height as real * ImageWidth
  {
    (c.height as real * ImageWidth) / c.width as real
  }

  /** A document handed to `pdf.save`: its name and where the image sits on each page. */
  datatype SavedPdf = SavedPdf(fileName: string, placements: seq<real>)

  /** The report component's state. `saved` lists the documents saved so far. */
  class ValuationReport {
    const data: CashFlowData
    var isGenerating: bool
    var saved: seq<SavedPdf>
    /** Every value written to `isGenerating`, oldest first. */
    ghost var generatingWrites: seq<bool>

    constructor (data: CashFlowData)
      ensures this.data == data && !isGenerating && saved == [] && generatingWrites == []
    {
      this.data := data;
      isGenerating := false;
      saved := [];
      generatingWrites := [];
    }

    /**
     * `generatePDF`. `reportMounted` says whether `reportRef.current` is set;
     * `canvas` is the rendered report, or `None` when rendering or building
     * the document throws; `isoNow` is `new Date().toISOString()`.
     */
    method GeneratePdf(reportMounted: bool, canvas: Option<Canvas>, isoNow: string)
      requires canvas.Some? ==> canvas.value.width > 0
      modifies this
      ensures !reportMounted ==>
        isGenerating == old(isGenerating) && saved == old(saved) && generatingWrites == old(generatingWrites)
      ensures reportMounted ==> !isGenerating && generatingWrites == old(generatingWrites) + [true, false]
      ensures reportMounted && canvas.None? ==> saved == old(saved)
      ensures reportMounted && canvas.Some? ==>
        saved == old(saved) + [SavedPdf(ReportFileName(data.companyName, isoNow), Placements(ImageHeight(canvas.value)))]
    {
      if !reportMounted {
        return;
      }
      isGenerating := true;
      generatingWrites := generatingWrites + [true];
      if canvas.Some? {
        var imgHeight := ImageHeight(canvas.value);
        var positions := Paginate(imgHeight);
        assert positions == Placements(imgHeight);
        saved := saved + [SavedPdf(ReportFileName(data.companyName, isoNow), positions)];
      }
      isGenerating := false;
      generatingWrites := generatingWrites + [false];
    }
  }
}
