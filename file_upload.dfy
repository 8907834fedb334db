/**
 * The client's upload step (client/components/FileUpload.tsx): its own copy of
 * the sample generator, the dropzone's accept list, and the component state
 * that the sample path updates.
 */
module FileUploadComponent {
  import opened JsMath
  import opened CashFlowTypes

  /** The `months.map` callback of the client generator. */
  function MonthFromDraw(month: string, d: Draw): (m: MonthlyData)
    ensures m.month == month && MonthConsistent(m)
  {
    var seasonalFactor := 1.0 + d.sine * 0.2;
    var revenue := Round(100000.0 * seasonalFactor * (1.0 + d.revenueRandom * 0.1));
    var expenses := Round(revenue as real * (0.6 + d.expenseRandom * 0.1));
    MonthlyData(month, revenue, expenses, revenue - expenses)
  }

  /** The client's `generateSampleData`, written out as the component has it. */
  function GenerateSampleData(draws: seq<Draw>): (data: CashFlowData)
    requires |draws| == 12
    ensures |data.months| == 12
    ensures forall i :: 0 <= i < 12 ==> data.months[i].month == MonthLabels[i]
    ensures WellFormed(data)
    ensures data.companyName == "Sample Corporation" && data.multiple == 10
  {
    var monthlyData := seq(12, i requires 0 <= i < 12 => MonthFromDraw(MonthLabels[i], draws[i]));
    var totalRevenue := SumRevenue(monthlyData);
    var totalExpenses := SumExpenses(monthlyData);
    var totalCashFlow := totalRevenue - totalExpenses;
    var averageMonthlyCashFlow := totalCashFlow as real / 12.0;
    var dcfValuation := Round(averageMonthlyCashFlow * 10.0);
    CashFlowData("Sample Corporation", monthlyData, totalRevenue, totalExpenses, totalCashFlow,
                 averageMonthlyCashFlow, dcfValuation, 10)
  }

  /** The dropzone's `accept` option: MIME type to file extensions. */
  const DropzoneAccept: map<string, seq<string>> := map[
    "application/vnd.openxmlformats-officedocument.spreadsheetml.sheet" := [".xlsx"],
    "application/vnd.ms-excel" := [".xls"],
    "text/csv" := [".csv"]
  ]

  /** A file the dropzone hands to `onDrop`. */
  datatype DroppedFile = DroppedFile(name: string, mimetype: string, contents: seq<bv8>)

  /** `if (acceptedFiles[0])`: a missing first element is `undefined`, a `File` is truthy. */
  function DropTriggersSample(acceptedFiles: seq<DroppedFile>): (triggers: bool)
    ensures triggers <==> exists f :: f in acceptedFiles
  {
    if |acceptedFiles| > 0 then
      assert acceptedFiles[0] in acceptedFiles;
      true
    else
      false
  }

  /** The drop guard looks at no file's name, type or contents. */
  lemma DropIgnoresFiles(a: seq<DroppedFile>, b: seq<DroppedFile>)
    requires |a| > 0 <==> |b| > 0
    ensures DropTriggersSample(a) == DropTriggersSample(b)
  {
  }

  datatype UploadStatus = Idle | Succeeded | Failed

  /**
   * The component's state. `processed` lists the summaries handed to the
   * `onFileProcessed` callback, oldest first.
   */
  class FileUpload {
    var isProcessing: bool
    var uploadStatus: UploadStatus
    var processed: seq<CashFlowData>

    constructor ()
      ensures !isProcessing && uploadStatus == Idle && processed == []
    {
      isProcessing := false;
      uploadStatus := Idle;
      processed := [];
    }

    /**
     * `handleSampleData`: mark processing, generate, mark success, hand the
     * summary to the callback and clear the processing mark (the timer delays
     * between these steps are not modelled).
     */
    method HandleSampleData(draws: seq<Draw>)
      requires |draws| == 12
      modifies this
      ensures !isProcessing && uploadStatus == Succeeded
      ensures processed == old(processed) + [GenerateSampleData(draws)]
    {
      isProcessing := true;
      var sampleData := GenerateSampleData(draws);
      uploadStatus := Succeeded;
      isProcessing := false;
      processed := processed + [sampleData];
    }

    /** `onDrop`: any accepted file starts the sample path; its contents are not read. */
    method OnDrop(acceptedFiles: seq<DroppedFile>, draws: seq<Draw>)
      requires |draws| == 12
      modifies this
      ensures |acceptedFiles| == 0 ==>
        isProcessing == old(isProcessing) && uploadStatus == old(uploadStatus) && processed == old(processed)
      ensures |acceptedFiles| > 0 ==>
        !isProcessing && uploadStatus == Succeeded && processed == old(processed) + [GenerateSampleData(draws)]
    {
      if DropTriggersSample(acceptedFiles) {
        HandleSampleData(draws);
      }
    }
  }
}
