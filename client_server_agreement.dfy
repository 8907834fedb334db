/**
 * The client and the server each carry their own copy of the sample generator
 * and their own list of spreadsheet types; these lemmas say the copies agree.
 */
module ClientServerAgreement {
  import opened JsMath
  import opened CashFlowTypes
  import ServerApi
  import FileUploadComponent

  /** Each month is computed the same way on both sides. */
  lemma MonthsAgree(month: string, d: Draw)
    ensures FileUploadComponent.MonthFromDraw(month, d) == ServerApi.SampleMonth(month, d)
  {
    var c := FileUploadComponent.MonthFromDraw(month, d);
    var s := ServerApi.SampleMonth(month, d);
    var raw := 100000.0 * (1.0 + d.sine * 0.2) * (1.0 + d.revenueRandom * 0.1);
    assert c.revenue == Round(raw);
    assert s.revenue == ServerApi.SampleRevenue(d) == Round(raw);
    var expenseRaw := c.revenue as real * (0.6 + d.expenseRandom * 0.1);
    assert c.expenses == Round(expenseRaw);
    assert s.expenses == ServerApi.SampleExpenses(s.revenue, d) == Round(expenseRaw);
  }

  /** Given the same draws, the client generator returns exactly what the server's does. */
  lemma GeneratorsAgree(draws: seq<Draw>)
    requires |draws| == 12
    ensures FileUploadComponent.GenerateSampleData(draws) == ServerApi.GenerateSampleData(draws)
  {
    var c := FileUploadComponent.GenerateSampleData(draws).months;
    var s := ServerApi.GenerateSampleData(draws).months;
    forall i | 0 <= i < 12 ensures c[i] == s[i] {
      MonthsAgree(MonthLabels[i], draws[i]);
    }
    assert c == s;
  }

  /** The dropzone accepts exactly the MIME types the server's file filter lets through. */
  lemma AcceptListsAgree()
    ensures forall m :: m in FileUploadComponent.DropzoneAccept <==> ServerApi.FileFilter(m) == ServerApi.Accept
  {
  }
}
