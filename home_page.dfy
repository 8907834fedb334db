/**
 * The wizard page (client/app/page.tsx): two pieces of state, three handlers,
 * and the guards that choose which step component is rendered. The handlers
 * are passed only to the component that is on screen, so only the rendered
 * component can fire them.
 */
module HomePage {
  import opened CashFlowTypes

  datatype Step = Upload | Review | Report

  /** The page's two state variables. */
  datatype PageState = PageState(cashFlowData: Option<CashFlowData>, currentStep: Step)

  /** A call of one of the three handlers. */
  datatype Event = FileProcessed(data: CashFlowData) | GenerateReport | StartOver

  /** `useState(null)` and `useState('upload')`. */
  const Initial: PageState := PageState(None, Upload)

  /**
   * The effect of each handler on the page state. Only "start over" leads
   * back to the upload step; "generate report" keeps the data; the other two
   * handlers set the data and the step together.
   */
  function Apply(s: PageState, e: Event): (r: PageState)
    ensures r.currentStep == Upload <==> e.StartOver?
    ensures e.GenerateReport? ==> r.cashFlowData == s.cashFlowData
    ensures !e.GenerateReport? ==> Consistent(r)
  {
    match e
    case FileProcessed(data) => PageState(Some(data), Review)
    case GenerateReport => s.(currentStep := Report)
    case StartOver => PageState(None, Upload)
  }

  /** A step component the page can render. */
  datatype View = FileUploadView | CashFlowViewerView(data: CashFlowData) | ValuationReportView(data: CashFlowData)

  /**
   * The three sibling guards, each contributing its component when it holds.
   * They exclude each other, and the page is blank exactly when a later step
   * has no data.
   */
  function RenderedViews(s: PageState): (views: seq<View>)
    ensures |views| <= 1
    ensures |views| == 0 <==> s.currentStep != Upload && s.cashFlowData.None?
  {
    (if s.currentStep == Upload then [FileUploadView] else [])
    + (if s.currentStep == Review && s.cashFlowData.Some? then [CashFlowViewerView(s.cashFlowData.value)] else [])
    + (if s.currentStep == Report && s.cashFlowData.Some? then [ValuationReportView(s.cashFlowData.value)] else [])
  }

  /**
   * The handlers a rendered component offers: the upload component calls
   * `onFileProcessed`; the viewer offers "generate report" and "start over";
   * the report offers "start over".
   */
  predicate Offered(s: PageState, e: Event) {
    exists v :: v in RenderedViews(s) && OfferedBy(v, e)
  }

  predicate OfferedBy(v: View, e: Event) {
    match e
    case FileProcessed(_) => v == FileUploadView
    case GenerateReport => v.CashFlowViewerView?
    case StartOver => v.CashFlowViewerView? || v.ValuationReportView?
  }

  /**
   * The handler calls that can arrive in a state: those the rendered
   * component offers, and `onFileProcessed` in any state. The upload
   * component's sample path hands its data on from a 500 ms timer that
   * nothing cancels, and it re-enables its button before that timer fires,
   * so a second run's callback can arrive after the page has moved on to the
   * review or the report step.
   */
  predicate Deliverable(s: PageState, e: Event) {
    e.FileProcessed? || Offered(s, e)
  }

  /** The handlers called in order. */
  function Run(s: PageState, events: seq<Event>): PageState
    decreases |events|
  {
    if |events| == 0 then s else Run(Apply(s, events[0]), events[1..])
  }

  /** Every event can arrive in the state it is applied to. */
  predicate Feasible(s: PageState, events: seq<Event>)
    decreases |events|
  {
    |events| == 0 || (Deliverable(s, events[0]) && Feasible(Apply(s, events[0]), events[1..]))
  }

  /** Past the upload step, there is data to show. */
  predicate Consistent(s: PageState) {
    s.currentStep != Upload ==> s.cashFlowData.Some?
  }

  /** A single handler call that can arrive keeps the page consistent. */
  lemma ApplyPreservesConsistent(s: PageState, e: Event)
    requires Consistent(s) && Deliverable(s, e)
    ensures Consistent(Apply(s, e))
  {
  }

  /** Every state reached from a consistent one through deliverable handler calls is consistent. */
  lemma {:induction false} RunPreservesConsistent(s: PageState, events: seq<Event>)
    requires Consistent(s) && Feasible(s, events)
    ensures Consistent(Run(s, events))
    decreases |events|
  {
    if |events| > 0 {
      ApplyPreservesConsistent(s, events[0]);
      RunPreservesConsistent(Apply(s, events[0]), events[1..]);
    }
  }

  /** In every reachable state, a step other than upload comes with data. */
  lemma ReachableIsConsistent(events: seq<Event>)
    requires Feasible(Initial, events)
    ensures Run(Initial, events).currentStep != Upload ==> Run(Initial, events).cashFlowData.Some?
  {
    RunPreservesConsistent(Initial, events);
  }

  /** The view of a consistent state: exactly one component, the one for its step. */
  lemma ConsistentRendersOneView(s: PageState)
    requires Consistent(s)
    ensures |RenderedViews(s)| == 1
    ensures RenderedViews(s)[0] ==
      match s.currentStep
      case Upload => FileUploadView
      case Review => CashFlowViewerView(s.cashFlowData.value)
      case Report => ValuationReportView(s.cashFlowData.value)
  {
  }

  /** Without the invariant the page would be blank: review with no data renders nothing. */
  lemma ReviewWithoutDataRendersNothing()
    ensures RenderedViews(PageState(None, Review)) == []
    ensures forall e :: !Offered(PageState(None, Review), e)
  {
  }

  /**
   * A late `onFileProcessed` on the report step is not offered by the
   * rendered report, yet it arrives and sends the page back to review with
   * the new data.
   */
  lemma LateCallbackReturnsToReview(d: CashFlowData, d2: CashFlowData)
    ensures !Offered(PageState(Some(d), Report), FileProcessed(d2))
    ensures Feasible(PageState(Some(d), Report), [FileProcessed(d2)])
    ensures Run(PageState(Some(d), Report), [FileProcessed(d2)]) == PageState(Some(d2), Review)
  {
    assert RenderedViews(PageState(Some(d), Report)) == [ValuationReportView(d)];
  }

  /** Starting over twice is starting over once, from any state. */
  lemma StartOverIdempotent(s: PageState)
    ensures Apply(Apply(s, StartOver), StartOver) == Apply(s, StartOver)
    ensures Apply(s, StartOver) == Initial
  {
  }

  /** The `Home` component's state and handlers. */
  class Home {
    var cashFlowData: Option<CashFlowData>
    var currentStep: Step

    function State(): PageState
      reads this
    {
      PageState(cashFlowData, currentStep)
    }

    constructor ()
      ensures State() == Initial
    {
      cashFlowData := None;
      currentStep := Upload;
    }

    /** `handleFileProcessed(data)` */
    method HandleFileProcessed(data: CashFlowData)
      modifies this
      ensures cashFlowData == Some(data) && currentStep == Review
      ensures State() == Apply(old(State()), FileProcessed(data))
    {
      cashFlowData := Some(data);
      currentStep := Review;
    }

    /** `handleGenerateReport` */
    method HandleGenerateReport()
      modifies this
      ensures cashFlowData == old(cashFlowData) && currentStep == Report
      ensures State() == Apply(old(State()), GenerateReport)
    {
      currentStep := Report;
    }

    /** `handleStartOver` */
    method HandleStartOver()
      modifies this
      ensures cashFlowData == None && currentStep == Upload
      ensures State() == Apply(old(State()), StartOver)
    {
      cashFlowData := None;
      currentStep := Upload;
    }

    /** A handler call arriving: from the rendered component, or a late sample callback. */
    method Dispatch(e: Event)
      requires Consistent(State()) && Deliverable(State(), e)
      modifies this
      ensures State() == Apply(old(State()), e)
      ensures Consistent(State())
    {
      ApplyPreservesConsistent(State(), e);
      match e
      case FileProcessed(data) => HandleFileProcessed(data);
      case GenerateReport => HandleGenerateReport();
      case StartOver => HandleStartOver();
    }
  }
}
