/** The report panel of the SolarWise dashboard: a report of five optional sections,
    a loading/error status per section, the run that resets both and fills the sections
    one by one from the AI-generated full report, the cancellation of a run, and what the
    panel renders from that state.

    The AI call, the delays and React's state updates are not modelled: a run is the
    sequence of state transitions the handler performs, the AI call's outcome is an
    input, and so is the moment at which the run's abort signal is raised. */
module ReportGeneration {
  import opened Options

  datatype Section = ExecutiveSummary | TariffAnalysis | ConsumptionAnalytics | SolarAnalysis | SmartDevicesAnalysis

  /** The order in which a run fills the sections. */
  const SectionOrder: seq<Section> :=
    [ExecutiveSummary, TariffAnalysis, ConsumptionAnalytics, SolarAnalysis, SmartDevicesAnalysis]

  /** One value per section, as the source's records keyed by section name. */
  datatype PerSection<T> = PerSection(executiveSummary: T, tariffAnalysis: T, consumptionAnalytics: T,
                                      solarAnalysis: T, smartDevicesAnalysis: T)
  {
    function Get(s: Section): T {
      match s
      case ExecutiveSummary => executiveSummary
      case TariffAnalysis => tariffAnalysis
      case ConsumptionAnalytics => consumptionAnalytics
      case SolarAnalysis => solarAnalysis
      case SmartDevicesAnalysis => smartDevicesAnalysis
    }

    /** `{ ...prev, [s]: v }`: replaces the value of one section and keeps the others. */
    function Set(s: Section, v: T): (r: PerSection<T>)
      ensures r.Get(s) == v
      ensures forall t :: t != s ==> r.Get(t) == Get(t)
    {
      match s
      case ExecutiveSummary => this.(executiveSummary := v)
      case TariffAnalysis => this.(tariffAnalysis := v)
      case ConsumptionAnalytics => this.(consumptionAnalytics := v)
      case SolarAnalysis => this.(solarAnalysis := v)
      case SmartDevicesAnalysis => this.(smartDevicesAnalysis := v)
    }
  }

  /** The content of one generated section (an object of the AI's answer). */
  datatype SectionData = SectionData(json: string)

  type Report = PerSection<Option<SectionData>>

  datatype SectionStatus = SectionStatus(isLoading: bool, error: Option<string>)

  type Statuses = PerSection<SectionStatus>

  const InitialReport: Report := PerSection(None, None, None, None, None)

  const Idle: SectionStatus := SectionStatus(false, None)

  const InitialStatus: Statuses := PerSection(Idle, Idle, Idle, Idle, Idle)

  const SectionFailedMessage: string := "Failed to generate this section"

  /** What reading one section of the full report gives: a value (None for a null or
      missing section) or an exception. */
  datatype SectionRead = Value(data: Option<SectionData>) | Threw

  type FullReport = PerSection<SectionRead>

  /** The panel's state, and the parent's "report generated" flag. */
  datatype PanelState = PanelState(report: Report, status: Statuses, isGenerating: bool, reportGenerated: bool)

  /** The first step of `generateReportSection`: the section starts loading. */
  function StartSection(st: PanelState, s: Section): (r: PanelState)
    ensures r.status.Get(s) == SectionStatus(true, None)
    ensures forall t :: t != s ==> r.status.Get(t) == st.status.Get(t)
    ensures r.report == st.report && r.isGenerating == st.isGenerating && r.reportGenerated == st.reportGenerated
  {
    st.(status := st.status.Set(s, SectionStatus(true, None)))
  }

  /** The rest of `generateReportSection`: the `try` stores a truthy section, the
      `catch` records the failure, the `finally` clears the loading flag. */
  function FinishSection(st: PanelState, s: Section, read: SectionRead): (r: PanelState)
    ensures !r.status.Get(s).isLoading
    ensures r.status.Get(s).error == (if read.Threw? then Some(SectionFailedMessage) else st.status.Get(s).error)
    ensures r.report.Get(s) == (if read.Value? && read.data.Some? then read.data else st.report.Get(s))
    ensures forall t :: t != s ==> r.status.Get(t) == st.status.Get(t) && r.report.Get(t) == st.report.Get(t)
    ensures r.isGenerating == st.isGenerating && r.reportGenerated == st.reportGenerated
  {
    var tried :=
      match read
      case Value(Some(d)) => st.(report := st.report.Set(s, Some(d)))
      case Value(None) => st
      case Threw => st.(status := st.status.Set(s, SectionStatus(false, Some(SectionFailedMessage))));
    tried.(status := tried.status.Set(s, tried.status.Get(s).(isLoading := false)))
  }

  /** `generateReportSection(s, fullReport)` as one transition. */
  function GenerateSection(st: PanelState, s: Section, full: FullReport): (r: PanelState)
    ensures !r.status.Get(s).isLoading
    ensures r.status.Get(s).error.Some? <==> full.Get(s).Threw?
    ensures r.status.Get(s).error.Some? ==> r.status.Get(s).error.value == SectionFailedMessage
    ensures forall t :: t != s ==> r.status.Get(t) == st.status.Get(t)
    ensures full.Get(s).Value? && full.Get(s).data.Some? ==> r.report.Get(s) == full.Get(s).data
    ensures !(full.Get(s).Value? && full.Get(s).data.Some?) ==> r.report.Get(s) == st.report.Get(s)
    ensures forall t :: t != s ==> r.report.Get(t) == st.report.Get(t)
    ensures r.isGenerating == st.isGenerating && r.reportGenerated == st.reportGenerated
  {
    FinishSection(StartSection(st, s), s, full.Get(s))
  }

  /** The section loop of `handleGenerateReport`: before each section the abort signal
      is checked, and the loop breaks at the first check that sees it raised. Checks are
      numbered in the order the run makes them; `abortFrom` is the number of the first
      one that sees the signal raised. */
  function RunSections(st: PanelState, full: FullReport, todo: seq<Section>, check: nat, abortFrom: nat): (r: PanelState)
    ensures abortFrom <= check ==> r == st
    ensures forall s :: s !in todo ==> r.status.Get(s) == st.status.Get(s) && r.report.Get(s) == st.report.Get(s)
    ensures forall s :: s in todo ==> !r.status.Get(s).isLoading || r.status.Get(s) == st.status.Get(s)
    ensures r.isGenerating == st.isGenerating && r.reportGenerated == st.reportGenerated
    decreases |todo|
  {
    if |todo| == 0 || check >= abortFrom then st
    else RunSections(GenerateSection(st, todo[0], full), full, todo[1..], check + 1, abortFrom)
  }

  /** The outcome of the AI call that produces the full report. */
  datatype Generation = GenerationFailed | Generated(full: FullReport)

  /** `handleGenerateReport`. Without user data or DISCOM information only the statuses
      are reset. Otherwise the report and the statuses are reset and the run starts; a
      failed AI call resets the statuses and stops generating. After the AI call the run
      returns at once if aborted (check 0); otherwise it marks the report generated and
      fills the sections (checks 1 to 5); it stops generating unless its final check
      sees the abort. */
  function HandleGenerateReport(st: PanelState, hasUserData: bool, hasDiscomInfo: bool,
                                generation: Generation, abortFrom: nat): (r: PanelState)
    ensures !(hasUserData && hasDiscomInfo) ==> r == st.(status := InitialStatus)
  {
    if !hasUserData || !hasDiscomInfo then st.(status := InitialStatus)
    else
      var started := st.(isGenerating := true, report := InitialReport, status := InitialStatus);
      match generation
      case GenerationFailed => started.(isGenerating := false, status := InitialStatus)
      case Generated(full) =>
        if 0 >= abortFrom then started
        else
          var filled := RunSections(started.(reportGenerated := true), full, SectionOrder, 1, abortFrom);
          if 6 >= abortFrom then filled else filled.(isGenerating := false)
  }

  /** The number of sections a run fills before the abort stops it. */
  function SectionsFilled(abortFrom: nat): nat {
    if abortFrom <= 1 then 0 else if abortFrom > 6 then 5 else abortFrom - 1
  }

  /** The state a section is left in when the run filled it from `read`, starting
      from the reset state. */
  predicate FilledFrom(st: PanelState, s: Section, read: SectionRead) {
    && st.status.Get(s) == SectionStatus(false, if read.Threw? then Some(SectionFailedMessage) else None)
    && st.report.Get(s) == (if read.Value? then read.data else None)
  }

  /** The state of a section the run has not reached. */
  predicate Untouched(st: PanelState, s: Section) {
    st.status.Get(s) == Idle && st.report.Get(s) == None
  }

  /** The section loop fills the first sections of `todo`, in order, up to the first
      check that sees the abort, and leaves every other section as it found it. */
  lemma {:induction false} RunSectionsPrefix(st: PanelState, full: FullReport, todo: seq<Section>,
                                             check: nat, abortFrom: nat)
    requires forall i, j :: 0 <= i < j < |todo| ==> todo[i] != todo[j]
    requires forall i :: 0 <= i < |todo| ==> Untouched(st, todo[i])
    ensures var r := RunSections(st, full, todo, check, abortFrom);
      var n := if abortFrom <= check then 0 else if abortFrom - check >= |todo| then |todo| else abortFrom - check;
      && (forall i :: 0 <= i < n ==> FilledFrom(r, todo[i], full.Get(todo[i])))
      && (forall i :: n <= i < |todo| ==> Untouched(r, todo[i]))
      && (forall s :: s !in todo ==> r.status.Get(s) == st.status.Get(s) && r.report.Get(s) == st.report.Get(s))
      && r.isGenerating == st.isGenerating && r.reportGenerated == st.reportGenerated
    decreases |todo|
  {
    if |todo| > 0 && check < abortFrom {
      var next := GenerateSection(st, todo[0], full);
      forall i | 0 <= i < |todo[1..]|
        ensures Untouched(next, todo[1..][i])
      {
        assert todo[1..][i] == todo[i + 1] != todo[0];
      }
      forall i, j | 0 <= i < j < |todo[1..]|
        ensures todo[1..][i] != todo[1..][j]
      {
        assert todo[1..][i] == todo[i + 1] && todo[1..][j] == todo[j + 1];
      }
      RunSectionsPrefix(next, full, todo[1..], check + 1, abortFrom);
      var r := RunSections(st, full, todo, check, abortFrom);
      assert r == RunSections(next, full, todo[1..], check + 1, abortFrom);
      forall s | s !in todo[1..]
        ensures r.status.Get(s) == next.status.Get(s) && r.report.Get(s) == next.report.Get(s)
      {
      }
      assert todo[0] !in todo[1..] by {
        forall i | 0 <= i < |todo[1..]| ensures todo[1..][i] != todo[0] {
          assert todo[1..][i] == todo[i + 1];
        }
      }
      var n := if abortFrom - check >= |todo| then |todo| else abortFrom - check;
      forall i | 0 <= i < n
        ensures FilledFrom(r, todo[i], full.Get(todo[i]))
      {
        if i > 0 {
          assert todo[i] == todo[1..][i - 1];
        }
      }
      forall i | n <= i < |todo|
        ensures Untouched(r, todo[i])
      {
        assert todo[i] == todo[1..][i - 1];
      }
      forall s | s !in todo
        ensures r.status.Get(s) == st.status.Get(s) && r.report.Get(s) == st.report.Get(s)
      {
        assert s !in todo[1..];
      }
    }
  }

  /** Every section appears once in the fill order. */
  lemma SectionOrderCoversAll()
    ensures forall i, j :: 0 <= i < j < |SectionOrder| ==> SectionOrder[i] != SectionOrder[j]
    ensures forall s: Section :: s in SectionOrder
  {
    forall s: Section
      ensures s in SectionOrder
    {
      match s
      case ExecutiveSummary => assert SectionOrder[0] == s;
      case TariffAnalysis => assert SectionOrder[1] == s;
      case ConsumptionAnalytics => assert SectionOrder[2] == s;
      case SolarAnalysis => assert SectionOrder[3] == s;
      case SmartDevicesAnalysis => assert SectionOrder[4] == s;
    }
  }

  /** A run with both inputs present and a successful AI call fills the sections in the
      fixed order, stopping at the first check that sees the abort: the first
      `SectionsFilled(abortFrom)` sections hold what the full report gave them, the rest
      are as the reset left them, and the run stops generating only if it was never
      aborted. */
  lemma RunFillsPrefixInOrder(st: PanelState, full: FullReport, abortFrom: nat)
    ensures var r := HandleGenerateReport(st, true, true, Generated(full), abortFrom);
      && (forall i :: 0 <= i < SectionsFilled(abortFrom) ==> FilledFrom(r, SectionOrder[i], full.Get(SectionOrder[i])))
      && (forall i :: SectionsFilled(abortFrom) <= i < 5 ==> Untouched(r, SectionOrder[i]))
      && (r.isGenerating <==> abortFrom <= 6)
      && (r.reportGenerated <==> abortFrom >= 1 || st.reportGenerated)
  {
    SectionOrderCoversAll();
    if abortFrom > 0 {
      var started := st.(isGenerating := true, report := InitialReport, status := InitialStatus, reportGenerated := true);
      RunSectionsPrefix(started, full, SectionOrder, 1, abortFrom);
    }
  }

  /** A failed AI call leaves the report and every status reset and stops generating. */
  lemma FailedGenerationResets(st: PanelState, abortFrom: nat)
    ensures var r := HandleGenerateReport(st, true, true, GenerationFailed, abortFrom);
      r.report == InitialReport && r.status == InitialStatus && !r.isGenerating
  {
  }

  /** `isReportComplete`: every section holds data. */
  function IsReportComplete(report: Report): (complete: bool)
    ensures complete <==> forall s: Section :: report.Get(s).Some?
  {
    assert report.Get(ExecutiveSummary) == report.executiveSummary && report.Get(TariffAnalysis) == report.tariffAnalysis;
    assert report.Get(ConsumptionAnalytics) == report.consumptionAnalytics && report.Get(SolarAnalysis) == report.solarAnalysis;
    assert report.Get(SmartDevicesAnalysis) == report.smartDevicesAnalysis;
    && report.executiveSummary.Some?
    && report.tariffAnalysis.Some?
    && report.consumptionAnalytics.Some?
    && report.solarAnalysis.Some?
    && report.smartDevicesAnalysis.Some?
  }

  /** The condition on which the Generate and Settings buttons show: no section holds data. */
  function AllSectionsEmpty(report: Report): (empty: bool)
    ensures empty <==> forall s: Section :: report.Get(s).None?
  {
    assert report.Get(ExecutiveSummary) == report.executiveSummary && report.Get(TariffAnalysis) == report.tariffAnalysis;
    assert report.Get(ConsumptionAnalytics) == report.consumptionAnalytics && report.Get(SolarAnalysis) == report.solarAnalysis;
    assert report.Get(SmartDevicesAnalysis) == report.smartDevicesAnalysis;
    && report.executiveSummary.None?
    && report.tariffAnalysis.None?
    && report.consumptionAnalytics.None?
    && report.solarAnalysis.None?
    && report.smartDevicesAnalysis.None?
  }

  /** A run that is never aborted ends complete exactly when the full report gave every
      section a value, and then the Generate button is gone. */
  lemma CompleteRunIffAllSectionsPresent(st: PanelState, full: FullReport, abortFrom: nat)
    requires abortFrom > 6
    ensures var r := HandleGenerateReport(st, true, true, Generated(full), abortFrom);
      && (IsReportComplete(r.report) <==> forall s: Section :: full.Get(s).Value? && full.Get(s).data.Some?)
      && !r.isGenerating
  {
    var r := HandleGenerateReport(st, true, true, Generated(full), abortFrom);
    RunFillsPrefixInOrder(st, full, abortFrom);
    SectionOrderCoversAll();
    forall s: Section
      ensures r.report.Get(s) == (if full.Get(s).Value? then full.Get(s).data else None)
    {
      var i :| 0 <= i < 5 && SectionOrder[i] == s;
      assert FilledFrom(r, SectionOrder[i], full.Get(SectionOrder[i]));
    }
  }

  /** What `renderSection` shows for one section. */
  datatype Rendered = LoadingPlaceholder | ErrorMessage(message: string) | SectionCard(data: SectionData) | Nothing

  /** An error string shows only when it is non-empty (a JavaScript truthy string). */
  predicate HasError(status: SectionStatus) {
    status.error.Some? && status.error.value != ""
  }

  /** `renderSection`: the loading placeholder wins over the error message, which wins
      over the data; a section with none of them renders nothing. */
  function RenderSection(status: SectionStatus, data: Option<SectionData>): (r: Rendered)
    ensures r.LoadingPlaceholder? <==> status.isLoading
    ensures r.ErrorMessage? <==> !status.isLoading && HasError(status)
    ensures r.SectionCard? <==> !status.isLoading && !HasError(status) && data.Some?
    ensures r.ErrorMessage? ==> r.message == status.error.value
    ensures r.SectionCard? ==> data == Some(r.data)
  {
    if status.isLoading then LoadingPlaceholder
    else if HasError(status) then ErrorMessage(status.error.value)
    else
      match data
      case Some(d) => SectionCard(d)
      case None => Nothing
  }

  /** What a section shows after each step of its generation: the placeholder while
      loading, then the failure message if reading it threw, its card if the full report
      had it, and otherwise what it showed before. */
  lemma RenderAfterGeneration(st: PanelState, s: Section, full: FullReport)
    ensures RenderSection(StartSection(st, s).status.Get(s), StartSection(st, s).report.Get(s)) == LoadingPlaceholder
    ensures var r := GenerateSection(st, s, full);
      RenderSection(r.status.Get(s), r.report.Get(s)) ==
        match full.Get(s)
        case Threw => ErrorMessage(SectionFailedMessage)
        case Value(Some(d)) => SectionCard(d)
        case Value(None) => if st.report.Get(s).Some? then SectionCard(st.report.Get(s).value) else Nothing
  {
  }

  /** The Generate button: hidden, or shown and possibly disabled. */
  datatype GenerateButtonView = Hidden | Shown(disabled: bool)

  /** The button shows only while no section holds data, and is disabled while a run
      is generating or when there is no energy data. */
  function GenerateButton(report: Report, isGenerating: bool, energyDataCount: nat): (b: GenerateButtonView)
    ensures b.Shown? <==> forall s: Section :: report.Get(s).None?
    ensures b.Shown? ==> (b.disabled <==> isGenerating || energyDataCount == 0)
  {
    if AllSectionsEmpty(report) then Shown(isGenerating || energyDataCount == 0) else Hidden
  }
}
