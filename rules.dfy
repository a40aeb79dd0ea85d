/**
 * The decision logic of the driver, written as the action sequence each
 * operation performs on the abstract user interface.  These functions are
 * the specifications the `Driver.InmAuto` methods are proved against; the
 * contracts and lemmas here state which controls each branch writes and
 * which it never touches.
 */
module Rules {
  import opened Text
  import opened Naming
  import opened Options
  import opened Ui

  /** `click_menu_item`: the item is clicked exactly when it is enabled. */
  function MenuItem(enabled: set<Command>, c: Command): (r: seq<Action>)
    ensures |r| <= 1 && forall a | a in r :: a == Clicked(Menu(c))
    ensures Clicked(Menu(c)) in r <==> c in enabled
  {
    if c in enabled then [Clicked(Menu(c))] else []
  }

  /** A check box that is checked when `b` holds and left alone otherwise. */
  function Flag(b: bool, c: Control): (r: seq<Action>)
    ensures forall a | a in r :: a == Checked(c)
    ensures Checked(c) in r <==> b
  {
    if b then [Checked(c)] else []
  }

  /** The value `SetEditText` writes for an optional identifier. */
  function IdValue(id: Option<string>): Value {
    match id
    case None => Null
    case Some(s) => Text(s)
  }

  /** Select the first entry of a selection dialog and confirm it (`__select`). */
  const SelectFirst: seq<Action> := [Action(Dialog(ListBox), Select, Index(0)), Clicked(Dialog(OKButton))]

  // ---------------------------------------------------------------- set_grid

  function GridTypeSelect(g: GridSetup): Action {
    Action(Grid(GridTypeCombo), Select, Text(GridTypeName(g.gridType)))
  }

  /** A truthy relative threshold selects the relative radio button, anything else the fixed one. */
  function ThresholdActions(g: GridSetup): (r: seq<Action>)
    ensures AllIn(r, {ThresholdPane})
  {
    if Truthy(g.relativeThreshold) then
      [Clicked(Grid(RelativeRadio)), Action(Grid(RelativeEdit), SetText, Real(g.relativeThreshold.value))]
    else
      [Clicked(Grid(FixedRadio)), Action(Grid(FixedEdit), SetText, Real(g.fixedThreshold))]
  }

  /** The percent-of-time box is clicked only when it reads unchecked, and unchecked when the option is off. */
  function PercentActions(g: GridSetup, percentChecked: bool): (r: seq<Action>)
    ensures AllIn(r, {PercentPane})
  {
    if Truthy(g.doPercentOfTime) then
      (if percentChecked then [] else [Clicked(Grid(PercentCheck))])
      + [Action(Grid(PercentEdit), SetText, Real(g.doPercentOfTime.value))]
    else
      [Action(Grid(PercentCheck), UnCheck, NoValue)]
  }

  /** Origin, extent and rotation: contour, standard and detailed grids only; X/Y coordinates only. */
  function PlacementActions(g: GridSetup): (r: seq<Action>)
    ensures AllIn(r, {PlacementPane})
  {
    if g.gridType != Location then
      (if g.coordinates == XY then
         [Clicked(Grid(XYRadio)),
          Action(Grid(XEdit), SetText, Real(g.x)), Action(Grid(YEdit), SetText, Real(g.y)),
          Action(Grid(IEdit), SetText, Real(g.i)), Action(Grid(JEdit), SetText, Real(g.j))]
       else [])
      + [Action(Grid(RotationEdit), SetText, Real(g.gridRotationAngle))]
    else []
  }

  /** Grid id and point counts: standard and detailed grids only. */
  function SizeActions(g: GridSetup): (r: seq<Action>)
    ensures AllIn(r, {SizePane})
  {
    if g.gridType in {Standard, Detailed} then
      [Action(Grid(GridIdEdit), SetText, IdValue(g.gridId)),
       Action(Grid(PointsIEdit), SetText, Whole(g.nbPtsI)), Action(Grid(PointsJEdit), SetText, Whole(g.nbPtsJ))]
    else []
  }

  /** `set_grid`: add a record, choose its type, then the threshold, percent-of-time, placement and size sections. */
  function GridActions(g: GridSetup, enabled: set<Command>, percentChecked: bool): seq<Action> {
    MenuItem(enabled, EditAddRecord) + [GridTypeSelect(g)] + ThresholdActions(g)
    + PercentActions(g, percentChecked) + PlacementActions(g) + SizeActions(g)
  }

  /** The section of `set_grid` that writes pane `q`. */
  function GridSection(g: GridSetup, enabled: set<Command>, percentChecked: bool, q: Pane): seq<Action> {
    match q
    case MenuPane => MenuItem(enabled, EditAddRecord)
    case GridTypePane => [GridTypeSelect(g)]
    case ThresholdPane => ThresholdActions(g)
    case PercentPane => PercentActions(g, percentChecked)
    case PlacementPane => PlacementActions(g)
    case SizePane => SizeActions(g)
    case _ => []
  }

  /** Six logs on the six grid panes, filtered to one pane, leave the log on that pane. */
  lemma GridPanesOnly(m: seq<Action>, k: seq<Action>, t: seq<Action>, p: seq<Action>, l: seq<Action>, s: seq<Action>, q: Pane)
    requires AllIn(m, {MenuPane}) && AllIn(k, {GridTypePane}) && AllIn(t, {ThresholdPane})
    requires AllIn(p, {PercentPane}) && AllIn(l, {PlacementPane}) && AllIn(s, {SizePane})
    ensures Only(m + k + t + p + l + s, {q}) ==
      match q
      case MenuPane => m
      case GridTypePane => k
      case ThresholdPane => t
      case PercentPane => p
      case PlacementPane => l
      case SizePane => s
      case _ => []
  {
    OnlySix(m, k, t, p, l, s, {q});
    OnlyPane(m, MenuPane, q);
    OnlyPane(k, GridTypePane, q);
    OnlyPane(t, ThresholdPane, q);
    OnlyPane(p, PercentPane, q);
    OnlyPane(l, PlacementPane, q);
    OnlyPane(s, SizePane, q);
  }

  /** Each pane of a grid's trace holds exactly the section that writes it. */
  lemma GridOnly(g: GridSetup, enabled: set<Command>, percentChecked: bool, q: Pane)
    ensures Only(GridActions(g, enabled, percentChecked), {q}) == GridSection(g, enabled, percentChecked, q)
  {
    GridPanesOnly(MenuItem(enabled, EditAddRecord), [GridTypeSelect(g)], ThresholdActions(g),
      PercentActions(g, percentChecked), PlacementActions(g), SizeActions(g), q);
  }

  /** Exactly one kind of threshold is written: relative when it is truthy, fixed otherwise. */
  lemma GridThreshold(g: GridSetup, enabled: set<Command>, percentChecked: bool)
    ensures Only(GridActions(g, enabled, percentChecked), {ThresholdPane}) ==
      if Truthy(g.relativeThreshold) then
        [Clicked(Grid(RelativeRadio)), Action(Grid(RelativeEdit), SetText, Real(g.relativeThreshold.value))]
      else
        [Clicked(Grid(FixedRadio)), Action(Grid(FixedEdit), SetText, Real(g.fixedThreshold))]
  {
    GridOnly(g, enabled, percentChecked, ThresholdPane);
  }

  /** In a log whose threshold section is that of `g`, the threshold kind not chosen is never touched. */
  lemma ThresholdUntouched(r: seq<Action>, g: GridSetup)
    requires Only(r, {ThresholdPane}) == ThresholdActions(g)
    ensures Truthy(g.relativeThreshold) ==> !Touches(r, Grid(FixedRadio)) && !Touches(r, Grid(FixedEdit))
    ensures !Truthy(g.relativeThreshold) ==> !Touches(r, Grid(RelativeRadio)) && !Touches(r, Grid(RelativeEdit))
  {
    var ps := {ThresholdPane};
    if Truthy(g.relativeThreshold) {
      UntouchedVia(r, ps, Grid(FixedRadio));
      UntouchedVia(r, ps, Grid(FixedEdit));
    } else {
      UntouchedVia(r, ps, Grid(RelativeRadio));
      UntouchedVia(r, ps, Grid(RelativeEdit));
    }
  }

  /** The threshold kind not chosen is never touched. */
  lemma GridThresholdExclusive(g: GridSetup, enabled: set<Command>, percentChecked: bool)
    ensures var r := GridActions(g, enabled, percentChecked);
      Truthy(g.relativeThreshold) ==> !Touches(r, Grid(FixedRadio)) && !Touches(r, Grid(FixedEdit))
    ensures var r := GridActions(g, enabled, percentChecked);
      !Truthy(g.relativeThreshold) ==> !Touches(r, Grid(RelativeRadio)) && !Touches(r, Grid(RelativeEdit))
  {
    GridOnly(g, enabled, percentChecked, ThresholdPane);
    ThresholdUntouched(GridActions(g, enabled, percentChecked), g);
  }

  /** Whatever the box read before, it reads checked afterwards exactly when percent-of-time is set. */
  lemma PercentActionsState(g: GridSetup, percentChecked: bool)
    ensures CheckState(percentChecked, Grid(PercentCheck), PercentActions(g, percentChecked)) == Truthy(g.doPercentOfTime)
  {
    var r := PercentActions(g, percentChecked);
    if Truthy(g.doPercentOfTime) {
      var edit := [Action(Grid(PercentEdit), SetText, Real(g.doPercentOfTime.value))];
      assert CheckState(true, Grid(PercentCheck), edit) == CheckState(true, Grid(PercentCheck), []);
      if !percentChecked {
        assert r[1..] == edit;
      }
    } else {
      assert r[1..] == [];
    }
  }

  /**
   * With percent-of-time set, the box is clicked only when it reads
   * unchecked and the hours are written; without it the box is unchecked and
   * the hours are left alone.
   */
  lemma GridPercent(g: GridSetup, enabled: set<Command>, percentChecked: bool)
    ensures Only(GridActions(g, enabled, percentChecked), {PercentPane}) ==
      if Truthy(g.doPercentOfTime) then
        (if percentChecked then [] else [Clicked(Grid(PercentCheck))])
        + [Action(Grid(PercentEdit), SetText, Real(g.doPercentOfTime.value))]
      else
        [Action(Grid(PercentCheck), UnCheck, NoValue)]
  {
    GridOnly(g, enabled, percentChecked, PercentPane);
  }

  /** Whatever the box read before, a grid leaves it checked exactly when percent-of-time is set. */
  lemma GridPercentOfTime(g: GridSetup, enabled: set<Command>, percentChecked: bool)
    ensures CheckState(percentChecked, Grid(PercentCheck), GridActions(g, enabled, percentChecked)) == Truthy(g.doPercentOfTime)
  {
    var r, ps := GridActions(g, enabled, percentChecked), {PercentPane};
    GridOnly(g, enabled, percentChecked, PercentPane);
    OnlyCheckState(percentChecked, Grid(PercentCheck), r, ps);
    PercentActionsState(g, percentChecked);
  }

  /** Placement is written for Contour, Standard and Detailed grids: X/Y/I/J for X/Y coordinates only, rotation always. */
  lemma GridPlacement(g: GridSetup, enabled: set<Command>, percentChecked: bool)
    ensures Only(GridActions(g, enabled, percentChecked), {PlacementPane}) ==
      if g.gridType !in {Contour, Standard, Detailed} then []
      else if g.coordinates == XY then
        [Clicked(Grid(XYRadio)),
         Action(Grid(XEdit), SetText, Real(g.x)), Action(Grid(YEdit), SetText, Real(g.y)),
         Action(Grid(IEdit), SetText, Real(g.i)), Action(Grid(JEdit), SetText, Real(g.j)),
         Action(Grid(RotationEdit), SetText, Real(g.gridRotationAngle))]
      else
        [Action(Grid(RotationEdit), SetText, Real(g.gridRotationAngle))]
  {
    GridOnly(g, enabled, percentChecked, PlacementPane);
  }

  /** In a log whose placement section is that of `g`, without X/Y coordinates none of X/Y/I/J is touched. */
  lemma PlacementUntouched(r: seq<Action>, g: GridSetup)
    requires g.gridType == Location || g.coordinates != XY
    requires Only(r, {PlacementPane}) == PlacementActions(g)
    ensures && !Touches(r, Grid(XYRadio)) && !Touches(r, Grid(XEdit)) && !Touches(r, Grid(YEdit))
      && !Touches(r, Grid(IEdit)) && !Touches(r, Grid(JEdit))
  {
    var ps := {PlacementPane};
    assert forall a | a in Only(r, ps) :: a.control == Grid(RotationEdit);
    UntouchedVia(r, ps, Grid(XYRadio));
    UntouchedVia(r, ps, Grid(XEdit));
    UntouchedVia(r, ps, Grid(YEdit));
    UntouchedVia(r, ps, Grid(IEdit));
    UntouchedVia(r, ps, Grid(JEdit));
  }

  /** Without X/Y coordinates, or for a Location grid, none of X/Y/I/J is touched. */
  lemma GridNoXY(g: GridSetup, enabled: set<Command>, percentChecked: bool)
    requires g.gridType == Location || g.coordinates != XY
    ensures var r := GridActions(g, enabled, percentChecked);
      && !Touches(r, Grid(XYRadio)) && !Touches(r, Grid(XEdit)) && !Touches(r, Grid(YEdit))
      && !Touches(r, Grid(IEdit)) && !Touches(r, Grid(JEdit))
  {
    GridOnly(g, enabled, percentChecked, PlacementPane);
    PlacementUntouched(GridActions(g, enabled, percentChecked), g);
  }

  /** Grid id and point counts are written for Standard and Detailed grids only. */
  lemma GridSize(g: GridSetup, enabled: set<Command>, percentChecked: bool)
    ensures Only(GridActions(g, enabled, percentChecked), {SizePane}) ==
      if g.gridType in {Standard, Detailed} then
        [Action(Grid(GridIdEdit), SetText, IdValue(g.gridId)),
         Action(Grid(PointsIEdit), SetText, Whole(g.nbPtsI)), Action(Grid(PointsJEdit), SetText, Whole(g.nbPtsJ))]
      else []
  {
    GridOnly(g, enabled, percentChecked, SizePane);
  }

  /** A Location grid writes nothing in the placement and size sections. */
  lemma LocationGridFields(g: GridSetup, enabled: set<Command>, percentChecked: bool)
    requires g.gridType == Location
    ensures var r := GridActions(g, enabled, percentChecked);
      Only(r, {PlacementPane}) == [] && Only(r, {SizePane}) == []
  {
    GridOnly(g, enabled, percentChecked, PlacementPane);
    GridOnly(g, enabled, percentChecked, SizePane);
  }

  /** A grid selects its type exactly once. */
  lemma GridTypeOnce(g: GridSetup, enabled: set<Command>, percentChecked: bool)
    ensures Only(GridActions(g, enabled, percentChecked), {GridTypePane}) == [GridTypeSelect(g)]
  {
    GridOnly(g, enabled, percentChecked, GridTypePane);
  }

  // --------------------------------------------------------- set_run_options

  /** Close the other windows, open Run Options, cascade. */
  function RunOptionsHead(enabled: set<Command>): (r: seq<Action>)
    ensures AllIn(r, {MenuPane})
  {
    MenuItem(enabled, WindowCloseAll) + MenuItem(enabled, RunRunOptions) + MenuItem(enabled, WindowCascade)
  }

  /** Run type, terrain, lateral attenuation and bank angle: set whatever the run type. */
  function CommonRunActions(ro: RunOptions): (r: seq<Action>)
    ensures AllIn(r, {GeneralPane})
  {
    [Action(Run(General(RunTypeCombo)), Select, Text(ro.runType))]
    + Flag(ro.doTerrain, Run(General(TerrainCheck)))
    + [Action(Run(General(LateralCombo)), Select, Text(ro.lateralAttenuation))]
    + Flag(ro.useBankAngle, Run(General(BankAngleCheck)))
  }

  /** The noise metric is selected by its fixed-width token. */
  function NoiseMetricSelect(ro: RunOptions): Action {
    Action(Run(NoiseMetricCombo), Select, Text(MetricToken(ro.noiseMetric)))
  }

  /** Only a Single-Metric run selects its noise metric. */
  function MetricSelectActions(ro: RunOptions): (r: seq<Action>)
    ensures AllIn(r, {MetricComboPane})
  {
    if ro.runType == SingleMetric then [NoiseMetricSelect(ro)] else []
  }

  /** Fixed grid with fixed spacing, fixed grid with refinement, or recursive grid. */
  function ContourGridActions(ro: RunOptions): (r: seq<Action>)
    ensures AllIn(r, {ContourPane})
  {
    if ro.fixedGrid then
      if ro.fixedSpacing then
        [Clicked(Run(Contours(FixedGridRadio))), Clicked(Run(Contours(FixedSpacingRadio))),
         Action(Run(Contours(SpacingEdit)), SetText, Real(ro.spacing))]
      else
        [Clicked(Run(Contours(FixedGridRadio))), Clicked(Run(Contours(RefinementRadio))),
         Action(Run(Contours(RefinementCombo)), Select, Index(ro.refinement))]
    else
      [Clicked(Run(Contours(RecursiveGrid))), Action(Run(Contours(RefinementCombo)), Select, Index(ro.refinement)),
       Action(Run(Contours(ToleranceEdit)), SetText, Real(ro.tolerance)),
       Action(Run(Contours(LowCutoffEdit)), SetText, Real(ro.lowCutoff)),
       Action(Run(Contours(HighCutoffEdit)), SetText, Real(ro.highCutoff))]
  }

  /** For a Single-Metric run with contours: the contours box, the boundary file, then the grid method. */
  function ContourActions(ro: RunOptions): (r: seq<Action>)
    ensures AllIn(r, {ContourPane})
  {
    if ro.runType == SingleMetric && ro.doContours then
      [Checked(Run(Contours(ContoursCheck)))] + Flag(ro.useBoundaryFile, Run(Contours(BoundaryCheck))) + ContourGridActions(ro)
    else []
  }

  /** For a Single-Metric run: the population, location and grid outputs; Save 100% Flights only inside detailed grids. */
  function OutputFlagActions(ro: RunOptions): (r: seq<Action>)
    ensures AllIn(r, {OutputPane})
  {
    if ro.runType == SingleMetric then
      Flag(ro.doPopulationPoints, Run(Outputs(PopPointsCheck)))
      + Flag(ro.doLocationPoints, Run(Outputs(LocPointsCheck)))
      + Flag(ro.doStandardGrids, Run(Outputs(StandardGridsCheck)))
      + (if ro.doDetailedGrids then [Checked(Run(Outputs(DetailedGridsCheck)))] + Flag(ro.saveAllFlights, Run(Outputs(SaveFlightsCheck))) else [])
    else []
  }

  /** One check per metric of `order` that is in `chosen`, in the order of `order`. */
  function MetricChecks(order: seq<Metric>, chosen: set<Metric>): (r: seq<Action>)
    ensures AllIn(r, {MetricPane})
    decreases |order|
  {
    if order == [] then []
    else Flag(order[0] in chosen, Run(MetricCheck(order[0]))) + MetricChecks(order[1..], chosen)
  }

  /** The metric boxes are only ever checked, and a metric's box is checked exactly when it is listed and chosen. */
  lemma {:induction false} MetricChecksExact(order: seq<Metric>, chosen: set<Metric>)
    ensures forall a | a in MetricChecks(order, chosen) :: a == Checked(a.control)
    ensures forall m :: Checked(Run(MetricCheck(m))) in MetricChecks(order, chosen) <==> m in order && m in chosen
    decreases |order|
  {
    if order != [] {
      MetricChecksExact(order[1..], chosen);
      assert order == [order[0]] + order[1..];
    }
  }

  /** For a Single-Metric run: the boxes of the chosen metrics, in the order `set_run_options` checks them. */
  function MetricActions(ro: RunOptions): (r: seq<Action>)
    ensures AllIn(r, {MetricPane})
  {
    if ro.runType == SingleMetric then MetricChecks(AllMetrics, ro.metrics) else []
  }

  /** Every metric is one of the sixteen the driver goes through. */
  lemma AllMetricsComplete(m: Metric)
    ensures m in AllMetrics
  {
    match m
    case DNL => case CNEL => case LAEQ => case LAEQD => case LAEQN => case SEL => case LAMAX => case TALA =>
    case NEF => case WECPNL => case EPNL => case PNLTM => case TAPNL => case CEXP => case LCMAX => case TALC =>
  }

  /** Going through all sixteen metrics checks the box of each chosen metric and of no other. */
  lemma MetricChecksAll(chosen: set<Metric>)
    ensures forall a | a in MetricChecks(AllMetrics, chosen) :: a == Checked(a.control)
    ensures forall m :: Checked(Run(MetricCheck(m))) in MetricChecks(AllMetrics, chosen) <==> m in chosen
  {
    MetricChecksExact(AllMetrics, chosen);
    forall m ensures m in AllMetrics { AllMetricsComplete(m); }
  }

  /**
   * `set_run_options`: the general options for any run type; the metric,
   * contour, output and metric-box sections for a Single-Metric run only.
   */
  function RunOptionsActions(ro: RunOptions, enabled: set<Command>): seq<Action> {
    RunOptionsHead(enabled) + CommonRunActions(ro) + MetricSelectActions(ro)
    + ContourActions(ro) + OutputFlagActions(ro) + MetricActions(ro)
  }

  /**
   * Six logs on the six Run Options panes, filtered to one pane, leave the
   * log on that pane; applied to the sections of `RunOptionsActions` it
   * gives each pane of a run configuration's trace.
   */
  lemma RunPanesOnly(h: seq<Action>, c: seq<Action>, n: seq<Action>, k: seq<Action>, o: seq<Action>, m: seq<Action>, q: Pane)
    requires AllIn(h, {MenuPane}) && AllIn(c, {GeneralPane}) && AllIn(n, {MetricComboPane})
    requires AllIn(k, {ContourPane}) && AllIn(o, {OutputPane}) && AllIn(m, {MetricPane})
    ensures Only(h + c + n + k + o + m, {q}) ==
      match q
      case MenuPane => h
      case GeneralPane => c
      case MetricComboPane => n
      case ContourPane => k
      case OutputPane => o
      case MetricPane => m
      case _ => []
  {
    OnlySix(h, c, n, k, o, m, {q});
    OnlyPane(h, MenuPane, q);
    OnlyPane(c, GeneralPane, q);
    OnlyPane(n, MetricComboPane, q);
    OnlyPane(k, ContourPane, q);
    OnlyPane(o, OutputPane, q);
    OnlyPane(m, MetricPane, q);
  }

  /** Run type and lateral attenuation are selected, terrain and bank angle checked when set, whatever the run type. */
  lemma RunGeneral(ro: RunOptions, enabled: set<Command>)
    ensures Only(RunOptionsActions(ro, enabled), {GeneralPane}) ==
      [Action(Run(General(RunTypeCombo)), Select, Text(ro.runType))]
      + (if ro.doTerrain then [Checked(Run(General(TerrainCheck)))] else [])
      + [Action(Run(General(LateralCombo)), Select, Text(ro.lateralAttenuation))]
      + (if ro.useBankAngle then [Checked(Run(General(BankAngleCheck)))] else [])
  {
    RunPanesOnly(RunOptionsHead(enabled), CommonRunActions(ro), MetricSelectActions(ro),
      ContourActions(ro), OutputFlagActions(ro), MetricActions(ro), GeneralPane);
  }

  /** A flag's box ends checked when it was, or when the flag is set. */
  lemma FlagState(initial: bool, b: bool, c: Control)
    ensures CheckState(initial, c, Flag(b, c)) == (initial || b)
  {
    if b {
      assert Flag(b, c)[1..] == [];
    }
  }

  /** The terrain and bank-angle boxes end checked when they were, or when the option is set. */
  lemma GeneralState(r: seq<Action>, ro: RunOptions, terrain: bool, bank: bool)
    requires Only(r, {GeneralPane}) == CommonRunActions(ro)
    ensures CheckState(terrain, Run(General(TerrainCheck)), r) == (terrain || ro.doTerrain)
    ensures CheckState(bank, Run(General(BankAngleCheck)), r) == (bank || ro.useBankAngle)
  {
    var rt := [Action(Run(General(RunTypeCombo)), Select, Text(ro.runType))];
    var lat := [Action(Run(General(LateralCombo)), Select, Text(ro.lateralAttenuation))];
    var t, b := Flag(ro.doTerrain, Run(General(TerrainCheck))), Flag(ro.useBankAngle, Run(General(BankAngleCheck)));
    var tc, bc := Run(General(TerrainCheck)), Run(General(BankAngleCheck));
    OnlyCheckState(terrain, tc, r, {GeneralPane});
    OnlyCheckState(bank, bc, r, {GeneralPane});
    assert CommonRunActions(ro) == rt + t + lat + b;
    CheckStateAppend(terrain, tc, rt + t + lat, b);
    CheckStateAppend(terrain, tc, rt + t, lat);
    CheckStateAppend(terrain, tc, rt, t);
    CheckStateUntouched(terrain, tc, rt);
    FlagState(terrain, ro.doTerrain, tc);
    CheckStateUntouched(terrain || ro.doTerrain, tc, lat);
    CheckStateUntouched(terrain || ro.doTerrain, tc, b);
    CheckStateAppend(bank, bc, rt + t + lat, b);
    CheckStateUntouched(bank, bc, rt + t + lat);
    FlagState(bank, ro.useBankAngle, bc);
  }

  /** After Run Options, terrain and bank angle read checked if they did before or the option is set. */
  lemma RunGeneralState(ro: RunOptions, enabled: set<Command>, terrain: bool, bank: bool)
    ensures CheckState(terrain, Run(General(TerrainCheck)), RunOptionsActions(ro, enabled)) == (terrain || ro.doTerrain)
    ensures CheckState(bank, Run(General(BankAngleCheck)), RunOptionsActions(ro, enabled)) == (bank || ro.useBankAngle)
  {
    RunPanesOnly(RunOptionsHead(enabled), CommonRunActions(ro), MetricSelectActions(ro),
      ContourActions(ro), OutputFlagActions(ro), MetricActions(ro), GeneralPane);
    GeneralState(RunOptionsActions(ro, enabled), ro, terrain, bank);
  }

  /** A run type other than Single-Metric writes the menu and the general options only. */
  lemma RunOtherType(ro: RunOptions, enabled: set<Command>)
    requires ro.runType != SingleMetric
    ensures AllIn(RunOptionsActions(ro, enabled), {MenuPane, GeneralPane})
  {
    var h, c, ps := RunOptionsHead(enabled), CommonRunActions(ro), {MenuPane, GeneralPane};
    assert RunOptionsActions(ro, enabled) == h + c;
    AllInWiden(h, {MenuPane}, ps);
    AllInWiden(c, {GeneralPane}, ps);
    AllInAppend(h, c, ps);
  }

  /** A Single-Metric run selects the noise metric by its token; other runs leave the combo alone. */
  lemma RunMetricSelect(ro: RunOptions, enabled: set<Command>)
    ensures Only(RunOptionsActions(ro, enabled), {MetricComboPane}) ==
      if ro.runType == SingleMetric then [Action(Run(NoiseMetricCombo), Select, Text(MetricToken(ro.noiseMetric)))] else []
  {
    RunPanesOnly(RunOptionsHead(enabled), CommonRunActions(ro), MetricSelectActions(ro),
      ContourActions(ro), OutputFlagActions(ro), MetricActions(ro), MetricComboPane);
  }

  /** The contour section is written for a Single-Metric run with contours only. */
  lemma RunContours(ro: RunOptions, enabled: set<Command>)
    ensures Only(RunOptionsActions(ro, enabled), {ContourPane}) ==
      if ro.runType == SingleMetric && ro.doContours then
        [Checked(Run(Contours(ContoursCheck)))]
        + (if ro.useBoundaryFile then [Checked(Run(Contours(BoundaryCheck)))] else [])
        + ContourGridActions(ro)
      else []
  {
    RunPanesOnly(RunOptionsHead(enabled), CommonRunActions(ro), MetricSelectActions(ro),
      ContourActions(ro), OutputFlagActions(ro), MetricActions(ro), ContourPane);
  }

  /** The contour fields a grid method writes. */
  function GridMethodFields(ro: RunOptions): set<ContourField> {
    if !ro.fixedGrid then {RecursiveGrid, RefinementCombo, ToleranceEdit, LowCutoffEdit, HighCutoffEdit}
    else if ro.fixedSpacing then {FixedGridRadio, FixedSpacingRadio, SpacingEdit}
    else {FixedGridRadio, RefinementRadio, RefinementCombo}
  }

  /** The contour fields a run configuration writes: none unless it is a Single-Metric run with contours. */
  function ContourFields(ro: RunOptions): set<ContourField> {
    if ro.runType == SingleMetric && ro.doContours then
      {ContoursCheck} + (if ro.useBoundaryFile then {BoundaryCheck} else {}) + GridMethodFields(ro)
    else {}
  }

  /** A grid method touches exactly its own fields. */
  lemma ContourGridFields(ro: RunOptions)
    ensures forall f :: Touches(ContourGridActions(ro), Run(Contours(f))) <==> f in GridMethodFields(ro)
  {
    var g := ContourGridActions(ro);
    forall j | 0 <= j < |g| ensures g[j] in g { }
  }

  /** The contour section touches exactly the contour fields of the configuration. */
  lemma ContourActionsFields(ro: RunOptions)
    ensures forall f :: Touches(ContourActions(ro), Run(Contours(f))) <==> f in ContourFields(ro)
  {
    if ro.runType == SingleMetric && ro.doContours {
      var c := [Checked(Run(Contours(ContoursCheck)))];
      var b := Flag(ro.useBoundaryFile, Run(Contours(BoundaryCheck)));
      var g := ContourGridActions(ro);
      ContourGridFields(ro);
      forall f ensures Touches(ContourActions(ro), Run(Contours(f))) <==> f in ContourFields(ro) {
        var x := Run(Contours(f));
        TouchesAppend(c + b, g, x);
        TouchesAppend(c, b, x);
        assert c[0] in c;
        if ro.useBoundaryFile { assert b[0] in b; }
      }
    }
  }

  /** In a log whose contour pane holds the contour section of `ro`, the contour fields touched are those of `ro`. */
  lemma ContourFacts(r: seq<Action>, ro: RunOptions)
    requires Only(r, {ContourPane}) == ContourActions(ro)
    ensures forall f :: Touches(r, Run(Contours(f))) <==> f in ContourFields(ro)
  {
    ContourActionsFields(ro);
    forall f ensures Touches(r, Run(Contours(f))) <==> f in ContourFields(ro) {
      OnlyTouches(r, {ContourPane}, Run(Contours(f)));
    }
  }

  /**
   * Run Options touches a contour field exactly when the run is Single-Metric
   * with contours and the field belongs to the boundary choice or the grid method.
   */
  lemma RunContourFields(ro: RunOptions, enabled: set<Command>)
    ensures forall f :: Touches(RunOptionsActions(ro, enabled), Run(Contours(f))) <==> f in ContourFields(ro)
  {
    RunPanesOnly(RunOptionsHead(enabled), CommonRunActions(ro), MetricSelectActions(ro),
      ContourActions(ro), OutputFlagActions(ro), MetricActions(ro), ContourPane);
    ContourFacts(RunOptionsActions(ro, enabled), ro);
  }

  /** Whether a run configuration checks output box `f`. */
  predicate OutputWritten(ro: RunOptions, f: OutputField) {
    ro.runType == SingleMetric &&
    match f
    case PopPointsCheck => ro.doPopulationPoints
    case LocPointsCheck => ro.doLocationPoints
    case StandardGridsCheck => ro.doStandardGrids
    case DetailedGridsCheck => ro.doDetailedGrids
    case SaveFlightsCheck => ro.doDetailedGrids && ro.saveAllFlights
  }

  /** A flag's box is touched exactly when the flag is set. */
  lemma FlagTouches(b: bool, c: Control, x: Control)
    ensures Touches(Flag(b, c), x) <==> b && x == c
  {
    if b { assert Flag(b, c)[0] in Flag(b, c); }
  }

  /** The output section only checks boxes. */
  lemma OutputActionsChecks(ro: RunOptions)
    ensures forall a | a in OutputFlagActions(ro) :: a.op == Check
  {
  }

  /** The output section touches exactly the output boxes of the configuration. */
  lemma OutputActionsFields(ro: RunOptions)
    ensures forall f :: Touches(OutputFlagActions(ro), Run(Outputs(f))) <==> OutputWritten(ro, f)
  {
    var o := OutputFlagActions(ro);
    forall j | 0 <= j < |o| ensures o[j] in o { }
  }

  /** In a log whose output pane holds the output section of `ro`, the output boxes touched are those of `ro`, and only checked. */
  lemma OutputFacts(r: seq<Action>, ro: RunOptions)
    requires Only(r, {OutputPane}) == OutputFlagActions(ro)
    ensures forall f :: Touches(r, Run(Outputs(f))) <==> OutputWritten(ro, f)
    ensures forall a | a in r && PaneOf(a.control) == OutputPane :: a.op == Check
  {
    OutputActionsChecks(ro);
    OutputActionsFields(ro);
    OnlyMembers(r, {OutputPane}, OutputFlagActions(ro));
    forall f ensures Touches(r, Run(Outputs(f))) <==> OutputWritten(ro, f) {
      OnlyTouches(r, {OutputPane}, Run(Outputs(f)));
    }
  }

  /**
   * Run Options checks the output boxes of a Single-Metric run's options,
   * Save 100% Flights only under detailed grids, and touches no other.
   */
  lemma RunOutputFields(ro: RunOptions, enabled: set<Command>)
    ensures forall f :: Touches(RunOptionsActions(ro, enabled), Run(Outputs(f))) <==> OutputWritten(ro, f)
    ensures forall a | a in RunOptionsActions(ro, enabled) && PaneOf(a.control) == OutputPane :: a.op == Check
  {
    RunPanesOnly(RunOptionsHead(enabled), CommonRunActions(ro), MetricSelectActions(ro),
      ContourActions(ro), OutputFlagActions(ro), MetricActions(ro), OutputPane);
    OutputFacts(RunOptionsActions(ro, enabled), ro);
  }

  /** In a log whose metric pane is `s`, a box of `s`'s kind is checked exactly when `s` checks it. */
  lemma MetricPaneFacts(r: seq<Action>, s: seq<Action>, chosen: set<Metric>)
    requires Only(r, {MetricPane}) == s
    requires forall a | a in s :: a == Checked(a.control)
    requires forall m :: Checked(Run(MetricCheck(m))) in s <==> m in chosen
    ensures forall m :: Checked(Run(MetricCheck(m))) in r <==> m in chosen
    ensures forall a | a in r && PaneOf(a.control) == MetricPane :: a.op == Check
  {
    OnlyMembers(r, {MetricPane}, s);
  }

  /** In a log whose metric section is that of `ro`, the checked metric boxes are the chosen metrics of a Single-Metric run. */
  lemma MetricFacts(r: seq<Action>, ro: RunOptions)
    requires Only(r, {MetricPane}) == MetricActions(ro)
    ensures forall m :: Checked(Run(MetricCheck(m))) in r <==> ro.runType == SingleMetric && m in ro.metrics
    ensures forall a | a in r && PaneOf(a.control) == MetricPane :: a.op == Check
  {
    if ro.runType == SingleMetric {
      MetricChecksAll(ro.metrics);
      MetricPaneFacts(r, MetricChecks(AllMetrics, ro.metrics), ro.metrics);
    } else {
      MetricPaneFacts(r, [], {});
    }
  }

  /**
   * Run Options checks the box of a metric exactly when the run is
   * Single-Metric and the metric is chosen, and never unchecks one.
   */
  lemma RunMetrics(ro: RunOptions, enabled: set<Command>)
    ensures forall m :: Checked(Run(MetricCheck(m))) in RunOptionsActions(ro, enabled) <==> ro.runType == SingleMetric && m in ro.metrics
    ensures forall a | a in RunOptionsActions(ro, enabled) && PaneOf(a.control) == MetricPane :: a.op == Check
  {
    RunPanesOnly(RunOptionsHead(enabled), CommonRunActions(ro), MetricSelectActions(ro),
      ContourActions(ro), OutputFlagActions(ro), MetricActions(ro), MetricPane);
    MetricFacts(RunOptionsActions(ro, enabled), ro);
  }

  // ------------------------------------------------------- reset() defaults

  lemma {:induction false} MetricChecksNone(order: seq<Metric>)
    ensures MetricChecks(order, {}) == []
    decreases |order|
  {
    if order != [] {
      MetricChecksNone(order[1..]);
    }
  }

  lemma PlainTail<T>(h: seq<T>, a: T, b: T, n: T)
    ensures h + ([a] + [] + [b] + []) + [n] + [] + [] + [] == h + [a, b, n]
  {
  }

  /**
   * A freshly reset grid is a Location grid at the fixed 85 dB threshold
   * without percent of time: after adding the record it selects the type,
   * sets the fixed threshold, clears the percent-of-time box and stops.
   */
  lemma ResetGrid(enabled: set<Command>, percentChecked: bool)
    ensures GridActions(GridSetup(), enabled, percentChecked) == MenuItem(enabled, EditAddRecord)
      + [Action(Grid(GridTypeCombo), Select, Text("Location")),
         Clicked(Grid(FixedRadio)), Action(Grid(FixedEdit), SetText, Real(85.0)),
         Action(Grid(PercentCheck), UnCheck, NoValue)]
  {
  }

  /**
   * A Single-Metric run with no check box set writes only its run type,
   * lateral attenuation and metric.
   */
  lemma PlainRunOptions(ro: RunOptions, enabled: set<Command>)
    requires ro.runType == SingleMetric && !ro.doTerrain && !ro.useBankAngle && !ro.doContours
    requires !ro.doPopulationPoints && !ro.doLocationPoints && !ro.doStandardGrids && !ro.doDetailedGrids
    requires ro.metrics == {}
    ensures RunOptionsActions(ro, enabled) == RunOptionsHead(enabled)
      + [Action(Run(General(RunTypeCombo)), Select, Text(ro.runType)),
         Action(Run(General(LateralCombo)), Select, Text(ro.lateralAttenuation)),
         NoiseMetricSelect(ro)]
  {
    var a := Action(Run(General(RunTypeCombo)), Select, Text(ro.runType));
    var b := Action(Run(General(LateralCombo)), Select, Text(ro.lateralAttenuation));
    assert CommonRunActions(ro) == [a] + [] + [b] + [];
    assert MetricSelectActions(ro) == [NoiseMetricSelect(ro)];
    MetricChecksNone(AllMetrics);
    assert ContourActions(ro) == [] && OutputFlagActions(ro) == [] && MetricActions(ro) == [];
    PlainTail(RunOptionsHead(enabled), a, b, NoiseMetricSelect(ro));
  }

  /**
   * A freshly reset run configuration is a Single-Metric run on soft ground
   * for LAMAX with nothing else selected: it writes the run type, the lateral
   * attenuation and the metric, and no other control.
   */
  lemma ResetRunOptions(enabled: set<Command>)
    ensures RunOptionsActions(RunOptions(), enabled) == RunOptionsHead(enabled)
      + [Action(Run(General(RunTypeCombo)), Select, Text("Single-Metric")),
         Action(Run(General(LateralCombo)), Select, Text("All-Soft-Ground")),
         Action(Run(NoiseMetricCombo), Select, Text("LAMAX "))]
  {
    PlainRunOptions(RunOptions(), enabled);
    MetricTokenExamples();
  }
}
