/**
 * `INMStudy`: one complete study run.  It starts the tool, opens the study
 * kept under the working directory's `INM Studies` folder, replaces the
 * grids, sets the run options, runs the study, exports the output when
 * export options are given and closes the study.  An exception raised by
 * any step ends the run there.
 */
module Study {
  import opened Text
  import opened Naming
  import opened Options
  import opened Ui
  import opened Rules
  import opened Flow
  import opened Driver

  /** Every pane except the output views and Export As: what the set-up of a run writes. */
  const SetupPanes: set<Pane> := {MenuPane, ProcessPane, DialogPane, GridTypePane, ThresholdPane, PercentPane,
                                  PlacementPane, SizePane, GeneralPane, MetricComboPane, ContourPane, OutputPane, MetricPane}

  /** `os.path.join(os.getcwd(), 'INM Studies', study_folder)` */
  function StudyPath(cwd: string, studyFolder: string): string {
    JoinPath(JoinPath(cwd, "INM Studies"), studyFolder)
  }

  /**
   * For an ordinary working directory and a plain folder name, the study
   * path is `cwd\INM Studies\folder`, and the folder the driver records for
   * it is the folder the study was created with.
   */
  lemma StudyPathShape(cwd: string, studyFolder: string)
    requires |cwd| > |Drive(cwd)| && !IsSep(cwd[|cwd| - 1])
    requires Drive(studyFolder) == [] && forall k | 0 <= k < |studyFolder| :: !IsSep(studyFolder[k])
    ensures StudyPath(cwd, studyFolder) == cwd + "\\INM Studies\\" + studyFolder
    ensures Basename(StudyPath(cwd, studyFolder)) == studyFolder
  {
    var studies := JoinPath(cwd, "INM Studies");
    assert Drive("INM Studies") == [] && !Rooted("INM Studies");
    assert studies == cwd + "\\" + "INM Studies";
    assert |studies| > 2 && studies[|studies| - 1] == 's';
    assert |studies| > |Drive(studies)|;
    if studyFolder != [] {
      assert !IsSep(studyFolder[0]);
    }
    assert StudyPath(cwd, studyFolder) == studies + "\\" + studyFolder;
    StudiesSub(cwd, studyFolder);
    BasenameLastSegment(studies, studyFolder);
  }

  /** Two joins in a row put `\INM Studies\` between the working directory and the folder. */
  lemma StudiesSub(cwd: string, studyFolder: string)
    ensures cwd + "\\" + "INM Studies" + "\\" + studyFolder == cwd + "\\INM Studies\\" + studyFolder
  {
    assert "\\" + "INM Studies" + "\\" == "\\INM Studies\\";
  }

  /** Joining `INM Studies` to the working directory keeps its drive. */
  lemma StudiesDrive(cwd: string)
    ensures Drive(JoinPath(cwd, "INM Studies")) == Drive(cwd)
  {
    assert Drive("INM Studies") == [] && !Rooted("INM Studies");
  }

  /**
   * A study folder that names a rooted path with a drive, or any path on
   * another drive than the working directory, is the study path itself.
   */
  lemma StudyPathOwnDrive(cwd: string, studyFolder: string)
    requires Drive(studyFolder) != []
    requires Rooted(studyFolder) || Lower(Drive(studyFolder)) != Lower(Drive(cwd))
    ensures StudyPath(cwd, studyFolder) == studyFolder
  {
    StudiesDrive(cwd);
  }

  /** From `C:\work`, the folder `D:\S` gives the study path `D:\S`. */
  lemma StudyPathOtherDrive()
    ensures StudyPath("C:\\work", "D:\\S") == "D:\\S"
  {
    StudyPathOwnDrive("C:\\work", "D:\\S");
  }

  /** The grid loop of `run_scenario`: `set_grid` once per grid, in list order. */
  function GridsActions(obs: Observed, grids: seq<GridSetup>): seq<Action>
    decreases |grids|
  {
    if grids == [] then []
    else GridsActions(obs, grids[..|grids| - 1]) + GridActions(grids[|grids| - 1], obs.enabled, obs.percentChecked)
  }

  /** The grid-type selections of a list of grids, in list order. */
  function GridTypeSelects(grids: seq<GridSetup>): (r: seq<Action>)
    ensures |r| == |grids| && forall k | 0 <= k < |grids| :: r[k] == GridTypeSelect(grids[k])
    decreases |grids|
  {
    if grids == [] then [] else GridTypeSelects(grids[..|grids| - 1]) + [GridTypeSelect(grids[|grids| - 1])]
  }

  /** Setting two lists of grids one after the other is setting their concatenation. */
  lemma {:induction false} GridsActionsConcat(obs: Observed, a: seq<GridSetup>, b: seq<GridSetup>)
    ensures GridsActions(obs, a + b) == GridsActions(obs, a) + GridsActions(obs, b)
    decreases |b|
  {
    if b == [] {
      assert a + b == a;
    } else {
      var b' := b[..|b| - 1];
      var last := GridActions(b[|b| - 1], obs.enabled, obs.percentChecked);
      assert (a + b)[..|a + b| - 1] == a + b';
      assert (a + b)[|a + b| - 1] == b[|b| - 1];
      assert GridsActions(obs, a + b) == GridsActions(obs, a + b') + last;
      GridsActionsConcat(obs, a, b');
      AppendTwo(GridsActions(obs, a), GridsActions(obs, b'), last);
    }
  }

  /** The grids are written on the grid panes only. */
  lemma {:induction false} GridsPanes(obs: Observed, grids: seq<GridSetup>)
    ensures AllIn(GridsActions(obs, grids), {MenuPane, GridTypePane, ThresholdPane, PercentPane, PlacementPane, SizePane})
    decreases |grids|
  {
    if grids != [] {
      var init := grids[..|grids| - 1];
      var last := GridActions(grids[|grids| - 1], obs.enabled, obs.percentChecked);
      assert GridsActions(obs, grids) == GridsActions(obs, init) + last;
      GridsPanes(obs, init);
      GridPanes(grids[|grids| - 1], obs.enabled, obs.percentChecked);
      AllInAppend(GridsActions(obs, init), last, {MenuPane, GridTypePane, ThresholdPane, PercentPane, PlacementPane, SizePane});
    }
  }

  /** The grid-type combo receives one selection per grid, in the order of the list. */
  lemma {:induction false} GridsInOrder(obs: Observed, grids: seq<GridSetup>)
    ensures Only(GridsActions(obs, grids), {GridTypePane}) == GridTypeSelects(grids)
    decreases |grids|
  {
    if grids != [] {
      var init := grids[..|grids| - 1];
      var g := grids[|grids| - 1];
      var last := GridActions(g, obs.enabled, obs.percentChecked);
      assert GridsActions(obs, grids) == GridsActions(obs, init) + last;
      assert GridTypeSelects(grids) == GridTypeSelects(init) + [GridTypeSelect(g)];
      GridsInOrder(obs, init);
      GridOnly(g, obs.enabled, obs.percentChecked, GridTypePane);
      OnlyAppend(GridsActions(obs, init), last, {GridTypePane});
    }
  }

  /** One grid's trace lies on the grid panes. */
  lemma GridPanes(g: GridSetup, enabled: set<Command>, percentChecked: bool)
    ensures AllIn(GridActions(g, enabled, percentChecked), {MenuPane, GridTypePane, ThresholdPane, PercentPane, PlacementPane, SizePane})
  {
    var ps := {MenuPane, GridTypePane, ThresholdPane, PercentPane, PlacementPane, SizePane};
    var m := MenuItem(enabled, EditAddRecord);
    var k := [GridTypeSelect(g)];
    var t := ThresholdActions(g);
    var p := PercentActions(g, percentChecked);
    var l := PlacementActions(g);
    var s := SizeActions(g);
    AllInAppend(m, k, ps);
    AllInAppend(m + k, t, ps);
    AllInAppend(m + k + t, p, ps);
    AllInAppend(m + k + t + p, l, ps);
    AllInAppend(m + k + t + p + l, s, ps);
  }

  /** From Grid Setup to the end of `run_study`: the steps of a run that cannot raise. */
  function ScenarioSetup(obs: Observed, grids: seq<GridSetup>, ro: RunOptions): seq<Action> {
    GridSetupActions(obs) + GridsActions(obs, grids) + RunOptionsActions(ro, obs.enabled) + RunStudyActions(obs)
  }

  /** `if export_options: export_output(export_options)` */
  function ExportStep(obs: Observed, eo: Option<ExportOptions>, path: string): Trace {
    match eo
    case None => Trace([], Done)
    case Some(e) => ExportOutputRun(obs, e, Some(path), Some(Basename(path)))
  }

  /**
   * `run_scenario`, given the trace of its export step: start the tool and
   * open the study; then prepare the grids, set the run options and run;
   * then the export step; then close the study.  The first step that raises
   * ends the run.
   */
  function Scenario(exePath: string, obs: Observed, path: string, grids: seq<GridSetup>, ro: RunOptions, exp: Trace): Trace {
    Then(After([Action(Process, Start, Text(exePath))], OpenStudyRun(obs, path)), OpenedRun(obs, grids, ro, exp))
  }

  /** What follows a successful open: the set-up, the export step and, unless it raised, closing the study. */
  function OpenedRun(obs: Observed, grids: seq<GridSetup>, ro: RunOptions, exp: Trace): Trace {
    After(ScenarioSetup(obs, grids, ro), Closing(obs, exp))
  }

  /** The export step and, if it returned, `close_study`. */
  function Closing(obs: Observed, exp: Trace): Trace {
    Then(exp, Trace(CloseStudyActions(obs), Done))
  }

  /** `run_scenario(grids, run_options, export_options)` */
  function ScenarioRun(exePath: string, obs: Observed, path: string, grids: seq<GridSetup>, ro: RunOptions,
                       eo: Option<ExportOptions>): Trace {
    Scenario(exePath, obs, path, grids, ro, ExportStep(obs, eo, path))
  }

  /** The set-up steps write neither an output view nor Export As. */
  lemma SetupPanesOf(obs: Observed, grids: seq<GridSetup>, ro: RunOptions)
    ensures AllIn(ScenarioSetup(obs, grids, ro), SetupPanes)
  {
    var g := GridSetupActions(obs);
    var gs := GridsActions(obs, grids);
    var r := RunOptionsActions(ro, obs.enabled);
    var s := RunStudyActions(obs);
    GridSetupPanes(obs);
    GridsPanes(obs, grids);
    AllInWiden(gs, {MenuPane, GridTypePane, ThresholdPane, PercentPane, PlacementPane, SizePane}, SetupPanes);
    AllInAppend(g, gs, SetupPanes);
    RunOptionsPanes(ro, obs.enabled);
    AllInAppend(g + gs, r, SetupPanes);
    AllInWiden(RunStartActions(obs), {MenuPane, DialogPane}, SetupPanes);
    AllInWiden(DialogLoop(obs.dialogTitles), {DialogPane}, SetupPanes);
    AllInAppend(RunStartActions(obs), DialogLoop(obs.dialogTitles), SetupPanes);
    AllInAppend(g + gs + r, s, SetupPanes);
  }

  /** Preparing Grid Setup uses the menu and the dialogs only. */
  lemma GridSetupPanes(obs: Observed)
    ensures AllIn(GridSetupActions(obs), {MenuPane, DialogPane})
  {
    var ps := {MenuPane, DialogPane};
    var c := MenuItem(obs.enabled, WindowCloseAll);
    var o := [Clicked(Menu(RunGridSetup))];
    var w := MenuItem(obs.enabled, WindowCascade);
    var f := [Action(Dialog(ListBox), Focus, NoValue)];
    var d := DeleteRecords(obs.enabled, obs.gridRecords);
    assert AllIn(SelectFirst, ps);
    AllInAppend(c, o, ps);
    AllInAppend(c + o, SelectFirst, ps);
    AllInAppend(c + o + SelectFirst, w, ps);
    AllInAppend(c + o + SelectFirst + w, f, ps);
    AllInAppend(c + o + SelectFirst + w + f, d, ps);
  }

  /** A run configuration's trace lies on the menu and the Run Options panes. */
  lemma RunOptionsPanes(ro: RunOptions, enabled: set<Command>)
    ensures AllIn(RunOptionsActions(ro, enabled), SetupPanes)
  {
    var h := RunOptionsHead(enabled);
    var c := CommonRunActions(ro);
    var n := MetricSelectActions(ro);
    var k := ContourActions(ro);
    var o := OutputFlagActions(ro);
    var m := MetricActions(ro);
    AllInAppend(h, c, SetupPanes);
    AllInAppend(h + c, n, SetupPanes);
    AllInAppend(h + c + n, k, SetupPanes);
    AllInAppend(h + c + n + k, o, SetupPanes);
    AllInAppend(h + c + n + k + o, m, SetupPanes);
  }

  /** Opening a study writes the menu and the Open Study dialog only. */
  lemma OpenStudyPanes(obs: Observed, path: string)
    ensures AllIn(OpenStudyRun(obs, path).acts, {MenuPane, DialogPane})
  {
    var ps := {MenuPane, DialogPane};
    var head := CloseStudyActions(obs) + [Clicked(Menu(FileOpenStudy)), Action(Dialog(ListBox), Focus, NoValue)];
    var nav := StudyNav(obs, path);
    BrowseControls(obs.openTree, PathToDir(path), Dialog(ListBox), Dialog(TopWindow));
    AllInAppend(CloseStudyActions(obs), [Clicked(Menu(FileOpenStudy)), Action(Dialog(ListBox), Focus, NoValue)], ps);
    AllInAppend(head, nav.acts, ps);
    AllInAppend(head + nav.acts, [Clicked(Dialog(OKButton))], ps);
  }

  /**
   * The three ways a run goes: the study does not open; it opens and the
   * export step raises; or everything returns and the study is closed.
   */
  lemma ScenarioShape(exePath: string, obs: Observed, path: string, grids: seq<GridSetup>, ro: RunOptions, exp: Trace)
    ensures var t := Scenario(exePath, obs, path, grids, ro, exp);
      var start := [Action(Process, Start, Text(exePath))]; var open := OpenStudyRun(obs, path);
      open.outcome.Raised? ==> t == Trace(start + open.acts, open.outcome)
    ensures var t := Scenario(exePath, obs, path, grids, ro, exp);
      var start := [Action(Process, Start, Text(exePath))]; var open := OpenStudyRun(obs, path);
      open.outcome.Done? && exp.outcome.Raised? ==>
        t == Trace(start + open.acts + ScenarioSetup(obs, grids, ro) + exp.acts, exp.outcome)
    ensures var t := Scenario(exePath, obs, path, grids, ro, exp);
      var start := [Action(Process, Start, Text(exePath))]; var open := OpenStudyRun(obs, path);
      open.outcome.Done? && exp.outcome.Done? ==>
        t == Trace(start + open.acts + ScenarioSetup(obs, grids, ro) + exp.acts + CloseStudyActions(obs), Done)
  {
    StepsShape([Action(Process, Start, Text(exePath))], OpenStudyRun(obs, path), ScenarioSetup(obs, grids, ro), exp, CloseStudyActions(obs));
  }

  /** The same, for any five steps of which the second and fourth may raise. */
  lemma StepsShape(start: seq<Action>, open: Trace, setup: seq<Action>, exp: Trace, close: seq<Action>)
    ensures var t := Then(After(start, open), After(setup, Then(exp, Trace(close, Done))));
      && (open.outcome.Raised? ==> t == Trace(start + open.acts, open.outcome))
      && (open.outcome.Done? && exp.outcome.Raised? ==> t == Trace(start + open.acts + setup + exp.acts, exp.outcome))
      && (open.outcome.Done? && exp.outcome.Done? ==> t == Trace(start + open.acts + setup + exp.acts + close, Done))
  {
    if open.outcome.Done? {
      if exp.outcome.Raised? {
        AppendTwo(start + open.acts, setup, exp.acts);
      } else {
        AppendTwo(setup, exp.acts, close);
        AppendThree(start + open.acts, setup, exp.acts, close);
      }
    }
  }

  /** Every run begins by starting the tool, whatever happens next. */
  lemma ScenarioLaunches(exePath: string, obs: Observed, path: string, grids: seq<GridSetup>, ro: RunOptions,
                         eo: Option<ExportOptions>)
    ensures var t := ScenarioRun(exePath, obs, path, grids, ro, eo);
      |t.acts| >= 1 && t.acts[0] == Action(Process, Start, Text(exePath))
  {
    ScenarioShape(exePath, obs, path, grids, ro, ExportStep(obs, eo, path));
  }

  /**
   * A run raises exactly when opening the study raises or the export step
   * does; when the study cannot be opened, nothing after the Open Study
   * dialog is done.
   */
  lemma ScenarioRaises(exePath: string, obs: Observed, path: string, grids: seq<GridSetup>, ro: RunOptions,
                       eo: Option<ExportOptions>)
    ensures var t := ScenarioRun(exePath, obs, path, grids, ro, eo);
      t.outcome.Raised? <==> OpenStudyRun(obs, path).outcome.Raised? || ExportStep(obs, eo, path).outcome.Raised?
    ensures var t := ScenarioRun(exePath, obs, path, grids, ro, eo);
      OpenStudyRun(obs, path).outcome.Raised? ==>
        t.acts == [Action(Process, Start, Text(exePath))] + OpenStudyRun(obs, path).acts && t.outcome == OpenStudyRun(obs, path).outcome
  {
    ScenarioShape(exePath, obs, path, grids, ro, ExportStep(obs, eo, path));
  }

  /** A run that returns has closed the study last. */
  lemma ScenarioCloses(exePath: string, obs: Observed, path: string, grids: seq<GridSetup>, ro: RunOptions,
                       eo: Option<ExportOptions>)
    ensures var t := ScenarioRun(exePath, obs, path, grids, ro, eo); var close := CloseStudyActions(obs);
      t.outcome.Done? ==> |close| <= |t.acts| && t.acts[|t.acts| - |close|..] == close
  {
    ScenarioShape(exePath, obs, path, grids, ro, ExportStep(obs, eo, path));
  }

  /**
   * Without export options a run writes no output view and nothing of
   * Export As, and it returns exactly when the study could be opened.
   */
  lemma ScenarioWithoutExport(exePath: string, obs: Observed, path: string, grids: seq<GridSetup>, ro: RunOptions)
    ensures var t := ScenarioRun(exePath, obs, path, grids, ro, None);
      AllIn(t.acts, SetupPanes) && (t.outcome.Done? <==> OpenStudyRun(obs, path).outcome.Done?)
  {
    assert ExportStep(obs, None, path) == Trace([], Done);
    ScenarioShape(exePath, obs, path, grids, ro, Trace([], Done));
    OpenStudyPanes(obs, path);
    SetupPanesOf(obs, grids, ro);
    StepsPanes(exePath, OpenStudyRun(obs, path).acts, ScenarioSetup(obs, grids, ro), CloseStudyActions(obs));
  }

  /** Starting the tool, opening the study, the set-up and closing the study stay on the set-up panes. */
  lemma StepsPanes(exePath: string, openActs: seq<Action>, setup: seq<Action>, close: seq<Action>)
    requires AllIn(openActs, {MenuPane, DialogPane}) && AllIn(setup, SetupPanes) && AllIn(close, {MenuPane})
    ensures var head := [Action(Process, Start, Text(exePath))] + openActs;
      AllIn(head, SetupPanes) && AllIn(head + setup + [] + close, SetupPanes)
  {
    var start := [Action(Process, Start, Text(exePath))];
    var head := start + openActs;
    assert AllIn(start, SetupPanes);
    AllInWiden(openActs, {MenuPane, DialogPane}, SetupPanes);
    AllInAppend(start, openActs, SetupPanes);
    assert head + setup + [] == head + setup;
    AllInAppend(head, setup, SetupPanes);
    AllInWiden(close, {MenuPane}, SetupPanes);
    AllInAppend(head + setup, close, SetupPanes);
  }

  /**
   * Of the view menu, a run writes what its export step writes: all of
   * `views` when the run returns, a prefix of them otherwise.
   */
  lemma ScenarioViewsOf(exePath: string, obs: Observed, path: string, grids: seq<GridSetup>, ro: RunOptions,
                        exp: Trace, views: seq<Action>)
    requires Only(exp.acts, {ViewMenuPane}) <= views
    requires exp.outcome.Done? ==> Only(exp.acts, {ViewMenuPane}) == views
    ensures var t := Scenario(exePath, obs, path, grids, ro, exp);
      Only(t.acts, {ViewMenuPane}) <= views && (t.outcome.Done? ==> Only(t.acts, {ViewMenuPane}) == views)
  {
    ScenarioShape(exePath, obs, path, grids, ro, exp);
    OpenStudyPanes(obs, path);
    SetupPanesOf(obs, grids, ro);
    StepsViews(exePath, OpenStudyRun(obs, path).acts, ScenarioSetup(obs, grids, ro), exp, CloseStudyActions(obs), views);
  }

  /** The view-menu part of a run: only the export step writes views. */
  lemma StepsViews(exePath: string, openActs: seq<Action>, setup: seq<Action>, exp: Trace, close: seq<Action>, views: seq<Action>)
    requires AllIn(openActs, {MenuPane, DialogPane}) && AllIn(setup, SetupPanes) && AllIn(close, {MenuPane})
    requires Only(exp.acts, {ViewMenuPane}) <= views
    requires exp.outcome.Done? ==> Only(exp.acts, {ViewMenuPane}) == views
    ensures var head := [Action(Process, Start, Text(exePath))] + openActs;
      && Only(head, {ViewMenuPane}) <= views
      && (exp.outcome.Raised? ==> Only(head + setup + exp.acts, {ViewMenuPane}) <= views)
      && (exp.outcome.Done? ==> Only(head + setup + exp.acts + close, {ViewMenuPane}) == views)
  {
    var vs := {ViewMenuPane};
    var head := [Action(Process, Start, Text(exePath))] + openActs;
    LaunchNoViews(exePath, openActs);
    SetupNoViews(setup);
    OnlyNone(close, {MenuPane}, vs);
    OnlyAppend(head, setup, vs);
    OnlyAppend(head + setup, exp.acts, vs);
    OnlyAppend(head + setup + exp.acts, close, vs);
    assert [] + [] + Only(exp.acts, vs) == Only(exp.acts, vs);
    assert Only(exp.acts, vs) + [] == Only(exp.acts, vs);
  }

  /** A log on the set-up panes writes no view. */
  lemma SetupNoViews(acts: seq<Action>)
    requires AllIn(acts, SetupPanes)
    ensures Only(acts, {ViewMenuPane}) == []
  {
    assert ViewMenuPane !in SetupPanes;
    OnlyNone(acts, SetupPanes, {ViewMenuPane});
  }

  /** Starting the tool and opening a study write no view. */
  lemma LaunchNoViews(exePath: string, openActs: seq<Action>)
    requires AllIn(openActs, {MenuPane, DialogPane})
    ensures Only([Action(Process, Start, Text(exePath))] + openActs, {ViewMenuPane}) == []
  {
    var start := [Action(Process, Start, Text(exePath))];
    assert AllIn(start, {ProcessPane, MenuPane, DialogPane});
    AllInAppend(start, openActs, {ProcessPane, MenuPane, DialogPane});
    OnlyNone(start + openActs, {ProcessPane, MenuPane, DialogPane}, {ViewMenuPane});
  }

  /**
   * A run with export options that returns has opened exactly the views of
   * the requested exports, in the fixed export order; one that raises, a
   * prefix of them.
   */
  lemma ScenarioViews(exePath: string, obs: Observed, path: string, grids: seq<GridSetup>, ro: RunOptions, eo: ExportOptions)
    ensures var t := ScenarioRun(exePath, obs, path, grids, ro, Some(eo));
      Only(t.acts, {ViewMenuPane}) <= RequestedViews(obs, eo, ExportOrder)
    ensures var t := ScenarioRun(exePath, obs, path, grids, ro, Some(eo));
      t.outcome.Done? ==> Only(t.acts, {ViewMenuPane}) == RequestedViews(obs, eo, ExportOrder)
  {
    ExportOutputViews(obs, eo, Some(path), Some(Basename(path)));
    ScenarioViewsOf(exePath, obs, path, grids, ro, ExportStep(obs, Some(eo), path), RequestedViews(obs, eo, ExportOrder));
  }

  /** A log that grows by starting the tool and a failed open grows by the run. */
  lemma LogOpenFailed(exePath: string, obs: Observed, path: string, grids: seq<GridSetup>, ro: RunOptions,
                      eo: Option<ExportOptions>, pre: seq<Action>, post: seq<Action>, out: Outcome)
    requires out == OpenStudyRun(obs, path).outcome && out.Raised?
    requires post == pre + [Action(Process, Start, Text(exePath))] + OpenStudyRun(obs, path).acts
    ensures post == pre + ScenarioRun(exePath, obs, path, grids, ro, eo).acts
    ensures out == ScenarioRun(exePath, obs, path, grids, ro, eo).outcome
  {
    ScenarioShape(exePath, obs, path, grids, ro, ExportStep(obs, eo, path));
    AppendTwo(pre, [Action(Process, Start, Text(exePath))], OpenStudyRun(obs, path).acts);
  }

  /** A log that grows by starting the tool, opening the study and the rest of the run grows by the run. */
  lemma LogOpened(exePath: string, obs: Observed, path: string, grids: seq<GridSetup>, ro: RunOptions,
                  eo: Option<ExportOptions>, pre: seq<Action>, post: seq<Action>, out: Outcome)
    requires OpenStudyRun(obs, path).outcome.Done?
    requires out == OpenedRun(obs, grids, ro, ExportStep(obs, eo, path)).outcome
    requires post == pre + [Action(Process, Start, Text(exePath))] + OpenStudyRun(obs, path).acts
      + OpenedRun(obs, grids, ro, ExportStep(obs, eo, path)).acts
    ensures post == pre + ScenarioRun(exePath, obs, path, grids, ro, eo).acts
    ensures out == ScenarioRun(exePath, obs, path, grids, ro, eo).outcome
  {
    AppendThree(pre, [Action(Process, Start, Text(exePath))], OpenStudyRun(obs, path).acts,
                OpenedRun(obs, grids, ro, ExportStep(obs, eo, path)).acts);
  }

  /**
   * The noise metric the driver holds after the export step, given the one
   * it held before: `export_output` reads it back from the tool.
   */
  function ExportMetric(obs: Observed, eo: Option<ExportOptions>, before: Option<string>): Option<string> {
    if eo.Some? then Some(MetricToken(obs.runMetricText)) else before
  }

  /** An `INMStudy`: a driver and the study it runs, fixed at creation. */
  class InmStudy {
    const inm: InmAuto
    const studyFolder: string
    const pathToStudy: string

    /** The study lives in the `INM Studies` folder of the working directory `cwd`. */
    constructor(exePath: string, app: Observed, cwd: string, studyFolder: string)
      ensures fresh(inm) && inm.exePath == exePath && inm.app == app && inm.log == []
      ensures inm.mainWindow.None? && inm.noiseMetric.None? && inm.pathToStudy.None? && inm.studyFolder.None?
      ensures this.studyFolder == studyFolder && pathToStudy == StudyPath(cwd, studyFolder)
    {
      inm := new InmAuto(exePath, app);
      this.studyFolder := studyFolder;
      pathToStudy := StudyPath(cwd, studyFolder);
    }

    /**
     * `run_scenario`: the driver's log grows by exactly the scenario's
     * actions and an exception ends the run as the scenario says.  The
     * driver's main window is the main title unless the export raised with
     * the study still open; its noise metric is the one last set or read,
     * unless the open failed.
     */
    method RunScenario(grids: seq<GridSetup>, ro: RunOptions, eo: Option<ExportOptions>) returns (outcome: Outcome)
      requires OpenStudyRun(inm.app, pathToStudy).outcome.Done? ==> RunEnds(inm.app)
      modifies inm
      ensures inm.log == old(inm.log) + ScenarioRun(inm.exePath, inm.app, pathToStudy, grids, ro, eo).acts
      ensures outcome == ScenarioRun(inm.exePath, inm.app, pathToStudy, grids, ro, eo).outcome
      ensures inm.mainWindow == Some(if OpenStudyRun(inm.app, pathToStudy).outcome.Raised? || outcome.Done? then MainTitle
                                     else StudyTitle(pathToStudy))
      ensures inm.noiseMetric == if OpenStudyRun(inm.app, pathToStudy).outcome.Raised? then old(inm.noiseMetric)
                                 else ExportMetric(inm.app, eo, Some(MetricToken(ro.noiseMetric)))
    {
      inm.OpenInm();
      var openOutcome := inm.OpenStudy(pathToStudy);
      if openOutcome.Raised? {
        outcome := openOutcome;
        assert inm.mainWindow == Some(MainTitle) && inm.noiseMetric == old(inm.noiseMetric);
        LogOpenFailed(inm.exePath, inm.app, pathToStudy, grids, ro, eo, old(inm.log), inm.log, outcome);
        return;
      }
      assert inm.mainWindow == Some(StudyTitle(pathToStudy));
      outcome := RunOpened(grids, ro, eo);
      LogOpened(inm.exePath, inm.app, pathToStudy, grids, ro, eo, old(inm.log), inm.log, outcome);
    }

    /** The steps of `run_scenario` after the study is open. */
    method RunOpened(grids: seq<GridSetup>, ro: RunOptions, eo: Option<ExportOptions>) returns (outcome: Outcome)
      requires inm.mainWindow.Some? && RunEnds(inm.app)
      requires inm.pathToStudy == Some(pathToStudy) && inm.studyFolder == Some(Basename(pathToStudy))
      modifies inm`log, inm`noiseMetric, inm`mainWindow
      ensures inm.log == old(inm.log) + OpenedRun(inm.app, grids, ro, ExportStep(inm.app, eo, pathToStudy)).acts
      ensures outcome == OpenedRun(inm.app, grids, ro, ExportStep(inm.app, eo, pathToStudy)).outcome
      ensures inm.mainWindow == if outcome.Done? then Some(MainTitle) else old(inm.mainWindow)
      ensures inm.noiseMetric == ExportMetric(inm.app, eo, Some(MetricToken(ro.noiseMetric)))
    {
      ghost var path, folder := inm.pathToStudy, inm.studyFolder;
      SetUp(grids, ro);
      assert inm.pathToStudy == path && inm.studyFolder == folder;
      outcome := ExportAndClose(eo);
      AppendTwo(old(inm.log), ScenarioSetup(inm.app, grids, ro), Closing(inm.app, ExportStep(inm.app, eo, pathToStudy)).acts);
    }

    /** After the run: the export step, then `close_study` unless the export raised. */
    method ExportAndClose(eo: Option<ExportOptions>) returns (outcome: Outcome)
      requires inm.mainWindow.Some?
      requires inm.pathToStudy == Some(pathToStudy) && inm.studyFolder == Some(Basename(pathToStudy))
      modifies inm`log, inm`noiseMetric, inm`mainWindow
      ensures inm.log == old(inm.log) + Closing(inm.app, ExportStep(inm.app, eo, pathToStudy)).acts
      ensures outcome == Closing(inm.app, ExportStep(inm.app, eo, pathToStudy)).outcome
      ensures inm.mainWindow == if outcome.Done? then Some(MainTitle) else old(inm.mainWindow)
      ensures inm.noiseMetric == ExportMetric(inm.app, eo, old(inm.noiseMetric))
    {
      ghost var exp := ExportStep(inm.app, eo, pathToStudy);
      outcome := ExportIfGiven(eo);
      outcome := CloseUnlessRaised(exp, old(inm.log), outcome);
    }

    /**
     * `close_study` once the export step `exp` has returned; nothing when it
     * raised.  The log holds `exp`'s actions after `pre`.
     */
    method CloseUnlessRaised(ghost exp: Trace, ghost pre: seq<Action>, prior: Outcome) returns (outcome: Outcome)
      requires inm.mainWindow.Some? && prior == exp.outcome && inm.log == pre + exp.acts
      modifies inm`log, inm`mainWindow
      ensures inm.log == pre + Closing(inm.app, exp).acts && outcome == Closing(inm.app, exp).outcome
      ensures inm.mainWindow == if outcome.Done? then Some(MainTitle) else old(inm.mainWindow)
      ensures inm.noiseMetric == old(inm.noiseMetric)
    {
      outcome := prior;
      if outcome.Raised? {
        return;
      }
      inm.CloseStudy();
      AppendTwo(pre, exp.acts, CloseStudyActions(inm.app));
    }

    /** Grid Setup, one `set_grid` per grid, Run Options and the run itself. */
    method SetUp(grids: seq<GridSetup>, ro: RunOptions)
      requires inm.mainWindow.Some? && RunEnds(inm.app)
      modifies inm`log, inm`noiseMetric
      ensures inm.log == old(inm.log) + ScenarioSetup(inm.app, grids, ro)
      ensures inm.noiseMetric == Some(MetricToken(ro.noiseMetric))
      ensures inm.mainWindow == old(inm.mainWindow)
    {
      inm.OpenGridSetup();
      SetGrids(grids);
      inm.SetRunOptions(ro);
      inm.RunStudy();
      AppendTwo(old(inm.log), GridSetupActions(inm.app), GridsActions(inm.app, grids));
      AppendThree(old(inm.log), GridSetupActions(inm.app) + GridsActions(inm.app, grids), RunOptionsActions(ro, inm.app.enabled), RunStudyActions(inm.app));
    }

    /** `for grid in grids: self.inm.set_grid(grid)` */
    method SetGrids(grids: seq<GridSetup>)
      requires inm.mainWindow.Some?
      modifies inm`log
      ensures inm.log == old(inm.log) + GridsActions(inm.app, grids)
    {
      assert GridsActions(inm.app, grids[..0]) == [];
      assert inm.log == old(inm.log) + [];
      for i := 0 to |grids|
        invariant inm.log == old(inm.log) + GridsActions(inm.app, grids[..i])
      {
        assert grids[..i + 1][..i] == grids[..i];
        inm.SetGrid(grids[i]);
        AppendTwo(old(inm.log), GridsActions(inm.app, grids[..i]), GridActions(grids[i], inm.app.enabled, inm.app.percentChecked));
      }
      assert grids[..|grids|] == grids;
    }

    /** `if export_options: self.inm.export_output(export_options)` */
    method ExportIfGiven(eo: Option<ExportOptions>) returns (outcome: Outcome)
      requires inm.mainWindow.Some?
      requires inm.pathToStudy == Some(pathToStudy) && inm.studyFolder == Some(Basename(pathToStudy))
      modifies inm`log, inm`noiseMetric
      ensures inm.log == old(inm.log) + ExportStep(inm.app, eo, pathToStudy).acts
      ensures outcome == ExportStep(inm.app, eo, pathToStudy).outcome
      ensures inm.noiseMetric == ExportMetric(inm.app, eo, old(inm.noiseMetric))
      ensures inm.mainWindow == old(inm.mainWindow)
    {
      if eo.Some? {
        outcome := inm.ExportOutput(eo.value);
      } else {
        assert inm.log + [] == inm.log;
        outcome := Done;
      }
    }
  }
}
