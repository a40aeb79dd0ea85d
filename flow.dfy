/**
 * The session steps of the driver other than the two forms: opening and
 * closing a study, browsing a folder picker, preparing Grid Points Setup,
 * starting a run and exporting its output.  Each step is a function from
 * what the tool shows (`Observed`) and the session fields to the actions it
 * performs and how it ends; the `Driver.InmAuto` methods are proved against
 * them.
 */
module Flow {
  import opened Text
  import opened Naming
  import opened Options
  import opened Ui
  import opened Rules

  /** The exceptions that escape a step: `.index` finding no entry, `os.path.join` given `None`, or `.strip()` on `None`. */
  datatype Error = ValueError(segment: string) | TypeError | AttributeError

  datatype Outcome = Done | Raised(error: Error)

  /** What a step did, and whether it returned or raised. */
  datatype Trace = Trace(acts: seq<Action>, outcome: Outcome)

  /** `acts` followed by step `t`. */
  function After(acts: seq<Action>, t: Trace): Trace {
    Trace(acts + t.acts, t.outcome)
  }

  /** Step `t` and, if it returned, step `u`. */
  function Then(t: Trace, u: Trace): Trace {
    if t.outcome.Raised? then t else Trace(t.acts + u.acts, u.outcome)
  }

  // -------------------------------------------------------------- navigation

  /** `[name.lower() for name in items].index(d)`, or `None` where `index` raises. */
  function FirstMatch(items: seq<string>, d: string): (r: Option<nat>)
    ensures r.Some? ==> r.value < |items| && Lower(items[r.value]) == d
    ensures r.Some? ==> forall k | 0 <= k < r.value :: Lower(items[k]) != d
    ensures r.None? ==> forall k | 0 <= k < |items| :: Lower(items[k]) != d
    decreases |items|
  {
    if items == [] then None
    else if Lower(items[0]) == d then Some(0)
    else
      match FirstMatch(items[1..], d)
      case None => None
      case Some(i) => Some(i + 1)
  }

  /** Select entry `i` of the list and press Enter in the window. */
  function NavStep(list: Control, win: Control, i: nat): seq<Action> {
    [Action(list, Select, Index(i)), Action(win, TypeKeys, Text("{ENTER}"))]
  }

  /** The actions of a browse and the segment it stopped at, if any. */
  datatype Nav = Nav(acts: seq<Action>, missing: Option<string>)

  /**
   * The navigation loop: for each segment in turn, select the first entry of
   * the list (as it reads once the earlier segments are entered) that matches
   * it case-insensitively, then press Enter; stop at a segment no entry matches.
   */
  function Browse(tree: seq<string> -> seq<string>, dirs: seq<string>, list: Control, win: Control): Nav
    decreases |dirs|
  {
    if dirs == [] then Nav([], None)
    else
      var prefix := dirs[..|dirs| - 1];
      var p := Browse(tree, prefix, list, win);
      var d := dirs[|dirs| - 1];
      if p.missing.Some? then p
      else
        match FirstMatch(tree(prefix), d)
        case None => Nav(p.acts, Some(d))
        case Some(i) => Nav(p.acts + NavStep(list, win, i), None)
  }

  /**
   * A browse performs two actions per segment it finds; it has gone through
   * all segments exactly when nothing is missing, and otherwise it stopped at
   * the first segment it did not find, which no entry matches.
   */
  lemma {:induction false} BrowseShape(tree: seq<string> -> seq<string>, dirs: seq<string>, list: Control, win: Control)
    ensures var n := Browse(tree, dirs, list, win); var k := |n.acts| / 2;
      && |n.acts| == 2 * k && k <= |dirs|
      && (n.missing.None? <==> k == |dirs|)
      && (n.missing.Some? ==> n.missing.value == dirs[k] && FirstMatch(tree(dirs[..k]), dirs[k]).None?)
    decreases |dirs|
  {
    if dirs != [] {
      var prefix := dirs[..|dirs| - 1];
      BrowseShape(tree, prefix, list, win);
      var k := |Browse(tree, prefix, list, win).acts| / 2;
      if k < |prefix| {
        assert prefix[..k] == dirs[..k];
      } else {
        assert prefix == dirs[..k];
      }
    }
  }

  /** Segment `j` of those a browse went through selected the first entry matching it, then pressed Enter. */
  lemma {:induction false} BrowseSteps(tree: seq<string> -> seq<string>, dirs: seq<string>, list: Control, win: Control, j: nat)
    requires 2 * j + 1 < |Browse(tree, dirs, list, win).acts|
    ensures j < |dirs| && FirstMatch(tree(dirs[..j]), dirs[j]).Some?
    ensures Browse(tree, dirs, list, win).acts[2 * j] == Action(list, Select, Index(FirstMatch(tree(dirs[..j]), dirs[j]).value))
    ensures Browse(tree, dirs, list, win).acts[2 * j + 1] == Action(win, TypeKeys, Text("{ENTER}"))
    decreases |dirs|
  {
    var prefix := dirs[..|dirs| - 1];
    var p := Browse(tree, prefix, list, win);
    BrowseShape(tree, prefix, list, win);
    if 2 * j + 1 < |p.acts| {
      BrowseSteps(tree, prefix, list, win, j);
      assert prefix[..j] == dirs[..j];
    } else {
      assert prefix == dirs[..j];
    }
  }

  /** Once a browse has stopped, further segments change nothing. */
  lemma {:induction false} BrowseStopped(tree: seq<string> -> seq<string>, dirs: seq<string>, k: nat, list: Control, win: Control)
    requires k <= |dirs| && Browse(tree, dirs[..k], list, win).missing.Some?
    ensures Browse(tree, dirs, list, win) == Browse(tree, dirs[..k], list, win)
    decreases |dirs| - k
  {
    if k < |dirs| {
      var prefix := dirs[..|dirs| - 1];
      assert prefix[..k] == dirs[..k];
      BrowseStopped(tree, prefix, k, list, win);
    } else {
      assert dirs[..k] == dirs;
    }
  }

  /** The browse step for segment `k`, once the earlier segments were all found. */
  lemma BrowseNext(tree: seq<string> -> seq<string>, dirs: seq<string>, k: nat, list: Control, win: Control)
    requires k < |dirs| && Browse(tree, dirs[..k], list, win).missing.None?
    ensures var p := Browse(tree, dirs[..k], list, win);
      Browse(tree, dirs[..k + 1], list, win) ==
        match FirstMatch(tree(dirs[..k]), dirs[k])
        case None => Nav(p.acts, Some(dirs[k]))
        case Some(i) => Nav(p.acts + NavStep(list, win, i), None)
  {
    assert dirs[..k + 1][..k] == dirs[..k];
  }

  /** Every action of a browse is on its list or its window. */
  lemma {:induction false} BrowseControls(tree: seq<string> -> seq<string>, dirs: seq<string>, list: Control, win: Control)
    ensures forall a | a in Browse(tree, dirs, list, win).acts :: a.control == list || a.control == win
    decreases |dirs|
  {
    if dirs != [] {
      BrowseControls(tree, dirs[..|dirs| - 1], list, win);
    }
  }

  // ------------------------------------------------------ open and close study

  /** The title the main window is looked up by before a study is open. */
  const MainTitle := "INM.*"

  /** `'- [Study %s]' % path.upper()`: the title once study `path` is open. */
  function StudyTitle(path: string): (t: string)
    ensures |t| == |path| + 10 && t[9..|t| - 1] == Upper(path)
  {
    "- [Study " + Upper(path) + "]"
  }

  /** `close_study`: the item is used only when its text says Close, and then only when it is enabled. */
  function CloseStudyActions(obs: Observed): (r: seq<Action>)
    ensures AllIn(r, {MenuPane})
    ensures Clicked(Menu(FileCloseStudy)) in r <==> Contains(obs.closeStudyText, "Close") && FileCloseStudy in obs.enabled
    ensures forall a | a in r :: a == Clicked(Menu(FileCloseStudy))
  {
    if Contains(obs.closeStudyText, "Close") then MenuItem(obs.enabled, FileCloseStudy) else []
  }

  /** The segments `open_study` browses through. */
  function StudyNav(obs: Observed, path: string): Nav {
    Browse(obs.openTree, PathToDir(path), Dialog(ListBox), Dialog(TopWindow))
  }

  /**
   * `open_study`: close any open study, open the Open Study dialog, browse to
   * the study's folder and confirm; a segment the list does not offer raises
   * `ValueError` before the dialog is confirmed.
   */
  function OpenStudyRun(obs: Observed, path: string): Trace {
    var nav := StudyNav(obs, path);
    var acts := CloseStudyActions(obs) + [Clicked(Menu(FileOpenStudy)), Action(Dialog(ListBox), Focus, NoValue)] + nav.acts;
    match nav.missing
    case Some(d) => Trace(acts, Raised(ValueError(d)))
    case None => Trace(acts + [Clicked(Dialog(OKButton))], Done)
  }

  /** The two ways an attempt to open a study ends. */
  lemma OpenStudyRunCases(obs: Observed, path: string, acts: seq<Action>)
    requires acts == CloseStudyActions(obs) + [Clicked(Menu(FileOpenStudy)), Action(Dialog(ListBox), Focus, NoValue)] + StudyNav(obs, path).acts
    ensures StudyNav(obs, path).missing.Some? ==> OpenStudyRun(obs, path) == Trace(acts, Raised(ValueError(StudyNav(obs, path).missing.value)))
    ensures StudyNav(obs, path).missing.None? ==> OpenStudyRun(obs, path) == Trace(acts + [Clicked(Dialog(OKButton))], Done)
  {
  }

  /**
   * Opening a study fails exactly when some segment of its path is not
   * offered, with the first such segment; a failed open never confirms the
   * dialog, and a successful one ends by confirming it.
   */
  lemma OpenStudyOutcome(obs: Observed, path: string)
    ensures var t := OpenStudyRun(obs, path); var dirs := PathToDir(path);
      t.outcome.Raised? <==> exists k | 0 <= k < |dirs| :: FirstMatch(obs.openTree(dirs[..k]), dirs[k]).None?
    ensures var t := OpenStudyRun(obs, path); var dirs := PathToDir(path);
      t.outcome.Raised? ==>
        && (exists k | 0 <= k < |dirs| ::
              && t.outcome.error == ValueError(dirs[k]) && FirstMatch(obs.openTree(dirs[..k]), dirs[k]).None?
              && forall j | 0 <= j < k :: FirstMatch(obs.openTree(dirs[..j]), dirs[j]).Some?)
        && Clicked(Dialog(OKButton)) !in t.acts
    ensures var t := OpenStudyRun(obs, path);
      t.outcome.Done? ==> t.acts[|t.acts| - 1] == Clicked(Dialog(OKButton))
  {
    var dirs := PathToDir(path);
    var nav := StudyNav(obs, path);
    var k := |nav.acts| / 2;
    BrowseShape(obs.openTree, dirs, Dialog(ListBox), Dialog(TopWindow));
    BrowseControls(obs.openTree, dirs, Dialog(ListBox), Dialog(TopWindow));
    forall j | 0 <= j < k ensures FirstMatch(obs.openTree(dirs[..j]), dirs[j]).Some? {
      BrowseSteps(obs.openTree, dirs, Dialog(ListBox), Dialog(TopWindow), j);
    }
  }

  // -------------------------------------------------------- open_grid_setup

  /** The delete loop: one guarded Delete Records per record listed. */
  function DeleteRecords(enabled: set<Command>, n: nat): (r: seq<Action>)
    ensures AllIn(r, {MenuPane})
  {
    if n == 0 then [] else DeleteRecords(enabled, n - 1) + MenuItem(enabled, EditDeleteRecords)
  }

  /** Delete Records is clicked once per record when it is enabled, and never otherwise. */
  lemma {:induction false} DeleteRecordsCount(enabled: set<Command>, n: nat)
    ensures Occurrences(DeleteRecords(enabled, n), Clicked(Menu(EditDeleteRecords))) == if EditDeleteRecords in enabled then n else 0
  {
    if n > 0 {
      var x := Clicked(Menu(EditDeleteRecords));
      DeleteRecordsCount(enabled, n - 1);
      OccurrencesAppend(DeleteRecords(enabled, n - 1), MenuItem(enabled, EditDeleteRecords), x);
      var m := MenuItem(enabled, EditDeleteRecords);
      if EditDeleteRecords in enabled {
        assert m[1..] == [];
      }
    }
  }

  /**
   * `open_grid_setup`: close the windows, open Grid Setup for the first
   * scenario, cascade, focus the record list and delete every record.
   */
  function GridSetupActions(obs: Observed): seq<Action> {
    MenuItem(obs.enabled, WindowCloseAll) + [Clicked(Menu(RunGridSetup))] + SelectFirst
    + MenuItem(obs.enabled, WindowCascade) + [Action(Dialog(ListBox), Focus, NoValue)]
    + DeleteRecords(obs.enabled, obs.gridRecords)
  }

  /** Preparing Grid Setup deletes each listed record once, provided the command is enabled. */
  lemma GridSetupDeletes(obs: Observed)
    ensures Occurrences(GridSetupActions(obs), Clicked(Menu(EditDeleteRecords)))
      == if EditDeleteRecords in obs.enabled then obs.gridRecords else 0
  {
    var x := Clicked(Menu(EditDeleteRecords));
    var head := MenuItem(obs.enabled, WindowCloseAll) + [Clicked(Menu(RunGridSetup))] + SelectFirst
      + MenuItem(obs.enabled, WindowCascade) + [Action(Dialog(ListBox), Focus, NoValue)];
    OccurrencesAppend(head, DeleteRecords(obs.enabled, obs.gridRecords), x);
    OccurrencesPositive(head, x);
    DeleteRecordsCount(obs.enabled, obs.gridRecords);
  }

  // -------------------------------------------------------------- run_study

  /** The button that dismisses a dialog of this title, if the loop dismisses it. */
  function Dismiss(title: string): Option<Widget> {
    if title == "Warning" then Some(OuiButton)
    else if title == "INM 7.0" then Some(OKButton)
    else None
  }

  /** The dialog loop: dismiss Warning and INM 7.0 dialogs until another title shows. */
  function DialogLoop(titles: seq<string>): (r: seq<Action>)
    ensures AllIn(r, {DialogPane})
    decreases |titles|
  {
    if titles == [] then []
    else
      match Dismiss(titles[0])
      case None => []
      case Some(w) => [Clicked(Dialog(w))] + DialogLoop(titles[1..])
  }

  /**
   * The loop clicks Oui for each Warning and OK for each INM 7.0 dialog, one
   * click per dialog, and stops at the first title that is neither.
   */
  lemma {:induction false} DialogLoopSpec(titles: seq<string>)
    ensures var r := DialogLoop(titles);
      && |r| <= |titles|
      && (forall k | 0 <= k < |r| :: Dismiss(titles[k]).Some? && r[k] == Clicked(Dialog(Dismiss(titles[k]).value)))
      && (|r| < |titles| ==> Dismiss(titles[|r|]).None?)
    decreases |titles|
  {
    if titles != [] && Dismiss(titles[0]).Some? {
      DialogLoopSpec(titles[1..]);
      var r := DialogLoop(titles);
      assert forall k | 1 <= k < |r| :: titles[k] == titles[1..][k - 1] && r[k] == DialogLoop(titles[1..])[k - 1];
    }
  }

  /** The loop over the titles from `i` on: one dismissal, then the rest, or nothing once a title is not dismissed. */
  lemma DialogLoopFrom(titles: seq<string>, i: nat)
    requires i <= |titles|
    ensures i < |titles| && Dismiss(titles[i]).Some? ==>
      DialogLoop(titles[i..]) == [Clicked(Dialog(Dismiss(titles[i]).value))] + DialogLoop(titles[i + 1..])
    ensures i == |titles| || Dismiss(titles[i]).None? ==> DialogLoop(titles[i..]) == []
  {
    if i < |titles| {
      assert titles[i..][0] == titles[i] && titles[i..][1..] == titles[i + 1..];
    }
  }

  /**
   * The tool eventually shows a window the loop does not dismiss (the run
   * status): without one, `run_study`'s `while True` never ends.
   */
  predicate RunEnds(obs: Observed) {
    exists k | 0 <= k < |obs.dialogTitles| :: Dismiss(obs.dialogTitles[k]).None?
  }

  /** When the run ends, the loop stops on a title it does not dismiss, before the titles run out. */
  lemma DialogLoopStops(obs: Observed)
    requires RunEnds(obs)
    ensures var r := DialogLoop(obs.dialogTitles);
      |r| < |obs.dialogTitles| && Dismiss(obs.dialogTitles[|r|]).None?
  {
    DialogLoopSpec(obs.dialogTitles);
    var k :| 0 <= k < |obs.dialogTitles| && Dismiss(obs.dialogTitles[k]).None?;
    assert |DialogLoop(obs.dialogTitles)| <= k;
  }

  /** The prompt before the dialog loop: Run Start for the first scenario, included, confirmed. */
  function RunStartActions(obs: Observed): (r: seq<Action>)
    ensures AllIn(r, {MenuPane, DialogPane})
  {
    MenuItem(obs.enabled, WindowCloseAll)
    + [Clicked(Menu(RunRunStart)), Action(Dialog(ScenarioList), Select, Index(0)), Clicked(Dialog(IncludeList)), Clicked(Dialog(OKButton))]
  }

  /** `run_study`: start the run, then dismiss the dialogs that come before the run status. */
  function RunStudyActions(obs: Observed): seq<Action> {
    RunStartActions(obs) + DialogLoop(obs.dialogTitles)
  }

  // ---------------------------------------------------------- export_output

  /** `get_noise_metric_from_run_options_menu` then `set_output_noise_metric`. */
  function MetricSyncActions(obs: Observed): (r: seq<Action>)
    ensures AllIn(r, {MenuPane, DialogPane})
  {
    MenuItem(obs.enabled, RunRunOptions) + MenuItem(obs.enabled, WindowCloseAll)
    + MenuItem(obs.enabled, OutputSetup) + [Action(Dialog(OutputMetricCombo), Select, Text(MetricToken(obs.runMetricText)))]
    + MenuItem(obs.enabled, WindowCloseAll)
  }

  /** The wait for an output view: one OK click per prompt shown before it appears. */
  function OkClicks(n: nat): (r: seq<Action>)
    ensures |r| == n && forall a | a in r :: a == Clicked(Dialog(OKButton))
  {
    if n == 0 then [] else OkClicks(n - 1) + [Clicked(Dialog(OKButton))]
  }

  /** How each export opens its output view. */
  function ViewOpen(obs: Observed, kind: ExportKind): (r: seq<Action>)
    ensures AllIn(r, {ViewMenuPane}) && forall a | a in r :: a == Clicked(Menu(OutputView(kind)))
  {
    match kind
    case OutputGraphics | ContourPoints | ContourAreaAndPop | AreaContourCoverage => [Clicked(Menu(OutputView(kind)))]
    case ScenarioRunInputReport => []
    case _ => MenuItem(obs.enabled, OutputView(kind))
  }

  /** What an export does once its view is open: pick the entry, wait for the view, arrange the windows. */
  function ViewRest(obs: Observed, kind: ExportKind): (r: seq<Action>)
    ensures AllIn(r, {MenuPane, DialogPane})
  {
    match kind
    case OutputGraphics | ContourPoints | ContourAreaAndPop =>
      SelectFirst + OkClicks(obs.okPrompts(kind)) + MenuItem(obs.enabled, WindowCascade)
    case AreaContourCoverage =>
      (if obs.errorDialog then [Clicked(Dialog(OKButton))] else []) + MenuItem(obs.enabled, WindowCascade)
    case StandardGrids | DetailedGrids | NoiseAtPopPoints | NoiseAtLocPoints =>
      SelectFirst + MenuItem(obs.enabled, WindowCascade)
    case FlightPathReport => SelectFirst + [Clicked(Dialog(OKButton))]
    case ScenarioRunInputReport => []
  }

  /** Everything an export does before `__export`, or all it does when it does not end there. */
  function ViewActions(obs: Observed, kind: ExportKind): seq<Action> {
    ViewOpen(obs, kind) + ViewRest(obs, kind)
  }

  /** Of the output-view menu, the steps before `__export` open the export's own view and nothing else. */
  lemma ViewActionsViews(obs: Observed, kind: ExportKind)
    ensures Only(ViewActions(obs, kind), {ViewMenuPane}) == ViewOpen(obs, kind)
  {
    OnlyAppend(ViewOpen(obs, kind), ViewRest(obs, kind), {ViewMenuPane});
    OnlyPane(ViewOpen(obs, kind), ViewMenuPane, ViewMenuPane);
    OnlyNone(ViewRest(obs, kind), {MenuPane, DialogPane}, {ViewMenuPane});
  }

  /** Python's `'%s' % v` of an optional string. */
  function FolderText(f: Option<string>): string {
    match f
    case None => "None"
    case Some(s) => s
  }

  /** The segments `__export` browses: those of the output directory, without the drive when the list has focus at 0. */
  function ExportDirs(pathToStudy: string, metric: string, focus: int): seq<string> {
    var dirs := PathToDir(OutputDir(pathToStudy, metric));
    if focus == 0 then dirs[1..] else dirs
  }

  /**
   * The drive segment is dropped exactly when the list focus is 0: the
   * segments are one more than the directory's backslashes otherwise, and
   * then they join back into the lower-cased directory.
   */
  lemma ExportDirsShape(pathToStudy: string, metric: string, focus: int)
    ensures var dir := OutputDir(pathToStudy, metric); var dirs := ExportDirs(pathToStudy, metric, focus);
      |dirs| == Count(dir, '\\') + (if focus == 0 then 0 else 1)
    ensures var dir := OutputDir(pathToStudy, metric); var dirs := ExportDirs(pathToStudy, metric, focus);
      focus != 0 ==> Join([dirs[0][..|dirs[0]| - 1]] + dirs[1..], '\\') == Lower(dir)
    ensures var dir := OutputDir(pathToStudy, metric);
      focus == 0 ==> [PathToDir(dir)[0]] + ExportDirs(pathToStudy, metric, focus) == PathToDir(dir)
  {
    FocusedDirs(OutputDir(pathToStudy, metric), focus);
  }

  /** `ExportDirsShape` for any directory `dir`. */
  lemma FocusedDirs(dir: string, focus: int)
    ensures var dirs := if focus == 0 then PathToDir(dir)[1..] else PathToDir(dir);
      |dirs| == Count(dir, '\\') + (if focus == 0 then 0 else 1)
    ensures var dirs := if focus == 0 then PathToDir(dir)[1..] else PathToDir(dir);
      focus != 0 ==> Join([dirs[0][..|dirs[0]| - 1]] + dirs[1..], '\\') == Lower(dir)
    ensures focus == 0 ==> [PathToDir(dir)[0]] + PathToDir(dir)[1..] == PathToDir(dir)
  {
    PathToDirSegments(dir);
    PathToDirRoundTrip(dir);
  }

  /**
   * `__export`: compute the output directory (`None` for the noise metric
   * raises `AttributeError` there, `None` for the study path `TypeError`), open Export As, name the file after the
   * default name and the study folder, choose the file type, browse to the
   * directory, accept the overwrite prompt if one shows, close the windows.
   */
  function ExportAsRun(obs: Observed, kind: ExportKind, fileType: Option<string>,
                       pathToStudy: Option<string>, studyFolder: Option<string>, metric: Option<string>): Trace
  {
    if metric.None? then Trace([], Raised(AttributeError))
    else if pathToStudy.None? then Trace([], Raised(TypeError))
    else
      After(ExportHead(obs, fileType, ExportFileName(obs.defaultName(kind), FolderText(studyFolder))),
            ExportBrowse(obs, kind, ExportDirs(pathToStudy.value, metric.value, obs.exportFocus)))
  }

  /**
   * The second half of `__export`: browse the directory list through `dirs`;
   * a missing segment raises, otherwise accept an overwrite prompt and close
   * the windows.
   */
  function ExportBrowse(obs: Observed, kind: ExportKind, dirs: seq<string>): Trace {
    var nav := Browse(obs.exportTree, dirs, ExportAs(DirList), ExportAs(ExportWindow));
    match nav.missing
    case Some(d) => Trace(nav.acts, Raised(ValueError(d)))
    case None => Trace(nav.acts + ExportTail(obs, kind), Done)
  }

  /** Open Export As, choose the file type, name the file, enter the directory list. */
  function ExportHead(obs: Observed, fileType: Option<string>, name: string): (r: seq<Action>)
    ensures AllIn(r, {MenuPane, ExportPane})
  {
    MenuItem(obs.enabled, FileExportAs)
      + [Action(ExportAs(FileTypeCombo), Select, IdValue(fileType)),
         Action(ExportAs(FileNameEdit), SetText, Text(name)),
         Clicked(ExportAs(DirList))]
  }

  /** Accept the overwrite prompt if it shows, then close the windows. */
  function ExportTail(obs: Observed, kind: ExportKind): (r: seq<Action>)
    ensures AllIn(r, {MenuPane, ExportPane})
  {
    (if obs.replacePrompt(kind) then [Clicked(ExportAs(ReplaceButton))] else []) + MenuItem(obs.enabled, WindowCloseAll)
  }

  /** The file is named after the default name and the study folder, and written only for a known study path. */
  lemma ExportAsName(obs: Observed, kind: ExportKind, fileType: Option<string>,
                     pathToStudy: Option<string>, studyFolder: Option<string>, metric: Option<string>)
    ensures var t := ExportAsRun(obs, kind, fileType, pathToStudy, studyFolder, metric);
      metric.None? ==> t == Trace([], Raised(AttributeError))
    ensures var t := ExportAsRun(obs, kind, fileType, pathToStudy, studyFolder, metric);
      metric.Some? && pathToStudy.None? ==> t == Trace([], Raised(TypeError))
    ensures var t := ExportAsRun(obs, kind, fileType, pathToStudy, studyFolder, metric);
      metric.Some? && pathToStudy.Some? && studyFolder.Some? ==>
        Action(ExportAs(FileNameEdit), SetText, Text(obs.defaultName(kind) + "_" + studyFolder.value)) in t.acts
    ensures var t := ExportAsRun(obs, kind, fileType, pathToStudy, studyFolder, metric);
      var k := |MenuItem(obs.enabled, FileExportAs)|;
      metric.Some? && pathToStudy.Some? ==>
        |t.acts| > k + 1
        && t.acts[k] == Action(ExportAs(FileTypeCombo), Select, IdValue(fileType))
        && t.acts[k + 1] == Action(ExportAs(FileNameEdit), SetText,
                                   Text(obs.defaultName(kind) + "_" + (if studyFolder.Some? then studyFolder.value else "None")))
  {
    if metric.Some? && pathToStudy.Some? {
      var head := ExportHead(obs, fileType, ExportFileName(obs.defaultName(kind), FolderText(studyFolder)));
      var rest := ExportBrowse(obs, kind, ExportDirs(pathToStudy.value, metric.value, obs.exportFocus)).acts;
      var k := |MenuItem(obs.enabled, FileExportAs)|;
      assert head[k + 1] == Action(ExportAs(FileNameEdit), SetText, Text(obs.defaultName(kind) + "_" + FolderText(studyFolder)));
      assert (head + rest)[k + 1] == head[k + 1];
    }
  }

  /** One export: open its view, then, for the table exports, `__export`. */
  function ExportKindRun(obs: Observed, kind: ExportKind, fileType: Option<string>,
                         pathToStudy: Option<string>, studyFolder: Option<string>, metric: Option<string>): Trace
  {
    var v := ViewActions(obs, kind);
    if ExportsTable(kind) then After(v, ExportAsRun(obs, kind, fileType, pathToStudy, studyFolder, metric))
    else Trace(v, Done)
  }

  /** The exports of `kinds` that `eo` requests, in order, up to the first that raises. */
  function ExportsFrom(obs: Observed, eo: ExportOptions, kinds: seq<ExportKind>,
                       pathToStudy: Option<string>, studyFolder: Option<string>, metric: Option<string>): Trace
    decreases |kinds|
  {
    if kinds == [] then Trace([], Done)
    else Then(ExportIfRequested(obs, eo, kinds[0], pathToStudy, studyFolder, metric),
              ExportsFrom(obs, eo, kinds[1..], pathToStudy, studyFolder, metric))
  }

  /** One `if export_options.<kind>:` of `export_output`. */
  function ExportIfRequested(obs: Observed, eo: ExportOptions, kind: ExportKind,
                             pathToStudy: Option<string>, studyFolder: Option<string>, metric: Option<string>): Trace
  {
    if Requested(eo, kind) then ExportKindRun(obs, kind, eo.fileType, pathToStudy, studyFolder, metric) else Trace([], Done)
  }

  /** The run of exports from position `j` of the fixed order is the export at `j`, then the run from `j + 1`. */
  lemma ExportsFromAt(obs: Observed, eo: ExportOptions, kinds: seq<ExportKind>, j: nat,
                      pathToStudy: Option<string>, studyFolder: Option<string>, metric: Option<string>)
    requires j < |kinds|
    ensures ExportsFrom(obs, eo, kinds[j..], pathToStudy, studyFolder, metric)
      == Then(ExportIfRequested(obs, eo, kinds[j], pathToStudy, studyFolder, metric),
              ExportsFrom(obs, eo, kinds[j + 1..], pathToStudy, studyFolder, metric))
  {
    assert kinds[j..][1..] == kinds[j + 1..];
  }

  /** `export_output`: read the run's noise metric, use it for the output, then run the requested exports in order. */
  function ExportOutputRun(obs: Observed, eo: ExportOptions, pathToStudy: Option<string>, studyFolder: Option<string>): Trace {
    After(MetricSyncActions(obs), ExportsFrom(obs, eo, ExportOrder, pathToStudy, studyFolder, Some(MetricToken(obs.runMetricText))))
  }

  /** The input report has no export: requesting it does nothing. */
  lemma InputReportNothing(obs: Observed, fileType: Option<string>, pathToStudy: Option<string>, studyFolder: Option<string>, metric: Option<string>)
    ensures ExportKindRun(obs, ScenarioRunInputReport, fileType, pathToStudy, studyFolder, metric) == Trace([], Done)
  {
  }

  /** What `__export` does is on the menu and on Export As only. */
  lemma ExportAsPanes(obs: Observed, kind: ExportKind, fileType: Option<string>,
                      pathToStudy: Option<string>, studyFolder: Option<string>, metric: Option<string>)
    ensures AllIn(ExportAsRun(obs, kind, fileType, pathToStudy, studyFolder, metric).acts, {MenuPane, ExportPane})
  {
    if metric.Some? && pathToStudy.Some? {
      var head := ExportHead(obs, fileType, ExportFileName(obs.defaultName(kind), FolderText(studyFolder)));
      var browse := ExportBrowse(obs, kind, ExportDirs(pathToStudy.value, metric.value, obs.exportFocus));
      ExportBrowsePanes(obs, kind, ExportDirs(pathToStudy.value, metric.value, obs.exportFocus));
      AllInAppend(head, browse.acts, {MenuPane, ExportPane});
    }
  }

  /** Browsing the Export As list and closing it stays on the menu and the Export As window. */
  lemma ExportBrowsePanes(obs: Observed, kind: ExportKind, dirs: seq<string>)
    ensures AllIn(ExportBrowse(obs, kind, dirs).acts, {MenuPane, ExportPane})
  {
    var nav := Browse(obs.exportTree, dirs, ExportAs(DirList), ExportAs(ExportWindow));
    BrowseControls(obs.exportTree, dirs, ExportAs(DirList), ExportAs(ExportWindow));
    assert AllIn(nav.acts, {MenuPane, ExportPane});
    AllInAppend(nav.acts, ExportTail(obs, kind), {MenuPane, ExportPane});
  }

  /** Of the output-view menu, one export opens its own view and nothing else. */
  lemma ExportKindViews(obs: Observed, kind: ExportKind, fileType: Option<string>,
                        pathToStudy: Option<string>, studyFolder: Option<string>, metric: Option<string>)
    ensures Only(ExportKindRun(obs, kind, fileType, pathToStudy, studyFolder, metric).acts, {ViewMenuPane}) == ViewOpen(obs, kind)
  {
    var v := ViewActions(obs, kind);
    ViewActionsViews(obs, kind);
    if ExportsTable(kind) {
      var e := ExportAsRun(obs, kind, fileType, pathToStudy, studyFolder, metric).acts;
      ExportAsPanes(obs, kind, fileType, pathToStudy, studyFolder, metric);
      OnlyAppend(v, e, {ViewMenuPane});
      OnlyNone(e, {MenuPane, ExportPane}, {ViewMenuPane});
    }
  }

  /** The views the requested exports of `kinds` open, in order. */
  function RequestedViews(obs: Observed, eo: ExportOptions, kinds: seq<ExportKind>): seq<Action>
    decreases |kinds|
  {
    if kinds == [] then []
    else (if Requested(eo, kinds[0]) then ViewOpen(obs, kinds[0]) else []) + RequestedViews(obs, eo, kinds[1..])
  }

  /** Only requested views of `kinds` are opened. */
  lemma {:induction false} RequestedViewsOnly(obs: Observed, eo: ExportOptions, kinds: seq<ExportKind>, a: Action)
    requires a in RequestedViews(obs, eo, kinds)
    ensures exists k | k in kinds :: Requested(eo, k) && a == Clicked(Menu(OutputView(k)))
    decreases |kinds|
  {
    var head := if Requested(eo, kinds[0]) then ViewOpen(obs, kinds[0]) else [];
    if a in head {
      assert kinds[0] in kinds;
    } else {
      RequestedViewsOnly(obs, eo, kinds[1..], a);
      var k :| k in kinds[1..] && Requested(eo, k) && a == Clicked(Menu(OutputView(k)));
      assert k in kinds;
    }
  }

  /** One step of a run of exports, stated on the view menu. */
  lemma ThenViews(first: Trace, rest: Trace, head: seq<Action>, tail: seq<Action>)
    requires Only(first.acts, {ViewMenuPane}) == head
    requires Only(rest.acts, {ViewMenuPane}) <= tail
    requires rest.outcome.Done? ==> Only(rest.acts, {ViewMenuPane}) == tail
    ensures Only(Then(first, rest).acts, {ViewMenuPane}) <= head + tail
    ensures Then(first, rest).outcome.Done? ==> Only(Then(first, rest).acts, {ViewMenuPane}) == head + tail
  {
    if first.outcome.Done? {
      OnlyAppend(first.acts, rest.acts, {ViewMenuPane});
    }
  }

  /**
   * A run of exports that returns has opened exactly the views of the
   * requested exports, in order; one that raises, a prefix of them.
   */
  lemma {:induction false} ExportsFromViews(obs: Observed, eo: ExportOptions, kinds: seq<ExportKind>,
                                            pathToStudy: Option<string>, studyFolder: Option<string>, metric: Option<string>)
    ensures var t := ExportsFrom(obs, eo, kinds, pathToStudy, studyFolder, metric);
      Only(t.acts, {ViewMenuPane}) <= RequestedViews(obs, eo, kinds)
    ensures var t := ExportsFrom(obs, eo, kinds, pathToStudy, studyFolder, metric);
      t.outcome.Done? ==> Only(t.acts, {ViewMenuPane}) == RequestedViews(obs, eo, kinds)
    decreases |kinds|
  {
    if kinds != [] {
      var kind := kinds[0];
      var first := ExportIfRequested(obs, eo, kind, pathToStudy, studyFolder, metric);
      var head := if Requested(eo, kind) then ViewOpen(obs, kind) else [];
      ExportsFromViews(obs, eo, kinds[1..], pathToStudy, studyFolder, metric);
      if Requested(eo, kind) { ExportKindViews(obs, kind, eo.fileType, pathToStudy, studyFolder, metric); }
      ThenViews(first, ExportsFrom(obs, eo, kinds[1..], pathToStudy, studyFolder, metric), head, RequestedViews(obs, eo, kinds[1..]));
    }
  }

  /** Two steps raise exactly when one of them does. */
  lemma ThenRaised(t: Trace, u: Trace)
    ensures Then(t, u).outcome.Raised? <==> t.outcome.Raised? || u.outcome.Raised?
  {
  }

  /** A run of exports raises exactly when one of the requested exports raises. */
  lemma {:induction false} ExportsFromRaised(obs: Observed, eo: ExportOptions, kinds: seq<ExportKind>,
                                             pathToStudy: Option<string>, studyFolder: Option<string>, metric: Option<string>)
    ensures ExportsFrom(obs, eo, kinds, pathToStudy, studyFolder, metric).outcome.Raised? <==>
      exists i | 0 <= i < |kinds| ::
        Requested(eo, kinds[i]) && ExportKindRun(obs, kinds[i], eo.fileType, pathToStudy, studyFolder, metric).outcome.Raised?
    decreases |kinds|
  {
    if kinds != [] {
      var first := ExportIfRequested(obs, eo, kinds[0], pathToStudy, studyFolder, metric);
      var rest := ExportsFrom(obs, eo, kinds[1..], pathToStudy, studyFolder, metric);
      assert ExportsFrom(obs, eo, kinds, pathToStudy, studyFolder, metric) == Then(first, rest);
      ThenRaised(first, rest);
      ExportsFromRaised(obs, eo, kinds[1..], pathToStudy, studyFolder, metric);
      if rest.outcome.Raised? {
        var i :| 0 <= i < |kinds[1..]| && Requested(eo, kinds[1..][i])
          && ExportKindRun(obs, kinds[1..][i], eo.fileType, pathToStudy, studyFolder, metric).outcome.Raised?;
        assert kinds[1..][i] == kinds[i + 1];
      }
      forall i | 0 < i < |kinds| && Requested(eo, kinds[i])
        && ExportKindRun(obs, kinds[i], eo.fileType, pathToStudy, studyFolder, metric).outcome.Raised?
        ensures rest.outcome.Raised?
      {
        assert kinds[1..][i - 1] == kinds[i];
      }
    }
  }

  /** A log whose view-menu actions come from the requested views never touches an unrequested view. */
  lemma UnrequestedNotIn(obs: Observed, eo: ExportOptions, kinds: seq<ExportKind>, sync: seq<Action>, acts: seq<Action>, kind: ExportKind)
    requires !Requested(eo, kind)
    requires AllIn(sync, {MenuPane, DialogPane}) && Only(acts, {ViewMenuPane}) <= RequestedViews(obs, eo, kinds)
    ensures !Touches(sync + acts, Menu(OutputView(kind)))
  {
    OnlyAppend(sync, acts, {ViewMenuPane});
    OnlyNone(sync, {MenuPane, DialogPane}, {ViewMenuPane});
    var views := Only(sync + acts, {ViewMenuPane});
    if Touches(views, Menu(OutputView(kind))) {
      var a :| a in views && a.control == Menu(OutputView(kind));
      assert a in RequestedViews(obs, eo, kinds);
      RequestedViewsOnly(obs, eo, kinds, a);
    }
    UntouchedVia(sync + acts, {ViewMenuPane}, Menu(OutputView(kind)));
  }

  /** An export that is not requested never opens its view. */
  lemma UnrequestedUntouched(obs: Observed, eo: ExportOptions, pathToStudy: Option<string>, studyFolder: Option<string>, kind: ExportKind)
    requires !Requested(eo, kind)
    ensures !Touches(ExportOutputRun(obs, eo, pathToStudy, studyFolder).acts, Menu(OutputView(kind)))
  {
    var m := Some(MetricToken(obs.runMetricText));
    ExportsFromViews(obs, eo, ExportOrder, pathToStudy, studyFolder, m);
    UnrequestedNotIn(obs, eo, ExportOrder, MetricSyncActions(obs), ExportsFrom(obs, eo, ExportOrder, pathToStudy, studyFolder, m).acts, kind);
  }

  /** The metric sync followed by a run of exports opens the views that run opens. */
  lemma SyncedExportsViews(obs: Observed, eo: ExportOptions, kinds: seq<ExportKind>,
                           pathToStudy: Option<string>, studyFolder: Option<string>, metric: Option<string>)
    ensures var t := After(MetricSyncActions(obs), ExportsFrom(obs, eo, kinds, pathToStudy, studyFolder, metric));
      && Only(t.acts, {ViewMenuPane}) <= RequestedViews(obs, eo, kinds)
      && (t.outcome.Done? ==> Only(t.acts, {ViewMenuPane}) == RequestedViews(obs, eo, kinds))
  {
    var vs := {ViewMenuPane};
    var exports := ExportsFrom(obs, eo, kinds, pathToStudy, studyFolder, metric);
    ExportsFromViews(obs, eo, kinds, pathToStudy, studyFolder, metric);
    OnlyAppend(MetricSyncActions(obs), exports.acts, vs);
    OnlyNone(MetricSyncActions(obs), {MenuPane, DialogPane}, vs);
  }

  /**
   * `export_output` opens the views of the requested exports in the fixed
   * order: all of them when it returns, a prefix when an export raises.
   */
  lemma ExportOutputViews(obs: Observed, eo: ExportOptions, pathToStudy: Option<string>, studyFolder: Option<string>)
    ensures var t := ExportOutputRun(obs, eo, pathToStudy, studyFolder);
      && Only(t.acts, {ViewMenuPane}) <= RequestedViews(obs, eo, ExportOrder)
      && (t.outcome.Done? ==> Only(t.acts, {ViewMenuPane}) == RequestedViews(obs, eo, ExportOrder))
  {
    SyncedExportsViews(obs, eo, ExportOrder, pathToStudy, studyFolder, Some(MetricToken(obs.runMetricText)));
  }

  /** An export raises only at `__export`: when the noise metric or the study path is unknown, or when a directory segment is missing. */
  lemma ExportKindRaises(obs: Observed, kind: ExportKind, fileType: Option<string>,
                         pathToStudy: Option<string>, studyFolder: Option<string>, metric: Option<string>)
    ensures var t := ExportKindRun(obs, kind, fileType, pathToStudy, studyFolder, metric);
      t.outcome.Raised? <==> (ExportsTable(kind) && (metric.None? || pathToStudy.None? ||
        Browse(obs.exportTree, ExportDirs(pathToStudy.value, metric.value, obs.exportFocus), ExportAs(DirList), ExportAs(ExportWindow)).missing.Some?))
    ensures var t := ExportKindRun(obs, kind, fileType, pathToStudy, studyFolder, metric);
      ExportsTable(kind) && metric.Some? && pathToStudy.None? ==> t.outcome == Raised(TypeError)
  {
  }

  lemma {:induction false} NothingRequested(obs: Observed, eo: ExportOptions, kinds: seq<ExportKind>,
                                            pathToStudy: Option<string>, studyFolder: Option<string>, metric: Option<string>)
    requires forall k | k in kinds :: !Requested(eo, k)
    ensures ExportsFrom(obs, eo, kinds, pathToStudy, studyFolder, metric) == Trace([], Done)
    decreases |kinds|
  {
    if kinds != [] {
      NothingRequested(obs, eo, kinds[1..], pathToStudy, studyFolder, metric);
    }
  }

  /** Freshly reset export options request nothing: `export_output` only syncs the metric. */
  lemma ResetExports(obs: Observed, pathToStudy: Option<string>, studyFolder: Option<string>)
    ensures ExportOutputRun(obs, ExportOptions(), pathToStudy, studyFolder) == Trace(MetricSyncActions(obs), Done)
  {
    NothingRequested(obs, ExportOptions(), ExportOrder, pathToStudy, studyFolder, Some(MetricToken(obs.runMetricText)));
  }
}
