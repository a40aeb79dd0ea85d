/**
 * The driver object itself.  Its fields are those of the Python class `INMAuto` in `inmauto.py`: the
 * title of the main window it talks to, the noise metric last read or set,
 * and the open study's path and folder.  Every interaction with the tool is
 * appended to `log`; what the tool shows is the snapshot `app`.  Each method
 * is proved to append exactly the actions the corresponding `Rules` or
 * `Flow` function prescribes and to update the fields as `inmauto.py` does.
 */
module Driver {
  import opened Text
  import opened Naming
  import opened Options
  import opened Ui
  import opened Rules
  import opened Flow

  /** Regrouping a log extended piece by piece. */
  lemma AppendThree<T>(o: seq<T>, a: seq<T>, b: seq<T>, c: seq<T>)
    ensures o + a + b + c == o + (a + b + c)
  {
  }

  lemma AppendTwo<T>(o: seq<T>, a: seq<T>, b: seq<T>)
    ensures o + a + b == o + (a + b)
  {
  }

  lemma AppendFive<T>(o: seq<T>, a: seq<T>, b: seq<T>, c: seq<T>, d: seq<T>, e: seq<T>)
    ensures o + a + b + c + d + e == o + (a + b + c + d + e)
  {
  }

  lemma AppendSix<T>(o: seq<T>, a: seq<T>, b: seq<T>, c: seq<T>, d: seq<T>, e: seq<T>, f: seq<T>)
    ensures o + a + b + c + d + e + f == o + (a + b + c + d + e + f)
  {
  }

  /**
   * One step of the export pass over `kinds`: once the exports before
   * position `j` have returned, the log plus the run from `j` is the whole
   * run; after export `j`, either it raised and the log is the whole run, or
   * the same holds from `j + 1`.
   */
  lemma ExportsStep(obs: Observed, eo: ExportOptions, kinds: seq<ExportKind>, j: nat, pathToStudy: Option<string>, studyFolder: Option<string>,
                         metric: Option<string>, before: seq<Action>, after: seq<Action>, whole: seq<Action>, out: Outcome)
    requires j < |kinds|
    requires before + ExportsFrom(obs, eo, kinds[j..], pathToStudy, studyFolder, metric).acts == whole
    requires ExportsFrom(obs, eo, kinds[j..], pathToStudy, studyFolder, metric).outcome == out
    requires after == before + ExportIfRequested(obs, eo, kinds[j], pathToStudy, studyFolder, metric).acts
    ensures var t := ExportIfRequested(obs, eo, kinds[j], pathToStudy, studyFolder, metric);
      t.outcome.Raised? ==> after == whole && t.outcome == out
    ensures var t := ExportIfRequested(obs, eo, kinds[j], pathToStudy, studyFolder, metric);
      var rest := ExportsFrom(obs, eo, kinds[j + 1..], pathToStudy, studyFolder, metric);
      t.outcome.Done? ==> after + rest.acts == whole && rest.outcome == out
  {
    ExportsFromAt(obs, eo, kinds, j, pathToStudy, studyFolder, metric);
    var t := ExportIfRequested(obs, eo, kinds[j], pathToStudy, studyFolder, metric);
    var rest := ExportsFrom(obs, eo, kinds[j + 1..], pathToStudy, studyFolder, metric);
    if t.outcome.Done? {
      AppendTwo(before, t.acts, rest.acts);
    }
  }

  /**
   * `export_output` as the driver performs it: the metric sync, as logged
   * with the metric it read, followed by the export pass, is the whole run.
   */
  lemma ExportOutputCompose(obs: Observed, eo: ExportOptions, pathToStudy: Option<string>, studyFolder: Option<string>,
                            pre: seq<Action>, post: seq<Action>, out: Outcome)
    requires var metric := Some(MetricToken(obs.runMetricText));
      post == pre + MenuItem(obs.enabled, RunRunOptions) + MenuItem(obs.enabled, WindowCloseAll)
        + MenuItem(obs.enabled, OutputSetup) + [Action(Dialog(OutputMetricCombo), Select, IdValue(metric))]
        + MenuItem(obs.enabled, WindowCloseAll) + ExportsFrom(obs, eo, ExportOrder, pathToStudy, studyFolder, metric).acts
    requires out == ExportsFrom(obs, eo, ExportOrder, pathToStudy, studyFolder, Some(MetricToken(obs.runMetricText))).outcome
    ensures post == pre + ExportOutputRun(obs, eo, pathToStudy, studyFolder).acts
    ensures out == ExportOutputRun(obs, eo, pathToStudy, studyFolder).outcome
  {
    var metric := Some(MetricToken(obs.runMetricText));
    AppendSix(pre, MenuItem(obs.enabled, RunRunOptions), MenuItem(obs.enabled, WindowCloseAll), MenuItem(obs.enabled, OutputSetup),
              [Action(Dialog(OutputMetricCombo), Select, IdValue(metric))], MenuItem(obs.enabled, WindowCloseAll),
              ExportsFrom(obs, eo, ExportOrder, pathToStudy, studyFolder, metric).acts);
  }

  class InmAuto {
    const exePath: string
    const app: Observed
    var mainWindow: Option<string>
    var noiseMetric: Option<string>
    var pathToStudy: Option<string>
    var studyFolder: Option<string>
    var log: seq<Action>

    constructor(exePath: string, app: Observed)
      ensures this.exePath == exePath && this.app == app
      ensures mainWindow.None? && noiseMetric.None? && pathToStudy.None? && studyFolder.None? && log == []
    {
      this.exePath := exePath;
      this.app := app;
      mainWindow := None;
      noiseMetric := None;
      pathToStudy := None;
      studyFolder := None;
      log := [];
    }

    /** `open_inm`: start the tool and attach to its main window. */
    method OpenInm()
      modifies this`log, this`mainWindow
      ensures log == old(log) + [Action(Process, Start, Text(exePath))]
      ensures mainWindow == Some(MainTitle)
    {
      log := log + [Action(Process, Start, Text(exePath))];
      mainWindow := Some(MainTitle);
    }

    /** `click_menu_item`: click the item only if it is enabled. */
    method ClickMenuItem(c: Command)
      requires mainWindow.Some?
      modifies this`log
      ensures log == old(log) + MenuItem(app.enabled, c)
    {
      if c in app.enabled {
        log := log + [Clicked(Menu(c))];
      }
    }

    method CloseAllWindows()
      requires mainWindow.Some?
      modifies this`log
      ensures log == old(log) + MenuItem(app.enabled, WindowCloseAll)
    {
      ClickMenuItem(WindowCloseAll);
    }

    method RearrangeWindowsInCascade()
      requires mainWindow.Some?
      modifies this`log
      ensures log == old(log) + MenuItem(app.enabled, WindowCascade)
    {
      ClickMenuItem(WindowCascade);
    }

    /** `close_study`: close the study if the menu offers it, and fall back to the main window. */
    method CloseStudy()
      requires mainWindow.Some?
      modifies this`log, this`mainWindow
      ensures log == old(log) + CloseStudyActions(app)
      ensures mainWindow == Some(MainTitle)
    {
      if Contains(app.closeStudyText, "Close") {
        ClickMenuItem(FileCloseStudy);
      }
      mainWindow := Some(MainTitle);
    }

    /** `close_inm`. */
    method CloseInm()
      requires mainWindow.Some?
      modifies this`log
      ensures log == old(log) + MenuItem(app.enabled, FileExit)
    {
      ClickMenuItem(FileExit);
    }

    /**
     * The directory loop of `open_study` and `__export`: for each segment,
     * select the first entry matching it and press Enter; a segment without
     * a match ends the loop and is returned (the `ValueError` of `.index`).
     */
    method Navigate(tree: seq<string> -> seq<string>, dirs: seq<string>, list: Control, win: Control)
      returns (missing: Option<string>)
      modifies this`log
      ensures log == old(log) + Browse(tree, dirs, list, win).acts
      ensures missing == Browse(tree, dirs, list, win).missing
    {
      for k := 0 to |dirs|
        invariant log == old(log) + Browse(tree, dirs[..k], list, win).acts
        invariant Browse(tree, dirs[..k], list, win).missing.None?
      {
        BrowseNext(tree, dirs, k, list, win);
        var index := FirstMatch(tree(dirs[..k]), dirs[k]);
        if index.None? {
          BrowseStopped(tree, dirs, k + 1, list, win);
          return Some(dirs[k]);
        }
        AppendTwo(old(log), Browse(tree, dirs[..k], list, win).acts, NavStep(list, win, index.value));
        log := log + NavStep(list, win, index.value);
      }
      assert dirs[..|dirs|] == dirs;
      missing := None;
    }

    /**
     * `open_study`: close any open study, record the path and its folder,
     * browse the Open Study dialog to it and confirm; on success the main
     * window becomes the study's window.
     */
    method OpenStudy(path: string) returns (outcome: Outcome)
      requires mainWindow.Some?
      modifies this`log, this`mainWindow, this`pathToStudy, this`studyFolder
      ensures log == old(log) + OpenStudyRun(app, path).acts && outcome == OpenStudyRun(app, path).outcome
      ensures pathToStudy == Some(path) && studyFolder == Some(Basename(path))
      ensures mainWindow == Some(if outcome.Done? then StudyTitle(path) else MainTitle)
    {
      CloseStudy();
      var dirs := PathToDir(path);
      log := log + [Clicked(Menu(FileOpenStudy)), Action(Dialog(ListBox), Focus, NoValue)];
      var missing := Navigate(app.openTree, dirs, Dialog(ListBox), Dialog(TopWindow));
      ghost var nav := StudyNav(app, path);
      AppendThree(old(log), CloseStudyActions(app), [Clicked(Menu(FileOpenStudy)), Action(Dialog(ListBox), Focus, NoValue)], nav.acts);
      OpenStudyRunCases(app, path, CloseStudyActions(app) + [Clicked(Menu(FileOpenStudy)), Action(Dialog(ListBox), Focus, NoValue)] + nav.acts);
      // `open_study` records the study before navigating; nothing in between reads these fields
      pathToStudy := Some(path);
      studyFolder := Some(Basename(path));
      if missing.Some? {
        return Raised(ValueError(missing.value));
      }
      log := log + [Clicked(Dialog(OKButton))];
      mainWindow := Some(StudyTitle(path));
      outcome := Done;
    }

    /** `open_grid_setup`: open Grid Setup for the first scenario and delete every listed record. */
    method OpenGridSetup()
      requires mainWindow.Some?
      modifies this`log
      ensures log == old(log) + GridSetupActions(app)
    {
      CloseAllWindows();
      log := log + [Clicked(Menu(RunGridSetup))] + SelectFirst;
      RearrangeWindowsInCascade();
      log := log + [Action(Dialog(ListBox), Focus, NoValue)];
      ghost var before := log;
      for i := 0 to app.gridRecords
        invariant log == before + DeleteRecords(app.enabled, i)
      {
        ClickMenuItem(EditDeleteRecords);
      }
    }

    /** `set_grid`: add a record and fill it in from `g`. */
    method SetGrid(g: GridSetup)
      requires mainWindow.Some?
      modifies this`log
      ensures log == old(log) + GridActions(g, app.enabled, app.percentChecked)
    {
      ClickMenuItem(EditAddRecord);
      log := log + [GridTypeSelect(g)] + ThresholdActions(g) + PercentActions(g, app.percentChecked)
        + PlacementActions(g) + SizeActions(g);
      AppendSix(old(log), MenuItem(app.enabled, EditAddRecord), [GridTypeSelect(g)], ThresholdActions(g),
                PercentActions(g, app.percentChecked), PlacementActions(g), SizeActions(g));
    }

    /** `set_run_options`: fill in Run Options from `ro` and remember its formatted noise metric. */
    method SetRunOptions(ro: RunOptions)
      requires mainWindow.Some?
      modifies this`log, this`noiseMetric
      ensures log == old(log) + RunOptionsActions(ro, app.enabled)
      ensures noiseMetric == Some(MetricToken(ro.noiseMetric))
    {
      CloseAllWindows();
      ClickMenuItem(RunRunOptions);
      RearrangeWindowsInCascade();
      AppendThree(old(log), MenuItem(app.enabled, WindowCloseAll), MenuItem(app.enabled, RunRunOptions), MenuItem(app.enabled, WindowCascade));
      log := log + CommonRunActions(ro);
      noiseMetric := Some(MetricToken(ro.noiseMetric));
      log := log + MetricSelectActions(ro);
      log := log + ContourActions(ro);
      log := log + OutputFlagActions(ro);
      log := log + MetricActions(ro);
      AppendSix(old(log), RunOptionsHead(app.enabled), CommonRunActions(ro), MetricSelectActions(ro),
                ContourActions(ro), OutputFlagActions(ro), MetricActions(ro));
    }

    /** `run_study`: start the run, then dismiss dialogs until the run status shows. */
    method RunStudy()
      requires mainWindow.Some? && RunEnds(app)
      modifies this`log
      ensures log == old(log) + RunStudyActions(app)
    {
      CloseAllWindows();
      log := log + [Clicked(Menu(RunRunStart)), Action(Dialog(ScenarioList), Select, Index(0)),
                    Clicked(Dialog(IncludeList)), Clicked(Dialog(OKButton))];
      DismissDialogs();
      AppendThree(old(log), MenuItem(app.enabled, WindowCloseAll), [Clicked(Menu(RunRunStart)), Action(Dialog(ScenarioList), Select, Index(0)),
                  Clicked(Dialog(IncludeList)), Clicked(Dialog(OKButton))], DialogLoop(app.dialogTitles));
    }

    /**
     * The `while True` loop of `run_study`: click Oui on a Warning and OK on
     * an INM 7.0 dialog, and stop at the first other window.
     */
    method DismissDialogs()
      requires RunEnds(app)
      modifies this`log
      ensures log == old(log) + DialogLoop(app.dialogTitles)
    {
      var titles := app.dialogTitles;
      ghost var stop :| 0 <= stop < |titles| && Dismiss(titles[stop]).None?;
      var i := 0;
      assert titles[i..] == titles;
      while Dismiss(titles[i]).Some?
        invariant 0 <= i <= stop
        invariant log + DialogLoop(titles[i..]) == old(log) + DialogLoop(titles)
        decreases stop - i
      {
        DialogLoopFrom(titles, i);
        var click := [Clicked(Dialog(Dismiss(titles[i]).value))];
        AppendTwo(log, click, DialogLoop(titles[i + 1..]));
        log := log + click;
        i := i + 1;
      }
      DialogLoopFrom(titles, i);
      assert log + [] == log;
    }

    /** `get_noise_metric_from_run_options_menu`: read the run's noise metric, padded to six characters and upper-cased. */
    method GetNoiseMetric()
      requires mainWindow.Some?
      modifies this`log, this`noiseMetric
      ensures log == old(log) + MenuItem(app.enabled, RunRunOptions) + MenuItem(app.enabled, WindowCloseAll)
      ensures noiseMetric == Some(MetricToken(app.runMetricText))
    {
      ClickMenuItem(RunRunOptions);
      noiseMetric := Some(MetricToken(app.runMetricText));
      CloseAllWindows();
    }

    /** `set_output_noise_metric`: select the remembered noise metric in Output Setup. */
    method SetOutputNoiseMetric()
      requires mainWindow.Some?
      modifies this`log
      ensures log == old(log) + MenuItem(app.enabled, OutputSetup)
        + [Action(Dialog(OutputMetricCombo), Select, IdValue(noiseMetric))] + MenuItem(app.enabled, WindowCloseAll)
    {
      ClickMenuItem(OutputSetup);
      log := log + [Action(Dialog(OutputMetricCombo), Select, IdValue(noiseMetric))];
      CloseAllWindows();
    }

    /** `__select`: pick the first entry of a selection dialog and confirm. */
    method SelectEntry()
      modifies this`log
      ensures log == old(log) + SelectFirst
    {
      log := log + [Action(Dialog(ListBox), Select, Index(0)), Clicked(Dialog(OKButton))];
    }

    /** The wait loop of the graphics and contour exports: press OK on every prompt until the view shows. */
    method WaitForView(kind: ExportKind)
      modifies this`log
      ensures log == old(log) + OkClicks(app.okPrompts(kind))
    {
      for i := 0 to app.okPrompts(kind)
        invariant log == old(log) + OkClicks(i)
      {
        log := log + [Clicked(Dialog(OKButton))];
      }
    }

    /**
     * `__export`: build the output directory from the study path and the
     * noise metric, name the file after the study folder, then browse Export
     * As to the directory and finish.
     */
    method Export(kind: ExportKind, fileType: Option<string>) returns (outcome: Outcome)
      requires mainWindow.Some?
      modifies this`log
      ensures log == old(log) + ExportAsRun(app, kind, fileType, pathToStudy, studyFolder, noiseMetric).acts
      ensures outcome == ExportAsRun(app, kind, fileType, pathToStudy, studyFolder, noiseMetric).outcome
    {
      if noiseMetric.None? {
        return Raised(AttributeError);
      }
      if pathToStudy.None? {
        return Raised(TypeError);
      }
      ClickMenuItem(FileExportAs);
      var exportFile := ExportFileName(app.defaultName(kind), FolderText(studyFolder));
      log := log + [Action(ExportAs(FileTypeCombo), Select, IdValue(fileType)),
                    Action(ExportAs(FileNameEdit), SetText, Text(exportFile)), Clicked(ExportAs(DirList))];
      ghost var head := ExportHead(app, fileType, exportFile);
      AppendTwo(old(log), MenuItem(app.enabled, FileExportAs), [Action(ExportAs(FileTypeCombo), Select, IdValue(fileType)),
                Action(ExportAs(FileNameEdit), SetText, Text(exportFile)), Clicked(ExportAs(DirList))]);
      // the output directory's segments, without the drive when the list has focus at 0
      var dirPath := ExportDirs(pathToStudy.value, noiseMetric.value, app.exportFocus);
      outcome := BrowseOutput(kind, dirPath);
      AppendTwo(old(log), head, ExportBrowse(app, kind, dirPath).acts);
    }

    /** The second half of `__export`: browse to the directory, accept an overwrite prompt, close the windows. */
    method BrowseOutput(kind: ExportKind, dirPath: seq<string>) returns (outcome: Outcome)
      requires mainWindow.Some?
      modifies this`log
      ensures log == old(log) + ExportBrowse(app, kind, dirPath).acts
      ensures outcome == ExportBrowse(app, kind, dirPath).outcome
    {
      var missing := Navigate(app.exportTree, dirPath, ExportAs(DirList), ExportAs(ExportWindow));
      if missing.Some? {
        return Raised(ValueError(missing.value));
      }
      ghost var mid := log;
      ghost var replace: seq<Action> := if app.replacePrompt(kind) then [Clicked(ExportAs(ReplaceButton))] else [];
      if app.replacePrompt(kind) {
        log := log + [Clicked(ExportAs(ReplaceButton))];
      }
      assert log == mid + replace;
      CloseAllWindows();
      AppendTwo(mid, replace, MenuItem(app.enabled, WindowCloseAll));
      AppendTwo(old(log), Browse(app.exportTree, dirPath, ExportAs(DirList), ExportAs(ExportWindow)).acts, ExportTail(app, kind));
      outcome := Done;
    }

    /**
     * The `export_*` method of one export kind: open its output view as
     * that method does and, for the exports written through Export As,
     * call `__export`.  The input report does nothing.
     */
    method ExportKindView(kind: ExportKind, fileType: Option<string>) returns (outcome: Outcome)
      requires mainWindow.Some?
      modifies this`log
      ensures log == old(log) + ExportKindRun(app, kind, fileType, pathToStudy, studyFolder, noiseMetric).acts
      ensures outcome == ExportKindRun(app, kind, fileType, pathToStudy, studyFolder, noiseMetric).outcome
    {
      match kind {
        case OutputGraphics | ContourPoints | ContourAreaAndPop =>
          log := log + [Clicked(Menu(OutputView(kind)))];
          SelectEntry();
          WaitForView(kind);
          RearrangeWindowsInCascade();
          AppendThree(old(log) + ViewOpen(app, kind), SelectFirst, OkClicks(app.okPrompts(kind)), MenuItem(app.enabled, WindowCascade));
        case AreaContourCoverage =>
          log := log + [Clicked(Menu(OutputView(kind)))];
          if app.errorDialog {
            log := log + [Clicked(Dialog(OKButton))];
          }
          RearrangeWindowsInCascade();
          AppendTwo(old(log) + ViewOpen(app, kind), if app.errorDialog then [Clicked(Dialog(OKButton))] else [], MenuItem(app.enabled, WindowCascade));
        case StandardGrids | DetailedGrids | NoiseAtPopPoints | NoiseAtLocPoints =>
          ClickMenuItem(OutputView(kind));
          SelectEntry();
          RearrangeWindowsInCascade();
          AppendTwo(old(log) + ViewOpen(app, kind), SelectFirst, MenuItem(app.enabled, WindowCascade));
        case FlightPathReport =>
          ClickMenuItem(OutputView(kind));
          SelectEntry();
          log := log + [Clicked(Dialog(OKButton))];
          AppendTwo(old(log) + ViewOpen(app, kind), SelectFirst, [Clicked(Dialog(OKButton))]);
        case ScenarioRunInputReport =>
      }
      assert log == old(log) + ViewOpen(app, kind) + ViewRest(app, kind);
      AppendTwo(old(log), ViewOpen(app, kind), ViewRest(app, kind));
      if ExportsTable(kind) {
        outcome := Export(kind, fileType);
        AppendTwo(old(log), ViewActions(app, kind), ExportAsRun(app, kind, fileType, pathToStudy, studyFolder, noiseMetric).acts);
      } else {
        outcome := Done;
      }
    }

    /** One `if export_options.<kind>:` of `export_output`. */
    method ExportRequested(eo: ExportOptions, kind: ExportKind) returns (outcome: Outcome)
      requires mainWindow.Some?
      modifies this`log
      ensures log == old(log) + ExportIfRequested(app, eo, kind, pathToStudy, studyFolder, noiseMetric).acts
      ensures outcome == ExportIfRequested(app, eo, kind, pathToStudy, studyFolder, noiseMetric).outcome
    {
      if Requested(eo, kind) {
        outcome := ExportKindView(kind, eo.fileType);
      } else {
        outcome := Done;
      }
    }

    /**
     * `export_output`: take the noise metric from Run Options and select it
     * for the output, then run each requested export in the fixed order,
     * stopping at the first that raises.
     */
    method ExportOutput(eo: ExportOptions) returns (outcome: Outcome)
      requires mainWindow.Some?
      modifies this`log, this`noiseMetric
      ensures noiseMetric == Some(MetricToken(app.runMetricText))
      ensures log == old(log) + ExportOutputRun(app, eo, pathToStudy, studyFolder).acts
      ensures outcome == ExportOutputRun(app, eo, pathToStudy, studyFolder).outcome
      ensures mainWindow == old(mainWindow)
    {
      GetNoiseMetric();
      SetOutputNoiseMetric();
      outcome := ExportKinds(eo, ExportOrder);
      ExportOutputCompose(app, eo, pathToStudy, studyFolder, old(log), log, outcome);
    }

    /**
     * The requested exports among `kinds`, one after the other, stopping at
     * the first that raises.
     */
    method ExportKinds(eo: ExportOptions, kinds: seq<ExportKind>) returns (outcome: Outcome)
      requires mainWindow.Some?
      modifies this`log
      ensures log == old(log) + ExportsFrom(app, eo, kinds, pathToStudy, studyFolder, noiseMetric).acts
      ensures outcome == ExportsFrom(app, eo, kinds, pathToStudy, studyFolder, noiseMetric).outcome
    {
      ghost var run := ExportsFrom(app, eo, kinds, pathToStudy, studyFolder, noiseMetric);
      ghost var whole := old(log) + run.acts;
      assert kinds[0..] == kinds;
      outcome := Done;
      for j := 0 to |kinds|
        invariant log + ExportsFrom(app, eo, kinds[j..], pathToStudy, studyFolder, noiseMetric).acts == whole
        invariant ExportsFrom(app, eo, kinds[j..], pathToStudy, studyFolder, noiseMetric).outcome == run.outcome
        invariant outcome == Done
      {
        outcome := ExportAt(eo, kinds, j, whole, run.outcome);
        if outcome.Raised? {
          return;
        }
      }
      assert kinds[|kinds|..] == [];
      assert log + [] == log;
    }

    /**
     * The export at position `j` of `kinds`: a log that the run from `j` would
     * complete to `whole` is, after it, `whole` when it raises, and otherwise
     * one that the run from `j + 1` completes to `whole`.
     */
    method ExportAt(eo: ExportOptions, kinds: seq<ExportKind>, j: nat, ghost whole: seq<Action>, ghost out: Outcome)
      returns (outcome: Outcome)
      requires mainWindow.Some? && j < |kinds|
      requires log + ExportsFrom(app, eo, kinds[j..], pathToStudy, studyFolder, noiseMetric).acts == whole
      requires ExportsFrom(app, eo, kinds[j..], pathToStudy, studyFolder, noiseMetric).outcome == out
      modifies this`log
      ensures outcome.Raised? ==> log == whole && outcome == out
      ensures outcome.Done? ==> log + ExportsFrom(app, eo, kinds[j + 1..], pathToStudy, studyFolder, noiseMetric).acts == whole
      ensures outcome.Done? ==> ExportsFrom(app, eo, kinds[j + 1..], pathToStudy, studyFolder, noiseMetric).outcome == out
    {
      ghost var before := log;
      outcome := ExportRequested(eo, kinds[j]);
      ExportsStep(app, eo, kinds, j, pathToStudy, studyFolder, noiseMetric, before, log, whole, out);
    }
  }
}
