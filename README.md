# INM automation driver — a verified model

`inmauto.py` drives the Windows user interface of the INM noise-modelling
tool. `INMAuto` is the low-level driver. It opens the tool and a study,
prepares grids, sets the run options, starts the run and exports the
output. `INMStudy.run_scenario` calls the driver in a fixed order for one
study. Three option records carry what the caller wants: `GridSetup`,
`RunOptions` and `ExportOptions`.

This project models the decision logic of that driver in Dafny. It leaves
out the window plumbing.

* **The user interface** is an append-only action log. Each entry is an
  `Action(control, op, value)`: the control written, what is done to it
  (click, select, set text, check, …) and the value passed.
* **What the tool shows** is a snapshot `Observed`. It holds:
  * which menu items are enabled;
  * the folder listings offered after each Enter;
  * the number of grid records;
  * the state of the percent-of-time box;
  * the dialog titles that follow Run Start;
  * the noise metric shown in Run Options;
  * the default export names;
  * the list focus;
  * whether a replace prompt appears.
* **Exceptions** that escape the driver are an `Outcome`: `Raised(ValueError(segment))`, `Raised(TypeError)` or `Raised(AttributeError)`.

Modules, in dependency order:

| module | file | content |
|---|---|---|
| `Text` | text.dfy | the Python `str` operations the driver uses (`lower`, `upper`, `ljust`, `strip`, `split`, `join`, `in`) |
| `Naming` | naming.dfy | `__path_to_dir`, `os.path.basename`/`join` on drive-letter paths, the metric token, the output directory and the export file name |
| `Ui` | ui.dfy | controls, actions, panes (groups of controls one decision writes), filters and facts about logs |
| `Options` | options.dfy | the three option records, whose default constructors are the values `reset()` assigns |
| `Rules` | rules.dfy | `click_menu_item`, `set_grid` and `set_run_options` as functions from the options to the actions they perform, with the branch properties |
| `Flow` | flow.dfy | the folder-picker navigation, `open_study`, `open_grid_setup`, the `run_study` dialog loop and `export_output` with `__export`, as traces (actions plus outcome) |
| `Driver` | driver.dfy | class `InmAuto`: the session fields and the log, with one method per driver operation, each proved against its `Rules`/`Flow` function |
| `Study` | study.dfy | class `InmStudy` and `run_scenario`, with the lifecycle properties |

The loops of the source are `for` and `while` loops in the driver's
methods. These are the navigation loops, the record-deletion loop, the
dialog loop and the OK-prompt waits. Each loop's invariant ties the log
built so far to the specifying function.

## Model

| member | source | states |
|---|---|---|
| Naming.PathToDir | inmauto.py:50-60 | the first segment ends with the `\` put back on the drive |
| Naming.PathToDirSegments | inmauto.py:57-60 | there is one segment more than the path has backslashes, and no segment holds an upper-case letter |
| Naming.PathToDirRoundTrip | inmauto.py:57-60 | dropping the `\` from the first segment and joining all segments with `\` gives back the lower-cased path |
| Naming.MetricToken | inmauto.py:226 | the token's length is max(6, length of the name) and it holds no lower-case letter |
| Naming.MetricTokenShape | inmauto.py:226 | the token is the upper-cased name followed by spaces up to width 6 |
| Naming.MetricTokenIdempotent | inmauto.py:408 | normalising a token again leaves it unchanged |
| Naming.MetricTokenExamples | inmauto.py:226 | "lamax" becomes "LAMAX ", "dnl" becomes "DNL   ", and "LAMAX " is unchanged |
| Naming.Basename | inmauto.py:92 | `os.path.basename` is no longer than the path |
| Naming.BasenameSegment | inmauto.py:92 | the study folder is a separator-free suffix of the path, preceded by a separator or by the drive |
| Naming.BasenameLastSegment | inmauto.py:92 | the basename of `dir\folder` is `folder` when `folder` holds no separator |
| Naming.JoinPath | inmauto.py:533-534 | `ntpath.join` of two drive-letter paths, case by case: a rooted component keeps its own drive, or takes the left side's drive when it has none; a component on another drive (compared case-insensitively) replaces the left side; otherwise it is appended to the left side's path under the component's drive if it has one, with a `\` inserted unless that path is empty or ends with a separator |
| Naming.StripMetricToken | inmauto.py:534 | stripping the padded token gives back the upper-cased metric name |
| Naming.OutputDir | inmauto.py:533-534 | the output directory is `path_to_study` joined with `OUTPUT1`, a `\`, and the stripped metric |
| Naming.OutputDirShape | inmauto.py:533-534 | for an ordinary study path the output directory is `path\OUTPUT1\metric` |
| Naming.ExportFileName | inmauto.py:544 | the file name is the default name, then `_`, then the study folder, each at its position |
| Naming.ExportFileNameExample | inmauto.py:544 | a concrete default name and study folder give the expected file name |
| Text.Lower | inmauto.py:57 | `lower` keeps the length, leaves no upper-case letter and changes only letters' case |
| Text.Upper | inmauto.py:226 | `upper` keeps the length, leaves no lower-case letter and changes only letters' case |
| Text.LJust | inmauto.py:226 | `ljust` keeps the string as a prefix and pads with spaces to the width |
| Text.Strip | inmauto.py:534 | `strip` removes exactly the white space at both ends |
| Text.Split | inmauto.py:58 | `split` yields one piece more than separators, and no piece holds the separator |
| Text.JoinSplit | inmauto.py:58 | joining the pieces of a split with the separator gives back the string |
| Rules.MenuItem | inmauto.py:627-633 | a menu item is clicked at most once, and exactly when it is enabled |
| Rules.GridOnly | inmauto.py:147-197 | each Grid Points Setup pane receives exactly the actions of its own section of `set_grid` |
| Rules.GridTypeOnce | inmauto.py:156 | the grid type is selected exactly once |
| Rules.GridThreshold | inmauto.py:159-166 | a truthy relative threshold clicks Relative and sets its edit; otherwise Fixed and its edit are written |
| Rules.GridThresholdExclusive | inmauto.py:159-166 | the controls of the branch not taken are never touched |
| Rules.GridPercent | inmauto.py:168-175 | with percent of time, the box is clicked only if unchecked and the edit is set; without it, the box is unchecked |
| Rules.GridPercentOfTime | inmauto.py:168-175 | after `set_grid` the percent-of-time box is checked exactly when percent of time is truthy, whatever its initial state |
| Rules.GridPlacement | inmauto.py:178-191 | X/Y/I/J are written only for Contour, Standard and Detailed grids in X/Y coordinates; the rotation is written for those three types |
| Rules.GridNoXY | inmauto.py:178-189 | a Location grid, or one not in X/Y coordinates, touches none of X/Y, X, Y, I, J |
| Rules.GridSize | inmauto.py:193-197 | the grid id and point counts are written exactly for Standard and Detailed grids |
| Rules.LocationGridFields | inmauto.py:178-197 | a Location grid writes no placement and no size control |
| Rules.ResetGrid | inmauto.py:655-673 | a freshly reset grid adds a record, selects Location, sets the fixed 85 dB threshold, clears percent of time, and does nothing else |
| Rules.RunGeneral | inmauto.py:217-223 | run type and lateral attenuation are always selected; terrain and bank angle are checked only when set |
| Rules.RunGeneralState | inmauto.py:218-223 | a terrain or bank-angle box ends checked exactly when it was checked already or its option is set |
| Rules.RunOtherType | inmauto.py:217-228 | a run type other than Single-Metric writes only menu items and the four general controls |
| Rules.RunMetricSelect | inmauto.py:226-229 | the noise-metric combo is written only for Single-Metric, with the normalised token |
| Rules.RunContours | inmauto.py:231-255 | contour controls are written only for Single-Metric runs with contours, in the order the source writes them |
| Rules.ContourGridFields | inmauto.py:236-255 | fixed spacing writes only its radios and the spacing; fixed refinement only its radios and the refinement; recursive grid the refinement, tolerance and both cutoffs |
| Rules.RunContourFields | inmauto.py:228-255 | a contour control is touched exactly when it belongs to the contour branch taken |
| Rules.RunOutputFields | inmauto.py:258-269 | an output box is touched exactly when its option is set in a Single-Metric run (Save 100% Flights only under detailed grids), and only by a Check |
| Rules.MetricChecksAll | inmauto.py:272-303 | every one of the sixteen metric boxes is checked exactly when its metric is chosen |
| Rules.RunMetrics | inmauto.py:228-303 | a metric box is checked exactly when the run is Single-Metric and the metric is chosen |
| Rules.PlainRunOptions | inmauto.py:211-229 | a Single-Metric run with no flag set writes only the run type, the lateral attenuation and the metric |
| Rules.ResetRunOptions | inmauto.py:792-832 | freshly reset run options write the Single-Metric run type, All-Soft-Ground attenuation and the LAMAX metric, and nothing else |
| Flow.FirstMatch | inmauto.py:104 | the index found is the first one whose lower-cased text equals the segment; none is found only when no entry matches |
| Flow.BrowseShape | inmauto.py:102-106 | the navigation performs one select and Enter per segment until the first segment no entry matches; it stops there, reporting that segment |
| Flow.BrowseSteps | inmauto.py:102-106 | the j-th select picks the first matching index in the listing reached after the earlier segments, and is followed by Enter |
| Flow.BrowseControls | inmauto.py:102-106 | the navigation writes only the list box and its window |
| Flow.StudyTitle | inmauto.py:111 | the new window title holds the upper-cased study path |
| Flow.CloseStudyActions | inmauto.py:602-610 | Close Study is clicked exactly when the menu text contains "Close" and the item is enabled, and nothing else is done |
| Flow.OpenStudyOutcome | inmauto.py:81-116 | opening raises exactly when some segment is missing from its listing. The error names the first missing segment, and OK is never clicked. A successful open ends with the OK click |
| Flow.DeleteRecordsCount | inmauto.py:137-140 | Delete Records is clicked once per listed record when enabled, and never otherwise |
| Flow.GridSetupDeletes | inmauto.py:118-140 | preparing Grid Setup issues Delete Records once per existing record, when enabled |
| Flow.DialogLoopSpec | inmauto.py:330-346 | each Warning is dismissed with Oui and each INM 7.0 dialog with OK, and the loop stops at the first other title |
| Flow.DialogLoopFrom | inmauto.py:330-346 | one step of the dialog loop: dismiss and continue, or stop |
| Flow.DialogLoopStops | inmauto.py:330-346 | when some title is neither Warning nor INM 7.0, the loop dismisses fewer dialogs than there are titles and stops on such a title |
| Flow.ExportDirsShape | inmauto.py:549-551 | the drive segment is dropped exactly when the list focus is 0; otherwise the segments rebuild the lower-cased output directory |
| Flow.ExportAsName | inmauto.py:531-546 | with no metric, `__export` raises AttributeError before acting, and with no study path it raises TypeError; otherwise the action just after the file-type select of Export As writes the file name default + `_` + study folder, with `None` for a missing folder as `%s` gives |
| Flow.ExportKindRaises | inmauto.py:531-561 | an export raises exactly when it uses Export As and the metric or path is missing, or an output folder is not in its listing |
| Flow.ViewActionsViews | inmauto.py:418-524 | before Export As, each export opens only its own output view |
| Flow.InputReportNothing | inmauto.py:393-394 | the scenario run input report does nothing |
| Flow.ExportsFromViews | inmauto.py:368-397 | the output views opened are those of the requested exports, in the fixed order; if nothing raised, all of them are opened |
| Flow.ExportsFromRaised | inmauto.py:368-397 | the export pass raises exactly when some requested export raises |
| Flow.UnrequestedUntouched | inmauto.py:359-397 | the view of an export that was not requested is never opened |
| Flow.ExportOutputViews | inmauto.py:359-397 | `export_output` syncs the metric, then opens the requested views in order, all of them if nothing raised |
| Flow.ResetExports | inmauto.py:1127-1143 | freshly reset export options request nothing: `export_output` only syncs the metric |
| Driver.InmAuto.constructor | inmauto.py:40-47 | a new driver has no window, metric, study path or folder, and an empty log |
| Driver.InmAuto.OpenInm | inmauto.py:62-79 | the tool is started and the main window attached |
| Driver.InmAuto.ClickMenuItem | inmauto.py:627-633 | the log grows by `MenuItem`: a click exactly when the item is enabled |
| Driver.InmAuto.CloseAllWindows | inmauto.py:624-625 | Close All is clicked if enabled |
| Driver.InmAuto.RearrangeWindowsInCascade | inmauto.py:618-622 | Cascade is clicked if enabled |
| Driver.InmAuto.CloseStudy | inmauto.py:602-610 | the log grows by `CloseStudyActions`, and the main window is again the tool's main window |
| Driver.InmAuto.CloseInm | inmauto.py:612-616 | Exit is clicked if enabled |
| Driver.InmAuto.Navigate | inmauto.py:102-106 | the navigation loop appends exactly `Browse` and reports the first missing segment |
| Driver.InmAuto.OpenStudy | inmauto.py:81-116 | the log grows by the `open_study` trace; the path and its basename are recorded; the window is the study window only if the open succeeded |
| Driver.InmAuto.OpenGridSetup | inmauto.py:118-140 | the log grows by the Grid Setup actions, with one delete per record |
| Driver.InmAuto.SetGrid | inmauto.py:147-197 | the log grows by `GridActions` for the grid |
| Driver.InmAuto.SetRunOptions | inmauto.py:204-303 | the log grows by `RunOptionsActions`, and the metric token is recorded whatever the run type |
| Driver.InmAuto.RunStudy | inmauto.py:310-356 | the log grows by Run Start followed by the dialog loop, for a tool whose dialog titles reach a window other than Warning or INM 7.0 |
| Driver.InmAuto.DismissDialogs | inmauto.py:330-346 | the `while True` loop clicks Oui on each Warning and OK on each INM 7.0 dialog and stops at the first other title: the log grows by exactly `DialogLoop` |
| Driver.InmAuto.GetNoiseMetric | inmauto.py:404-409 | the token of the metric shown in Run Options is recorded |
| Driver.InmAuto.SetOutputNoiseMetric | inmauto.py:411-416 | the recorded metric is selected in Output Setup |
| Driver.InmAuto.SelectEntry | inmauto.py:526-529 | the log grows by selecting entry 0 of the list and clicking OK |
| Driver.InmAuto.WaitForView | inmauto.py:423-431 | one OK click per prompt before the view appears |
| Driver.InmAuto.Export | inmauto.py:531-568 | the log grows by the `__export` trace, and the outcome is its outcome |
| Driver.InmAuto.ExportKindView | inmauto.py:418-524 | one `export_*` method: its view, then `__export` where it has one |
| Driver.InmAuto.ExportOutput | inmauto.py:359-402 | the log grows by the `export_output` trace; the metric token is the one read from Run Options; the main window is unchanged |
| Driver.InmAuto.ExportKinds | inmauto.py:368-397 | the requested exports run in the fixed order until one raises |
| Study.StudyPathShape | inmauto.py:1246-1252 | the study path is `cwd\INM Studies\folder`, and its basename is the folder |
| Study.StudiesDrive | inmauto.py:1251-1252 | joining `INM Studies` to the working directory keeps the working directory's drive |
| Study.StudyPathOwnDrive | inmauto.py:1251-1252 | a study folder with its own drive that is rooted or on another drive than the working directory is the study path as given |
| Study.StudyPathOtherDrive | inmauto.py:1251-1252 | from `C:\work`, the study folder `D:\S` gives the study path `D:\S` |
| Study.GridsActionsConcat | inmauto.py:1260-1261 | the grid loop over a concatenation is the loop over each part in turn |
| Study.GridsInOrder | inmauto.py:1260-1261 | one grid type is selected per grid, in list order |
| Study.ScenarioShape | inmauto.py:1254-1272 | a failed open stops the scenario. A failed export stops it before closing. Otherwise it is launch, open, set-up, export, close |
| Study.ScenarioLaunches | inmauto.py:1255 | the first action of every scenario starts the tool |
| Study.ScenarioRaises | inmauto.py:1254-1272 | a scenario raises exactly when the open or the export raises, and a failed open ends it at once |
| Study.ScenarioCloses | inmauto.py:1271-1272 | a scenario that returns ends with the close-study actions |
| Study.ScenarioWithoutExport | inmauto.py:1268-1269 | without export options nothing is exported, and the scenario returns exactly when the study opens |
| Study.ScenarioViews | inmauto.py:1254-1272 | the output views a scenario opens are those of the requested exports, in order |
| Study.InmStudy.constructor | inmauto.py:1246-1252 | a new driver for the executable, and the study path `StudyPath(cwd, folder)`: `ntpath.join` of the working directory, `INM Studies` and the folder, so a folder with its own drive can replace the rest (`StudyPathOwnDrive`) |
| Study.InmStudy.RunScenario | inmauto.py:1254-1272 | the driver's log grows by exactly the scenario trace, and the outcome is the scenario's. The main window is the tool's main window when the open failed or the scenario returned, and the study's window when the export raised. The noise metric is unchanged by a failed open, and is otherwise the token read back by `export_output` if export options were given, or else the run options' token |
| Study.InmStudy.RunOpened | inmauto.py:1259-1272 | after a successful open: set-up, the export step, then close if nothing raised; the main window is then the tool's main window, and is unchanged when the export raised; the noise metric is the token read back by `export_output` if export options were given, or else the run options' token |
| Study.InmStudy.SetUp | inmauto.py:1258-1265 | Grid Setup, one `set_grid` per grid in order, run options, run; the noise metric is the run options' token and the main window is unchanged |
| Study.InmStudy.SetGrids | inmauto.py:1260-1261 | the log grows by one `set_grid` per grid, in list order |
| Study.InmStudy.ExportAndClose | inmauto.py:1268-1272 | the export step, then `close_study` unless it raised; the main window is the tool's main window when the step returned, and unchanged when it raised; the noise metric is updated only when export options were given |
| Study.InmStudy.CloseUnlessRaised | inmauto.py:1271-1272 | `close_study` runs after an export step that returned, and nothing after one that raised |
| Study.InmStudy.ExportIfGiven | inmauto.py:1268-1269 | `export_output` runs only when export options are given; the noise metric is the token read back then and unchanged otherwise, and the main window is unchanged |

## Left out

- The retry on `AppStartError`/`MatchError` (inmauto.py:141-145, 198-202, 304-308, 352-356, 398-402, 112-116) is not modelled. Each handler prints, closes all windows and calls the operation again without bound. In the model every control lookup succeeds.
- `open_inm`'s `taskkill`, `app.start`, window matching and `exit(1)` are reduced to one `Start` action.
- The pywinauto waits (`Wait`, `WaitNot`, `Maximize`, the 300-second run wait) and the `Exists` probes are timing, and are not modelled. The probes' answers are read from the snapshot: OK prompts per view, the error dialog, the replace prompt.
- The `OverflowError` handler around the dialog loop (inmauto.py:347-348) is not modelled.
- `print` output is not modelled.
- `os.path.exists`/`os.makedirs` (inmauto.py:535-536) are filesystem effects. The output directory is a computed value only.
- `__export_graphics` (inmauto.py:570-600) is not modelled: the graphics export stops after its view is open and cascaded. In the source, the click on "Export as ShapeFile" sits inside the `if not os.path.exists` block.
- What the tool shows is a fixed snapshot. A menu item's enabled state, a listing or a dialog title is the same every time it is read within one run.
- Case mapping covers ASCII letters only. Python's full Unicode `lower`/`upper` is not modelled.
- Floating-point option values are `real`. They are only passed through into edit boxes.
- The sixteen metric flags of `RunOptions` are the set `metrics`, and `ExportOptions` flags are `bool`. The source's `None` default reads as false wherever it is tested.
- `INMStudy.run_scenario` tests `if export_options:`. An options object is always truthy there, so the model takes `Option<ExportOptions>`: `None` stands for the omitted argument.
- The ten `if export_options.<kind>:` tests of `export_output` are modelled as one loop over the fixed order `ExportOrder`, in `Driver.InmAuto.ExportKinds` and `ExportAt`. This is equivalent, with one test per kind in source order.
- Driver.InmAuto.OpenStudy records `path_to_study` and `study_folder` after the navigation rather than before it. Nothing in between reads them, so the final state is the same.
- `Naming.JoinPath` and `Naming.Drive` cover drive-letter paths only. The UNC form `\\server\share` of `ntpath.splitdrive` is not modelled, since study paths in this tool are built from the working directory.
- Driver.InmAuto.RunStudy requires the snapshot's dialog titles to reach a window other than Warning or INM 7.0. With no such window the `while True` loop at inmauto.py:330-346 never ends, and the model does not cover that case. Study.InmStudy.RunScenario asks for this only when the study opens, since a failed open never reaches `run_study`.
- The driver methods that use `main_window` in inmauto.py require `mainWindow.Some?`. In inmauto.py such a method, called before `open_inm`, fails on `None`. The model does not cover that failure.
- Study.InmStudy.RunScenario: its contract does not restate that the driver ends holding the study path and folder. `Driver.InmAuto.OpenStudy` states that, and the later steps do not change them.
- The setters and `get_*_dict` accessors of the option classes are not modelled. The records are immutable values.
- The stubs `__is_inm_open`/`__is_study_open` do nothing, and are not modelled.
- CreateINMStudy.py only copies directories and files, and is not part of this model.
- `.index` raises `ValueError` when a folder segment is missing from a listing (inmauto.py:104, 560). `open_study` catches only `AppStartError` and `MatchError` (inmauto.py:112-113), so the `ValueError` propagates, and the model raises `ValueError(segment)`.
- `run_scenario` accepts an empty grid list (inmauto.py:1260-1261), and so does the model.
