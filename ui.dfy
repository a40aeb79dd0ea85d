/**
 * The abstract user interface the driver talks to.  Every interaction the
 * driver has with a window is one `Action` appended to a log: a control, what
 * was done to it, and the value passed.  Reads (item texts, check states,
 * window titles) are not actions; what they return is part of `Observed`.
 */
module Ui {
  import opened Options

  /** The main-window menu items the driver uses. */
  datatype Command =
    | WindowCloseAll | WindowCascade
    | FileOpenStudy | FileCloseStudy | FileExportAs | FileExit
    | EditAddRecord | EditDeleteRecords
    | RunGridSetup | RunRunOptions | RunRunStart
    | OutputSetup | OutputView(kind: ExportKind)

  /** The 'A->B' path a menu item is looked up by. */
  function MenuPath(c: Command): string {
    match c
    case WindowCloseAll => "Window->Close All"
    case WindowCascade => "Window->Cascade"
    case FileOpenStudy => "File->Open Study..."
    case FileCloseStudy => "File->Close Study"
    case FileExportAs => "File->Export As..."
    case FileExit => "File->Exit"
    case EditAddRecord => "Edit->Add Record"
    case EditDeleteRecords => "Edit->Delete Records"
    case RunGridSetup => "Run->Grid Setup..."
    case RunRunOptions => "Run->Run Options"
    case RunRunStart => "Run->Run Start..."
    case OutputSetup => "Output->Output Setup"
    case OutputView(kind) =>
      match kind
      case OutputGraphics => "Output->Output Graphics..."
      case ContourPoints => "Output->Contour Points..."
      case ContourAreaAndPop => "Output->Contour Area and Pop..."
      case AreaContourCoverage => "Output->Area Contour Coverage..."
      case StandardGrids => "Output->Standard Grids..."
      case DetailedGrids => "Output->Detailed Grids..."
      case NoiseAtPopPoints => "Output->Noise at Pop Points..."
      case NoiseAtLocPoints => "Output->Noise at Loc Points..."
      case FlightPathReport => "Output->Flight Path Report..."
      case ScenarioRunInputReport => ""  // the input report has no view; it is never opened
  }

  /** Controls of whichever dialog is on top: the selection, open and run dialogs. */
  datatype Widget = TopWindow | ListBox | OKButton | OuiButton | ScenarioList | IncludeList | OutputMetricCombo

  /** Controls of the Export As dialog and of the overwrite prompt it may raise. */
  datatype ExportField = ExportWindow | FileNameEdit | FileTypeCombo | DirList | ReplaceButton

  /** Controls of the Grid Points Setup window. */
  datatype GridField =
    | GridTypeCombo | RelativeRadio | RelativeEdit | FixedRadio | FixedEdit
    | PercentCheck | PercentEdit | XYRadio | XEdit | YEdit | IEdit | JEdit
    | RotationEdit | GridIdEdit | PointsIEdit | PointsJEdit

  /** Run Options controls set for every run type. */
  datatype GeneralField = RunTypeCombo | TerrainCheck | LateralCombo | BankAngleCheck

  /** Run Options controls of contour generation. */
  datatype ContourField =
    | ContoursCheck | BoundaryCheck | FixedGridRadio | FixedSpacingRadio | SpacingEdit
    | RefinementRadio | RefinementCombo | RecursiveGrid | ToleranceEdit | LowCutoffEdit | HighCutoffEdit

  /** Run Options check boxes of the point and grid outputs. */
  datatype OutputField = PopPointsCheck | LocPointsCheck | StandardGridsCheck | DetailedGridsCheck | SaveFlightsCheck

  /** Controls of the Run Options window, by the branch of the decision tree that sets them. */
  datatype RunField =
    | General(general: GeneralField)
    | NoiseMetricCombo
    | Contours(contour: ContourField)
    | Outputs(output: OutputField)
    | MetricCheck(metric: Metric)

  datatype Control =
    | Menu(command: Command)    // a main-window menu item
    | Process                   // the tool's process
    | Dialog(widget: Widget)
    | ExportAs(field: ExportField)
    | Grid(grid: GridField)
    | Run(option: RunField)

  /** The name the control is looked up by in its window. */
  function Label(c: Control): string {
    match c
    case Menu(m) => MenuPath(m)
    case Process => "inm.exe"
    case Dialog(w) =>
      (match w
       case TopWindow => "top window"
       case ListBox => "ListBox"
       case OKButton => "OKButton"
       case OuiButton => "OuiButton"
       case ScenarioList => "Scenario ListListBox"
       case IncludeList => "Include --- >ListBox"
       case OutputMetricCombo => "MetricComboBox")
    case ExportAs(e) =>
      (match e
       case ExportWindow => "Export As*"
       case FileNameEdit => "File NameEdit"
       case FileTypeCombo => "List Files or TypeComboBox"
       case DirList => "ListBox"
       case ReplaceButton => "ReplaceButton")
    case Grid(g) =>
      (match g
       case GridTypeCombo => "Grip TypeComboBox"
       case RelativeRadio => "Relative ThresholdRadioButton"
       case RelativeEdit => "Ambient + Delta (dB)Edit"
       case FixedRadio => "Fixed Threshold (dB)RadioButton"
       case FixedEdit => "Fixed Threshold (dB)Edit"
       case PercentCheck => "Do Percent of Time (hr)CheckBox"
       case PercentEdit => "Do Percent of Time (hr)Edit"
       case XYRadio => "X/YRadioButton"
       case XEdit => "X (nmi)Edit"
       case YEdit => "Y (nmi)Edit"
       case IEdit => "I (nmi)Edit"
       case JEdit => "J (nmi)Edit"
       case RotationEdit => "Grid Rotation Angle (deg)Edit"
       case GridIdEdit => "Grid IdEdit"
       case PointsIEdit => "IEdit"
       case PointsJEdit => "JEdit")
    case Run(General(f)) =>
      (match f
       case RunTypeCombo => "Run TypeComboBox"
       case TerrainCheck => "Do TerrainCheckBox"
       case LateralCombo => "Lateral AttenuationComboBox"
       case BankAngleCheck => "Use Bank AngleCheckBox")
    case Run(NoiseMetricCombo) => "Noise MetricComboBox"
    case Run(Contours(f)) =>
      (match f
       case ContoursCheck => "Do ContoursCheckBox"
       case BoundaryCheck => "Use Boundary FileCheckBox"
       case FixedGridRadio => "Fixed GridRadioButton"
       case FixedSpacingRadio => "Fixed SpacingRadioButton"
       case SpacingEdit => "SpacingEdit"
       case RefinementRadio => "RefinementRadioButton"
       case RefinementCombo => "RefinementComboBox"
       case RecursiveGrid => "Recursive Grid"
       case ToleranceEdit => "ToleranceEdit"
       case LowCutoffEdit => "Low CutoffEdit"
       case HighCutoffEdit => "High CutoffEdit")
    case Run(Outputs(f)) =>
      (match f
       case PopPointsCheck => "Do Population PointsCheckBox"
       case LocPointsCheck => "Do Location PointsCheckBox"
       case StandardGridsCheck => "Do Standard GridsCheckBox"
       case DetailedGridsCheck => "Do Detailed GridsCheckBox"
       case SaveFlightsCheck => "Save 100% FlightsCheckBox")
    case Run(MetricCheck(m)) => MetricName(m) + "CheckBox"
  }

  datatype Op = Start | Focus | Click | Select | SetText | Check | UnCheck | TypeKeys

  /** What an action passes: text, an item index, a number or integer written as text, or Python's `None`. */
  datatype Value = NoValue | Text(s: string) | Index(n: int) | Real(r: real) | Whole(n: int) | Null

  datatype Action = Action(control: Control, op: Op, value: Value)

  function Clicked(c: Control): Action { Action(c, Click, NoValue) }

  function Checked(c: Control): Action { Action(c, Check, NoValue) }

  /**
   * The groups of controls one decision of the driver writes together: the
   * main menu (output views apart), the process, the dialogs, Export As, the
   * sections of Grid Points Setup and those of Run Options.
   */
  datatype Pane =
    | MenuPane | ViewMenuPane | ProcessPane | DialogPane | ExportPane
    | GridTypePane | ThresholdPane | PercentPane | PlacementPane | SizePane
    | GeneralPane | MetricComboPane | ContourPane | OutputPane | MetricPane

  function PaneOf(c: Control): Pane {
    match c
    case Menu(OutputView(_)) => ViewMenuPane
    case Menu(_) => MenuPane
    case Process => ProcessPane
    case Dialog(_) => DialogPane
    case ExportAs(_) => ExportPane
    case Grid(GridTypeCombo) => GridTypePane
    case Grid(RelativeRadio) | Grid(RelativeEdit) | Grid(FixedRadio) | Grid(FixedEdit) => ThresholdPane
    case Grid(PercentCheck) | Grid(PercentEdit) => PercentPane
    case Grid(GridIdEdit) | Grid(PointsIEdit) | Grid(PointsJEdit) => SizePane
    case Grid(_) => PlacementPane
    case Run(General(_)) => GeneralPane
    case Run(NoiseMetricCombo) => MetricComboPane
    case Run(Contours(_)) => ContourPane
    case Run(Outputs(_)) => OutputPane
    case Run(MetricCheck(_)) => MetricPane
  }

  /** Every action of `acts` is on a control of one of the panes `ps`. */
  predicate AllIn(acts: seq<Action>, ps: set<Pane>) {
    forall a | a in acts :: PaneOf(a.control) in ps
  }

  lemma AllInAppend(a: seq<Action>, b: seq<Action>, ps: set<Pane>)
    ensures AllIn(a + b, ps) <==> AllIn(a, ps) && AllIn(b, ps)
  {
    if AllIn(a, ps) && AllIn(b, ps) {
      forall x | x in a + b ensures PaneOf(x.control) in ps {
        assert x in a || x in b;
      }
    }
    if AllIn(a + b, ps) {
      forall x | x in a ensures PaneOf(x.control) in ps { assert x in a + b; }
      forall x | x in b ensures PaneOf(x.control) in ps { assert x in a + b; }
    }
  }

  lemma AllInWiden(acts: seq<Action>, qs: set<Pane>, ps: set<Pane>)
    requires AllIn(acts, qs) && qs <= ps
    ensures AllIn(acts, ps)
  {
  }

  /** Some action of `acts` is on control `c`. */
  predicate Touches(acts: seq<Action>, c: Control) {
    exists a | a in acts :: a.control == c
  }

  lemma TouchesAppend(a: seq<Action>, b: seq<Action>, c: Control)
    ensures Touches(a + b, c) <==> Touches(a, c) || Touches(b, c)
  {
    if Touches(a + b, c) {
      var x :| x in a + b && x.control == c;
      assert x in a || x in b;
    }
    if Touches(a, c) {
      var x :| x in a && x.control == c;
      assert x in a + b;
    }
    if Touches(b, c) {
      var x :| x in b && x.control == c;
      assert x in a + b;
    }
  }

  /** A log whose filtered log stays within the controls `cs` leaves the other controls of those panes alone. */
  lemma UntouchedOutside(acts: seq<Action>, ps: set<Pane>, cs: set<Control>, c: Control)
    requires forall a | a in Only(acts, ps) :: a.control in cs
    requires PaneOf(c) in ps && c !in cs
    ensures !Touches(acts, c)
  {
    UntouchedVia(acts, ps, c);
  }

  /** The number of times action `x` occurs in `acts`. */
  function Occurrences(acts: seq<Action>, x: Action): nat
    decreases |acts|
  {
    if acts == [] then 0 else (if acts[0] == x then 1 else 0) + Occurrences(acts[1..], x)
  }

  lemma {:induction false} OccurrencesAppend(a: seq<Action>, b: seq<Action>, x: Action)
    ensures Occurrences(a + b, x) == Occurrences(a, x) + Occurrences(b, x)
    decreases |a|
  {
    if a == [] {
      assert a + b == b;
    } else {
      assert (a + b)[1..] == a[1..] + b;
      OccurrencesAppend(a[1..], b, x);
    }
  }

  /** An action occurs in a log exactly when it occurs at least once. */
  lemma {:induction false} OccurrencesPositive(a: seq<Action>, x: Action)
    ensures Occurrences(a, x) > 0 <==> x in a
    decreases |a|
  {
    if a != [] {
      OccurrencesPositive(a[1..], x);
      assert a == [a[0]] + a[1..];
    }
  }

  /** The actions of `acts` on controls of the panes `ps`, in log order. */
  function Only(acts: seq<Action>, ps: set<Pane>): (r: seq<Action>)
    ensures |r| <= |acts|
    decreases |acts|
  {
    if acts == [] then []
    else (if PaneOf(acts[0].control) in ps then [acts[0]] else []) + Only(acts[1..], ps)
  }

  lemma {:induction false} OnlyAppend(a: seq<Action>, b: seq<Action>, ps: set<Pane>)
    ensures Only(a + b, ps) == Only(a, ps) + Only(b, ps)
    decreases |a|
  {
    if a == [] {
      assert a + b == b;
    } else {
      var head := if PaneOf(a[0].control) in ps then [a[0]] else [];
      assert (a + b)[0] == a[0];
      assert (a + b)[1..] == a[1..] + b;
      assert Only(a + b, ps) == head + Only(a[1..] + b, ps);
      OnlyAppend(a[1..], b, ps);
      assert Only(a, ps) == head + Only(a[1..], ps);
    }
  }

  /** Filtering distributes over a log cut into six pieces. */
  lemma OnlySix(m: seq<Action>, k: seq<Action>, t: seq<Action>, p: seq<Action>, l: seq<Action>, s: seq<Action>, ps: set<Pane>)
    ensures Only(m + k + t + p + l + s, ps) ==
      Only(m, ps) + Only(k, ps) + Only(t, ps) + Only(p, ps) + Only(l, ps) + Only(s, ps)
  {
    OnlyAppend(m + k + t + p + l, s, ps);
    OnlyAppend(m + k + t + p, l, ps);
    OnlyAppend(m + k + t, p, ps);
    OnlyAppend(m + k, t, ps);
    OnlyAppend(m, k, ps);
  }

  /** Filtering keeps exactly the actions on the chosen panes. */
  lemma {:induction false} OnlyMember(acts: seq<Action>, ps: set<Pane>, x: Action)
    ensures x in Only(acts, ps) <==> x in acts && PaneOf(x.control) in ps
    decreases |acts|
  {
    if acts != [] {
      OnlyMember(acts[1..], ps, x);
      assert acts == [acts[0]] + acts[1..];
    }
  }

  /** The actions of the chosen panes are exactly those of the filtered log. */
  lemma OnlyMembers(acts: seq<Action>, ps: set<Pane>, s: seq<Action>)
    requires Only(acts, ps) == s
    ensures forall x :: x in acts && PaneOf(x.control) in ps <==> x in s
  {
    forall x ensures x in acts && PaneOf(x.control) in ps <==> x in s {
      OnlyMember(acts, ps, x);
    }
  }

  /** A log on other panes filters to nothing. */
  lemma {:induction false} OnlyNone(acts: seq<Action>, qs: set<Pane>, ps: set<Pane>)
    requires AllIn(acts, qs) && qs !! ps
    ensures Only(acts, ps) == []
    decreases |acts|
  {
    if acts != [] {
      assert acts[0] in acts;
      assert AllIn(acts[1..], qs) by {
        forall x | x in acts[1..] ensures PaneOf(x.control) in qs { assert x in acts; }
      }
      OnlyNone(acts[1..], qs, ps);
    }
  }

  /** A log on the chosen panes filters to itself. */
  lemma {:induction false} OnlyAll(acts: seq<Action>, qs: set<Pane>, ps: set<Pane>)
    requires AllIn(acts, qs) && qs <= ps
    ensures Only(acts, ps) == acts
    decreases |acts|
  {
    if acts != [] {
      assert acts[0] in acts;
      assert AllIn(acts[1..], qs) by {
        forall x | x in acts[1..] ensures PaneOf(x.control) in qs { assert x in acts; }
      }
      OnlyAll(acts[1..], qs, ps);
      assert [acts[0]] + acts[1..] == acts;
    }
  }

  /** A log all on panes `qs` filters to itself or to nothing, whichever side of `ps` the panes fall. */
  lemma OnlyOf(acts: seq<Action>, qs: set<Pane>, ps: set<Pane>)
    requires AllIn(acts, qs) && (qs <= ps || qs !! ps)
    ensures Only(acts, ps) == if qs <= ps then acts else []
  {
    if qs <= ps { OnlyAll(acts, qs, ps); } else { OnlyNone(acts, qs, ps); }
  }

  /** A log all on pane `p`, filtered to pane `q`, keeps everything when they are the same pane and nothing otherwise. */
  lemma OnlyPane(acts: seq<Action>, p: Pane, q: Pane)
    requires AllIn(acts, {p})
    ensures Only(acts, {q}) == if p == q then acts else []
  {
    OnlyOf(acts, {p}, {q});
  }

  /** Whether a control is touched can be read off the filtered log of its pane. */
  lemma {:induction false} OnlyTouches(acts: seq<Action>, ps: set<Pane>, c: Control)
    requires PaneOf(c) in ps
    ensures Touches(acts, c) <==> Touches(Only(acts, ps), c)
  {
    if Touches(acts, c) {
      var x :| x in acts && x.control == c;
      OnlyMember(acts, ps, x);
    }
    if Touches(Only(acts, ps), c) {
      var x :| x in Only(acts, ps) && x.control == c;
      OnlyMember(acts, ps, x);
    }
  }

  /** A control of the chosen panes that the filtered log leaves alone is not touched at all. */
  lemma UntouchedVia(acts: seq<Action>, ps: set<Pane>, c: Control)
    requires PaneOf(c) in ps && !Touches(Only(acts, ps), c)
    ensures !Touches(acts, c)
  {
    OnlyTouches(acts, ps, c);
  }

  /** The state of check box `c`, starting from `initial`, once `acts` have been applied. */
  function CheckState(initial: bool, c: Control, acts: seq<Action>): bool
    decreases |acts|
  {
    if acts == [] then initial
    else
      var a := acts[0];
      var next :=
        if a.control != c then initial
        else if a.op == Click then !initial
        else if a.op == Check then true
        else if a.op == UnCheck then false
        else initial;
      CheckState(next, c, acts[1..])
  }

  /** Applying two logs one after the other. */
  lemma {:induction false} CheckStateAppend(initial: bool, c: Control, a: seq<Action>, b: seq<Action>)
    ensures CheckState(initial, c, a + b) == CheckState(CheckState(initial, c, a), c, b)
    decreases |a|
  {
    if a == [] {
      assert a + b == b;
    } else {
      var x := a[0];
      var next :=
        if x.control != c then initial
        else if x.op == Click then !initial
        else if x.op == Check then true
        else if x.op == UnCheck then false
        else initial;
      assert (a + b)[0] == x;
      assert (a + b)[1..] == a[1..] + b;
      CheckStateAppend(next, c, a[1..], b);
    }
  }

  /** A log that leaves a check box alone leaves its state as it was. */
  lemma {:induction false} CheckStateUntouched(initial: bool, c: Control, acts: seq<Action>)
    requires !Touches(acts, c)
    ensures CheckState(initial, c, acts) == initial
    decreases |acts|
  {
    if acts != [] {
      assert acts[0] in acts;
      assert !Touches(acts[1..], c) by {
        forall x | x in acts[1..] ensures x.control != c { assert x in acts; }
      }
      CheckStateUntouched(initial, c, acts[1..]);
    }
  }

  /** Only the actions of its own pane decide the state of a check box. */
  lemma {:induction false} OnlyCheckState(initial: bool, c: Control, acts: seq<Action>, ps: set<Pane>)
    requires PaneOf(c) in ps
    ensures CheckState(initial, c, acts) == CheckState(initial, c, Only(acts, ps))
    decreases |acts|
  {
    if acts != [] {
      var a := acts[0];
      var next :=
        if a.control != c then initial
        else if a.op == Click then !initial
        else if a.op == Check then true
        else if a.op == UnCheck then false
        else initial;
      OnlyCheckState(next, c, acts[1..], ps);
      if PaneOf(a.control) in ps {
        assert Only(acts, ps) == [a] + Only(acts[1..], ps);
        assert ([a] + Only(acts[1..], ps))[1..] == Only(acts[1..], ps);
      } else {
        assert Only(acts, ps) == Only(acts[1..], ps);
        assert a.control != c;
      }
    }
  }

  /**
   * What the driver reads from the tool during one scenario.  Each field is
   * the answer of one kind of query; the tool's answers are taken to stay the
   * same for the whole scenario.
   */
  datatype Observed = Observed(
    enabled: set<Command>,                 // the items whose `MenuItem(path).IsEnabled()` holds
    closeStudyText: string,                // text of the 'File->Close Study' item
    openTree: seq<string> -> seq<string>,  // Open Study list box after entering the given segments
    gridRecords: nat,                      // records listed in Grid Points Setup
    percentChecked: bool,                  // state of the percent-of-time check box
    dialogTitles: seq<string>,             // successive top-window titles after Run Start
    runMetricText: string,                 // text of the Run Options noise-metric combo box
    okPrompts: ExportKind -> nat,          // OK buttons shown before an output view appears
    errorDialog: bool,                     // an 'ERROR' window after Area Contour Coverage
    defaultName: ExportKind -> string,     // initial text of the Export As file-name edit
    exportFocus: int,                      // `GetItemFocus()` of the Export As list box
    exportTree: seq<string> -> seq<string>, // Export As list box after entering the given segments
    replacePrompt: ExportKind -> bool)     // an overwrite confirmation after Export As
}
