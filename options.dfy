/**
 * The option records a caller fills in before handing them to the driver:
 * one grid definition, the run configuration and the export selection.
 * Each constructor's default arguments are the values `reset()` assigns, so
 * `GridSetup()`, `RunOptions()` and `ExportOptions()` are the freshly reset
 * records.  Floating-point values are carried as `real`; the driver only
 * writes them into edit boxes.
 */
module Options {

  datatype Option<T> = None | Some(value: T)

  /** Python truthiness of a value that is either `None` or a float. */
  predicate Truthy(v: Option<real>) {
    v.Some? && v.value != 0.0
  }

  datatype GridType = Location | Contour | Standard | Detailed

  /** The entry selected in the grid-type combo box. */
  function GridTypeName(t: GridType): string {
    match t
    case Location => "Location"
    case Contour => "Contour"
    case Standard => "Standard"
    case Detailed => "Detailed"
  }

  /** `'X/Y'`, or any other value, which the driver treats like Lat/Long. */
  datatype Coordinates = XY | LatLong

  datatype GridSetup = GridSetup(
    gridType: GridType := Location,
    gridId: Option<string> := None,
    coordinates: Coordinates := XY,
    x: real := -8.0,
    y: real := -8.0,
    i: real := 16.0,
    j: real := 16.0,
    nbPtsI: int := 2,
    nbPtsJ: int := 2,
    gridRotationAngle: real := 0.0,
    fixedThreshold: real := 85.0,
    relativeThreshold: Option<real> := None,
    doPercentOfTime: Option<real> := None)

  /** The metrics of the "Calculate Metrics" check boxes, in the order they are set. */
  datatype Metric =
    DNL | CNEL | LAEQ | LAEQD | LAEQN | SEL | LAMAX | TALA | NEF | WECPNL | EPNL | PNLTM | TAPNL | CEXP | LCMAX | TALC

  const AllMetrics: seq<Metric> :=
    [DNL, CNEL, LAEQ, LAEQD, LAEQN, SEL, LAMAX, TALA, NEF, WECPNL, EPNL, PNLTM, TAPNL, CEXP, LCMAX, TALC]

  function MetricName(m: Metric): string {
    match m
    case DNL => "DNL" case CNEL => "CNEL" case LAEQ => "LAEQ" case LAEQD => "LAEQD"
    case LAEQN => "LAEQN" case SEL => "SEL" case LAMAX => "LAMAX" case TALA => "TALA"
    case NEF => "NEF" case WECPNL => "WECPNL" case EPNL => "EPNL" case PNLTM => "PNLTM"
    case TAPNL => "TAPNL" case CEXP => "CEXP" case LCMAX => "LCMAX" case TALC => "TALC"
  }

  const SingleMetric := "Single-Metric"

  /**
   * The run configuration.  The sixteen per-metric flags `dnl` ... `talc`
   * are the set `metrics` of the metrics whose flag is set.
   */
  datatype RunOptions = RunOptions(
    runType: string := SingleMetric,
    noiseMetric: string := "LAMAX ",
    doTerrain: bool := false,
    lateralAttenuation: string := "All-Soft-Ground",
    useBankAngle: bool := false,
    doContours: bool := false,
    useBoundaryFile: bool := false,
    refinement: int := 4,
    lowCutoff: real := 55.0,
    tolerance: real := 0.25,
    highCutoff: real := 85.0,
    fixedGrid: bool := true,
    fixedSpacing: bool := true,
    spacing: real := 1000.0,
    doPopulationPoints: bool := false,
    doLocationPoints: bool := false,
    doStandardGrids: bool := false,
    doDetailedGrids: bool := false,
    saveAllFlights: bool := false,
    metrics: set<Metric> := {})

  /** The export selections; `None` in `inmauto.py` reads as `false`. */
  datatype ExportOptions = ExportOptions(
    outputGraphics: bool := false,
    contourPoints: bool := false,
    contourAreaAndPop: bool := false,
    areaContourCoverage: bool := false,
    standardGrids: bool := false,
    detailedGrids: bool := false,
    noiseAtPopPoints: bool := false,
    noiseAtLocPoints: bool := false,
    scenarioRunInputReport: bool := false,
    flightPathReport: bool := false,
    fileType: Option<string> := None)

  /** One export selection each. */
  datatype ExportKind =
    | OutputGraphics | ContourPoints | ContourAreaAndPop | AreaContourCoverage | StandardGrids
    | DetailedGrids | NoiseAtPopPoints | NoiseAtLocPoints | ScenarioRunInputReport | FlightPathReport

  /** The order in which the enabled exports run. */
  const ExportOrder: seq<ExportKind> := [
    OutputGraphics, ContourPoints, ContourAreaAndPop, AreaContourCoverage, StandardGrids,
    DetailedGrids, NoiseAtPopPoints, NoiseAtLocPoints, ScenarioRunInputReport, FlightPathReport]

  predicate Requested(eo: ExportOptions, kind: ExportKind) {
    match kind
    case OutputGraphics => eo.outputGraphics
    case ContourPoints => eo.contourPoints
    case ContourAreaAndPop => eo.contourAreaAndPop
    case AreaContourCoverage => eo.areaContourCoverage
    case StandardGrids => eo.standardGrids
    case DetailedGrids => eo.detailedGrids
    case NoiseAtPopPoints => eo.noiseAtPopPoints
    case NoiseAtLocPoints => eo.noiseAtLocPoints
    case ScenarioRunInputReport => eo.scenarioRunInputReport
    case FlightPathReport => eo.flightPathReport
  }

  /** The exports that end in the generic "Export As" routine. */
  predicate ExportsTable(kind: ExportKind) {
    kind !in {OutputGraphics, ScenarioRunInputReport, FlightPathReport}
  }
}
