/**
 * The pure name and path computations of the driver: the folder-picker
 * segments of a Windows path, the study folder, the export directory and
 * file name, and the fixed-width noise-metric token the tool's selectors
 * expect.  Paths follow Python's `ntpath` on drive-letter paths.
 */
module Naming {
  import opened Text

  predicate IsSep(c: char) { c == '\\' || c == '/' }

  /**
   * The directory list a path is browsed through: the lower-cased path
   * split on `\`, with the separator put back on the drive segment.
   */
  function PathToDir(path: string): (dirs: seq<string>)
    ensures |dirs| >= 1 && |dirs[0]| >= 1 && dirs[0][|dirs[0]| - 1] == '\\'
  {
    var parts := Split(Lower(path), '\\');
    parts[0 := parts[0] + "\\"]
  }

  /** There is one segment more than the path has backslashes, and none holds an upper-case letter. */
  lemma PathToDirSegments(path: string)
    ensures |PathToDir(path)| == Count(path, '\\') + 1
    ensures forall k | 0 <= k < |PathToDir(path)| :: NoUpper(PathToDir(path)[k])
  {
    CountLower(path, '\\');
    var parts := Split(Lower(path), '\\');
    assert NoUpper(parts[0] + "\\");
  }

  /** Taking the separator off the drive segment and joining the segments with `\` gives the lower-cased path. */
  lemma PathToDirRoundTrip(path: string)
    ensures var dirs := PathToDir(path);
      Join([dirs[0][..|dirs[0]| - 1]] + dirs[1..], '\\') == Lower(path)
  {
    var parts := Split(Lower(path), '\\');
    var dirs := PathToDir(path);
    assert dirs[0][..|dirs[0]| - 1] == parts[0];
    assert [parts[0]] + dirs[1..] == parts;
    JoinSplit(Lower(path), '\\');
  }

  /** The drive part `ntpath.splitdrive` takes off a drive-letter path. */
  function Drive(p: string): (d: string)
    ensures d == [] || (|d| == 2 && |p| >= 2 && d == p[..2] && d[1] == ':')
  {
    if |p| >= 2 && p[1] == ':' then p[..2] else []
  }

  /** The tail `ntpath.split` keeps: what follows the last separator. */
  function AfterLastSep(s: string): (t: string)
    ensures |t| <= |s|
    decreases |s|
  {
    if s == [] || IsSep(s[|s| - 1]) then [] else AfterLastSep(s[..|s| - 1]) + [s[|s| - 1]]
  }

  /**
   * The tail is a suffix without a separator, and a separator comes right
   * before it unless it is all of `s`.
   */
  lemma {:induction false} AfterLastSepSegment(s: string)
    ensures var t := AfterLastSep(s);
      && t == s[|s| - |t|..]
      && (forall k | 0 <= k < |t| :: !IsSep(t[k]))
      && (|t| < |s| ==> IsSep(s[|s| - |t| - 1]))
    decreases |s|
  {
    if s != [] && !IsSep(s[|s| - 1]) {
      var p := s[..|s| - 1];
      var tp := AfterLastSep(p);
      var t := AfterLastSep(s);
      AfterLastSepSegment(p);
      assert t == tp + [s[|s| - 1]];
      assert t == s[|s| - |t|..] by {
        assert s[|s| - |t|..] == p[|p| - |tp|..] + [s[|s| - 1]];
      }
      forall k | 0 <= k < |t| ensures !IsSep(t[k]) {
        if k < |tp| { assert t[k] == tp[k]; }
      }
      if |t| < |s| {
        assert s[|s| - |t| - 1] == p[|p| - |tp| - 1];
      }
    }
  }

  /**
   * `os.path.basename`: the longest suffix without a separator that does not
   * reach into the drive.
   */
  function Basename(p: string): (b: string)
    ensures |b| <= |p|
  {
    var d := Drive(p);
    AfterLastSep(p[|d|..])
  }

  /**
   * The basename is a suffix without a separator, preceded by a separator or
   * by the drive unless it is the whole path.
   */
  lemma BasenameSegment(p: string)
    ensures var b := Basename(p);
      && b == p[|p| - |b|..]
      && (forall k | 0 <= k < |b| :: !IsSep(b[k]))
      && (|b| < |p| ==> IsSep(p[|p| - |b| - 1]) || (|p| - |b| == 2 && p[1] == ':'))
  {
    var d := Drive(p);
    AfterLastSepSegment(p[|d|..]);
    assert p[|d|..][|p[|d|..]| - |Basename(p)|..] == p[|p| - |Basename(p)|..];
  }

  /** A path whose part after the drive starts with a separator. */
  predicate Rooted(p: string) {
    var rest := p[|Drive(p)|..];
    rest != [] && IsSep(rest[0])
  }

  /** The relative step of `ntpath.join` on the parts after the drives. */
  function JoinTail(pa: string, pb: string): string {
    if pa != [] && !IsSep(pa[|pa| - 1]) then pa + "\\" + pb else pa + pb
  }

  /**
   * `os.path.join(a, b)` on drive-letter paths.  A rooted `b` keeps its own
   * drive, or takes that of `a` when it has none.  A `b` on another drive
   * (compared without case) replaces `a` entirely.  Otherwise `b` is joined
   * to `a`, taking the drive of `b` if it has one, with a `\` put between
   * them unless the part of `a` after its drive is empty or already ends
   * with a separator.
   */
  function JoinPath(a: string, b: string): (r: string)
    ensures Drive(b) == [] && Rooted(b) ==> r == Drive(a) + b
    ensures Drive(b) != [] && (Rooted(b) || Lower(Drive(b)) != Lower(Drive(a))) ==> r == b
    ensures Drive(b) == [] && !Rooted(b) && |a| > |Drive(a)| && !IsSep(a[|a| - 1]) ==> r == a + "\\" + b
    ensures Drive(b) == [] && !Rooted(b) && (|a| == |Drive(a)| || IsSep(a[|a| - 1])) ==> r == a + b
    ensures Drive(b) != [] && !Rooted(b) && Lower(Drive(b)) == Lower(Drive(a)) && |a| > 2 && !IsSep(a[|a| - 1]) ==>
      r == Drive(b) + a[2..] + "\\" + b[2..]
    ensures Drive(b) != [] && !Rooted(b) && Lower(Drive(b)) == Lower(Drive(a)) && (|a| == 2 || IsSep(a[|a| - 1])) ==>
      r == Drive(b) + a[2..] + b[2..]
  {
    var da, db := Drive(a), Drive(b);
    var pa, pb := a[|da|..], b[|db|..];
    if pb != [] && IsSep(pb[0]) then (if db != [] then b else da + b)
    else if db != [] && db != da && Lower(db) != Lower(da) then b
    else if db != [] then db + JoinTail(pa, pb)
    else da + JoinTail(pa, pb)
  }

  /** `ljust(6).upper()` of a noise-metric name. */
  function MetricToken(name: string): (token: string)
    ensures |token| == if |name| < 6 then 6 else |name|
    ensures NoLower(token)
  {
    Upper(LJust(name, 6))
  }

  /** The token is the upper-cased name followed by spaces. */
  lemma MetricTokenShape(name: string)
    ensures MetricToken(name) == Upper(name) + Spaces(if |name| < 6 then 6 - |name| else 0)
  {
    var t := MetricToken(name);
    var u := Upper(name) + Spaces(if |name| < 6 then 6 - |name| else 0);
    assert |t| == |u|;
    forall k | 0 <= k < |t| ensures t[k] == u[k] {
      if k < |name| {
        assert LJust(name, 6)[k] == LJust(name, 6)[..|name|][k] == name[k];
      }
    }
  }

  lemma UpperIdempotent(s: string)
    ensures Upper(Upper(s)) == Upper(s)
  {
  }

  /** Normalising a token a second time changes nothing. */
  lemma MetricTokenIdempotent(name: string)
    ensures MetricToken(MetricToken(name)) == MetricToken(name)
  {
    var t := MetricToken(name);
    assert LJust(t, 6) == t;
    UpperIdempotent(LJust(name, 6));
  }

  lemma MetricTokenExamples()
    ensures MetricToken("lamax") == "LAMAX "
    ensures MetricToken("dnl") == "DNL   "
    ensures MetricToken("LAMAX ") == "LAMAX "
  {
    MetricTokenShape("lamax");
    MetricTokenShape("dnl");
    MetricTokenShape("LAMAX ");
  }

  lemma {:induction false} TrimEndSpaces(s: string, n: nat)
    ensures TrimEnd(s + Spaces(n)) == TrimEnd(s)
    decreases n
  {
    if n > 0 {
      var t := s + Spaces(n);
      assert t[..|t| - 1] == s + Spaces(n - 1);
      TrimEndSpaces(s, n - 1);
    } else {
      assert s + Spaces(0) == s;
    }
  }

  /**
   * For a metric name without white space at either end, stripping the token
   * gives the upper-cased name back: the `OUTPUT1` sub-folder is named by it.
   */
  lemma StripMetricToken(name: string)
    requires name != [] && !IsSpace(name[0]) && !IsSpace(name[|name| - 1])
    ensures Strip(MetricToken(name)) == Upper(name)
  {
    var u := Upper(name);
    MetricTokenShape(name);
    assert u[0] == UpperChar(name[0]);
    assert u[|u| - 1] == UpperChar(name[|name| - 1]);
    StripPadded(u, if |name| < 6 then 6 - |name| else 0);
  }

  /** Stripping a word padded with spaces on the right gives the word back. */
  lemma StripPadded(u: string, n: nat)
    requires u != [] && !IsSpace(u[0]) && !IsSpace(u[|u| - 1])
    ensures Strip(u + Spaces(n)) == u
  {
    assert (u + Spaces(n))[0] == u[0];
    assert TrimStart(u + Spaces(n)) == u + Spaces(n);
    TrimEndSpaces(u, n);
  }

  /** The export directory: `path_to_study/OUTPUT1/<metric token stripped>`. */
  function OutputDir(pathToStudy: string, metric: string): (dir: string)
    ensures var m := Strip(metric);
      Drive(m) == [] && !Rooted(m) ==> dir == JoinPath(pathToStudy, "OUTPUT1") + "\\" + m
  {
    OutputSub(pathToStudy, Strip(metric));
    JoinPath(JoinPath(pathToStudy, "OUTPUT1"), Strip(metric))
  }

  /** A relative `m` without a drive is put under `path_to_study\OUTPUT1` after a `\`. */
  lemma OutputSub(pathToStudy: string, m: string)
    ensures var sub := JoinPath(pathToStudy, "OUTPUT1");
      Drive(m) == [] && !Rooted(m) ==> JoinPath(sub, m) == sub + "\\" + m
  {
    assert Drive("OUTPUT1") == [] && !Rooted("OUTPUT1");
    var sub := JoinPath(pathToStudy, "OUTPUT1");
    assert sub[|sub| - 7..] == "OUTPUT1";
    assert |sub| > |Drive(sub)| && !IsSep(sub[|sub| - 1]);
  }

  /** For an ordinary study path the output directory is the path, `\OUTPUT1\` and the metric. */
  lemma OutputDirShape(pathToStudy: string, metric: string)
    requires |pathToStudy| > |Drive(pathToStudy)| && !IsSep(pathToStudy[|pathToStudy| - 1])
    requires Drive(Strip(metric)) == [] && !Rooted(Strip(metric))
    ensures OutputDir(pathToStudy, metric) == pathToStudy + "\\OUTPUT1\\" + Strip(metric)
  {
    var sub := JoinPath(pathToStudy, "OUTPUT1");
    assert Drive("OUTPUT1") == [] && !Rooted("OUTPUT1");
    assert sub == pathToStudy + "\\" + "OUTPUT1";
    assert |sub| > 2 && sub[|sub| - 1] == '1';
    assert |sub| > |Drive(sub)|;
    assert OutputDir(pathToStudy, metric) == sub + "\\" + Strip(metric);
    Nested(pathToStudy, Strip(metric));
  }

  /** Two joins in a row put `\OUTPUT1\` between the study path and the metric. */
  lemma Nested(p: string, inner: string)
    ensures p + "\\" + "OUTPUT1" + "\\" + inner == p + "\\OUTPUT1\\" + inner
  {
    assert "\\" + "OUTPUT1" + "\\" == "\\OUTPUT1\\";
  }

  /** `"%s_%s" % (default_name, study_folder)` */
  function ExportFileName(defaultName: string, studyFolder: string): (name: string)
    ensures |name| == |defaultName| + 1 + |studyFolder|
    ensures name[..|defaultName|] == defaultName && name[|defaultName|] == '_'
    ensures name[|defaultName| + 1..] == studyFolder
  {
    defaultName + "_" + studyFolder
  }

  lemma {:induction false} AfterLastSepOfSegment(s: string, folder: string)
    requires forall k | 0 <= k < |folder| :: !IsSep(folder[k])
    ensures AfterLastSep(s + "\\" + folder) == folder
    decreases |folder|
  {
    var p := s + "\\" + folder;
    if folder == [] {
      assert p[|p| - 1] == '\\';
    } else {
      var f' := folder[..|folder| - 1];
      assert p[..|p| - 1] == s + "\\" + f';
      AfterLastSepOfSegment(s, f');
      assert f' + [folder[|folder| - 1]] == folder;
    }
  }

  /** The basename of a path whose last segment `folder` holds no separator is `folder`. */
  lemma BasenameLastSegment(dir: string, folder: string)
    requires dir != []
    requires forall k | 0 <= k < |folder| :: !IsSep(folder[k])
    ensures Basename(dir + "\\" + folder) == folder
  {
    var p := dir + "\\" + folder;
    var d := Drive(p);
    assert |d| <= |dir| by {
      if |dir| == 1 { assert p[1] == '\\'; }
    }
    assert p[|d|..] == dir[|d|..] + "\\" + folder;
    AfterLastSepOfSegment(dir[|d|..], folder);
  }

  lemma ExportFileNameExample()
    ensures ExportFileName("OUT1", "CS-TNN_2016-01-05_TP842") == "OUT1_CS-TNN_2016-01-05_TP842"
  {
  }
}
