/** The scene-file reader: a line-oriented keyword format whose lines set the
    curve file, the tangent-point energy parameters, obstacles, extra
    potentials, constraints and pinned vertices of a `SceneData` record. */
module SceneFile {

  datatype ObstacleData = ObstacleData(filename: string, weight: real)

  datatype PotentialType = Length | Area | VectorField

  datatype PotentialData = PotentialData(kind: PotentialType, weight: real, vectorFieldName: string)

  datatype ConstraintType = Barycenter | EdgeLengths | Pins | TangentPins

  /** The library routines the reader calls: `splitString` (on a delimiter),
      `stod` and `stoi`. None of them is computed here. */
  datatype TextLib = TextLib(split: (string, char) -> seq<string>,
                             toReal: string -> real,
                             toInt: string -> int)

  /** The value of a `SceneData` record. */
  datatype Scene = Scene(curveFilename: string,
                         tpeAlpha: real, tpeBeta: real, tpeWeight: real,
                         obstacles: seq<ObstacleData>,
                         extraPotentials: seq<PotentialData>,
                         constraints: seq<ConstraintType>,
                         pinnedVertices: seq<int>,
                         pinnedTangents: seq<int>)

  /** Why a line stops the reader: the wrong number of arguments for its
      keyword, or a feature the reader does not implement. */
  datatype ExitReason = BadArity(keyword: Keyword) | NotImplemented(keyword: Keyword)

  /** Whether reading goes on, or the process ends with `exit(1)` after
      printing the reason. */
  datatype Outcome = Continue | Exit(reason: ExitReason)

  datatype Processed = Processed(scene: Scene, outcome: Outcome)

  /** The `SceneData` record that the reader fills in place. */
  class SceneData {
    var curveFilename: string
    var tpeAlpha: real
    var tpeBeta: real
    var tpeWeight: real
    var obstacles: seq<ObstacleData>
    var extraPotentials: seq<PotentialData>
    var constraints: seq<ConstraintType>
    var pinnedVertices: seq<int>
    var pinnedTangents: seq<int>

    function Value(): Scene
      reads this
    {
      Scene(curveFilename, tpeAlpha, tpeBeta, tpeWeight, obstacles, extraPotentials,
            constraints, pinnedVertices, pinnedTangents)
    }

    constructor (init: Scene)
      ensures Value() == init
    {
      curveFilename := init.curveFilename;
      tpeAlpha := init.tpeAlpha;
      tpeBeta := init.tpeBeta;
      tpeWeight := init.tpeWeight;
      obstacles := init.obstacles;
      extraPotentials := init.extraPotentials;
      constraints := init.constraints;
      pinnedVertices := init.pinnedVertices;
      pinnedTangents := init.pinnedTangents;
    }
  }

  // ---------- getDirectoryFromPath ----------

  /** Each part followed by a '/', concatenated. */
  function WithSlashes(parts: seq<string>): string {
    if |parts| == 0 then "" else WithSlashes(parts[..|parts| - 1]) + parts[|parts| - 1] + "/"
  }

  /** The path the parts were split from, when none of them is empty: the
      parts joined by '/'. */
  function JoinPath(parts: seq<string>): string {
    if |parts| == 0 then ""
    else if |parts| == 1 then parts[0]
    else JoinPath(parts[..|parts| - 1]) + "/" + parts[|parts| - 1]
  }

  /** The directory of a path split at its '/' into `parts`: "./" for a bare
      file name, otherwise every part but the last, each with its '/'. */
  function DirectoryOf(parts: seq<string>): string {
    if |parts| == 1 then "./" else if |parts| == 0 then "" else WithSlashes(parts[..|parts| - 1])
  }

  /** `getDirectoryFromPath`. */
  method GetDirectoryFromPath(str: string, lib: TextLib) returns (path: string)
    ensures path == DirectoryOf(lib.split(str, '/'))
  {
    var parts := lib.split(str, '/');
    var nParts := |parts|;
    if nParts == 1 {
      return "./";
    }
    path := "";
    var i := 0;
    while i < nParts - 1
      invariant 0 <= i <= if nParts == 0 then 0 else nParts - 1
      invariant path == WithSlashes(parts[..i])
    {
      assert parts[..i + 1][..i] == parts[..i];
      path := path + parts[i] + "/";
      i := i + 1;
    }
    assert nParts > 0 ==> parts[..nParts - 1][..i] == parts[..i];
  }

  lemma {:induction false} WithSlashesIsJoinPlusSlash(parts: seq<string>)
    requires |parts| >= 1
    ensures WithSlashes(parts) == JoinPath(parts) + "/"
    decreases |parts|
  {
    var init := parts[..|parts| - 1];
    if |parts| == 1 {
      assert WithSlashes(init) == "";
    } else {
      WithSlashesIsJoinPlusSlash(init);
    }
  }

  /** A bare file name has directory "./"; any other directory ends in '/',
      and putting the last component back after it gives the joined path:
      the directory is the path with exactly its last component removed. */
  lemma DirectoryOfPath(parts: seq<string>)
    ensures |parts| == 1 ==> DirectoryOf(parts) == "./"
    ensures |parts| >= 1 ==> |DirectoryOf(parts)| > 0 && DirectoryOf(parts)[|DirectoryOf(parts)| - 1] == '/'
    ensures |parts| >= 2 ==> DirectoryOf(parts) + parts[|parts| - 1] == JoinPath(parts)
  {
    if |parts| >= 2 {
      var init := parts[..|parts| - 1];
      WithSlashesIsJoinPlusSlash(init);
      assert parts[..|parts| - 1] == init;
    }
  }

  // ---------- vectorContains ----------

  /** `vectorContains`: a linear scan that stops at the first match. */
  method VectorContains<T(==)>(vec: seq<T>, t: T) returns (found: bool)
    ensures found <==> exists i :: 0 <= i < |vec| && vec[i] == t
  {
    var i := 0;
    while i < |vec|
      invariant 0 <= i <= |vec|
      invariant forall j :: 0 <= j < i ==> vec[j] != t
    {
      if vec[i] == t {
        return true;
      }
      i := i + 1;
    }
    return false;
  }

  // ---------- processLine ----------

  /** The keywords `processLine` tells apart. */
  datatype Keyword =
    | Curve | RepelCurve | RepelSurface | OptimizeLength | OptimizeArea | OptimizeField
    | FixBarycenter | FixLength | FixEdgeLengths | FixVertex | FixTangent
    | ConstraintSurface | ConstrainVertex | ConstrainAll | Comment | Unrecognized

  /** The keyword a line's first token spells, tested in `processLine`'s order. */
  function KeywordOf(key: string): Keyword {
    if key == "curve" then Curve
    else if key == "repel_curve" then RepelCurve
    else if key == "repel_surface" then RepelSurface
    else if key == "optimize_length" then OptimizeLength
    else if key == "optimize_area" then OptimizeArea
    else if key == "optimize_field" then OptimizeField
    else if key == "fix_barycenter" then FixBarycenter
    else if key == "fix_length" then FixLength
    else if key == "fix_edgelengths" then FixEdgeLengths
    else if key == "fix_vertex" then FixVertex
    else if key == "fix_tangent" then FixTangent
    else if key == "constraint_surface" then ConstraintSurface
    else if key == "constrain_vertex" then ConstrainVertex
    else if key == "constrain_all" then ConstrainAll
    else if key == "#" then Comment
    else Unrecognized
  }

  /** The numbers of tokens, keyword included, each keyword accepts. */
  predicate AcceptedArity(keyword: Keyword, n: nat) {
    match keyword
    case Curve => n == 2
    case RepelCurve => n <= 1 || n == 3 || n == 4
    case RepelSurface => n == 2 || n == 3
    case OptimizeLength => n == 1 || n == 2
    case OptimizeArea => n == 1 || n == 2
    case OptimizeField => n == 2 || n == 3
    case FixBarycenter => n == 1
    case FixLength => false
    case FixEdgeLengths => n == 1
    case FixVertex => n == 2
    case FixTangent => n == 2
    case ConstraintSurface => false
    case ConstrainVertex => false
    case ConstrainAll => false
    case Comment => true
    case Unrecognized => true
  }

  /** What `processLine` does to the record for the tokens `parts` of one
      line whose first token spells `keyword`, and whether reading goes on
      afterwards. */
  function LineEffect(s: Scene, dirRoot: string, keyword: Keyword, parts: seq<string>, lib: TextLib): Processed
  {
    var n := |parts|;
    match keyword
    case Curve =>
      if n != 2 then Processed(s, Exit(BadArity(Curve)))
      else Processed(s.(curveFilename := dirRoot + parts[1]), Continue)
    case RepelCurve =>
      if n <= 1 then Processed(s.(tpeAlpha := 3.0, tpeBeta := 6.0), Continue)
      else if n == 3 then
        Processed(s.(tpeAlpha := lib.toReal(parts[1]), tpeBeta := lib.toReal(parts[2])), Continue)
      else if n == 4 then
        Processed(s.(tpeAlpha := lib.toReal(parts[1]), tpeBeta := lib.toReal(parts[2]),
                     tpeWeight := lib.toReal(parts[3])), Continue)
      else Processed(s, Exit(BadArity(RepelCurve)))
    case RepelSurface =>
      if n < 2 || n > 3 then Processed(s, Exit(BadArity(RepelSurface)))
      else
        var weight := if n == 2 then 1.0 else lib.toReal(parts[2]);
        Processed(s.(obstacles := s.obstacles + [ObstacleData(dirRoot + parts[1], weight)]), Continue)
    case OptimizeLength =>
      if n == 1 then
        Processed(s.(extraPotentials := s.extraPotentials + [PotentialData(Length, 1.0, "")]), Continue)
      else if n == 2 then
        Processed(s.(extraPotentials := s.extraPotentials + [PotentialData(Length, lib.toReal(parts[1]), "")]),
                  Continue)
      else Processed(s, Exit(BadArity(OptimizeLength)))
    case OptimizeArea =>
      if n == 1 then
        Processed(s.(extraPotentials := s.extraPotentials + [PotentialData(Area, 1.0, "")]), Continue)
      else if n == 2 then
        Processed(s.(extraPotentials := s.extraPotentials + [PotentialData(Area, lib.toReal(parts[1]), "")]),
                  Continue)
      else Processed(s, Exit(BadArity(OptimizeArea)))
    case OptimizeField =>
      if n == 2 then
        Processed(s.(extraPotentials := s.extraPotentials + [PotentialData(VectorField, 1.0, parts[1])]),
                  Continue)
      else if n == 3 then
        Processed(s.(extraPotentials := s.extraPotentials
                                        + [PotentialData(VectorField, lib.toReal(parts[2]), parts[1])]),
                  Continue)
      else Processed(s, Exit(BadArity(OptimizeField)))
    case FixBarycenter =>
      if n != 1 then Processed(s, Exit(BadArity(FixBarycenter)))
      else Processed(s.(constraints := s.constraints + [Barycenter]), Continue)
    case FixLength =>
      Processed(s, Exit(NotImplemented(FixLength)))
    case FixEdgeLengths =>
      if n == 1 then Processed(s.(constraints := s.constraints + [EdgeLengths]), Continue)
      else if n == 2 then
        Processed(s.(constraints := s.constraints + [EdgeLengths]), Exit(NotImplemented(FixEdgeLengths)))
      else Processed(s, Exit(BadArity(FixEdgeLengths)))
    case FixVertex =>
      if n == 2 then
        var constraints := if Pins in s.constraints then s.constraints else s.constraints + [Pins];
        Processed(s.(constraints := constraints,
                     pinnedVertices := s.pinnedVertices + [lib.toInt(parts[1])]), Continue)
      else Processed(s, Exit(BadArity(FixVertex)))
    case FixTangent =>
      if n == 2 then
        var constraints := if TangentPins in s.constraints then s.constraints else s.constraints + [TangentPins];
        Processed(s.(constraints := constraints,
                     pinnedTangents := s.pinnedTangents + [lib.toInt(parts[1])]), Continue)
      else Processed(s, Exit(BadArity(FixTangent)))
    case ConstraintSurface => Processed(s, Exit(NotImplemented(ConstraintSurface)))
    case ConstrainVertex => Processed(s, Exit(NotImplemented(ConstrainVertex)))
    case ConstrainAll => Processed(s, Exit(NotImplemented(ConstrainAll)))
    case Comment => Processed(s, Continue)
    case Unrecognized => Processed(s, Continue)
  }

  /** `processLine`: updates `data` in place for one tokenised line. */
  method ProcessLine(data: SceneData, dirRoot: string, parts: seq<string>, lib: TextLib)
    returns (outcome: Outcome)
    requires |parts| >= 1
    modifies data
    ensures Processed(data.Value(), outcome) == LineEffect(old(data.Value()), dirRoot, KeywordOf(parts[0]), parts, lib)
  {
    var key := parts[0];
    outcome := Continue;

    if key == "curve" {
      if |parts| != 2 {
        return Exit(BadArity(Curve));
      }
      data.curveFilename := dirRoot + parts[1];
    }

    // Potentials
    else if key == "repel_curve" {
      if |parts| <= 1 {
        data.tpeAlpha := 3.0;
        data.tpeBeta := 6.0;
      } else if |parts| == 3 {
        data.tpeAlpha := lib.toReal(parts[1]);
        data.tpeBeta := lib.toReal(parts[2]);
      } else if |parts| == 4 {
        data.tpeAlpha := lib.toReal(parts[1]);
        data.tpeBeta := lib.toReal(parts[2]);
        data.tpeWeight := lib.toReal(parts[3]);
      } else {
        return Exit(BadArity(RepelCurve));
      }
    }
    else if key == "repel_surface" {
      if |parts| < 2 || |parts| > 3 {
        return Exit(BadArity(RepelSurface));
      } else if |parts| == 2 {
        data.obstacles := data.obstacles + [ObstacleData(dirRoot + parts[1], 1.0)];
      } else {
        data.obstacles := data.obstacles + [ObstacleData(dirRoot + parts[1], lib.toReal(parts[2]))];
      }
    }
    else if key == "optimize_length" {
      if |parts| == 1 {
        data.extraPotentials := data.extraPotentials + [PotentialData(Length, 1.0, "")];
      } else if |parts| == 2 {
        data.extraPotentials := data.extraPotentials + [PotentialData(Length, lib.toReal(parts[1]), "")];
      } else {
        return Exit(BadArity(OptimizeLength));
      }
    }
    else if key == "optimize_area" {
      if |parts| == 1 {
        data.extraPotentials := data.extraPotentials + [PotentialData(Area, 1.0, "")];
      } else if |parts| == 2 {
        data.extraPotentials := data.extraPotentials + [PotentialData(Area, lib.toReal(parts[1]), "")];
      } else {
        return Exit(BadArity(OptimizeArea));
      }
    }
    else if key == "optimize_field" {
      if |parts| == 2 {
        data.extraPotentials := data.extraPotentials + [PotentialData(VectorField, 1.0, parts[1])];
      } else if |parts| == 3 {
        data.extraPotentials := data.extraPotentials
                                + [PotentialData(VectorField, lib.toReal(parts[2]), parts[1])];
      } else {
        return Exit(BadArity(OptimizeField));
      }
    }

    // Constraints
    else if key == "fix_barycenter" {
      if |parts| != 1 {
        return Exit(BadArity(FixBarycenter));
      }
      data.constraints := data.constraints + [Barycenter];
    }
    else if key == "fix_length" {
      return Exit(NotImplemented(FixLength));
    }
    else if key == "fix_edgelengths" {
      if |parts| == 1 {
        data.constraints := data.constraints + [EdgeLengths];
      } else if |parts| == 2 {
        data.constraints := data.constraints + [EdgeLengths];
        return Exit(NotImplemented(FixEdgeLengths));
      } else {
        return Exit(BadArity(FixEdgeLengths));
      }
    }
    else if key == "fix_vertex" {
      if |parts| == 2 {
        var present := VectorContains(data.constraints, Pins);
        if !present {
          data.constraints := data.constraints + [Pins];
        }
        data.pinnedVertices := data.pinnedVertices + [lib.toInt(parts[1])];
      } else {
        return Exit(BadArity(FixVertex));
      }
    }
    else if key == "fix_tangent" {
      if |parts| == 2 {
        var present := VectorContains(data.constraints, TangentPins);
        if !present {
          data.constraints := data.constraints + [TangentPins];
        }
        data.pinnedTangents := data.pinnedTangents + [lib.toInt(parts[1])];
      } else {
        return Exit(BadArity(FixTangent));
      }
    }
    else if key == "constraint_surface" {
      return Exit(NotImplemented(ConstraintSurface));
    }
    else if key == "constrain_vertex" {
      return Exit(NotImplemented(ConstrainVertex));
    }
    else if key == "constrain_all" {
      return Exit(NotImplemented(ConstrainAll));
    }
    else if key == "#" {
      return Continue;
    }
    else {
      // Reported on the console and otherwise ignored.
      assert KeywordOf(key) == Unrecognized;
    }
  }

  // ---------- One line at a time ----------

  /** The token that spells each keyword `processLine` recognises. */
  function Spelling(keyword: Keyword): string
    requires keyword != Unrecognized
  {
    match keyword
    case Curve => "curve"
    case RepelCurve => "repel_curve"
    case RepelSurface => "repel_surface"
    case OptimizeLength => "optimize_length"
    case OptimizeArea => "optimize_area"
    case OptimizeField => "optimize_field"
    case FixBarycenter => "fix_barycenter"
    case FixLength => "fix_length"
    case FixEdgeLengths => "fix_edgelengths"
    case FixVertex => "fix_vertex"
    case FixTangent => "fix_tangent"
    case ConstraintSurface => "constraint_surface"
    case ConstrainVertex => "constrain_vertex"
    case ConstrainAll => "constrain_all"
    case Comment => "#"
  }

  /** Every keyword is recognised from its spelling, and no two keywords
      share one. */
  lemma SpellingRecognised(keyword: Keyword)
    requires keyword != Unrecognized
    ensures KeywordOf(Spelling(keyword)) == keyword
  {
    match keyword
    case Curve =>
    case RepelCurve =>
    case RepelSurface =>
    case OptimizeLength =>
    case OptimizeArea =>
    case OptimizeField =>
    case FixBarycenter =>
    case FixLength =>
    case FixEdgeLengths =>
    case FixVertex =>
    case FixTangent =>
    case ConstraintSurface =>
    case ConstrainVertex =>
    case ConstrainAll =>
    case Comment =>
  }

  /** A token is recognised only when it is the spelling of the keyword it is
      recognised as: every other token is `Unrecognized`. */
  lemma RecognisedOnlyFromSpelling(key: string)
    ensures KeywordOf(key) != Unrecognized ==> Spelling(KeywordOf(key)) == key
  {
    if key == "curve" {
    } else if key == "repel_curve" {
    } else if key == "repel_surface" {
    } else if key == "optimize_length" {
    } else if key == "optimize_area" {
    } else if key == "optimize_field" {
    } else if key == "fix_barycenter" {
    } else if key == "fix_length" {
    } else if key == "fix_edgelengths" {
    } else if key == "fix_vertex" {
    } else if key == "fix_tangent" {
    } else if key == "constraint_surface" {
    } else if key == "constrain_vertex" {
    } else if key == "constrain_all" {
    } else if key == "#" {
    }
  }

  /** A line stops the reader exactly when its keyword does not accept its
      number of tokens. */
  lemma LineStopsIffArityRejected(s: Scene, dirRoot: string, keyword: Keyword, parts: seq<string>, lib: TextLib)
    ensures LineEffect(s, dirRoot, keyword, parts, lib).outcome.Continue? <==> AcceptedArity(keyword, |parts|)
  {
  }

  /** A line only appends to the lists of the record, never removes or
      rewrites an entry, and appends at most one entry to each. */
  lemma LineOnlyAppends(s: Scene, dirRoot: string, keyword: Keyword, parts: seq<string>, lib: TextLib)
    ensures var t := LineEffect(s, dirRoot, keyword, parts, lib).scene;
            && s.obstacles <= t.obstacles && |t.obstacles| <= |s.obstacles| + 1
            && s.extraPotentials <= t.extraPotentials && |t.extraPotentials| <= |s.extraPotentials| + 1
            && s.constraints <= t.constraints && |t.constraints| <= |s.constraints| + 1
            && s.pinnedVertices <= t.pinnedVertices && |t.pinnedVertices| <= |s.pinnedVertices| + 1
            && s.pinnedTangents <= t.pinnedTangents && |t.pinnedTangents| <= |s.pinnedTangents| + 1
  {
  }

  /** A line that stops the reader changes nothing, except that
      `fix_edgelengths` with one argument appends its constraint first. */
  lemma StoppingLineChangesNothing(s: Scene, dirRoot: string, keyword: Keyword, parts: seq<string>, lib: TextLib)
    ensures var r := LineEffect(s, dirRoot, keyword, parts, lib);
            r.outcome.Exit? ==>
              if keyword == FixEdgeLengths && |parts| == 2 then r.scene == s.(constraints := s.constraints + [EdgeLengths])
              else r.scene == s
  {
  }

  /** `curve` needs exactly one argument, the curve file, read relative to the
      scene's directory; it changes nothing else. */
  lemma CurveLine(s: Scene, dirRoot: string, parts: seq<string>, lib: TextLib)
    ensures var r := LineEffect(s, dirRoot, Curve, parts, lib);
            && (r.outcome == Continue <==> |parts| == 2)
            && (|parts| == 2 ==> r.scene == s.(curveFilename := dirRoot + parts[1]))
  {
  }

  /** `repel_curve` alone resets alpha and beta to 3 and 6; with two
      arguments it sets alpha and beta and keeps the weight; with three it
      sets the weight too; every other arity stops the reader. */
  lemma RepelCurveLine(s: Scene, dirRoot: string, parts: seq<string>, lib: TextLib)
    ensures var r := LineEffect(s, dirRoot, RepelCurve, parts, lib);
            && (|parts| <= 1 ==> r == Processed(s.(tpeAlpha := 3.0, tpeBeta := 6.0), Continue))
            && (|parts| == 3 ==> r.outcome == Continue && r.scene.tpeWeight == s.tpeWeight
                                 && r.scene == s.(tpeAlpha := lib.toReal(parts[1]), tpeBeta := lib.toReal(parts[2])))
            && (|parts| == 4 ==> r.outcome == Continue
                                 && r.scene == s.(tpeAlpha := lib.toReal(parts[1]), tpeBeta := lib.toReal(parts[2]),
                                                  tpeWeight := lib.toReal(parts[3])))
            && (|parts| == 2 || |parts| > 4 ==> r.outcome.Exit?)
  {
  }

  /** `repel_surface` appends exactly one obstacle, of weight 1 when none is
      given, and needs one or two arguments. */
  lemma RepelSurfaceLine(s: Scene, dirRoot: string, parts: seq<string>, lib: TextLib)
    ensures var r := LineEffect(s, dirRoot, RepelSurface, parts, lib);
            && (r.outcome == Continue <==> |parts| == 2 || |parts| == 3)
            && (r.outcome == Continue ==>
                  r.scene == s.(obstacles := s.obstacles
                                             + [ObstacleData(dirRoot + parts[1],
                                                             if |parts| == 2 then 1.0 else lib.toReal(parts[2]))]))
  {
  }

  /** `optimize_length` and `optimize_area` append one potential of weight 1
      without an argument, or of the given weight; `optimize_field` appends a
      vector-field potential named by its first argument, of weight 1 unless
      a second argument gives it. */
  lemma OptimizeLines(s: Scene, dirRoot: string, parts: seq<string>, lib: TextLib)
    ensures |parts| == 1 ==>
              LineEffect(s, dirRoot, OptimizeLength, parts, lib)
              == Processed(s.(extraPotentials := s.extraPotentials + [PotentialData(Length, 1.0, "")]), Continue)
    ensures |parts| == 2 ==>
              LineEffect(s, dirRoot, OptimizeLength, parts, lib)
              == Processed(s.(extraPotentials := s.extraPotentials + [PotentialData(Length, lib.toReal(parts[1]), "")]),
                           Continue)
    ensures |parts| == 1 ==>
              LineEffect(s, dirRoot, OptimizeArea, parts, lib)
              == Processed(s.(extraPotentials := s.extraPotentials + [PotentialData(Area, 1.0, "")]), Continue)
    ensures |parts| == 2 ==>
              LineEffect(s, dirRoot, OptimizeArea, parts, lib)
              == Processed(s.(extraPotentials := s.extraPotentials + [PotentialData(Area, lib.toReal(parts[1]), "")]),
                           Continue)
    ensures |parts| == 2 ==>
              LineEffect(s, dirRoot, OptimizeField, parts, lib)
              == Processed(s.(extraPotentials := s.extraPotentials + [PotentialData(VectorField, 1.0, parts[1])]),
                           Continue)
    ensures |parts| == 3 ==>
              LineEffect(s, dirRoot, OptimizeField, parts, lib)
              == Processed(s.(extraPotentials := s.extraPotentials
                                                 + [PotentialData(VectorField, lib.toReal(parts[2]), parts[1])]),
                           Continue)
  {
  }

  /** `fix_barycenter` takes no argument and then appends its constraint;
      `fix_edgelengths` appends its constraint without an argument, and with
      one appends it and then stops the reader; `fix_length` and the three
      constraint-surface keywords always stop the reader. */
  lemma ConstraintLines(s: Scene, dirRoot: string, keyword: Keyword, parts: seq<string>, lib: TextLib)
    ensures |parts| == 1 ==>
              LineEffect(s, dirRoot, FixBarycenter, parts, lib)
              == Processed(s.(constraints := s.constraints + [Barycenter]), Continue)
    ensures |parts| == 1 ==>
              LineEffect(s, dirRoot, FixEdgeLengths, parts, lib)
              == Processed(s.(constraints := s.constraints + [EdgeLengths]), Continue)
    ensures |parts| == 2 ==>
              LineEffect(s, dirRoot, FixEdgeLengths, parts, lib)
              == Processed(s.(constraints := s.constraints + [EdgeLengths]), Exit(NotImplemented(FixEdgeLengths)))
    ensures keyword in {FixLength, ConstraintSurface, ConstrainVertex, ConstrainAll} ==>
              LineEffect(s, dirRoot, keyword, parts, lib) == Processed(s, Exit(NotImplemented(keyword)))
  {
  }

  /** A comment line, or a line with a keyword the reader does not know,
      leaves the record untouched and is not an error. */
  lemma IgnoredLine(s: Scene, dirRoot: string, parts: seq<string>, lib: TextLib)
    ensures LineEffect(s, dirRoot, Comment, parts, lib) == Processed(s, Continue)
    ensures LineEffect(s, dirRoot, Unrecognized, parts, lib) == Processed(s, Continue)
  {
  }

  /** `fix_vertex i` appends i to the pinned vertices and adds the `Pins`
      constraint only if it is not there yet; `fix_tangent` likewise. */
  lemma PinLine(s: Scene, dirRoot: string, parts: seq<string>, lib: TextLib)
    requires |parts| == 2
    ensures var r := LineEffect(s, dirRoot, FixVertex, parts, lib);
            && r.outcome == Continue
            && r.scene == s.(pinnedVertices := s.pinnedVertices + [lib.toInt(parts[1])],
                             constraints := if Pins in s.constraints then s.constraints else s.constraints + [Pins])
    ensures var r := LineEffect(s, dirRoot, FixTangent, parts, lib);
            && r.outcome == Continue
            && r.scene == s.(pinnedTangents := s.pinnedTangents + [lib.toInt(parts[1])],
                             constraints := if TangentPins in s.constraints then s.constraints
                                            else s.constraints + [TangentPins])
  {
  }

  // ---------- ParseSceneFile ----------

  predicate Blank(line: string) {
    line == "" || line == "\n"
  }

  /** Every non-blank line splits into at least one token, the keyword. */
  predicate Tokenised(lines: seq<string>, lib: TextLib) {
    forall i :: 0 <= i < |lines| && !Blank(lines[i]) ==> |lib.split(lines[i], ' ')| >= 1
  }

  /** The whole file: blank lines are skipped, the others are processed in
      order, and the first line that stops the reader ends the parse. */
  function ParseLines(s: Scene, dirRoot: string, lines: seq<string>, lib: TextLib): Processed
    requires Tokenised(lines, lib)
    decreases |lines|
  {
    if |lines| == 0 then Processed(s, Continue)
    else
      assert Tokenised(lines[1..], lib) by {
        forall i | 0 <= i < |lines[1..]| ensures lines[1..][i] == lines[i + 1] { }
      }
      if Blank(lines[0]) then ParseLines(s, dirRoot, lines[1..], lib)
      else
        var parts := lib.split(lines[0], ' ');
        var r := LineEffect(s, dirRoot, KeywordOf(parts[0]), parts, lib);
        if r.outcome.Exit? then r else ParseLines(r.scene, dirRoot, lines[1..], lib)
  }

  lemma TokenisedSplit(a: seq<string>, b: seq<string>, lib: TextLib)
    requires Tokenised(a + b, lib)
    ensures Tokenised(a, lib) && Tokenised(b, lib)
  {
    forall i | 0 <= i < |a| ensures (a + b)[i] == a[i] { }
    forall i | 0 <= i < |b| ensures (a + b)[|a| + i] == b[i] { }
  }

  /** Reading a file in two pieces is reading the first piece and then, unless
      it stopped the reader, the second piece from where the first left the
      record: a stopping line ends the parse, and nothing after it is read. */
  lemma {:induction false} ParseLinesAppend(s: Scene, dirRoot: string, a: seq<string>, b: seq<string>,
                                            lib: TextLib)
    requires Tokenised(a + b, lib)
    ensures Tokenised(a, lib) && Tokenised(b, lib)
    ensures ParseLines(s, dirRoot, a + b, lib)
            == (var r := ParseLines(s, dirRoot, a, lib);
                if r.outcome.Exit? then r else ParseLines(r.scene, dirRoot, b, lib))
    decreases |a|
  {
    TokenisedSplit(a, b, lib);
    if |a| == 0 {
      assert a + b == b;
    } else {
      assert (a + b)[0] == a[0];
      assert (a + b)[1..] == a[1..] + b;
      TokenisedSplit(a[..1], a[1..], lib);
      assert a == a[..1] + a[1..];
      if Blank(a[0]) {
        ParseLinesAppend(s, dirRoot, a[1..], b, lib);
      } else {
        var parts := lib.split(a[0], ' ');
        var r := LineEffect(s, dirRoot, KeywordOf(parts[0]), parts, lib);
        if r.outcome.Continue? {
          ParseLinesAppend(r.scene, dirRoot, a[1..], b, lib);
        }
      }
    }
  }

  /** The lines that are not blank, in order. */
  function NonBlank(lines: seq<string>): (r: seq<string>)
    ensures forall i :: 0 <= i < |r| ==> !Blank(r[i]) && r[i] in lines
  {
    if |lines| == 0 then []
    else if Blank(lines[0]) then NonBlank(lines[1..])
    else [lines[0]] + NonBlank(lines[1..])
  }

  /** Blank lines have no effect: the file reads as if they were absent. */
  lemma {:induction false} BlankLinesIgnored(s: Scene, dirRoot: string, lines: seq<string>, lib: TextLib)
    requires Tokenised(lines, lib)
    ensures Tokenised(NonBlank(lines), lib)
    ensures ParseLines(s, dirRoot, NonBlank(lines), lib) == ParseLines(s, dirRoot, lines, lib)
    decreases |lines|
  {
    if |lines| > 0 {
      TokenisedSplit(lines[..1], lines[1..], lib);
      assert lines == lines[..1] + lines[1..];
      BlankLinesIgnored(s, dirRoot, lines[1..], lib);
      if !Blank(lines[0]) {
        var rest := NonBlank(lines[1..]);
        var nb := [lines[0]] + rest;
        assert nb[1..] == rest;
        forall i | 0 <= i < |nb| && !Blank(nb[i]) ensures |lib.split(nb[i], ' ')| >= 1 {
          if i > 0 { assert nb[i] == rest[i - 1]; }
        }
        var parts := lib.split(lines[0], ' ');
        var r := LineEffect(s, dirRoot, KeywordOf(parts[0]), parts, lib);
        if r.outcome.Continue? {
          BlankLinesIgnored(r.scene, dirRoot, lines[1..], lib);
        }
      }
    }
  }

  /** `tag` occurs at most once among the constraints. */
  predicate AtMostOnce(constraints: seq<ConstraintType>, tag: ConstraintType) {
    multiset(constraints)[tag] <= 1
  }

  /** One line keeps `Pins` and `TangentPins` recorded at most once each. */
  lemma LinePinTags(s: Scene, dirRoot: string, keyword: Keyword, parts: seq<string>, lib: TextLib)
    requires AtMostOnce(s.constraints, Pins) && AtMostOnce(s.constraints, TangentPins)
    ensures var t := LineEffect(s, dirRoot, keyword, parts, lib).scene;
            AtMostOnce(t.constraints, Pins) && AtMostOnce(t.constraints, TangentPins)
  {
    assert multiset(s.constraints + [Pins])[TangentPins] == multiset(s.constraints)[TangentPins];
    assert multiset(s.constraints + [TangentPins])[Pins] == multiset(s.constraints)[Pins];
    assert Pins !in s.constraints ==> multiset(s.constraints + [Pins])[Pins] == 1;
    assert TangentPins !in s.constraints ==> multiset(s.constraints + [TangentPins])[TangentPins] == 1;
  }

  /** However many `fix_vertex` and `fix_tangent` lines a file holds, the
      `Pins` and `TangentPins` constraints are each recorded at most once. */
  lemma {:induction false} PinTagsAtMostOnce(s: Scene, dirRoot: string, lines: seq<string>, lib: TextLib)
    requires Tokenised(lines, lib)
    requires AtMostOnce(s.constraints, Pins) && AtMostOnce(s.constraints, TangentPins)
    ensures var t := ParseLines(s, dirRoot, lines, lib).scene;
            AtMostOnce(t.constraints, Pins) && AtMostOnce(t.constraints, TangentPins)
    decreases |lines|
  {
    if |lines| > 0 {
      TokenisedSplit(lines[..1], lines[1..], lib);
      assert lines == lines[..1] + lines[1..];
      if Blank(lines[0]) {
        PinTagsAtMostOnce(s, dirRoot, lines[1..], lib);
      } else {
        var parts := lib.split(lines[0], ' ');
        var r := LineEffect(s, dirRoot, KeywordOf(parts[0]), parts, lib);
        LinePinTags(s, dirRoot, KeywordOf(parts[0]), parts, lib);
        if r.outcome.Continue? {
          PinTagsAtMostOnce(r.scene, dirRoot, lines[1..], lib);
        }
      }
    }
  }

  /** The arguments of the well-formed `keyword` lines of a file, in line
      order, as integers. */
  function PinArguments(lines: seq<string>, keyword: Keyword, lib: TextLib): seq<int>
    requires Tokenised(lines, lib)
  {
    if |lines| == 0 then []
    else
      assert Tokenised(lines[1..], lib) by {
        forall i | 0 <= i < |lines[1..]| ensures lines[1..][i] == lines[i + 1] { }
      }
      var parts := lib.split(lines[0], ' ');
      var here := if !Blank(lines[0]) && KeywordOf(parts[0]) == keyword && |parts| == 2 then [lib.toInt(parts[1])] else [];
      here + PinArguments(lines[1..], keyword, lib)
  }

  /** One line that does not stop the reader appends its argument to the
      pinned vertices exactly when it is a well-formed `fix_vertex` line, and
      to the pinned tangents exactly when it is a well-formed `fix_tangent`. */
  lemma LinePins(s: Scene, dirRoot: string, keyword: Keyword, parts: seq<string>, lib: TextLib)
    ensures var r := LineEffect(s, dirRoot, keyword, parts, lib);
            r.outcome == Continue ==>
              && r.scene.pinnedVertices
                 == s.pinnedVertices + (if keyword == FixVertex && |parts| == 2 then [lib.toInt(parts[1])] else [])
              && r.scene.pinnedTangents
                 == s.pinnedTangents + (if keyword == FixTangent && |parts| == 2 then [lib.toInt(parts[1])] else [])
  {
  }

  /** The first non-blank line contributes its argument when it is a
      well-formed `keyword` line, and the rest of the file the rest. */
  lemma PinArgumentsHead(lines: seq<string>, keyword: Keyword, lib: TextLib)
    requires Tokenised(lines, lib) && |lines| > 0 && !Blank(lines[0])
    ensures Tokenised(lines[1..], lib)
    ensures var parts := lib.split(lines[0], ' ');
            PinArguments(lines, keyword, lib)
            == (if KeywordOf(parts[0]) == keyword && |parts| == 2 then [lib.toInt(parts[1])] else [])
               + PinArguments(lines[1..], keyword, lib)
  {
    TokenisedSplit(lines[..1], lines[1..], lib);
    assert lines == lines[..1] + lines[1..];
  }

  /** The list a pinning keyword appends to. */
  function Pinned(t: Scene, keyword: Keyword): seq<int>
  {
    if keyword == FixVertex then t.pinnedVertices else t.pinnedTangents
  }

  /** A file read to its end has appended the argument of every `fix_vertex`
      line to the pinned vertices, and of every `fix_tangent` line to the
      pinned tangents, once each and in line order. */
  lemma {:induction false} PinsInLineOrder(s: Scene, dirRoot: string, keyword: Keyword, lines: seq<string>,
                                           lib: TextLib)
    requires Tokenised(lines, lib)
    requires keyword == FixVertex || keyword == FixTangent
    ensures var r := ParseLines(s, dirRoot, lines, lib);
            r.outcome == Continue ==> Pinned(r.scene, keyword) == Pinned(s, keyword) + PinArguments(lines, keyword, lib)
    decreases |lines|
  {
    if |lines| > 0 {
      assert Tokenised(lines[1..], lib) by {
        TokenisedSplit(lines[..1], lines[1..], lib);
        assert lines == lines[..1] + lines[1..];
      }
      if Blank(lines[0]) {
        PinsInLineOrder(s, dirRoot, keyword, lines[1..], lib);
      } else {
        var parts := lib.split(lines[0], ' ');
        var r := LineEffect(s, dirRoot, KeywordOf(parts[0]), parts, lib);
        assert ParseLines(s, dirRoot, lines, lib) == if r.outcome.Exit? then r else ParseLines(r.scene, dirRoot, lines[1..], lib);
        if r.outcome.Continue? {
          LinePins(s, dirRoot, KeywordOf(parts[0]), parts, lib);
          PinArgumentsHead(lines, keyword, lib);
          PinsInLineOrder(r.scene, dirRoot, keyword, lines[1..], lib);
        }
      }
    }
  }

  /** The line loop of `ParseSceneFile`, over the lines of the file, starting
      from a default-constructed record. */
  method ParseSceneFile(defaults: Scene, filename: string, lines: seq<string>, lib: TextLib)
    returns (data: SceneData, outcome: Outcome)
    requires Tokenised(lines, lib)
    ensures fresh(data)
    ensures Processed(data.Value(), outcome)
            == ParseLines(defaults, DirectoryOf(lib.split(filename, '/')), lines, lib)
  {
    data := new SceneData(defaults);
    var directory := GetDirectoryFromPath(filename, lib);
    outcome := Continue;
    var i := 0;
    while i < |lines|
      invariant 0 <= i <= |lines|
      invariant Tokenised(lines[i..], lib)
      invariant outcome == Continue
      invariant ParseLines(data.Value(), directory, lines[i..], lib) == ParseLines(defaults, directory, lines, lib)
    {
      assert lines[i..][1..] == lines[i + 1..];
      var line := lines[i];
      if line == "" || line == "\n" {
        i := i + 1;
        continue;
      }
      var parts := lib.split(line, ' ');
      outcome := ProcessLine(data, directory, parts, lib);
      if outcome.Exit? {
        return;
      }
      i := i + 1;
    }
  }
}
