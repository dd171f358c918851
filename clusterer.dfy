/**
 * The root of the clusterer hierarchy: construction from a planner or from
 * another clusterer, ingestion of the input matrix (copy, NaN check, the
 * all-equal flag), the warnings collector, and the selection of the lines of
 * the fit summary that get logged.
 *
 * Logging itself, the table formatter, model keys and global state are
 * outside the model: whether parallelism is allowed, the model's name and the
 * rendering of a double as text come in as parameters.
 */
module Clustering {
  import opened Common

  /** A feature normalization, known to the model by name only. */
  datatype Normalizer = Normalizer(name: string)

  /** The default normalizer. */
  const DefNormalizer: Normalizer := Normalizer("STANDARD_SCALE")

  /** A random state, known to the model by identity only. */
  datatype Seed = Seed(id: int)

  /** The settings a planner hands to a new clusterer. */
  datatype Params = Params(metric: Metric, verbose: bool, seed: Seed, scale: bool,
                           normalizer: Normalizer, parallel: bool)

  datatype NaNException = NaNException(message: string)

  const NaNMessage: string :=
    "NaN in input data. Select a matrix imputation method for incomplete records"
  const NormalizationWarning: string :=
    "feature normalization option is set to false; this is discouraged"

  function KernelWarning(name: string): string {
    "running " + name + " in Kernel mode can be an expensive option"
  }

  function AllEqualWarning(entry: string): string {
    "all elements in input matrix are equal (" + entry + ")"
  }

  /** Some cell of the matrix is NaN. */
  predicate HasNaN(input: seq<seq<Cell>>) {
    exists i, j :: 0 <= i < |input| && 0 <= j < |input[i]| && input[i][j].NaN?
  }

  /** The distinct numbers in the first `i` rows. */
  ghost function EntriesBefore(input: seq<seq<Cell>>, i: nat): set<real>
    requires i <= |input|
  {
    set a, b | 0 <= a < i && 0 <= b < |input[a]| && input[a][b].Val? :: input[a][b].x
  }

  /** The distinct numbers in the matrix. */
  ghost function Entries(input: seq<seq<Cell>>): set<real> {
    EntriesBefore(input, |input|)
  }

  /** The distinct numbers among the first `j` cells of a row. */
  ghost function RowEntries(row: seq<Cell>, j: nat): set<real>
    requires j <= |row|
  {
    set b | 0 <= b < j && row[b].Val? :: row[b].x
  }

  lemma NextRowEntries(input: seq<seq<Cell>>, i: nat)
    requires i < |input|
    ensures EntriesBefore(input, i + 1) == EntriesBefore(input, i) + RowEntries(input[i], |input[i]|)
  {
  }

  lemma NextCellEntries(row: seq<Cell>, j: nat)
    requires j < |row| && row[j].Val?
    ensures RowEntries(row, j + 1) == RowEntries(row, j) + {row[j].x}
  {
  }

  /** A matrix without cells has no distinct numbers, so ingesting it never raises the all-equal flag. */
  lemma NoCellsNoEntries(input: seq<seq<Cell>>, cols: nat)
    requires IsMatrix(input, cols) && (|input| == 0 || cols == 0)
    ensures Entries(input) == {} && |Entries(input)| != 1
  {
  }

  /** How a double is rendered when concatenated to a string. */
  function CellText(c: Cell, show: real -> string): string {
    match c
    case NaN => "NaN"
    case Val(x) => show(x)
  }

  /** The entry in row 0, column 0; only read when the matrix has one. */
  function Corner(input: seq<seq<Cell>>): Cell {
    if |input| > 0 && |input[0]| > 0 then input[0][0] else NaN
  }

  /** A matrix with exactly one distinct number and no NaN has an entry at row 0, column 0, and it is that number. */
  lemma SingularCorner(input: seq<seq<Cell>>, cols: nat)
    requires IsMatrix(input, cols) && !HasNaN(input) && |Entries(input)| == 1
    ensures |input| > 0 && cols > 0 && Corner(input).Val? && Entries(input) == {Corner(input).x}
  {
    var x :| x in Entries(input);
    var a, b :| 0 <= a < |input| && 0 <= b < |input[a]| && input[a][b].Val? && input[a][b].x == x;
    assert input[0][0].Val?;
    assert input[0][0].x in Entries(input);
    assert |Entries(input) - {x}| == 0;
  }

  /** The matrix read back from a two-dimensional array, row by row. */
  function Rows(a: array2<Cell>): seq<seq<Cell>>
    reads a
  {
    seq(a.Length0, i reads a requires 0 <= i < a.Length0 =>
      seq(a.Length1, j reads a requires 0 <= j < a.Length1 => a[i, j]))
  }

  /** An array filled cell by cell from a matrix of the same shape reads back as that matrix. */
  lemma CopyEqualsInput(ref: array2<Cell>, input: seq<seq<Cell>>, cols: nat)
    requires IsMatrix(input, cols) && ref.Length0 == |input| && ref.Length1 == cols
    requires forall a, b :: 0 <= a < |input| && 0 <= b < cols ==> ref[a, b] == input[a][b] && input[a][b].Val?
    ensures Rows(ref) == input && !HasNaN(input)
  {
    var copy := Rows(ref);
    forall a | 0 <= a < |input|
      ensures copy[a] == input[a]
    {
      assert forall b :: 0 <= b < cols ==> copy[a][b] == input[a][b];
    }
  }

  /** The two lines logged before the fit summary's table. */
  const FitSummaryHeading: seq<string> := ["--", "Model Fit Summary:"]

  /** Lines of the fit summary kept at the top (the header included) and, nominally, at the bottom. */
  const Top: nat := 6
  const Bottom: nat := Top - 1

  /**
   * The lines the fit summary logs, as the code selects them: all of them when
   * there are at most Top + Bottom, otherwise the first Top, one break marker,
   * and every line whose index exceeds |summary| - Bottom.
   */
  function FitSummary(summary: seq<string>, tableBreak: string): (r: seq<string>)
    ensures |summary| <= Top + Bottom ==> r == summary
    ensures |summary| > Top + Bottom ==>
      && |r| == Top + Bottom
      && r[..Top] == summary[..Top]
      && r[Top] == tableBreak
      && forall i :: Top < i < |r| ==> r[i] == summary[|summary| - Bottom + i - Top]
  {
    if |summary| <= Top + Bottom then summary
    else summary[..Top] + [tableBreak] + summary[|summary| - Bottom + 1..]
  }

  /** A long summary shows only Bottom - 1 lines after the break, so line |summary| - Bottom is hidden. */
  lemma FitSummaryHidesFifthLastLine()
    ensures
      var summary := ["h", "1", "2", "3", "4", "5", "6", "7", "8", "9", "10", "11"];
      && FitSummary(summary, "--") == ["h", "1", "2", "3", "4", "5", "--", "8", "9", "10", "11"]
      && |FitSummary(summary, "--")[Top + 1..]| == Bottom - 1
      && summary[|summary| - Bottom] !in FitSummary(summary, "--")
  {
  }

  /** The selection the constants describe: the first Top lines, the break marker, the last Bottom lines. */
  function IntendedFitSummary(summary: seq<string>, tableBreak: string): (r: seq<string>)
    ensures |summary| <= Top + Bottom ==> r == summary
    ensures |summary| > Top + Bottom ==>
      && |r| == Top + 1 + Bottom
      && r[..Top] == summary[..Top]
      && r[Top] == tableBreak
      && r[Top + 1..] == summary[|summary| - Bottom..]
  {
    if |summary| <= Top + Bottom then summary
    else summary[..Top] + [tableBreak] + summary[|summary| - Bottom..]
  }

  /** The intended selection is the one the code makes with line |summary| - Bottom put back after the break. */
  lemma IntendedFitSummaryRestoresHiddenLine(summary: seq<string>, tableBreak: string)
    requires |summary| > Top + Bottom
    ensures IntendedFitSummary(summary, tableBreak)
         == FitSummary(summary, tableBreak)[..Top + 1] + [summary[|summary| - Bottom]]
            + FitSummary(summary, tableBreak)[Top + 1..]
  {
  }

  /** Every line the intended selection leaves out lies strictly between the top and the bottom lines. */
  lemma IntendedFitSummaryKeepsBothEnds(summary: seq<string>, tableBreak: string, i: nat)
    requires |summary| > Top + Bottom && i < |summary|
    requires i < Top || i >= |summary| - Bottom
    ensures summary[i] in IntendedFitSummary(summary, tableBreak)
  {
  }

  /**
   * The state every clusterer shares. `data` is the matrix the model works on
   * (a double matrix, whose cells may be NaN only when it was taken as is).
   */
  class Clusterer {
    var data: seq<seq<Cell>>
    var metric: Metric
    const seed: Seed
    const verbose: bool
    const normalized: bool
    const parallel: bool
    const normalizer: Normalizer
    var singularValue: bool

    var hasWarnings: bool
    var warnings: seq<string>

    /** The flag tells whether the collector holds a warning. */
    ghost predicate Valid()
      reads this
    {
      hasWarnings <==> warnings != []
    }

    /**
     * The field initialisation of a clusterer built from a planner: every
     * setting comes from the planner, parallelism only if it is allowed.
     */
    constructor Configure(planner: Params, parallelAllowed: bool)
      ensures Valid()
      ensures metric == planner.metric && verbose == planner.verbose && seed == planner.seed
      ensures normalized == planner.scale && normalizer == planner.normalizer
      ensures parallel == (planner.parallel && parallelAllowed)
      ensures data == [] && !singularValue && warnings == [] && !hasWarnings
    {
      metric := planner.metric;
      verbose := planner.verbose;
      seed := planner.seed;
      normalized := planner.scale;
      normalizer := planner.normalizer;
      parallel := planner.parallel && parallelAllowed;
      data := [];
      singularValue := false;
      hasWarnings := false;
      warnings := [];
      new;
      if !parallel && planner.parallel {
        // The message names the minimum core count, which is global state.
        Info("min num cores required for parallel");
      }
    }

    /**
     * A clusterer built from another one. A planner, when given, decides the
     * metric, the verbosity, the random state and the normalizer; without one
     * they come from the caller and verbosity is off. The data (the same
     * matrix), the scaling and parallel flags and the all-equal flag always
     * come from the caller. The new clusterer has no warnings.
     */
    constructor FromCaller(caller: Clusterer, planner: Option<Params>)
      ensures Valid()
      ensures metric == (if planner.None? then caller.metric else planner.value.metric)
      ensures verbose == (planner.Some? && planner.value.verbose)
      ensures seed == (if planner.None? then caller.seed else planner.value.seed)
      ensures normalizer == (if planner.None? then caller.normalizer else planner.value.normalizer)
      ensures data == caller.data && normalized == caller.normalized
      ensures parallel == caller.parallel && singularValue == caller.singularValue
      ensures warnings == [] && !hasWarnings
    {
      metric := if planner.None? then caller.metric else planner.value.metric;
      verbose := if planner.None? then false else planner.value.verbose;
      seed := if planner.None? then caller.seed else planner.value.seed;
      data := caller.data;
      normalized := caller.normalized;
      parallel := caller.parallel;
      normalizer := if planner.None? then caller.normalizer else planner.value.normalizer;
      singularValue := caller.singularValue;
      hasWarnings := false;
      warnings := [];
    }

    /**
     * A clusterer built from an input matrix and a planner. Unless the matrix
     * is taken as is, it is ingested first, which fails on a NaN. The warnings
     * come in a fixed order, each only under its condition: the kernel
     * warning, the normalization warning, the all-equal warning. `name` is
     * the model's name, `show` renders a double, `operate` is the normalizer.
     */
    static method FromData(input: seq<seq<Cell>>, cols: nat, planner: Params, asIs: bool,
                           parallelAllowed: bool, name: string, show: real -> string,
                           operate: seq<seq<Cell>> -> seq<seq<Cell>>)
      returns (r: Result<Clusterer, NaNException>)
      requires IsMatrix(input, cols)
      ensures r.Failure? <==> !asIs && HasNaN(input)
      ensures r.Failure? ==> r.error == NaNException(NaNMessage)
      ensures r.Success? ==> fresh(r.value) && r.value.Valid()
      ensures r.Success? ==>
        && r.value.metric == planner.metric && r.value.verbose == planner.verbose
        && r.value.seed == planner.seed && r.value.normalizer == planner.normalizer
        && r.value.normalized == planner.scale
        && r.value.parallel == (planner.parallel && parallelAllowed)
      ensures r.Success? ==> r.value.data == (if asIs || !planner.scale then input else operate(input))
      ensures r.Success? ==> r.value.singularValue == (!asIs && |Entries(input)| == 1)
      ensures r.Success? ==>
        (r.value.warnings ==
          (if planner.metric.isKernel then [KernelWarning(name)] else [])
          + (if !asIs && !planner.scale then [NormalizationWarning] else [])
          + (if r.value.singularValue then [AllEqualWarning(CellText(Corner(input), show))] else []))
    {
      var c := new Clusterer.Configure(planner, parallelAllowed);
      if c.metric.isKernel {
        c.Warn(KernelWarning(name));
      }
      assert c.warnings == if planner.metric.isKernel then [KernelWarning(name)] else [];
      ghost var early := c.warnings;
      if asIs {
        c.data := input;
      } else {
        var d := c.InitData(input, cols, operate);
        if d.Failure? {
          return Failure(d.error);
        }
        c.data := d.value;
      }
      ghost var ingested := c.warnings;
      assert ingested == early + (if !asIs && !planner.scale then [NormalizationWarning] else []);
      if c.singularValue {
        c.Warn(AllEqualWarning(CellText(Corner(input), show)));
      }
      r := Success(c);
    }

    /**
     * Copies the input matrix cell by cell into a new one, failing on the
     * first NaN, and collects its distinct numbers. On success it warns when
     * normalization is off, sets the all-equal flag when exactly one distinct
     * number occurs (it never clears it), and returns the copy, normalized if
     * the clusterer normalizes. A failure changes nothing.
     */
    method InitData(input: seq<seq<Cell>>, cols: nat, operate: seq<seq<Cell>> -> seq<seq<Cell>>)
      returns (r: Result<seq<seq<Cell>>, NaNException>)
      requires Valid() && IsMatrix(input, cols)
      modifies this`warnings, this`hasWarnings, this`singularValue
      ensures Valid()
      ensures r.Failure? <==> HasNaN(input)
      ensures r.Failure? ==>
        && r.error == NaNException(NaNMessage)
        && warnings == old(warnings) && hasWarnings == old(hasWarnings)
        && singularValue == old(singularValue)
      ensures r.Success? ==>
        && r.value == (if normalized then operate(input) else input)
        && warnings == old(warnings) + (if normalized then [] else [NormalizationWarning])
        && singularValue == (old(singularValue) || |Entries(input)| == 1)
    {
      var m, n := |input|, cols;
      var ref := new Cell[m, n];
      var unique: set<real> := {};
      for i := 0 to m
        modifies ref
        invariant forall a, b :: 0 <= a < i && 0 <= b < n ==> ref[a, b] == input[a][b] && input[a][b].Val?
        invariant unique == EntriesBefore(input, i)
      {
        var ok;
        ok, unique := CopyRow(input, cols, i, ref, unique);
        if !ok {
          return Failure(NaNException(NaNMessage));
        }
        NextRowEntries(input, i);
      }
      if !normalized {
        Warn(NormalizationWarning);
      }
      if |unique| == 1 {
        singularValue := true;
      }
      var copy := Rows(ref);
      CopyEqualsInput(ref, input, cols);
      r := Success(if normalized then operate(copy) else copy);
    }

    /**
     * Copies row i of the input into `ref` cell by cell and adds its numbers
     * to `unique`; stops at the first NaN and reports it with `ok` false.
     * Other rows of `ref` are left alone.
     */
    static method CopyRow(input: seq<seq<Cell>>, cols: nat, i: nat, ref: array2<Cell>, unique: set<real>)
      returns (ok: bool, seen: set<real>)
      requires IsMatrix(input, cols) && i < |input| && ref.Length0 == |input| && ref.Length1 == cols
      modifies ref
      ensures !ok ==> exists b :: 0 <= b < cols && input[i][b].NaN?
      ensures ok ==> seen == unique + RowEntries(input[i], cols)
      ensures ok ==> forall b :: 0 <= b < cols ==> ref[i, b] == input[i][b] && input[i][b].Val?
      ensures forall a, b :: 0 <= a < ref.Length0 && a != i && 0 <= b < ref.Length1 ==> ref[a, b] == old(ref[a, b])
    {
      seen := unique;
      for j := 0 to cols
        invariant forall a, b :: 0 <= a < ref.Length0 && a != i && 0 <= b < ref.Length1 ==> ref[a, b] == old(ref[a, b])
        invariant forall b :: 0 <= b < j ==> ref[i, b] == input[i][b] && input[i][b].Val?
        invariant seen == unique + RowEntries(input[i], j)
      {
        var entry := input[i][j];
        if entry.NaN? {
          assert 0 <= i < |input| && 0 <= j < |input[i]| && input[i][j].NaN?;
          return false, seen;
        }
        ref[i, j] := entry;
        NextCellEntries(input[i], j);
        seen := seen + {entry.x};
      }
      ok := true;
    }

    /** Records a warning: appended after every earlier one, and the flag is set. */
    method Warn(msg: string)
      modifies this`warnings, this`hasWarnings
      ensures Valid()
      ensures warnings == old(warnings) + [msg] && hasWarnings
    {
      hasWarnings := true;
      warnings := warnings + [msg];
    }

    // Logging only. None of these has a modifies clause, so none can change a
    // field; in particular none touches the warnings.

    method Error(msg: string)
    {
    }

    method Info(msg: string)
    {
    }

    method Trace(msg: string)
    {
    }

    method Debug(msg: string)
    {
    }

    /** The warnings, or null when none was recorded. */
    function GetWarnings(): Option<seq<string>>
      reads this
    {
      if warnings == [] then None else Some(warnings)
    }

    function HasWarnings(): bool
      reads this
    {
      hasWarnings
    }

    /** The collector is null exactly when no warning was recorded. */
    lemma WarningsNullIffNone()
      requires Valid()
      ensures GetWarnings().None? <==> !HasWarnings()
    {
    }

    function GetData(): seq<seq<Cell>>
      reads this
    {
      data
    }

    function GetSeparabilityMetric(): Metric
      reads this
    {
      metric
    }

    function GetSeed(): Seed
      reads this
    {
      seed
    }

    function GetVerbose(): bool
      reads this
    {
      verbose
    }

    method SetSeparabilityMetric(sep: Metric)
      modifies this`metric
      ensures metric == sep
    {
      metric := sep;
    }

    /**
     * Logs the formatted fit summary, given as its table lines: returns the
     * lines logged, in order, the two heading lines first and the break
     * marker included.
     */
    static method LogFitSummary(summary: seq<string>, tableBreak: string) returns (shown: seq<string>)
      ensures shown == FitSummaryHeading + FitSummary(summary, tableBreak)
    {
      shown := FitSummaryHeading;
      ghost var heading := shown;
      // The table lines logged so far.
      ghost var table: seq<string> := [];
      var topThresh, bottomThresh := Top, 0;
      if |summary| > Top + Bottom {
        bottomThresh := |summary| - Bottom;
      } else {
        topThresh := |summary|;
        bottomThresh := 0;
      }
      var shownBreak := false;
      for iter := 0 to |summary|
        invariant shown == heading + table
        invariant |summary| <= Top + Bottom ==> table == summary[..iter]
        invariant |summary| > Top + Bottom && iter <= Top ==> table == summary[..iter] && !shownBreak
        invariant |summary| > Top + Bottom && Top < iter <= bottomThresh + 1 ==>
          table == summary[..Top] + [tableBreak] && shownBreak
        invariant |summary| > Top + Bottom && bottomThresh + 1 < iter ==>
          table == summary[..Top] + [tableBreak] + summary[bottomThresh + 1..iter] && shownBreak
      {
        var line := summary[iter];
        if iter < topThresh || iter > bottomThresh {
          shown := shown + [line];
          table := table + [line];
        } else if !shownBreak {
          shown := shown + [tableBreak];
          table := table + [tableBreak];
          shownBreak := true;
        }
      }
    }
  }
}
