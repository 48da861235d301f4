/**
 * The calibration script's code generation: `get_formula_str` turns a fitted
 * degree-2 polynomial regression into a C expression, the intercept first and
 * then one `(<c>f * <feature>)` term per significant coefficient, joined with
 * ` + `; `derive_functions` writes the header only when the sample file exists
 * and holds data. The regression itself and Python's number formatting are
 * inputs.
 */
module Correlator {
  import opened Wrappers
  import opened Arith
  import opened Text

  /** `PolynomialFeatures(degree=2).get_feature_names_out(['s1', 's2'])`. */
  const FEATURE_NAMES: seq<string> := ["1", "s1", "s2", "s1^2", "s1 s2", "s2^2"]

  /** Coefficients whose magnitude does not exceed this are left out of the formula. */
  const THRESHOLD: real := 0.00000000001

  /** A fitted `LinearRegression`: `intercept_` and `coef_`, one coefficient per feature. */
  datatype Model = Model(intercept: real, coef: seq<real>)

  /** Python's fixed-point formatting `f"{x:.<digits>f}"`. */
  type Formatter = (real, nat) -> string

  /** The feature name as a C expression: spaces become ` * `, `^2` becomes `_sq`, `s1s2` becomes `s1 * s2`. */
  function FormatFeature(feat: string): string
  {
    ReplaceAll(ReplaceAll(ReplaceAll(feat, " ", " * "), "^2", "_sq"), "s1s2", "s1 * s2")
  }

  /** A name with none of the three patterns is used as it is. */
  lemma FormatFeaturePlain(feat: string)
    requires forall i: nat :: !OccursAt(feat, " ", i) && !OccursAt(feat, "^2", i) && !OccursAt(feat, "s1s2", i)
    ensures FormatFeature(feat) == feat
  {
  }

  /** `s1^2` becomes the square `s1_sq`. */
  lemma S1SquareRewritten()
    ensures FormatFeature("s1^2") == "s1_sq"
  {
    AbsentChar("s1^2", " ", 0);
    assert ReplaceAll("^2", "^2", "_sq") == "_sq";
    assert ReplaceAll("1^2", "^2", "_sq") == "1_sq";
    assert ReplaceAll("s1^2", "^2", "_sq") == "s1_sq";
    AbsentChar("s1_sq", "s1s2", 3);
  }

  /** `s2^2` becomes the square `s2_sq`. */
  lemma S2SquareRewritten()
    ensures FormatFeature("s2^2") == "s2_sq"
  {
    AbsentChar("s2^2", " ", 0);
    assert ReplaceAll("^2", "^2", "_sq") == "_sq";
    assert ReplaceAll("2^2", "^2", "_sq") == "2_sq";
    assert ReplaceAll("s2^2", "^2", "_sq") == "s2_sq";
    AbsentChar("s2_sq", "s1s2", 1);
  }

  /** Each space of `s1 s2` becomes ` * `. */
  lemma ProductSpaced()
    ensures ReplaceAll("s1 s2", " ", " * ") == "s1 * s2"
  {
    assert ReplaceAll("s2", " ", " * ") == "s2";
    assert ReplaceAll(" s2", " ", " * ") == " * s2";
    assert ReplaceAll("1 s2", " ", " * ") == "1 * s2";
  }

  /** The product feature `s1 s2` becomes the C product `s1 * s2`. */
  lemma ProductRewritten()
    ensures FormatFeature("s1 s2") == "s1 * s2"
  {
    ProductSpaced();
    var product := "s1 * s2";
    AbsentChar(product, "^2", 0);
    forall i: nat
      ensures !OccursAt(product, "s1s2", i)
    {
      if i < 4 {
        MismatchAt(product, "s1s2", i, if i == 0 then 2 else 0);
      }
    }
  }

  /** The plain variables `s1` and `s2` are used as they are. */
  lemma VariablesRewritten()
    ensures FormatFeature("s1") == "s1" && FormatFeature("s2") == "s2"
  {
    AbsentChar("s1", " ", 0);
    AbsentChar("s1", "^2", 0);
    AbsentChar("s1", "s1s2", 3);
    FormatFeaturePlain("s1");
    AbsentChar("s2", " ", 0);
    AbsentChar("s2", "^2", 0);
    AbsentChar("s2", "s1s2", 1);
    FormatFeaturePlain("s2");
  }

  /** The five non-constant features of the degree-2 fit, as C expressions. */
  lemma FeatureNamesRewritten()
    ensures FormatFeature(FEATURE_NAMES[1]) == "s1" && FormatFeature(FEATURE_NAMES[2]) == "s2"
    ensures FormatFeature(FEATURE_NAMES[3]) == "s1_sq" && FormatFeature(FEATURE_NAMES[4]) == "s1 * s2"
    ensures FormatFeature(FEATURE_NAMES[5]) == "s2_sq"
  {
    VariablesRewritten();
    S1SquareRewritten();
    ProductRewritten();
    S2SquareRewritten();
  }

  predicate Significant(c: real)
  {
    AbsReal(c) > THRESHOLD
  }

  /** `f"{intercept:.6f}f"`. */
  function InterceptTerm(fmt: Formatter, intercept: real): string
  {
    fmt(intercept, 6) + "f"
  }

  /** `f"({c:.10f}f * {fmt_feat})"`. */
  function CoefficientTerm(fmt: Formatter, c: real, feat: string): string
  {
    "(" + fmt(c, 10) + "f * " + FormatFeature(feat) + ")"
  }

  /** The feature indices in `[1, n)` whose coefficient is significant, in increasing order. */
  function KeptIndices(coef: seq<real>, n: nat): seq<nat>
    requires n <= |coef|
  {
    if n <= 1 then [] else KeptIndices(coef, n - 1) + (if Significant(coef[n - 1]) then [n - 1] else [])
  }

  /** A feature gets a term exactly when it is not the first one and its coefficient is significant. */
  lemma {:induction false} KeptIndicesMembers(coef: seq<real>, n: nat, j: nat)
    requires n <= |coef|
    ensures j in KeptIndices(coef, n) <==> 1 <= j < n && Significant(coef[j])
  {
    if n > 1 {
      KeptIndicesMembers(coef, n - 1, j);
    }
  }

  /** The terms follow the feature order. */
  lemma {:induction false} KeptIndicesIncreasing(coef: seq<real>, n: nat)
    requires n <= |coef|
    ensures forall a, b :: 0 <= a < b < |KeptIndices(coef, n)| ==> KeptIndices(coef, n)[a] < KeptIndices(coef, n)[b]
  {
    if n > 1 {
      KeptIndicesIncreasing(coef, n - 1);
      var prev := KeptIndices(coef, n - 1);
      forall a | 0 <= a < |prev|
        ensures prev[a] < n - 1
      {
        KeptIndicesMembers(coef, n - 1, prev[a]);
      }
    }
  }

  /** The coefficient terms for the features `1 .. n - 1`, built as the loop builds them. */
  function CoefficientTerms(fmt: Formatter, coef: seq<real>, names: seq<string>, n: nat): seq<string>
    requires n <= |names| && n <= |coef|
  {
    if n <= 1 then []
    else
      CoefficientTerms(fmt, coef, names, n - 1)
      + (if Significant(coef[n - 1]) then [CoefficientTerm(fmt, coef[n - 1], names[n - 1])] else [])
  }

  /**
   * Term `k` belongs to the `k`-th kept feature: coefficient `j` is paired
   * with name `j`, and no other feature contributes a term.
   */
  lemma {:induction false} CoefficientTermsPaired(fmt: Formatter, coef: seq<real>, names: seq<string>, n: nat)
    requires n <= |names| && n <= |coef|
    ensures |CoefficientTerms(fmt, coef, names, n)| == |KeptIndices(coef, n)|
    ensures forall k :: 0 <= k < |KeptIndices(coef, n)| ==>
              KeptIndices(coef, n)[k] < n &&
              CoefficientTerms(fmt, coef, names, n)[k] == CoefficientTerm(fmt, coef[KeptIndices(coef, n)[k]], names[KeptIndices(coef, n)[k]])
  {
    if n > 1 {
      CoefficientTermsPaired(fmt, coef, names, n - 1);
    }
  }

  /** The terms of the formula: the intercept, then the coefficient terms. */
  function FormulaTerms(fmt: Formatter, model: Model, names: seq<string>): seq<string>
    requires |names| <= |model.coef|
  {
    [InterceptTerm(fmt, model.intercept)] + CoefficientTerms(fmt, model.coef, names, |names|)
  }

  /** What `get_formula_str` returns. */
  function Formula(fmt: Formatter, model: Model, names: seq<string>): string
    requires |names| <= |model.coef|
  {
    Join(FormulaTerms(fmt, model, names), " + ")
  }

  /**
   * The intercept comes first whatever its magnitude: the formula is the
   * intercept alone when no coefficient is significant, and otherwise the
   * intercept, ` + ` and the coefficient terms joined with ` + `.
   */
  lemma FormulaShape(fmt: Formatter, model: Model, names: seq<string>)
    requires |names| <= |model.coef|
    ensures var rest := CoefficientTerms(fmt, model.coef, names, |names|);
            Formula(fmt, model, names)
            == if rest == [] then InterceptTerm(fmt, model.intercept)
               else InterceptTerm(fmt, model.intercept) + " + " + Join(rest, " + ")
  {
    JoinCons(InterceptTerm(fmt, model.intercept), CoefficientTerms(fmt, model.coef, names, |names|), " + ");
  }

  /** The formula text begins with the intercept term. */
  lemma FormulaStartsWithIntercept(fmt: Formatter, model: Model, names: seq<string>)
    requires |names| <= |model.coef|
    ensures StartsWith(Formula(fmt, model, names), InterceptTerm(fmt, model.intercept))
  {
    FormulaShape(fmt, model, names);
    var head := InterceptTerm(fmt, model.intercept);
    var rest := CoefficientTerms(fmt, model.coef, names, |names|);
    if rest != [] {
      var tail := " + " + Join(rest, " + ");
      assert head + " + " + Join(rest, " + ") == head + tail;
      assert (head + tail)[..|head|] == head;
    }
  }

  /** With no significant coefficient the formula is the intercept alone. */
  lemma InterceptOnly(fmt: Formatter, model: Model, names: seq<string>)
    requires |names| <= |model.coef|
    requires forall j :: 1 <= j < |names| ==> !Significant(model.coef[j])
    ensures Formula(fmt, model, names) == InterceptTerm(fmt, model.intercept)
  {
    var n := |names|;
    CoefficientTermsPaired(fmt, model.coef, names, n);
    if KeptIndices(model.coef, n) != [] {
      var j := KeptIndices(model.coef, n)[0];
      KeptIndicesMembers(model.coef, n, j);
      assert false;
    }
    FormulaShape(fmt, model, names);
  }

  /** `get_formula_str(model)` for the feature names `names`. */
  method GetFormulaStr(fmt: Formatter, model: Model, names: seq<string>) returns (formula: string)
    requires |names| <= |model.coef|
    ensures formula == Formula(fmt, model, names)
  {
    var terms := [InterceptTerm(fmt, model.intercept)];
    if names != [] {
      for i := 1 to |names|
        invariant terms == [InterceptTerm(fmt, model.intercept)] + CoefficientTerms(fmt, model.coef, names, i)
      {
        var c := model.coef[i];
        if AbsReal(c) > THRESHOLD {
          var fmtFeat := ReplaceAll(ReplaceAll(names[i], " ", " * "), "^2", "_sq");
          fmtFeat := ReplaceAll(fmtFeat, "s1s2", "s1 * s2");
          terms := terms + ["(" + fmt(c, 10) + "f * " + fmtFeat + ")"];
        }
      }
    }
    formula := Join(terms, " + ");
  }

  /** The two formulas `generate_header` writes, for `get_t1_est` and `get_t2_est`. */
  datatype Formulas = Formulas(t1: string, t2: string)

  /**
   * What `derive_functions` finds on disk: no file; a file `read_csv` cannot
   * parse into columns (an empty file); or a table of `rows` data rows of
   * which `complete` have no missing value and survive `dropna`.
   */
  datatype CsvFile =
    | Missing
    | NoColumns
    | Table(rows: nat, complete: nat)
  {
    /** `dropna` only removes rows. */
    predicate Valid() { Table? ==> complete <= rows }
  }

  /** What `derive_functions` does before its plots. */
  datatype DeriveOutcome =
    | FileNotFound
    | ReadFailed
    | EmptyCsv
    | FitFailed
    | HeaderWritten(formulas: Formulas)

  /**
   * `derive_functions`: `fit1` and `fit2` are the regressions of `t1` and
   * `t2` on the degree-2 features of the complete rows. A missing file and a
   * table without data rows each return early after a message; `read_csv`
   * raises on a file without columns, and the feature expansion raises when
   * `dropna` has left no row; otherwise the header is written.
   */
  method DeriveFunctions(fmt: Formatter, data: CsvFile, fit1: Model, fit2: Model) returns (outcome: DeriveOutcome)
    requires data.Valid()
    requires |FEATURE_NAMES| <= |fit1.coef| && |FEATURE_NAMES| <= |fit2.coef|
    ensures data.Missing? <==> outcome == FileNotFound
    ensures data.NoColumns? <==> outcome == ReadFailed
    ensures outcome == EmptyCsv <==> data.Table? && data.rows == 0
    ensures outcome == FitFailed <==> data.Table? && data.rows > 0 && data.complete == 0
    ensures outcome.HeaderWritten? <==> data.Table? && data.rows > 0 && data.complete > 0
    ensures outcome.HeaderWritten? ==>
              outcome.formulas == Formulas(Formula(fmt, fit1, FEATURE_NAMES), Formula(fmt, fit2, FEATURE_NAMES))
  {
    if data.Missing? {
      return FileNotFound;
    }
    if data.NoColumns? {
      return ReadFailed;
    }
    if data.rows == 0 {
      return EmptyCsv;
    }
    if data.complete == 0 {
      return FitFailed;
    }
    var t1Formula := GetFormulaStr(fmt, fit1, FEATURE_NAMES);
    var t2Formula := GetFormulaStr(fmt, fit2, FEATURE_NAMES);
    return HeaderWritten(Formulas(t1Formula, t2Formula));
  }
}
