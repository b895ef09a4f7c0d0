/**
 * The prediction core of CancelGuard: the container that bundles a trained
 * decision tree with its feature names, the preparation of the training
 * table in `load_model`, and the inference entry point
 * `predict_cancellation`, which turns a loose request dictionary into the
 * four-number feature vector and thresholds the tree's probability.
 *
 * The decision tree itself (fitting and `predict_proba`) is library code and
 * appears as an opaque function into [0, 1]; the seeded stratified split and
 * the fit appear together as an opaque `Trainer`.
 */
module Model {
  import opened Wrappers
  import opened Frames
  import Etl

  // ---------------------------------------------------------------------
  // The container
  // ---------------------------------------------------------------------

  type Probability = p: real | 0.0 <= p <= 1.0

  /** A fitted tree, seen through `predict_proba(...)[0, 1]`: the positive-class probability. */
  type Tree = seq<real> -> Probability

  /** `CancelGuardModel`: the fitted tree and the ordered names of the columns it was fitted on. */
  datatype CancelGuardModel = CancelGuardModel(tree: Tree, featureNames: seq<string>)

  /** What a caller may pass as `model`: None, a `CancelGuardModel`, or an object of another class. */
  datatype ModelArg = NoModel | Guard(container: CancelGuardModel) | OtherObject

  const LeadTime := "lead_time"
  const Adr := "adr"
  const SpecialRequests := "total_of_special_requests"
  const IsCanceled := "is_canceled"

  /** The feature layout shared by training and inference. */
  const FeatureNames: seq<string> := [LeadTime, Etl.TotalNights, Adr, SpecialRequests]

  /** The value each feature takes when the request leaves it out or gives a falsy value. */
  const FeatureDefaults: seq<real> := [0.0, 1.0, 0.0, 0.0]

  const RequiredColumns: seq<string> := FeatureNames + [IsCanceled]

  // ---------------------------------------------------------------------
  // Inference: predict_cancellation
  // ---------------------------------------------------------------------

  /** A Python value found in the request dictionary. */
  datatype PyValue =
    | PyNone
    | PyBool(b: bool)
    | PyNum(x: real)          // an int or a float
    | PyStr(s: string)
    | PyCollection(size: nat) // a list, tuple or dict of that many items

  /** Python truthiness, which decides `x or default`. */
  predicate Truthy(v: PyValue) {
    match v
    case PyNone => false
    case PyBool(b) => b
    case PyNum(x) => x != 0.0
    case PyStr(s) => s != []
    case PyCollection(n) => n > 0
  }

  /** How Python's `float()` reads a string: the number, or None where it raises. */
  type StringToFloat = string -> Option<real>

  /** `float(v)`: numbers and booleans convert, strings are parsed, anything else raises. */
  function ToFloat(v: PyValue, parse: StringToFloat): (r: Option<real>) {
    match v
    case PyNone => None
    case PyBool(b) => Some(if b then 1.0 else 0.0)
    case PyNum(x) => Some(x)
    case PyStr(s) => parse(s)
    case PyCollection(_) => None
  }

  /** `data.get(key)`: a missing key reads as None. */
  function Lookup(data: map<string, PyValue>, key: string): (r: PyValue) {
    if key in data then data[key] else PyNone
  }

  datatype PredictError = ModelNotInitialized | NotNumeric(key: string)

  /** `float(data.get(key) or default)` */
  function FeatureValue(data: map<string, PyValue>, key: string, default: real, parse: StringToFloat)
    : (r: Result<real, PredictError>)
    ensures !Truthy(Lookup(data, key)) ==> r == Success(default)
    ensures Truthy(Lookup(data, key)) && ToFloat(Lookup(data, key), parse).Some? ==>
      r == Success(ToFloat(Lookup(data, key), parse).value)
    ensures r.Failure? <==> Truthy(Lookup(data, key)) && ToFloat(Lookup(data, key), parse).None?
    ensures r.Failure? ==> r.error == NotNumeric(key)
  {
    var v := Lookup(data, key);
    if !Truthy(v) then Success(default)
    else match ToFloat(v, parse)
      case Some(x) => Success(x)
      case None => Failure(NotNumeric(key))
  }

  /** The i-th feature of a request, with its default. */
  function Feature(data: map<string, PyValue>, i: nat, parse: StringToFloat): (r: Result<real, PredictError>)
    requires i < 4
  {
    FeatureValue(data, FeatureNames[i], FeatureDefaults[i], parse)
  }

  /**
   * The feature vector of a request, read key by key in `FeatureNames` order;
   * the first key whose truthy value does not convert is the error.
   */
  function Features(data: map<string, PyValue>, parse: StringToFloat): (r: Result<seq<real>, PredictError>)
    ensures r.Success? <==> forall i :: 0 <= i < 4 ==> Feature(data, i, parse).Success?
    ensures r.Success? ==> (|r.value| == 4 &&
      forall i :: 0 <= i < 4 ==> Feature(data, i, parse) == Success(r.value[i]))
    ensures r.Failure? ==>
      exists i :: 0 <= i < 4 && Feature(data, i, parse).Failure? && r.error == NotNumeric(FeatureNames[i])
                  && forall j :: 0 <= j < i ==> Feature(data, j, parse).Success?
  {
    var leadTime :- Feature(data, 0, parse);
    var totalNights :- Feature(data, 1, parse);
    var adr :- Feature(data, 2, parse);
    var specialRequests :- Feature(data, 3, parse);
    Success([leadTime, totalNights, adr, specialRequests])
  }

  /** The pair `(pred, prob)` that `predict_cancellation` returns. */
  datatype Prediction = Prediction(pred: int, prob: real)

  /** `predict_cancellation(model, data)` */
  function PredictCancellation(model: ModelArg, data: map<string, PyValue>, parse: StringToFloat)
    : (r: Result<Prediction, PredictError>)
    ensures !model.Guard? ==> r == Failure(ModelNotInitialized)
    ensures model.Guard? ==> (r.Success? <==> Features(data, parse).Success?)
    ensures model.Guard? && r.Failure? ==> r.error == Features(data, parse).error
    ensures r.Success? ==> (model.Guard? &&
      r.value.prob == model.container.tree(Features(data, parse).value))
    ensures r.Success? ==> 0.0 <= r.value.prob <= 1.0
    ensures r.Success? ==> (r.value.pred == 1 <==> r.value.prob > 0.5)
    ensures r.Success? ==> (r.value.pred == 0 <==> r.value.prob <= 0.5)
  {
    match model
    case Guard(container) =>
      var features :- Features(data, parse);
      var probability := container.tree(features);
      Success(Prediction(if probability > 0.5 then 1 else 0, probability))
    case _ => Failure(ModelNotInitialized)
  }

  /** With an empty request every feature takes its default: `[0, 1, 0, 0]`. */
  lemma EmptyRequestDefaults(parse: StringToFloat)
    ensures Features(map[], parse) == Success([0.0, 1.0, 0.0, 0.0])
  {
  }

  /**
   * Defaults follow truthiness, not presence: a falsy value (None, 0, False,
   * "", an empty list) is replaced just like a missing key, so an explicit
   * `total_nights` of 0 becomes 1; a truthy number passes through unchanged.
   */
  lemma DefaultSubstitution(data: map<string, PyValue>, i: nat, parse: StringToFloat)
    requires i < 4 && Features(data, parse).Success?
    ensures !Truthy(Lookup(data, FeatureNames[i])) ==> Features(data, parse).value[i] == FeatureDefaults[i]
    ensures Lookup(data, FeatureNames[i]) == PyNum(0.0) ==> Features(data, parse).value[i] == FeatureDefaults[i]
    ensures forall x :: Lookup(data, FeatureNames[i]) == PyNum(x) && x != 0.0 ==> Features(data, parse).value[i] == x
  {
  }

  /** An explicit zero-night stay is read as one night. */
  lemma ZeroNightsReadAsOne(data: map<string, PyValue>, parse: StringToFloat)
    requires Lookup(data, Etl.TotalNights) == PyNum(0.0)
    requires Features(data, parse).Success?
    ensures Features(data, parse).value[1] == 1.0
  {
  }

  /** A truthy value that `float()` rejects is an error, never replaced by the default. */
  lemma TruthyNonNumericIsError(model: ModelArg, data: map<string, PyValue>, i: nat, parse: StringToFloat)
    requires i < 4
    requires Truthy(Lookup(data, FeatureNames[i])) && ToFloat(Lookup(data, FeatureNames[i]), parse).None?
    ensures Features(data, parse).Failure?
    ensures PredictCancellation(model, data, parse).Failure?
  {
  }

  /** Only the four feature keys are read: requests that agree on them get the same answer. */
  lemma OnlyFeatureKeysMatter(model: ModelArg, d1: map<string, PyValue>, d2: map<string, PyValue>, parse: StringToFloat)
    requires forall k :: k in FeatureNames ==> Lookup(d1, k) == Lookup(d2, k)
    ensures PredictCancellation(model, d1, parse) == PredictCancellation(model, d2, parse)
  {
  }

  /**
   * The categorical fields the form sends (`hotel`, `deposit_type`,
   * `customer_type`, `market_segment`, `arrival_date_month`) never change the
   * prediction: neither does any other key outside the four features.
   */
  lemma OtherKeysIgnored(model: ModelArg, data: map<string, PyValue>, key: string, v: PyValue, parse: StringToFloat)
    requires key !in FeatureNames
    ensures PredictCancellation(model, data[key := v], parse) == PredictCancellation(model, data, parse)
  {
  }

  // ---------------------------------------------------------------------
  // Training-table preparation: load_model
  // ---------------------------------------------------------------------

  /** `load_model`'s own guard for deriving `total_nights`. */
  predicate NeedsTotalNights(columns: seq<string>) {
    Etl.TotalNights !in columns && Etl.WeekendNights in columns && Etl.WeekNights in columns
  }

  /** The column list after `load_model`'s conditional derivation of `total_nights`. */
  function PreparedColumns(columns: seq<string>): (r: seq<string>)
    ensures Etl.TotalNights in columns ==> r == columns
    ensures |columns| <= |r| <= |columns| + 1 && r[..|columns|] == columns
    ensures ColumnSet(r) ==
      if Etl.WeekendNights in columns && Etl.WeekNights in columns then ColumnSet(columns) + {Etl.TotalNights}
      else ColumnSet(columns)
    ensures NoDuplicates(columns) ==> NoDuplicates(r) && r == Etl.DerivedColumns(columns)
  {
    if NeedsTotalNights(columns) then columns + [Etl.TotalNights] else columns
  }

  /** The rows after `load_model`'s conditional derivation of `total_nights`. */
  function PreparedRows(columns: seq<string>, rows: seq<Row>): (r: seq<Row>)
    ensures !NeedsTotalNights(columns) ==> r == rows
    ensures |r| == |rows|
    ensures NeedsTotalNights(columns) ==> forall i :: 0 <= i < |rows| ==>
      r[i].Keys == rows[i].Keys + {Etl.TotalNights}
    ensures NeedsTotalNights(columns) ==> forall i :: 0 <= i < |rows| ==>
      Etl.TotalNights in r[i] && r[i][Etl.TotalNights] == AddCells(CellAt(rows[i], Etl.WeekendNights), CellAt(rows[i], Etl.WeekNights))
    ensures forall i, c :: 0 <= i < |rows| && c in rows[i] && c != Etl.TotalNights ==> c in r[i] && r[i][c] == rows[i][c]
  {
    if NeedsTotalNights(columns)
    then AssignColumn(rows, Etl.TotalNights, SumColumns(rows, Etl.WeekendNights, Etl.WeekNights))
    else rows
  }

  /** `[c for c in required_cols if c not in df.columns]` */
  function MissingColumns(columns: seq<string>): (missing: seq<string>)
    ensures forall c :: c in missing <==> c in RequiredColumns && c !in columns
    ensures IsSubsequence(missing, RequiredColumns)
  {
    Filter(RequiredColumns, c => c !in columns)
  }

  /** `df[required_cols].dropna()`: the rows with all five required columns present. */
  function TrainingRows(rows: seq<Row>): (r: seq<Row>)
    ensures forall row :: row in r ==> row.Keys == ColumnSet(RequiredColumns)
    ensures forall row :: row in r ==> forall c :: c in RequiredColumns ==> c in row && row[c] != Null
    ensures IsSubsequence(r, ProjectRows(rows, RequiredColumns))
    ensures forall row :: row in ProjectRows(rows, RequiredColumns) && Complete(row, RequiredColumns) ==> row in r
    ensures forall row :: multiset(r)[row] ==
                          (if Complete(row, RequiredColumns) then multiset(ProjectRows(rows, RequiredColumns))[row] else 0)
  {
    CompleteRows(rows, RequiredColumns)
  }

  /** `X`, one row of four cells per training row, in `FeatureNames` order. */
  function FeatureMatrix(rows: seq<Row>): (x: seq<seq<Cell>>)
    ensures |x| == |rows|
    ensures forall i :: 0 <= i < |rows| ==> |x[i]| == |FeatureNames|
    ensures forall i, j :: 0 <= i < |rows| && 0 <= j < |FeatureNames| && Complete(rows[i], FeatureNames) ==>
      x[i][j] != Null && x[i][j] == rows[i][FeatureNames[j]]
  {
    seq(|rows|, i requires 0 <= i < |rows| =>
      seq(|FeatureNames|, j requires 0 <= j < |FeatureNames| => CellAt(rows[i], FeatureNames[j])))
  }

  /** `y`, the label of each training row. */
  function Labels(rows: seq<Row>): (y: seq<Cell>)
    ensures |y| == |rows|
    ensures forall i :: 0 <= i < |rows| && IsCanceled in rows[i] ==> y[i] == rows[i][IsCanceled]
  {
    seq(|rows|, i requires 0 <= i < |rows| => CellAt(rows[i], IsCanceled))
  }

  /**
   * The seeded stratified 80/20 split followed by fitting the depth-8,
   * 30-per-leaf, class-balanced tree on the 80% part: library code, given
   * `X` and `y`; None where the library raises. The held-out part is never
   * used, so only the fitted tree comes back.
   */
  type Trainer = (seq<seq<Cell>>, seq<Cell>) -> Option<Tree>

  datatype LoadError = MissingRequiredColumns(missing: seq<string>) | TrainingFailed

  /** What `load_model` returns for the cleaned table `load_data` handed it. */
  function ModelFromTable(columns: seq<string>, rows: seq<Row>, train: Trainer)
    : (r: Result<CancelGuardModel, LoadError>)
    ensures r.Failure? && r.error.MissingRequiredColumns? <==> MissingColumns(PreparedColumns(columns)) != []
    ensures r.Failure? && r.error.MissingRequiredColumns? ==> r.error.missing == MissingColumns(PreparedColumns(columns))
    ensures r.Success? ==> forall c :: c in RequiredColumns ==> c in PreparedColumns(columns)
    ensures r.Success? ==> r.value.featureNames == FeatureNames
    ensures r.Success? ==> var training := TrainingRows(PreparedRows(columns, rows));
      train(FeatureMatrix(training), Labels(training)) == Some(r.value.tree)
    ensures r.Success? <==> (MissingColumns(PreparedColumns(columns)) == [] &&
                             var training := TrainingRows(PreparedRows(columns, rows));
                             train(FeatureMatrix(training), Labels(training)).Some?)
    ensures r.Failure? && !r.error.MissingRequiredColumns? ==> (r.error == TrainingFailed &&
      var training := TrainingRows(PreparedRows(columns, rows));
      train(FeatureMatrix(training), Labels(training)) == None)
  {
    var prepared := PreparedColumns(columns);
    var missing := MissingColumns(prepared);
    if missing != [] then Failure(MissingRequiredColumns(missing))
    else
      var training := TrainingRows(PreparedRows(columns, rows));
      match train(FeatureMatrix(training), Labels(training))
      case None => Failure(TrainingFailed)
      case Some(tree) => Success(CancelGuardModel(tree, FeatureNames))
  }

  /** Without an `is_canceled` column training is refused, and the error names that column. */
  lemma MissingLabelIsFatal(columns: seq<string>, rows: seq<Row>, train: Trainer)
    requires IsCanceled !in columns
    ensures ModelFromTable(columns, rows, train).Failure?
    ensures ModelFromTable(columns, rows, train).error.MissingRequiredColumns?
    ensures IsCanceled in ModelFromTable(columns, rows, train).error.missing
  {
  }

  /**
   * The container binds training and inference to one layout: column i of
   * every training row and component i of every request's feature vector
   * both come from the name at position i of the container's `feature_names`.
   */
  lemma SharedFeatureLayout(columns: seq<string>, rows: seq<Row>, train: Trainer,
                            data: map<string, PyValue>, parse: StringToFloat)
    ensures ModelFromTable(columns, rows, train).Success? ==>
      var names := ModelFromTable(columns, rows, train).value.featureNames;
      && |names| == 4
      && (forall i :: 0 <= i < 4 ==> Feature(data, i, parse) == FeatureValue(data, names[i], FeatureDefaults[i], parse))
      && var training := TrainingRows(PreparedRows(columns, rows));
         forall k, i :: 0 <= k < |training| && 0 <= i < 4 ==>
           FeatureMatrix(training)[k][i] == training[k][names[i]]
  {
    var training := TrainingRows(PreparedRows(columns, rows));
    forall k | 0 <= k < |training| ensures Complete(training[k], FeatureNames) {
      assert training[k] in training;
    }
  }

  /**
   * `load_data` already (re)computes `total_nights` whenever both night
   * counts exist, so `load_model`'s own derivation never fires on its output.
   */
  lemma LoadDataLeavesNothingToDerive(columns: seq<string>)
    requires NoDuplicates(columns)
    ensures !NeedsTotalNights(Etl.DerivedColumns(columns))
  {
  }

  /**
   * The part of `load_model()` after `load_data`: derive `total_nights` if
   * still needed (in place), fail on missing required columns, keep the
   * complete rows, train, and wrap the tree with the feature names.
   */
  method TrainOnTable(df: DataFrame, train: Trainer) returns (r: Result<CancelGuardModel, LoadError>)
    requires df.Valid()
    modifies df
    ensures df.Valid()
    ensures df.columns == PreparedColumns(old(df.columns)) && df.rows == PreparedRows(old(df.columns), old(df.rows))
    ensures r == ModelFromTable(old(df.columns), old(df.rows), train)
  {
    if NeedsTotalNights(df.columns) {
      df.SetColumn(Etl.TotalNights, SumColumns(df.rows, Etl.WeekendNights, Etl.WeekNights));
    }
    var missing := MissingColumns(df.columns);
    if missing != [] {
      return Failure(MissingRequiredColumns(missing));
    }
    assert NoDuplicates(RequiredColumns);
    var dfModel := df.SelectComplete(RequiredColumns);
    var x, y := FeatureMatrix(dfModel.rows), Labels(dfModel.rows);
    var tree := train(x, y);
    match tree {
      case None => r := Failure(TrainingFailed);
      case Some(t) => r := Success(CancelGuardModel(t, FeatureNames));
    }
  }

  /** `load_model()`, given the table the CSV read produced. */
  method LoadModel(raw: DataFrame, train: Trainer) returns (r: Result<CancelGuardModel, LoadError>)
    requires raw.Valid()
    modifies raw
    ensures r == ModelFromTable(Etl.DerivedColumns(old(raw.columns)), Etl.CleanedRows(old(raw.columns), old(raw.rows)), train)
  {
    var df := Etl.LoadData(raw);
    r := TrainOnTable(df, train);
  }
}
