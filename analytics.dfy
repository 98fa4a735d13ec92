/** Predictive analytics: sliding-window training pairs, a regressor and scaler loaded from
    or saved next to `model_path`, and a multi-step forecast that feeds each prediction
    back into a fixed-length window. */
module Analytics {
  import opened Wrappers
  import opened Sequences
  import opened Paths
  import opened Metrics

  // ----- Windowing ----------------------------------------------------------------------

  /** `data[-k:]`: the last `k` rows, all of them when `k` exceeds the length, and (since
      `-0` is `0`) all of them when `k` is 0. */
  function Tail<T>(data: seq<T>, k: nat): (t: seq<T>)
    ensures k == 0 || k >= |data| ==> t == data
    ensures 0 < k <= |data| ==> |t| == k
  {
    if k == 0 || k >= |data| then data else data[|data| - k..]
  }

  /** The tail is a suffix of the data. */
  lemma TailIsSuffix<T>(data: seq<T>, k: nat)
    ensures Tail(data, k) == data[|data| - |Tail(data, k)|..]
  {
  }

  /** The flattened windows `data[i:i+look_back]` for every start `i` the loop visits. */
  function Windows(data: seq<Row>, lookBack: nat): (x: seq<seq<real>>)
    ensures |x| == (if |data| > lookBack then |data| - lookBack else 0)
    decreases |data|
  {
    if |data| <= lookBack then []
    else
      var n := |data| - 1;
      Windows(data[..n], lookBack) + [Flatten(data[n - lookBack..n])]
  }

  /** Window `i` covers rows `i .. i+look_back`. */
  lemma {:induction false} WindowsAt(data: seq<Row>, lookBack: nat)
    ensures forall i | 0 <= i < |Windows(data, lookBack)| :: Windows(data, lookBack)[i] == Flatten(data[i..i + lookBack])
    decreases |data|
  {
    if |data| > lookBack {
      var n := |data| - 1;
      var front := data[..n];
      WindowsAt(front, lookBack);
      var x := Windows(data, lookBack);
      assert x == Windows(front, lookBack) + [Flatten(data[n - lookBack..n])];
      forall i | 0 <= i < |x| ensures x[i] == Flatten(data[i..i + lookBack]) {
        if i < n - lookBack {
          assert x[i] == Windows(front, lookBack)[i];
          assert front[i..i + lookBack] == data[i..i + lookBack];
        }
      }
    }
  }

  /** The row following each window. */
  function Targets(data: seq<Row>, lookBack: nat): (y: seq<Row>)
    ensures |y| == (if |data| > lookBack then |data| - lookBack else 0)
  {
    if |data| <= lookBack then [] else data[lookBack..]
  }

  /** `prepare_data`: the windows and their targets, or None when there is no window at
      all, so that `reshape(0, -1)` raises. Windows that hold no values (a look-back of 0)
      do not raise: numpy then builds an n-by-0 matrix. */
  function Prepared(data: seq<Row>, lookBack: nat): Option<(seq<seq<real>>, seq<Row>)> {
    if |data| <= lookBack then None else Some((Windows(data, lookBack), Targets(data, lookBack)))
  }

  /** `prepare_data` as the source writes it: a loop appending one window and one target
      per start index, then the reshape, which raises when no window was built. */
  method PrepareData(data: seq<Row>, lookBack: nat) returns (r: Option<(seq<seq<real>>, seq<Row>)>)
    ensures r == Prepared(data, lookBack)
  {
    var x: seq<seq<real>> := [];
    var y: seq<Row> := [];
    var count := if |data| > lookBack then |data| - lookBack else 0;
    for i := 0 to count
      invariant |x| == |y| == i
      invariant forall k | 0 <= k < i :: x[k] == Flatten(data[k..k + lookBack]) && y[k] == data[k + lookBack]
    {
      x := x + [Flatten(data[i..i + lookBack])];
      y := y + [data[i + lookBack]];
    }
    if x == [] {
      return None;
    }
    WindowsAt(data, lookBack);
    assert x == Windows(data, lookBack);
    assert y == Targets(data, lookBack);
    r := Some((x, y));
  }

  /** The pairs `prepare_data` builds: max(0, n - look_back) of them, window `i` covering
      rows `i .. i+look_back` and its target the row right after. */
  lemma PreparedPairs(data: seq<Row>, lookBack: nat)
    requires Prepared(data, lookBack).Some?
    ensures var (x, y) := Prepared(data, lookBack).value;
      && |data| > lookBack
      && |x| == |y| == |data| - lookBack
      && (forall i | 0 <= i < |x| :: x[i] == Flatten(data[i..i + lookBack]) && y[i] == data[i + lookBack])
  {
    WindowsAt(data, lookBack);
  }

  /** `prepare_data` raises exactly when the data has no row after the first window. */
  lemma PreparedNeedsData(data: seq<Row>, lookBack: nat)
    ensures Prepared(data, lookBack).None? <==> |data| <= lookBack
  {
  }

  /** With a look-back of 0 every row is a target and every window is empty. */
  lemma ZeroLookBackWindows(data: seq<Row>)
    requires data != []
    ensures var (x, y) := Prepared(data, 0).value;
      && |x| == |data| && y == data
      && forall i | 0 <= i < |x| :: x[i] == []
  {
    WindowsAt(data, 0);
    var x := Windows(data, 0);
    forall i | 0 <= i < |x| ensures x[i] == [] {
      assert data[i..i] == [];
    }
  }

  /** Each window of a rectangular matrix holds `look_back * width` values. */
  lemma WindowWidth(data: seq<Row>, width: nat, lookBack: nat, i: nat)
    requires Uniform(data, width) && i < |Windows(data, lookBack)|
    ensures |Windows(data, lookBack)[i]| == lookBack * width
  {
    WindowsAt(data, lookBack);
    var window := data[i..i + lookBack];
    assert Uniform(window, width) by {
      forall k | 0 <= k < |window| ensures |window[k]| == width { assert window[k] == data[i + k]; }
    }
    FlattenLength(window, width);
  }

  /** Consecutive windows slide by one row: window `i+1` is window `i` without its first
      row's values, followed by target `i`. */
  lemma WindowsSlide(data: seq<Row>, width: nat, lookBack: nat, i: nat)
    requires Uniform(data, width) && 0 < lookBack && i + 1 < |Windows(data, lookBack)|
    ensures var x := Windows(data, lookBack);
      |x[i]| >= width && x[i + 1] == x[i][width..] + Targets(data, lookBack)[i]
  {
    WindowsAt(data, lookBack);
    var window := data[i..i + lookBack];
    var last := data[i + lookBack];
    assert data[i + 1..i + 1 + lookBack] == window[1..] + [last];
    FlattenAppend(window[1..], [last]);
    assert Flatten([last]) == last + Flatten([last][1..]);
    assert Flatten(window) == window[0] + Flatten(window[1..]);
    assert |window[0]| == width;
  }

  // ----- Model state --------------------------------------------------------------------

  /** `model`: a regressor that was constructed but not fitted, or a fitted one that
      expects `width` input values (sklearn's `n_features_in_`). */
  datatype Regressor = Unfitted | Fitted(width: nat, id: nat)

  /** `scaler`: a fresh `MinMaxScaler()` or a fitted one. */
  datatype Scaler = FreshScaler | FittedScaler(id: nat)

  /** The file system and `joblib.load` (None when it raises). */
  datatype Storage = Storage(
    pathExists: string -> bool,
    loadScaler: string -> Option<Scaler>,
    loadRegressor: string -> Option<Regressor>)

  /** Scale a window, predict on it and map the prediction back: None when any step raises. */
  type Predictor = (Scaler, nat, seq<Row>) -> Option<Row>

  /** `os.path.join(os.path.dirname(model_path), 'scaler.pkl')`. */
  function ScalerPath(modelPath: string): string {
    Join(Dirname(modelPath), "scaler.pkl")
  }

  /** `scaler.pkl` is written to, and read from, the directory the model file is in. */
  lemma ScalerBesideModel(modelPath: string)
    ensures Dirname(ScalerPath(modelPath)) == Dirname(modelPath)
  {
    DirnameShape(modelPath);
    DirnameJoin(Dirname(modelPath), "scaler.pkl");
  }

  /** The model and scaler attributes together. */
  datatype Estimator = Estimator(model: Option<Regressor>, scaler: Scaler)

  /** Whether `load_model` gets as far as replacing the scaler: the path is set, the model
      file and `scaler.pkl` next to it both exist, and the scaler unpickles. */
  predicate ScalerLoads(modelPath: string, storage: Storage) {
    && modelPath != ""
    && storage.pathExists(modelPath)
    && storage.pathExists(ScalerPath(modelPath))
    && storage.loadScaler(ScalerPath(modelPath)).Some?
  }

  /** Whether `load_model` succeeds: the scaler loads, and then the model unpickles too. */
  predicate LoadSucceeds(modelPath: string, storage: Storage) {
    ScalerLoads(modelPath, storage) && storage.loadRegressor(modelPath).Some?
  }

  /** The attributes after `load_model`: the scaler is loaded first and stays loaded even
      when the model then fails to load. */
  function AfterLoad(e: Estimator, modelPath: string, storage: Storage): (after: Estimator)
    ensures ScalerLoads(modelPath, storage) ==> after.scaler == storage.loadScaler(ScalerPath(modelPath)).value
    ensures !ScalerLoads(modelPath, storage) ==> after == e
    ensures LoadSucceeds(modelPath, storage) ==> after.model == storage.loadRegressor(modelPath) && after.model.Some?
    ensures !LoadSucceeds(modelPath, storage) ==> after.model == e.model
  {
    var scalerPath := ScalerPath(modelPath);
    if modelPath == "" || !storage.pathExists(modelPath) || !storage.pathExists(scalerPath) then e
    else match storage.loadScaler(scalerPath)
      case None => e
      case Some(scaler) =>
        match storage.loadRegressor(modelPath)
        case None => Estimator(e.model, scaler)
        case Some(model) => Estimator(Some(model), scaler)
  }

  /** Whether `train` gets as far as a fitted regressor: the windows exist, hold at least
      one value each (sklearn's `fit` rejects a matrix with no features), and fit. */
  predicate Fits(data: Option<seq<Row>>, columns: nat, lookBack: nat,
                 fitScaler: seq<Row> -> Option<(nat, seq<Row>)>, fit: (seq<seq<real>>, seq<Row>) -> Option<nat>) {
    && data.Some? && columns > 0 && fitScaler(data.value).Some?
    && var pairs := Prepared(fitScaler(data.value).value.1, lookBack);
    pairs.Some? && pairs.value.0[0] != [] && fit(pairs.value.0, pairs.value.1).Some?
  }

  /** The attributes after `train`: reading the feature columns fails (None) or there is
      no first column to use as the target: nothing changes. A refit of the scaler that
      raises leaves it unfitted, since `MinMaxScaler.fit` resets it before checking the
      data. Otherwise the scaler is refit; then building the windows may raise, keeping the old
      model; then a new regressor is assigned before fitting, so a failed fit (or windows
      with no values) leaves an unfitted one, and a fitted one expects as many inputs as a
      window holds. */
  function AfterTrain(e: Estimator, data: Option<seq<Row>>, columns: nat, lookBack: nat,
                      fitScaler: seq<Row> -> Option<(nat, seq<Row>)>,
                      fit: (seq<seq<real>>, seq<Row>) -> Option<nat>): (after: Estimator)
    ensures data.None? || columns == 0 ==> after == e
    ensures data.Some? && columns > 0 && fitScaler(data.value).None? ==> after == Estimator(e.model, FreshScaler)
    ensures data.Some? && columns > 0 && fitScaler(data.value).Some? ==>
      var scaled := fitScaler(data.value).value;
      && after.scaler == FittedScaler(scaled.0)
      && (|scaled.1| <= lookBack ==> after.model == e.model)
      && (|scaled.1| > lookBack && !Fits(data, columns, lookBack, fitScaler, fit) ==> after.model == Some(Unfitted))
    ensures Fits(data, columns, lookBack, fitScaler, fit) ==>
      var scaled := fitScaler(data.value).value;
      && after.model.Some? && after.model.value.Fitted?
      && after.model.value.width == |Prepared(scaled.1, lookBack).value.0[0]|
  {
    if data.None? || columns == 0 then e
    else match fitScaler(data.value)
      case None => Estimator(e.model, FreshScaler)
      case Some((scalerId, scaled)) =>
        var scaler := FittedScaler(scalerId);
        match Prepared(scaled, lookBack)
        case None => Estimator(e.model, scaler)
        case Some((x, y)) =>
          if x[0] == [] then Estimator(Some(Unfitted), scaler)
          else match fit(x, y)
            case None => Estimator(Some(Unfitted), scaler)
            case Some(id) => Estimator(Some(Fitted(|x[0]|, id)), scaler)
  }

  /** After a scaler refit that raises, every prediction fails until the model is trained
      or loaded again: `scaler.transform` rejects an unfitted scaler. */
  lemma FailedRefitStopsPredictions(e: Estimator, data: Option<seq<Row>>, columns: nat, lookBack: nat,
                                    fitScaler: seq<Row> -> Option<(nat, seq<Row>)>,
                                    fit: (seq<seq<real>>, seq<Row>) -> Option<nat>,
                                    window: seq<Row>, predictor: Predictor)
    requires data.Some? && columns > 0 && fitScaler(data.value).None?
    ensures var after := AfterTrain(e, data, columns, lookBack, fitScaler, fit);
      Predict(after.model, after.scaler, window, lookBack, predictor).None?
  {
  }

  /** With a look-back of 0 on data that has rows, `train` leaves an unfitted regressor,
      whatever model was there before. */
  lemma ZeroLookBackLeavesUnfitted(e: Estimator, data: seq<Row>, columns: nat,
                                   fitScaler: seq<Row> -> Option<(nat, seq<Row>)>,
                                   fit: (seq<seq<real>>, seq<Row>) -> Option<nat>)
    requires columns > 0 && fitScaler(data).Some? && fitScaler(data).value.1 != []
    ensures AfterTrain(e, Some(data), columns, 0, fitScaler, fit)
      == Estimator(Some(Unfitted), FittedScaler(fitScaler(data).value.0))
  {
    ZeroLookBackWindows(fitScaler(data).value.1);
  }

  /** A regressor trained on a matrix of `columns` columns expects `look_back * columns`
      inputs. */
  lemma TrainedWidth(e: Estimator, data: Option<seq<Row>>, columns: nat, lookBack: nat,
                     fitScaler: seq<Row> -> Option<(nat, seq<Row>)>, fit: (seq<seq<real>>, seq<Row>) -> Option<nat>)
    requires Fits(data, columns, lookBack, fitScaler, fit)
    requires Uniform(fitScaler(data.value).value.1, columns)
    ensures AfterTrain(e, data, columns, lookBack, fitScaler, fit).model.value.width == lookBack * columns
  {
    var scaled := fitScaler(data.value).value.1;
    WindowWidth(scaled, columns, lookBack, 0);
  }

  /** One row appended and the oldest dropped: `np.vstack([window[1:], row])`. */
  function Shift(window: seq<Row>, row: Row): (w: seq<Row>)
    ensures window != [] ==> |w| == |window|
    ensures |w| >= 1 && w[|w| - 1] == row
  {
    (if window == [] then [] else window[1..]) + [row]
  }

  /** A window shifted once per row. */
  function Advance(window: seq<Row>, rows: seq<Row>): seq<Row>
    decreases |rows|
  {
    if rows == [] then window else Advance(Shift(window, rows[0]), rows[1..])
  }

  /** Shifting keeps the last `|window|` rows of everything seen so far. */
  lemma {:induction false} AdvanceKeepsLastRows(window: seq<Row>, rows: seq<Row>)
    requires window != []
    ensures Advance(window, rows) == (window + rows)[|rows|..]
    decreases |rows|
  {
    if rows != [] {
      var shifted := Shift(window, rows[0]);
      AdvanceKeepsLastRows(shifted, rows[1..]);
      assert shifted + rows[1..] == (window + rows)[1..];
      assert (window + rows)[1..][|rows| - 1..] == (window + rows)[|rows|..];
    } else {
      assert window + rows == window;
    }
  }

  lemma {:induction false} AdvanceAppend(window: seq<Row>, rows: seq<Row>, row: Row)
    ensures Advance(window, rows + [row]) == Shift(Advance(window, rows), row)
    decreases |rows|
  {
    if rows == [] {
      assert ([] + [row])[1..] == [];
    } else {
      assert (rows + [row])[0] == rows[0] && (rows + [row])[1..] == rows[1..] + [row];
      AdvanceAppend(Shift(window, rows[0]), rows[1..], row);
    }
  }

  class PredictiveAnalytics {
    /** `model_path`; the empty string stands for an unset (falsy) path. */
    const modelPath: string
    var model: Option<Regressor>
    var scaler: Scaler
    /** The files `joblib.dump` wrote, oldest first. */
    var written: seq<string>

    constructor (modelPath: string)
      ensures this.modelPath == modelPath && model == None && scaler == FreshScaler && written == []
    {
      this.modelPath := modelPath;
      model := None;
      scaler := FreshScaler;
      written := [];
    }

    /** `load_model`: see `LoadSucceeds` and `AfterLoad`. */
    method LoadModel(storage: Storage) returns (loaded: bool)
      modifies this
      ensures loaded == LoadSucceeds(modelPath, storage)
      ensures Estimator(model, scaler) == AfterLoad(Estimator(old(model), old(scaler)), modelPath, storage)
      ensures written == old(written)
    {
      if modelPath == "" || !storage.pathExists(modelPath) {
        return false;
      }
      var scalerPath := ScalerPath(modelPath);
      if !storage.pathExists(scalerPath) {
        return false;
      }
      var newScaler := storage.loadScaler(scalerPath);
      if newScaler.None? {
        return false;
      }
      scaler := newScaler.value;
      var newModel := storage.loadRegressor(modelPath);
      if newModel.None? {
        return false;
      }
      model := newModel;
      loaded := true;
    }

    /** `train`: the model and scaler change as `AfterTrain` says; when a regressor was
        fitted and the path is set, the model and then the scaler are dumped, and a failed
        dump makes the result false. */
    method Train(data: Option<seq<Row>>, columns: nat, lookBack: nat,
                 fitScaler: seq<Row> -> Option<(nat, seq<Row>)>,
                 fit: (seq<seq<real>>, seq<Row>) -> Option<nat>,
                 dump: string -> bool) returns (ok: bool)
      modifies this
      ensures Estimator(model, scaler)
        == AfterTrain(Estimator(old(model), old(scaler)), data, columns, lookBack, fitScaler, fit)
      ensures var fitted := Fits(data, columns, lookBack, fitScaler, fit);
        var paths := [modelPath, ScalerPath(modelPath)];
        && (!fitted ==> !ok && written == old(written))
        && (fitted && modelPath == "" ==> ok && written == old(written))
        && (fitted && modelPath != "" ==>
              && ok == (dump(paths[0]) && dump(paths[1]))
              && written == old(written) + (if !dump(paths[0]) then [] else if !dump(paths[1]) then paths[..1] else paths))
    {
      if data.None? || columns == 0 {
        return false;
      }
      var scaling := fitScaler(data.value);
      if scaling.None? {
        scaler := FreshScaler;
        return false;
      }
      scaler := FittedScaler(scaling.value.0);
      var pairs := PrepareData(scaling.value.1, lookBack);
      if pairs.None? {
        return false;
      }
      var (x, y) := pairs.value;
      model := Some(Unfitted);
      if x[0] == [] {
        return false;
      }
      var id := fit(x, y);
      if id.None? {
        return false;
      }
      model := Some(Fitted(|x[0]|, id.value));
      if modelPath != "" {
        if !dump(modelPath) {
          return false;
        }
        written := written + [modelPath];
        var scalerPath := ScalerPath(modelPath);
        if !dump(scalerPath) {
          return false;
        }
        written := written + [scalerPath];
      }
      ok := true;
    }

    /** `forecast_next_days`: None without a model; otherwise the forecast from the last
        `look_back` rows of `data`. */
    method ForecastNextDays(data: seq<Row>, columns: nat, days: nat, lookBack: nat, predictor: Predictor)
      returns (r: Option<seq<Row>>)
      ensures r == (if model.None? then None else ForecastFrom(model, scaler, Tail(data, lookBack), columns, days, lookBack, predictor))
    {
      if model.None? {
        return None;
      }
      r := Forecast(model, scaler, Tail(data, lookBack), columns, days, lookBack, predictor);
    }
  }

  /** The forecasting loop of `forecast_next_days`: predict, stack the prediction under
      the window, drop the oldest row, `days` times. */
  method Forecast(model: Option<Regressor>, scaler: Scaler, start: seq<Row>, columns: nat, days: nat, lookBack: nat, predictor: Predictor)
    returns (r: Option<seq<Row>>)
    ensures r == ForecastFrom(model, scaler, start, columns, days, lookBack, predictor)
  {
    var window := start;
    ghost var full := ForecastFrom(model, scaler, window, columns, days, lookBack, predictor);
    var forecasts: seq<Row> := [];
    var day := 0;
    while day < days
      invariant 0 <= day <= days
      invariant ForecastSplit(full, forecasts, ForecastFrom(model, scaler, window, columns, days - day, lookBack, predictor))
    {
      var next := Predict(model, scaler, window, lookBack, predictor);
      if next.None? {
        ForecastFirst(model, scaler, window, columns, days - day, lookBack, predictor);
        break;
      }
      if |next.value| != columns {
        ForecastFirst(model, scaler, window, columns, days - day, lookBack, predictor);
        return None;
      }
      ForecastAdvance(model, scaler, full, forecasts, window, columns, days - day, lookBack, predictor);
      forecasts := forecasts + [next.value];
      window := Shift(window, next.value);
      day := day + 1;
    }
    assert forecasts + [] == forecasts;
    r := Some(forecasts);
  }

  /** `predict`: None without a model, with an unfitted model or scaler, when the last
      `look_back` rows do not hold exactly as many values as the regressor was fitted on,
      or when the predictor raises. */
  function Predict(model: Option<Regressor>, scaler: Scaler, window: seq<Row>, lookBack: nat, predictor: Predictor): (r: Option<Row>)
    ensures r.Some? ==>
      && model.Some? && model.value.Fitted? && scaler.FittedScaler?
      && |Flatten(Tail(window, lookBack))| == model.value.width
      && r == predictor(scaler, model.value.id, Tail(window, lookBack))
  {
    match model
    case None => None
    case Some(Unfitted) => None
    case Some(Fitted(width, id)) =>
      if scaler.FreshScaler? then None
      else
        var input := Tail(window, lookBack);
        if |Flatten(input)| != width then None else predictor(scaler, id, input)
  }

  /** The forecast from `window` for `days` more steps: stop at the first failed
      prediction, keeping earlier ones; None when a prediction's width does not match the
      window's `columns` (the stacking raises). */
  function ForecastFrom(model: Option<Regressor>, scaler: Scaler, window: seq<Row>, columns: nat, days: nat, lookBack: nat, predictor: Predictor): Option<seq<Row>>
    decreases days
  {
    if days == 0 then Some([])
    else match Predict(model, scaler, window, lookBack, predictor)
      case None => Some([])
      case Some(next) =>
        if |next| != columns then None
        else match ForecastFrom(model, scaler, Shift(window, next), columns, days - 1, lookBack, predictor)
          case None => None
          case Some(rest) => Some([next] + rest)
  }

  /** The first step of a forecast of at least one day. */
  lemma ForecastFirst(model: Option<Regressor>, scaler: Scaler, window: seq<Row>, columns: nat, days: nat, lookBack: nat, predictor: Predictor)
    requires days > 0
    ensures var next := Predict(model, scaler, window, lookBack, predictor);
      var f := ForecastFrom(model, scaler, window, columns, days, lookBack, predictor);
      && (next.None? ==> f == Some([]))
      && (next.Some? && |next.value| != columns ==> f == None)
      && (next.Some? && |next.value| == columns ==>
            var rest := ForecastFrom(model, scaler, Shift(window, next.value), columns, days - 1, lookBack, predictor);
            f == if rest.None? then None else Some([next.value] + rest.value))
  {
  }

  /** `full` is the forecast made so far followed by the forecast still to come. */
  ghost predicate ForecastSplit(full: Option<seq<Row>>, done: seq<Row>, rest: Option<seq<Row>>) {
    (full.None? <==> rest.None?) && (rest.Some? ==> full.value == done + rest.value)
  }

  /** A successful step moves one row from the forecast to come to the forecast made. */
  lemma ForecastAdvance(model: Option<Regressor>, scaler: Scaler, full: Option<seq<Row>>, done: seq<Row>,
                        window: seq<Row>, columns: nat, days: nat, lookBack: nat, predictor: Predictor)
    requires days > 0
    requires ForecastSplit(full, done, ForecastFrom(model, scaler, window, columns, days, lookBack, predictor))
    requires var next := Predict(model, scaler, window, lookBack, predictor); next.Some? && |next.value| == columns
    ensures var next := Predict(model, scaler, window, lookBack, predictor).value;
      ForecastSplit(full, done + [next], ForecastFrom(model, scaler, Shift(window, next), columns, days - 1, lookBack, predictor))
  {
    ForecastFirst(model, scaler, window, columns, days, lookBack, predictor);
    var next := Predict(model, scaler, window, lookBack, predictor).value;
    var rest := ForecastFrom(model, scaler, Shift(window, next), columns, days - 1, lookBack, predictor);
    if rest.Some? {
      assert done + ([next] + rest.value) == (done + [next]) + rest.value;
    }
  }

  /** A forecast has at most `days` rows, each of `columns` values. */
  lemma {:induction false} ForecastShape(model: Option<Regressor>, scaler: Scaler, window: seq<Row>, columns: nat, days: nat, lookBack: nat, predictor: Predictor)
    requires ForecastFrom(model, scaler, window, columns, days, lookBack, predictor).Some?
    ensures var f := ForecastFrom(model, scaler, window, columns, days, lookBack, predictor).value;
      |f| <= days && Uniform(f, columns)
    decreases days
  {
    if days > 0 && Predict(model, scaler, window, lookBack, predictor).Some? {
      var next := Predict(model, scaler, window, lookBack, predictor).value;
      ForecastShape(model, scaler, Shift(window, next), columns, days - 1, lookBack, predictor);
    }
  }

  /** Row `k` of a forecast is the prediction on the window after its first `k` rows
      were fed back. */
  lemma {:induction false} ForecastStep(model: Option<Regressor>, scaler: Scaler, window: seq<Row>, columns: nat, days: nat, lookBack: nat, predictor: Predictor, k: nat)
    requires ForecastFrom(model, scaler, window, columns, days, lookBack, predictor).Some?
    requires k < |ForecastFrom(model, scaler, window, columns, days, lookBack, predictor).value|
    ensures var f := ForecastFrom(model, scaler, window, columns, days, lookBack, predictor).value;
      Predict(model, scaler, Advance(window, f[..k]), lookBack, predictor) == Some(f[k])
    decreases k
  {
    var f := ForecastFrom(model, scaler, window, columns, days, lookBack, predictor).value;
    var next := Predict(model, scaler, window, lookBack, predictor).value;
    var shifted := Shift(window, next);
    var rest := ForecastFrom(model, scaler, shifted, columns, days - 1, lookBack, predictor).value;
    assert f == [next] + rest;
    if k > 0 {
      ForecastStep(model, scaler, shifted, columns, days - 1, lookBack, predictor, k - 1);
      assert f[..k][0] == next && f[..k][1..] == rest[..k - 1];
      assert Advance(window, f[..k]) == Advance(shifted, rest[..k - 1]);
    } else {
      assert f[..0] == [];
    }
  }

  /** A forecast is short of `days` rows only because the prediction on the window after
      all its rows were fed back failed. */
  lemma {:induction false} ForecastStopsAtFailure(model: Option<Regressor>, scaler: Scaler, window: seq<Row>, columns: nat, days: nat, lookBack: nat, predictor: Predictor)
    requires ForecastFrom(model, scaler, window, columns, days, lookBack, predictor).Some?
    ensures var f := ForecastFrom(model, scaler, window, columns, days, lookBack, predictor).value;
      |f| < days ==> Predict(model, scaler, Advance(window, f), lookBack, predictor).None?
    decreases days
  {
    var f := ForecastFrom(model, scaler, window, columns, days, lookBack, predictor).value;
    if days > 0 && Predict(model, scaler, window, lookBack, predictor).Some? {
      var next := Predict(model, scaler, window, lookBack, predictor).value;
      var shifted := Shift(window, next);
      ForecastStopsAtFailure(model, scaler, shifted, columns, days - 1, lookBack, predictor);
      var rest := ForecastFrom(model, scaler, shifted, columns, days - 1, lookBack, predictor).value;
      assert f == [next] + rest;
      assert f[0] == next && f[1..] == rest;
      assert Advance(window, f) == Advance(shifted, rest);
    }
  }

  /** With a window of at least one row, every prediction sees a window of the same
      length: the last `|window|` rows of the initial window followed by the forecasts. */
  lemma WindowLengthInvariant(window: seq<Row>, forecasts: seq<Row>, k: nat)
    requires window != [] && k <= |forecasts|
    ensures Advance(window, forecasts[..k]) == (window + forecasts[..k])[k..]
    ensures |Advance(window, forecasts[..k])| == |window|
  {
    AdvanceKeepsLastRows(window, forecasts[..k]);
  }
}
