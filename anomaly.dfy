/** The anomaly detector: an isolation forest that is loaded from or saved to `model_path`,
    and whose predictions are turned into the indices of the anomalous rows. */
module AnomalyDetection {
  import opened Wrappers
  import opened Sequences
  import opened Paths
  import opened Metrics

  /** The `model` attribute's possible contents: a forest constructed but not (successfully)
      fitted, or a fitted forest, known only by an identity. */
  datatype Forest = Unfitted | Fitted(id: nat)

  /** The file system as the detector sees it: whether `os.makedirs(d, exist_ok=True)`
      succeeds for a non-empty `d`, `os.path.exists`, and `joblib.load` (None when it raises). */
  datatype Storage = Storage(
    makedirsOk: string -> bool,
    pathExists: string -> bool,
    load: string -> Option<Forest>)

  /** The indices `np.where(predictions == -1)[0]`. */
  function AnomalyIndices(predictions: seq<int>): (idx: seq<nat>)
    ensures forall j | 0 <= j < |idx| :: idx[j] < |predictions| && predictions[idx[j]] == -1
    ensures forall i | 0 <= i < |predictions| && predictions[i] == -1 :: i in idx
    ensures forall j, k | 0 <= j < k < |idx| :: idx[j] < idx[k]
  {
    Where(predictions, (x: int) => x == -1)
  }

  /** Inliers contribute nothing: the number of indices is the number of -1 labels. */
  lemma {:induction false} AnomalyCount(predictions: seq<int>)
    ensures |AnomalyIndices(predictions)| == |set i | 0 <= i < |predictions| && predictions[i] == -1|
  {
    var idx := AnomalyIndices(predictions);
    var flagged := set i | 0 <= i < |predictions| && predictions[i] == -1;
    var listed := set j | 0 <= j < |idx| :: idx[j];
    assert listed == flagged;
    DistinctCount(idx);
  }

  /** A strictly increasing sequence has as many elements as its set of values. */
  lemma {:induction false} DistinctCount(idx: seq<nat>)
    requires forall j, k | 0 <= j < k < |idx| :: idx[j] < idx[k]
    ensures |set j | 0 <= j < |idx| :: idx[j]| == |idx|
    decreases |idx|
  {
    if idx != [] {
      var front := idx[..|idx| - 1];
      DistinctCount(front);
      var all := set j | 0 <= j < |idx| :: idx[j];
      var before := set j | 0 <= j < |front| :: front[j];
      assert all == before + {idx[|idx| - 1]};
      assert idx[|idx| - 1] !in before;
    }
  }

  class AnomalyDetector {
    /** `model_path`; the empty string stands for an unset (falsy) path. */
    const modelPath: string
    var model: Option<Forest>
    /** The models `joblib.dump` wrote, with their paths, oldest first. */
    var written: seq<(string, Forest)>

    constructor (modelPath: string)
      ensures this.modelPath == modelPath && model == None && written == []
    {
      this.modelPath := modelPath;
      model := None;
      written := [];
    }

    /** `load_model`: true exactly when the model was replaced by the stored one; otherwise
        the model is left as it was. */
    method LoadModel(storage: Storage) returns (loaded: bool)
      modifies this
      ensures loaded == LoadSucceeds(modelPath, storage)
      ensures model == ModelAfterLoad(old(model), modelPath, storage)
      ensures written == old(written)
    {
      if modelPath == "" {
        return false;
      }
      var directory := Dirname(modelPath);
      if directory == "" || !storage.makedirsOk(directory) {
        return false;
      }
      if !storage.pathExists(modelPath) {
        return false;
      }
      var stored := storage.load(modelPath);
      if stored.None? {
        return false;
      }
      model := stored;
      loaded := true;
    }

    /** `train`: a fitted model is dumped only when `save_model` is set and the path is
        set, and a failed dump makes the result false. */
    method Train(data: Option<seq<Row>>, saveModel: bool, fit: seq<Row> -> Option<nat>,
                 dump: (Forest, string) -> bool) returns (ok: bool)
      modifies this
      ensures model == ModelAfterTrain(old(model), data, fit)
      ensures var saving := saveModel && modelPath != "";
        var fitted := data.Some? && fit(data.value).Some?;
        && ok == (fitted && (!saving || dump(model.value, modelPath)))
        && written == old(written) + (if fitted && saving && dump(model.value, modelPath) then [(modelPath, model.value)] else [])
    {
      if data.None? {
        return false;
      }
      model := Some(Unfitted);
      var fitted := fit(data.value);
      if fitted.None? {
        return false;
      }
      var forest := Fitted(fitted.value);
      model := Some(forest);
      if saveModel && modelPath != "" {
        if !dump(forest, modelPath) {
          return false;
        }
        written := written + [(modelPath, forest)];
      }
      ok := true;
    }

    /** `detect_anomalies`: None without a model, with an unfitted one, or when `predict`
        raises; otherwise the anomalous row indices. */
    function DetectAnomalies(data: seq<Row>, predict: (nat, seq<Row>) -> Option<seq<int>>): (r: Option<seq<nat>>)
      reads this
      ensures model.None? || model == Some(Unfitted) ==> r.None?
      ensures r.Some? <==> model.Some? && model.value.Fitted? && predict(model.value.id, data).Some?
      ensures r.Some? ==> r.value == AnomalyIndices(predict(model.value.id, data).value)
    {
      match model
      case None => None
      case Some(Unfitted) => None
      case Some(Fitted(id)) =>
        match predict(id, data)
        case None => None
        case Some(labels) => Some(AnomalyIndices(labels))
    }
  }

  /** Whether `load_model` succeeds: the path is set, its directory can be created
      (`os.makedirs("")` raises), the file exists and can be unpickled. */
  predicate LoadSucceeds(modelPath: string, storage: Storage) {
    && modelPath != ""
    && Dirname(modelPath) != ""
    && storage.makedirsOk(Dirname(modelPath))
    && storage.pathExists(modelPath)
    && storage.load(modelPath).Some?
  }

  /** The `model` attribute after `load_model`. */
  function ModelAfterLoad(model: Option<Forest>, modelPath: string, storage: Storage): (after: Option<Forest>)
    ensures LoadSucceeds(modelPath, storage) ==> after == storage.load(modelPath) && after.Some?
    ensures !LoadSucceeds(modelPath, storage) ==> after == model
  {
    if LoadSucceeds(modelPath, storage) then storage.load(modelPath) else model
  }

  /** The `model` attribute after `train`: reading the CSV (None when it or the column
      selection fails) leaves it alone; otherwise a new forest is assigned before fitting,
      so a failed fit leaves an unfitted one. */
  function ModelAfterTrain(model: Option<Forest>, data: Option<seq<Row>>, fit: seq<Row> -> Option<nat>): (after: Option<Forest>)
    ensures data.None? ==> after == model
    ensures data.Some? ==> after.Some? && (after.value.Fitted? <==> fit(data.value).Some?)
  {
    if data.None? then model
    else if fit(data.value).None? then Some(Unfitted)
    else Some(Fitted(fit(data.value).value))
  }

  /** `load_model` is false without a path, and for a path without a directory part,
      whatever is on disk. */
  lemma LoadNeedsDirectory(modelPath: string, storage: Storage)
    ensures modelPath == "" ==> !LoadSucceeds(modelPath, storage)
    ensures (forall i | 0 <= i < |modelPath| :: modelPath[i] != '/') ==> !LoadSucceeds(modelPath, storage)
  {
    DirnameEmpty(modelPath);
  }
}
