/** `train_and_save_models`: builds the dataset, refuses an empty one, then
    trains the four classifiers in their fixed order and keeps the first
    with the highest test accuracy.  Training and scoring are opaque: the
    model and accuracy each name yields are given by `fit`. */
module Training {
  import opened Wrappers
  import Features
  import Ravdess

  /** The keys of the `models` dictionary, in insertion order. */
  const ModelNames: seq<string> := ["Random Forest", "Logistic Regression", "SVM", "LightGBM"]

  /** A trained classifier, its name and its accuracy on the test split. */
  datatype Candidate<M> = Candidate(name: string, model: M, acc: real)

  /** The selection loop's three variables. */
  datatype Selection<M> = Selection(model: Option<M>, acc: real, name: string)

  datatype TrainError = NoValidData

  /** `k` is the first candidate whose accuracy is positive and not beaten:
      all others score at most as much, and all earlier ones strictly less. */
  predicate IsFirstBest<M>(cands: seq<Candidate<M>>, k: nat)
  {
    k < |cands| && cands[k].acc > 0.0 &&
    (forall j :: 0 <= j < |cands| ==> cands[j].acc <= cands[k].acc) &&
    (forall j :: 0 <= j < k ==> cands[j].acc < cands[k].acc)
  }

  /** Index of the candidate the loop keeps: one replaces the current best
      only by a strictly greater accuracy, starting from 0. */
  function Best<M>(cands: seq<Candidate<M>>): (r: Option<nat>)
    ensures r.Some? ==> r.value < |cands|
  {
    if |cands| == 0 then None
    else
      var prev := Best(cands[..|cands| - 1]);
      var bestAcc := if prev.Some? then cands[prev.value].acc else 0.0;
      if cands[|cands| - 1].acc > bestAcc then Some(|cands| - 1) else prev
  }

  /** The loop's variables once it has seen `cands`. */
  function Selected<M>(cands: seq<Candidate<M>>): Selection<M>
  {
    match Best(cands)
    case None => Selection(None, 0.0, "")
    case Some(k) => Selection(Some(cands[k].model), cands[k].acc, cands[k].name)
  }

  /** The kept candidate is the first of highest accuracy, and nothing is
      kept exactly when no accuracy exceeds 0. */
  lemma {:induction false} BestIsFirstMaximum<M>(cands: seq<Candidate<M>>)
    ensures Best(cands) == None <==> forall j :: 0 <= j < |cands| ==> cands[j].acc <= 0.0
    ensures Best(cands).Some? ==> IsFirstBest(cands, Best(cands).value)
  {
    if |cands| > 0 {
      var init := cands[..|cands| - 1];
      BestIsFirstMaximum(init);
      assert forall j :: 0 <= j < |init| ==> init[j] == cands[j];
    }
  }

  /** At most one candidate is the first best. */
  lemma FirstBestUnique<M>(cands: seq<Candidate<M>>, k: nat, l: nat)
    requires IsFirstBest(cands, k) && IsFirstBest(cands, l)
    ensures k == l
  {
  }

  /** The selection loop of `train_and_save_models`. */
  method SelectBest<M>(cands: seq<Candidate<M>>) returns (bestModel: Option<M>, bestAcc: real, bestName: string)
    ensures Selection(bestModel, bestAcc, bestName) == Selected(cands)
    ensures bestModel.None? <==> forall j :: 0 <= j < |cands| ==> cands[j].acc <= 0.0
    ensures bestModel.None? ==> bestAcc == 0.0 && bestName == ""
    ensures bestModel.Some? ==> IsFirstBest(cands, Best(cands).value)
  {
    bestModel, bestAcc, bestName := None, 0.0, "";
    for i := 0 to |cands|
      invariant Selection(bestModel, bestAcc, bestName) == Selected(cands[..i])
    {
      assert cands[..i + 1][..i] == cands[..i];
      var c := cands[i];
      if c.acc > bestAcc {
        bestAcc := c.acc;
        bestModel := Some(c.model);
        bestName := c.name;
      }
    }
    assert cands[..|cands|] == cands;
    BestIsFirstMaximum(cands);
  }

  /** The four candidates, trained in dictionary order on the dataset. */
  function Candidates<M>(fit: (string, seq<seq<real>>, seq<string>) -> (M, real),
                         features: seq<seq<real>>, labels: seq<string>): (c: seq<Candidate<M>>)
    ensures |c| == |ModelNames|
    ensures forall i :: 0 <= i < |c| ==> c[i].name == ModelNames[i]
  {
    seq(|ModelNames|, i requires 0 <= i < |ModelNames| =>
      Candidate(ModelNames[i], fit(ModelNames[i], features, labels).0, fit(ModelNames[i], features, labels).1))
  }

  /** `train_and_save_models`, returning what it would pickle as the best
      model.  An empty dataset raises instead of training. */
  method TrainAndSave<M>(entries: seq<Ravdess.Entry>, load: string -> Option<seq<real>>, lib: Features.Librosa,
                         fit: (string, seq<seq<real>>, seq<string>) -> (M, real))
    returns (r: Result<Selection<M>, TrainError>)
    ensures r.Err? <==> |Ravdess.Tallied(entries, load, lib).features| == 0
    ensures r.Ok? ==>
      var t := Ravdess.Tallied(entries, load, lib);
      r.value == Selected(Candidates(fit, t.features, t.labels))
  {
    var features, labels, total, skipped := Ravdess.BuildDataset(entries, load, lib);
    if |features| == 0 {
      return Err(NoValidData);
    }
    var cands := Candidates(fit, features, labels);
    var bestModel, bestAcc, bestName := SelectBest(cands);
    r := Ok(Selection(bestModel, bestAcc, bestName));
  }
}
