/** The per-action reward learner: recursive covariance updates and confidence-bounded predictions. */
module ContextualImpactModels {
  import opened ResourceActions
  import opened RealArithmetic
  import opened LinearAlgebra
  import opened MatrixInversion
  import opened RidgeRegression

  const DIMENSION: nat := 22
  const MINIMUM_RIDGE: real := 0.001
  const SYMMETRY_TOLERANCE: real := 0.00000001

  datatype ActionModel = ActionModel(covariance: Matrix, rewardVector: Vector, observations: int)

  datatype ImpactPrediction = ImpactPrediction(
    action: ResourceActionType,
    expectedReward: real,
    uncertainty: real,
    lowerConfidenceBound: real,
    observations: int,
    sufficientlyKnown: bool)

  const UNKNOWN := ImpactPrediction(NoAction, 0.0, 1.0, -1.0, 0, false)

  /** The model has learned exactly the evidence `history`. */
  ghost predicate Learned(model: ActionModel, ridge: real, history: seq<Evidence>) {
    && Contexts(history, DIMENSION)
    && model.covariance == CovarianceOf(ridge, history, DIMENSION)
    && model.rewardVector == RewardOf(history, DIMENSION)
    && model.observations == |history|
  }

  /** What a prediction says of context `z` after the evidence `history`. */
  ghost predicate Predicts(p: ImpactPrediction, action: ResourceActionType, ridge: real, scale: real,
                           history: seq<Evidence>, z: Vector, root: real -> real)
    requires Contexts(history, DIMENSION) && |z| == DIMENSION
  {
    exists inverse: Matrix | Square(inverse, DIMENSION) :: PredictsBy(p, inverse, action, ridge, scale, history, z,
                                                                      root)
  }

  ghost predicate PredictsBy(p: ImpactPrediction, inverse: Matrix, action: ResourceActionType, ridge: real, scale: real,
                             history: seq<Evidence>, z: Vector, root: real -> real)
    requires Contexts(history, DIMENSION) && |z| == DIMENSION && Square(inverse, DIMENSION)
  {
    && LeftInverse(inverse, CovarianceOf(ridge, history, DIMENSION), DIMENSION)
    && var reward := Dot(MulVec(inverse, RewardOf(history, DIMENSION)), z);
       var uncertainty := root(Dot(z, MulVec(inverse, z)));
       p == ImpactPrediction(action, reward, uncertainty, reward - scale * uncertainty, |history|,
                             |history| >= 20 && uncertainty <= 0.75)
  }

  lemma {:induction false} LearnsOne(model: ActionModel, ridge: real, history: seq<Evidence>, context: Vector,
                                     reward: real)
    requires Learned(model, ridge, history) && |context| == DIMENSION
    ensures Learned(ActionModel(AddOuter(model.covariance, context, DIMENSION),
                                AddScaled(model.rewardVector, reward, context), model.observations + 1),
                    ridge, history + [Evidence(context, reward)])
  {
    hide AddScaled, AddOuter;
    var after := history + [Evidence(context, reward)];
    assert after[..|after| - 1] == history;
  }

  // ----- exported state -----

  datatype ModelStateEntry = ModelStateEntry(
    action: ResourceActionType, covariance: Matrix, rewardVector: Vector, observations: int)

  datatype ModelState = ModelState(ridge: real, explorationScale: real, entries: seq<ModelStateEntry>)

  function ModelIn(entry: ModelStateEntry): ActionModel {
    ActionModel(entry.covariance, entry.rewardVector, entry.observations)
  }

  /** The models of a state: the first entry of an action counts. */
  function Restored(entries: seq<ModelStateEntry>): map<ResourceActionType, ActionModel> {
    if |entries| == 0 then map[]
    else
      var before, last := Restored(entries[..|entries| - 1]), entries[|entries| - 1];
      if last.action in before then before else before[last.action := ModelIn(last)]
  }

  ghost predicate NearlySymmetric(m: Matrix, n: nat)
    requires Square(m, n)
  {
    forall i, j | 0 <= i < n && 0 <= j < n :: Abs(m[i][j] - m[j][i]) <= SYMMETRY_TOLERANCE
  }

  ghost predicate Acceptable(entry: ModelStateEntry) {
    && entry.action != NoAction && entry.observations >= 0 && |entry.rewardVector| == DIMENSION
    && Square(entry.covariance, DIMENSION) && NearlySymmetric(entry.covariance, DIMENSION)
  }

  ghost predicate Importable(state: ModelState) {
    state.ridge > 0.0 && state.explorationScale >= 0.0 && forall i | 0 <= i < |state.entries| ::
        Acceptable(state.entries[i])
  }

  /** One entry for each model, in some order. */
  ghost predicate Lists(entries: seq<ModelStateEntry>, models: map<ResourceActionType, ActionModel>) {
    && (forall i, j | 0 <= i < j < |entries| :: entries[i].action != entries[j].action)
    && (forall i | 0 <= i < |entries| ::
          entries[i].action in models && models[entries[i].action] == ModelIn(entries[i]))
    && (forall a | a in models :: exists i | 0 <= i < |entries| :: entries[i].action == a)
  }

  /** Part of the way: the models of `remaining` are still to be listed. */
  ghost predicate ListsAllBut(entries: seq<ModelStateEntry>, models: map<ResourceActionType, ActionModel>,
                              remaining: set<ResourceActionType>)
  {
    && (forall i, j | 0 <= i < j < |entries| :: entries[i].action != entries[j].action)
    && (forall i | 0 <= i < |entries| ::
          entries[i].action !in remaining && entries[i].action in models
          && models[entries[i].action] == ModelIn(entries[i]))
    && (forall a | a in models :: a in remaining || exists i | 0 <= i < |entries| :: entries[i].action == a)
  }

  lemma {:induction false} ListsOneMore(entries: seq<ModelStateEntry>, models: map<ResourceActionType, ActionModel>,
                                        remaining: set<ResourceActionType>, entry: ModelStateEntry)
    requires ListsAllBut(entries, models, remaining) && entry.action in remaining && entry.action in models
    requires models[entry.action] == ModelIn(entry)
    ensures ListsAllBut(entries + [entry], models, remaining - {entry.action})
  {
    hide ModelIn;
    var more := entries + [entry];
    forall a | a in models && a !in remaining - {entry.action}
      ensures exists i | 0 <= i < |more| :: more[i].action == a
    {
      if a == entry.action {
        assert more[|entries|].action == a;
      } else {
        var i :| 0 <= i < |entries| && entries[i].action == a;
        assert more[i].action == a;
      }
    }
  }

  ghost predicate AllLearned(models: map<ResourceActionType, ActionModel>, ridge: real,
                             evidence: map<ResourceActionType, seq<Evidence>>)
  {
    evidence.Keys == models.Keys && forall a | a in models :: Learned(models[a], ridge, evidence[a])
  }

  /** Which states can be imported. */
  lemma {:induction false} ImportableMeans(state: ModelState)
    ensures Importable(state) <==>
            && state.ridge > 0.0 && state.explorationScale >= 0.0
            && forall entry | entry in state.entries ::
                 && entry.action != NoAction && entry.observations >= 0
                 && |entry.rewardVector| == |entry.covariance| == 22
                 && (forall i | 0 <= i < 22 :: |entry.covariance[i]| == 22)
                 && forall i, j | 0 <= i < 22 && 0 <= j < 22 ::
                      -0.00000001 <= entry.covariance[i][j] - entry.covariance[j][i] <= 0.00000001
  {
  }

  lemma {:induction false} RestoredKeys(entries: seq<ModelStateEntry>, a: ResourceActionType)
    ensures a in Restored(entries) <==> exists i | 0 <= i < |entries| :: entries[i].action == a
  {
    hide ModelIn;
    if |entries| > 0 {
      var n := |entries| - 1;
      RestoredKeys(entries[..n], a);
      assert (exists i | 0 <= i < |entries| :: entries[i].action == a) <==>
             entries[n].action == a || exists i | 0 <= i < n :: entries[..n][i].action == a;
    }
  }

  /** Of several entries for one action the first one counts. */
  lemma {:induction false} RestoredAt(entries: seq<ModelStateEntry>, i: nat)
    requires i < |entries| && forall j | 0 <= j < i :: entries[j].action != entries[i].action
    ensures entries[i].action in Restored(entries)
    ensures var model := Restored(entries)[entries[i].action];
            && model.covariance == entries[i].covariance && model.rewardVector == entries[i].rewardVector
            && model.observations == entries[i].observations
  {
    var n := |entries| - 1;
    RestoredKeys(entries[..n], entries[n].action);
    if i < n {
      RestoredAt(entries[..n], i);
      assert entries[..n][i] == entries[i];
      assert entries[i].action in Restored(entries[..n]);
    }
  }

  lemma {:induction false} ListsAreRestored(entries: seq<ModelStateEntry>, models: map<ResourceActionType, ActionModel>)
    requires Lists(entries, models)
    ensures Restored(entries) == models
  {
    hide Restored;
    forall a: ResourceActionType
      ensures a in Restored(entries) <==> a in models
      ensures a in models ==> Restored(entries)[a] == models[a]
    {
      RestoredKeys(entries, a);
      if a in models {
        var i :| 0 <= i < |entries| && entries[i].action == a;
        RestoredAt(entries, i);
      }
    }
  }

  /**
   * The export of a model can be imported exactly when no prediction was ever asked for the empty
   * action, and then it restores every model; with the same evidence behind it, so does everything
   * that the evidence promises.
   */
  lemma {:induction false} ExportImports(state: ModelState, models: map<ResourceActionType, ActionModel>,
                                         evidence: map<ResourceActionType, seq<Evidence>>)
    requires state.ridge >= MINIMUM_RIDGE && state.explorationScale >= 0.0
    requires Lists(state.entries, models) && AllLearned(models, state.ridge, evidence)
    ensures Importable(state) <==> NoAction !in models
    ensures Restored(state.entries) == models
  {
    hide Learned, CovarianceOf, Restored, Acceptable;
    ListsAreRestored(state.entries, models);
    forall i | 0 <= i < |state.entries|
      ensures Acceptable(state.entries[i]) <==> state.entries[i].action != NoAction
    {
      var a := state.entries[i].action;
      assert Learned(models[a], state.ridge, evidence[a]);
      LearnedIsAcceptable(state.entries[i], state.ridge, evidence[a]);
    }
  }

  lemma {:induction false} LearnedIsAcceptable(entry: ModelStateEntry, ridge: real, history: seq<Evidence>)
    requires Learned(ModelIn(entry), ridge, history)
    ensures Acceptable(entry) <==> entry.action != NoAction
  {
    CovarianceSymmetric(ridge, history, DIMENSION);
    hide CovarianceOf, RewardOf;
    assert NearlySymmetric(entry.covariance, DIMENSION);
  }

  class ContextualImpactModel {
    var ridge: real
    var explorationScale: real
    var models: map<ResourceActionType, ActionModel>
    ghost var evidence: map<ResourceActionType, seq<Evidence>>

    ghost predicate Valid()
      reads this
    {
      && ridge >= MINIMUM_RIDGE
      && explorationScale >= 0.0
      && AllLearned(models, ridge, evidence)
    }

    /** All the evidence recorded for an action since construction. */
    ghost function History(action: ResourceActionType): (h: seq<Evidence>)
      requires Valid()
      reads this
      ensures Contexts(h, DIMENSION)
    {
      if action in evidence then evidence[action] else []
    }

    constructor (ridge: real, explorationScale: real)
      ensures Valid()
      ensures this.ridge == Max(MINIMUM_RIDGE, ridge) && this.explorationScale == Max(0.0, explorationScale)
      ensures forall a :: History(a) == []
    {
      this.ridge := Max(MINIMUM_RIDGE, ridge);
      this.explorationScale := Max(0.0, explorationScale);
      models, evidence := map[], map[];
    }

    method EnsureModel(action: ResourceActionType)
      requires Valid()
      modifies this
      ensures Valid() && models.Keys == old(models.Keys) + {action}
      ensures ridge == old(ridge) && explorationScale == old(explorationScale)
      ensures forall a :: History(a) == old(History(a))
    {
      if action !in models {
        var covariance := seq(DIMENSION, _ => seq(DIMENSION, _ => 0.0));
        for index := 0 to DIMENSION
          invariant Square(covariance, DIMENSION)
          invariant forall i, j | 0 <= i < DIMENSION && 0 <= j < DIMENSION ::
              covariance[i][j] == if i == j && i < index then ridge else 0.0
        {
          covariance := covariance[index := covariance[index][index := ridge]];
        }
        forall i | 0 <= i < DIMENSION
          ensures covariance[i] == Diagonal(DIMENSION, ridge)[i]
        {
          assert forall j | 0 <= j < DIMENSION :: covariance[i][j] == Scaled(ridge, Unit(DIMENSION, i))[j];
        }
        var rewardVector := seq(DIMENSION, _ => 0.0);
        assert rewardVector == Zeros(DIMENSION);
        models := models[action := ActionModel(covariance, rewardVector, 0)];
        evidence := evidence[action := []];
      }
    }

    static method DotProduct(left: Vector, right: Vector) returns (value: real)
      ensures value == Dot(left, right)
    {
      hide Times;
      value := 0.0;
      var size := if |left| < |right| then |left| else |right|;
      for index := 0 to size
        invariant value + Dot(left[index..], right[index..]) == Dot(left, right)
      {
        value := value + Times(left[index], right[index]);
      }
    }

    static method Multiply(matrix: Matrix, input: Vector) returns (result: Vector)
      ensures result == MulVec(matrix, input)
    {
      result := seq(|matrix|, _ => 0.0);
      for row := 0 to |matrix|
        invariant |result| == |matrix|
        invariant forall i | 0 <= i < row :: result[i] == Dot(matrix[i], input)
      {
        var value := DotProduct(matrix[row], input);
        result := result[row := value];
      }
    }

    /**
     * The inversion never fails and the quantity under the root is never negative, so every context
     * of the right size gets a genuine prediction.
     */
    method Predict(action: ResourceActionType, context: Vector, root: real -> real) returns (p: ImpactPrediction)
      requires Valid() && IsRoot(root)
      modifies this
      ensures Valid() && ridge == old(ridge) && explorationScale == old(explorationScale)
      ensures forall a :: History(a) == old(History(a))
      ensures |context| != DIMENSION ==>
          p == ImpactPrediction(action, 0.0, 1.0, -1.0, 0, false) && models == old(models)
      ensures |context| == DIMENSION ==>
          && Predicts(p, action, ridge, explorationScale, History(action), context, root)
          && models.Keys == old(models.Keys) + {action}
      ensures |context| == DIMENSION ==>
          && p.expectedReward - p.lowerConfidenceBound == explorationScale * p.uncertainty >= 0.0
          && p.action == action && p.observations == |History(action)|
          && (p.sufficientlyKnown <==> |History(action)| >= 20 && p.uncertainty <= 0.75)
    {
      p := UNKNOWN.(action := action);
      if |context| != DIMENSION {
        return;
      }
      EnsureModel(action);
      p := PredictWith(models[action], action, context, root, ridge, explorationScale, History(action));
      ConfidenceMargin(p, action, ridge, explorationScale, History(action), context, root);
    }

    static method PredictWith(model: ActionModel, action: ResourceActionType, context: Vector, root: real -> real,
                              ghost ridge: real, scale: real, ghost history: seq<Evidence>)
      returns (p: ImpactPrediction)
      requires |context| == DIMENSION && IsRoot(root)
      requires ridge >= MINIMUM_RIDGE && Learned(model, ridge, history)
      ensures Predicts(p, action, ridge, scale, history, context, root)
    {
      hide Dot, Times, MulVec, CovarianceOf, RewardOf, Form;
      p := UNKNOWN.(action := action);
      CovarianceRegular(ridge, history, DIMENSION);
      var ok, inverse := Invert(model.covariance);
      if !ok {
        return;
      }
      var weights := Multiply(inverse, model.rewardVector);
      var projected := Multiply(inverse, context);
      var expected := DotProduct(weights, context);
      var squared := DotProduct(context, projected);
      UncertaintyNonNegative(ridge, history, inverse, context, DIMENSION);
      var uncertainty := root(Max(0.0, squared));
      p := ImpactPrediction(action, expected, uncertainty, expected - scale * uncertainty,
                            model.observations, model.observations >= 20 && uncertainty <= 0.75);
      assert PredictsBy(p, inverse, action, ridge, scale, history, context, root);
    }

    method Update(action: ResourceActionType, context: Vector, measuredReward: real) returns (ok: bool)
      requires Valid()
      modifies this
      ensures Valid() && ridge == old(ridge) && explorationScale == old(explorationScale)
      ensures ok <==> action != NoAction && |context| == DIMENSION
      ensures ok ==>
          History(action) == old(History(action)) + [Evidence(context, Clamp(measuredReward, -2.0, 2.0))]
      ensures forall a | !ok || a != action :: History(a) == old(History(a))
    {
      hide AddScaled, AddOuter, CovarianceOf, RewardOf;
      if action == NoAction || |context| != DIMENSION {
        return false;
      }
      var reward := Clamp(measuredReward, -2.0, 2.0);
      EnsureModel(action);
      var model := models[action];
      ghost var before := evidence[action];
      var rewardVector, covariance := Accumulate(model, context, reward);
      ghost var after := before + [Evidence(context, reward)];
      LearnsOne(model, ridge, before, context, reward);
      models := models[action := ActionModel(covariance, rewardVector, model.observations + 1)];
      evidence := evidence[action := after];
      ok := true;
    }

    /** The in-place update loop: one outer product and one scaled context are added. */
    static method Accumulate(model: ActionModel, context: Vector, reward: real)
      returns (rewardVector: Vector, covariance: Matrix)
      requires |context| == |model.rewardVector| == DIMENSION && Square(model.covariance, DIMENSION)
      ensures rewardVector == AddScaled(model.rewardVector, reward, context)
      ensures covariance == AddOuter(model.covariance, context, DIMENSION)
    {
      hide Times;
      rewardVector, covariance := model.rewardVector, model.covariance;
      for row := 0 to |context|
        invariant |rewardVector| == DIMENSION && Square(covariance, DIMENSION)
        invariant forall i | 0 <= i < DIMENSION ::
            rewardVector[i] == model.rewardVector[i] + if i < row then Times(reward, context[i]) else 0.0
        invariant forall i | 0 <= i < DIMENSION ::
            covariance[i] == if i < row then AddScaled(model.covariance[i], context[i], context)
                else model.covariance[i]
      {
        rewardVector := rewardVector[row := rewardVector[row] + Times(reward, context[row])];
        for column := 0 to |context|
          invariant Square(covariance, DIMENSION)
          invariant forall i | 0 <= i < DIMENSION && i != row ::
              covariance[i] == if i < row then AddScaled(model.covariance[i], context[i], context)
                  else model.covariance[i]
          invariant forall j | 0 <= j < DIMENSION ::
              covariance[row][j] == model.covariance[row][j] + if j < column
                  then Times(context[row], context[j]) else 0.0
        {
          covariance := covariance[row :=
            covariance[row][column := covariance[row][column] + Times(context[row], context[column])]];
        }
        assert covariance[row] == AddScaled(model.covariance[row], context[row], context);
      }
    }

    method ExportState() returns (state: ModelState)
      ensures state.ridge == ridge && state.explorationScale == explorationScale
      ensures Lists(state.entries, models)
    {
      var remaining := models.Keys;
      var entries: seq<ModelStateEntry> := [];
      while remaining != {}
        invariant remaining <= models.Keys
        invariant ListsAllBut(entries, models, remaining)
        decreases remaining
      {
        var key :| key in remaining;
        var model := models[key];
        var entry := ModelStateEntry(key, model.covariance, model.rewardVector, model.observations);
        ListsOneMore(entries, models, remaining, entry);
        entries := entries + [entry];
        remaining := remaining - {key};
      }
      state := ModelState(ridge, explorationScale, entries);
    }

    static method CheckEntry(entry: ModelStateEntry) returns (ok: bool)
      ensures ok <==> Acceptable(entry)
    {
      if entry.action == NoAction || entry.observations < 0 || |entry.rewardVector| != DIMENSION
         || |entry.covariance| != DIMENSION {
        return false;
      }
      for row := 0 to DIMENSION
        invariant forall i | 0 <= i < row :: |entry.covariance[i]| == DIMENSION
      {
        if |entry.covariance[row]| != DIMENSION {
          return false;
        }
      }
      for row := 0 to DIMENSION
        invariant forall i, j | 0 <= i < row && 0 <= j < DIMENSION ::
            Abs(entry.covariance[i][j] - entry.covariance[j][i]) <= SYMMETRY_TOLERANCE
      {
        for column := 0 to DIMENSION
          invariant forall j | 0 <= j < column ::
              Abs(entry.covariance[row][j] - entry.covariance[j][row]) <= SYMMETRY_TOLERANCE
        {
          if Abs(entry.covariance[row][column] - entry.covariance[column][row]) > SYMMETRY_TOLERANCE {
            return false;
          }
        }
      }
      return true;
    }

    /** Accepts exactly the importable states; a rejected one leaves the model as it was. */
    method ImportState(state: ModelState, ghost histories: map<ResourceActionType, seq<Evidence>>) returns (ok: bool)
      modifies this
      ensures ok <==> Importable(state)
      ensures ok ==> state.ridge > 0.0 && state.explorationScale >= 0.0
      ensures !ok ==> unchanged(this)
      ensures ok ==>
          && ridge == state.ridge && explorationScale == state.explorationScale
          && models == Restored(state.entries) && evidence == histories
      ensures ok && ridge >= MINIMUM_RIDGE && AllLearned(models, ridge, histories) ==> Valid()
    {
      hide Learned, Acceptable;
      if state.ridge <= 0.0 || state.explorationScale < 0.0 {
        return false;
      }
      var restored: map<ResourceActionType, ActionModel> := map[];
      for k := 0 to |state.entries|
        invariant unchanged(this) && restored == Restored(state.entries[..k])
        invariant forall i | 0 <= i < k :: Acceptable(state.entries[i])
      {
        var entry := state.entries[k];
        var accepted := CheckEntry(entry);
        if !accepted {
          return false;
        }
        assert state.entries[..k + 1][..k] == state.entries[..k];
        if entry.action !in restored {
          restored := restored[entry.action := ActionModel(entry.covariance, entry.rewardVector, entry.observations)];
        }
      }
      assert state.entries[..|state.entries|] == state.entries;
      ridge, explorationScale, models := state.ridge, state.explorationScale, restored;
      evidence := histories;
      ok := true;
    }
  }

  // ----- what the predictions mean -----

  /** The evidence determines the prediction. */
  lemma {:induction false} PredictionUnique(p: ImpactPrediction, p': ImpactPrediction, action: ResourceActionType,
                                            ridge: real,
                         scale: real, history: seq<Evidence>, z: Vector, root: real -> real)
    requires Contexts(history, DIMENSION) && |z| == DIMENSION
    requires Predicts(p, action, ridge, scale, history, z, root)
    requires Predicts(p', action, ridge, scale, history, z, root)
    ensures p == p'
  {
    hide Dot, Times, MulVec, CovarianceOf, RewardOf;
    var m, b := CovarianceOf(ridge, history, DIMENSION), RewardOf(history, DIMENSION);
    var inverse :| Square(inverse, DIMENSION) && PredictsBy(p, inverse, action, ridge, scale, history, z, root);
    var inverse' :| Square(inverse', DIMENSION) && PredictsBy(p', inverse', action, ridge, scale, history, z, root);
    CovarianceSymmetric(ridge, history, DIMENSION);
    InverseSolves(inverse, m, b, DIMENSION);
    LeftInverseCancels(inverse', m, MulVec(inverse, b), DIMENSION);
    InverseSolves(inverse, m, z, DIMENSION);
    LeftInverseCancels(inverse', m, MulVec(inverse, z), DIMENSION);
  }

  /**
   * The gates of a prediction: the bound lies below the expected reward by the scaled uncertainty, and an
   * action is known after twenty observations if the uncertainty is small enough.
   */
  lemma {:induction false} ConfidenceMargin(p: ImpactPrediction, action: ResourceActionType, ridge: real, scale: real,
                                            history: seq<Evidence>, z: Vector, root: real -> real)
    requires Contexts(history, DIMENSION) && |z| == DIMENSION && ridge >= MINIMUM_RIDGE && scale >= 0.0
    requires IsRoot(root) && Predicts(p, action, ridge, scale, history, z, root)
    ensures p.uncertainty >= 0.0 && p.lowerConfidenceBound <= p.expectedReward
    ensures p.expectedReward - p.lowerConfidenceBound == scale * p.uncertainty >= 0.0
    ensures p.action == action && p.observations == |history|
    ensures p.sufficientlyKnown <==> p.observations >= 20 && p.uncertainty <= 0.75
  {
    hide Dot, Times, MulVec, CovarianceOf, RewardOf;
    var inverse :| Square(inverse, DIMENSION) && PredictsBy(p, inverse, action, ridge, scale, history, z, root);
    UncertaintyNonNegative(ridge, history, inverse, z, DIMENSION);
    TimesIsProduct(scale, p.uncertainty);
    TimesSign(scale, p.uncertainty);
  }

  /**
   * What the lower confidence bound means: it is the least reward that any weights predict which fit the
   * evidence within the square of the scale of the best fit.
   */
  lemma {:induction false} LowerBoundIsWorstCase(p: ImpactPrediction, action: ResourceActionType, ridge: real,
                                                 scale: real, history: seq<Evidence>, z: Vector, root: real -> real)
    requires Contexts(history, DIMENSION) && |z| == DIMENSION && ridge >= MINIMUM_RIDGE && scale >= 0.0
    requires IsRoot(root) && Predicts(p, action, ridge, scale, history, z, root)
    ensures forall v: Vector | |v| == DIMENSION && FitsWithin(ridge, history, v, scale * scale) ::
        Dot(v, z) >= p.lowerConfidenceBound
    ensures exists v: Vector | |v| == DIMENSION && FitsWithin(ridge, history, v, scale * scale) ::
        Dot(v, z) == p.lowerConfidenceBound
  {
    hide Dot, MulVec, CovarianceOf, RewardOf, FitsWithin;
    var inverse :| Square(inverse, DIMENSION) && PredictsBy(p, inverse, action, ridge, scale, history, z, root);
    UncertaintyNonNegative(ridge, history, inverse, z, DIMENSION);
    forall v: Vector | |v| == DIMENSION && FitsWithin(ridge, history, v, scale * scale)
      ensures Dot(v, z) >= p.lowerConfidenceBound
    {
      BoundIsWorstCase(ridge, history, inverse, z, v, scale, p.uncertainty, DIMENSION);
    }
    var v := BoundIsAttained(ridge, history, inverse, z, scale, p.uncertainty, DIMENSION);
  }

  /** Whatever is recorded next for an action, its uncertainty about any context does not rise. */
  lemma {:induction false} UncertaintyNeverRises(p: ImpactPrediction, p': ImpactPrediction, action: ResourceActionType,
                                                 ridge: real, scale: real, history: seq<Evidence>, more: seq<Evidence>,
                                                 z: Vector, root: real -> real)
    requires Contexts(history, DIMENSION) && Contexts(more, DIMENSION) && Contexts(history + more, DIMENSION)
    requires |z| == DIMENSION && ridge >= MINIMUM_RIDGE
    ensures IsRoot(root) && Predicts(p, action, ridge, scale, history, z, root)
            && Predicts(p', action, ridge, scale, history + more, z, root)
            ==> 0.0 <= p'.uncertainty <= p.uncertainty
  {
    if IsRoot(root) && Predicts(p, action, ridge, scale, history, z, root)
       && Predicts(p', action, ridge, scale, history + more, z, root) {
      hide Dot, Times;
      var inverse :| Square(inverse, DIMENSION) && PredictsBy(p, inverse, action, ridge, scale, history, z, root);
      var inverse' :| Square(inverse', DIMENSION)
        && PredictsBy(p', inverse', action, ridge, scale, history + more, z, root);
      UncertaintyNonNegative(ridge, history + more, inverse', z, DIMENSION);
      UncertaintyFalls(ridge, history, more, inverse, inverse', z, DIMENSION);
      RootMonotone(root, Dot(z, MulVec(inverse', z)), Dot(z, MulVec(inverse, z)));
    }
  }

  /** Nor does the distance of the bound from the expected reward widen. */
  lemma {:induction false} MarginNeverWidens(p: ImpactPrediction, p': ImpactPrediction, action: ResourceActionType,
                                             ridge: real, scale: real, history: seq<Evidence>, more: seq<Evidence>,
                                             z: Vector, root: real -> real)
    requires Contexts(history, DIMENSION) && Contexts(more, DIMENSION) && Contexts(history + more, DIMENSION)
    requires |z| == DIMENSION && ridge >= MINIMUM_RIDGE && scale >= 0.0 && IsRoot(root)
    requires Predicts(p, action, ridge, scale, history, z, root)
    requires Predicts(p', action, ridge, scale, history + more, z, root)
    ensures p'.expectedReward - p'.lowerConfidenceBound <= p.expectedReward - p.lowerConfidenceBound
  {
    hide Predicts;
    UncertaintyNeverRises(p, p', action, ridge, scale, history, more, z, root);
    ConfidenceMargin(p, action, ridge, scale, history, z, root);
    ConfidenceMargin(p', action, ridge, scale, history + more, z, root);
    SmallerMargin(scale, p.uncertainty, p'.uncertainty, p.expectedReward - p.lowerConfidenceBound,
                  p'.expectedReward - p'.lowerConfidenceBound);
  }

  lemma SmallerMargin(scale: real, u: real, u': real, margin: real, margin': real)
    requires scale >= 0.0 && u' <= u && margin == scale * u && margin' == scale * u'
    ensures margin' <= margin
  {
    assert margin - margin' == scale * (u - u');
  }

  /** The expected reward is that of the unique linear fit with the least penalised squared error. */
  lemma {:induction false} ExpectedRewardIsBestFit(p: ImpactPrediction, action: ResourceActionType, ridge: real,
                                                   scale: real,
                                history: seq<Evidence>, z: Vector, root: real -> real)
    requires Contexts(history, DIMENSION) && |z| == DIMENSION && ridge >= MINIMUM_RIDGE
    requires Predicts(p, action, ridge, scale, history, z, root)
    ensures exists weights: Vector | |weights| == DIMENSION ::
        && p.expectedReward == Dot(weights, z)
        && forall v: Vector | |v| == DIMENSION && v != weights ::
             Loss(ridge, history, weights) < Loss(ridge, history, v)
  {
    hide Dot, Times, Loss;
    var inverse :| Square(inverse, DIMENSION) && PredictsBy(p, inverse, action, ridge, scale, history, z, root);
    var weights := MulVec(inverse, RewardOf(history, DIMENSION));
    forall v: Vector | |v| == DIMENSION && v != weights
      ensures Loss(ridge, history, weights) < Loss(ridge, history, v)
    {
      WeightsMinimiseLoss(ridge, history, inverse, v, DIMENSION);
    }
  }
}
