/** The three parameter-update rules of notebooks/Theano/updates.py, as the code
    computes them.

    Each rule returns an ordered list of (state, new value) pairs. The framework
    evaluates every right-hand side on the values held before the step and only
    then replaces the state, so a pair never sees what another pair of the same
    list assigns. The gradient of the loss with respect to the weights is an
    input vector here, of the weights' length. */
module Updates {
  import opened Vectors

  /** The pieces of state an update pair can replace. */
  datatype Target = Weights | Velocity | VelocityPrev

  /** One (state, new value) pair of an update list. */
  datatype UpdatePair = UpdatePair(target: Target, value: Vector)

  /** The value that committing the batch ps gives to the state t whose value
      before the step is current: the value of the pair naming t, or current
      when no pair names t. Every value in ps was computed before any is
      committed, so the order of the pairs does not matter. No list built here
      names a target twice (and the framework refuses such a list); taking the
      first pair for t only makes this function total. */
  function Assigned(ps: seq<UpdatePair>, t: Target, current: Vector): (v: Vector)
    ensures (forall k :: 0 <= k < |ps| ==> ps[k].target != t) ==> v == current
    ensures forall k ::
      (0 <= k < |ps| && ps[k].target == t && forall j :: 0 <= j < k ==> ps[j].target != t) ==>
      v == ps[k].value
  {
    if ps == [] then current
    else if ps[0].target == t then ps[0].value
    else
      var v := Assigned(ps[1..], t, current);
      assert forall k :: 1 <= k < |ps| ==> ps[k] == ps[1..][k - 1];
      v
  }

  // ---------------------------------------------------------------------------
  // Gradient descent: W_{t+1} = W_t - learning_rate * grad(W_t)

  /** The single pair gradient_descent_update returns. */
  function GradientDescentUpdate(weights: Vector, grad: Vector, learningRate: real): (p: UpdatePair)
    requires |grad| == |weights|
    ensures p.target == Weights && |p.value| == |weights|
    ensures forall i :: 0 <= i < |weights| ==> p.value[i] == weights[i] - learningRate * grad[i]
  {
    UpdatePair(Weights, Sub(weights, Scale(learningRate, grad)))
  }

  /** The weights after committing the gradient-descent pair. */
  function GradientDescentStep(weights: Vector, grad: Vector, learningRate: real): (w: Vector)
    requires |grad| == |weights|
    ensures |w| == |weights|
    ensures forall i :: 0 <= i < |weights| ==> w[i] == weights[i] - learningRate * grad[i]
  {
    Assigned([GradientDescentUpdate(weights, grad, learningRate)], Weights, weights)
  }

  /** A step leaves the weights where they are exactly when learning_rate * grad
      is zero in every coordinate. */
  lemma GradientDescentFixedPoint(weights: Vector, grad: Vector, learningRate: real)
    requires |grad| == |weights|
    ensures GradientDescentStep(weights, grad, learningRate) == weights <==>
      forall i :: 0 <= i < |grad| ==> learningRate * grad[i] == 0.0
  {
    var w := GradientDescentStep(weights, grad, learningRate);
    if w == weights {
      forall i | 0 <= i < |grad| ensures learningRate * grad[i] == 0.0 {
        assert w[i] == weights[i] - learningRate * grad[i];
      }
    }
  }

  /** With an all-zero gradient the weights do not change. */
  lemma GradientDescentZeroGradient(weights: Vector, learningRate: real)
    ensures GradientDescentStep(weights, Zeros(|weights|), learningRate) == weights
  {
    GradientDescentFixedPoint(weights, Zeros(|weights|), learningRate);
  }

  /** Gradient descent over a sequence of gradients, one per step. */
  function GradientDescentRun(weights: Vector, grads: seq<Vector>, learningRate: real): (w: Vector)
    requires forall k :: 0 <= k < |grads| ==> |grads[k]| == |weights|
    ensures |w| == |weights|
    decreases |grads|
  {
    if grads == [] then weights
    else
      var prev := GradientDescentRun(weights, grads[..|grads| - 1], learningRate);
      GradientDescentStep(prev, grads[|grads| - 1], learningRate)
  }

  // ---------------------------------------------------------------------------
  // Momentum, as the code computes it

  /** The two pairs momentum_method_updates returns, velocity first. The weight
      pair reads the velocity from before the step. */
  function MomentumUpdates(weights: Vector, velocity: Vector, grad: Vector,
                           learningRate: real, momentum: real): (ps: seq<UpdatePair>)
    requires |velocity| == |weights| && |grad| == |weights|
    ensures |ps| == 2 && ps[0].target == Velocity && ps[1].target == Weights
    ensures |ps[0].value| == |weights| && |ps[1].value| == |weights|
    ensures forall i :: 0 <= i < |weights| ==>
      ps[0].value[i] == momentum * velocity[i] - learningRate * grad[i]
    ensures forall i :: 0 <= i < |weights| ==> ps[1].value[i] == weights[i] + velocity[i]
  {
    [ UpdatePair(Velocity, Sub(Scale(momentum, velocity), Scale(learningRate, grad))),
      UpdatePair(Weights, Add(weights, velocity)) ]
  }

  /** The state a momentum rule acts on: the weights and their velocity. */
  datatype MomentumVars = MomentumVars(weights: Vector, velocity: Vector)

  predicate MomentumShaped(s: MomentumVars) {
    |s.velocity| == |s.weights|
  }

  /** The state right after momentum_method_updates allocates the velocity. */
  function MomentumInit(weights: Vector): (s: MomentumVars)
    ensures s.weights == weights && MomentumShaped(s) && IsZero(s.velocity)
  {
    MomentumVars(weights, Zeros(|weights|))
  }

  /** One step: commit the momentum pairs as a batch. */
  function MomentumStep(s: MomentumVars, grad: Vector, learningRate: real, momentum: real): (s': MomentumVars)
    requires MomentumShaped(s) && |grad| == |s.weights|
    ensures MomentumShaped(s') && |s'.weights| == |s.weights|
    ensures forall i :: 0 <= i < |s.weights| ==>
      s'.velocity[i] == momentum * s.velocity[i] - learningRate * grad[i]
    ensures forall i :: 0 <= i < |s.weights| ==> s'.weights[i] == s.weights[i] + s.velocity[i]
  {
    var ps := MomentumUpdates(s.weights, s.velocity, grad, learningRate, momentum);
    MomentumVars(Assigned(ps, Weights, s.weights), Assigned(ps, Velocity, s.velocity))
  }

  /** The momentum rule over a sequence of gradients, one per step. */
  function MomentumRun(s: MomentumVars, grads: seq<Vector>, learningRate: real, momentum: real): (r: MomentumVars)
    requires MomentumShaped(s)
    requires forall k :: 0 <= k < |grads| ==> |grads[k]| == |s.weights|
    ensures MomentumShaped(r) && |r.weights| == |s.weights|
    decreases |grads|
  {
    if grads == [] then s
    else
      var prev := MomentumRun(s, grads[..|grads| - 1], learningRate, momentum);
      MomentumStep(prev, grads[|grads| - 1], learningRate, momentum)
  }

  /** From the freshly allocated zero velocity, the first step does not move the
      weights, whatever the gradient. */
  lemma MomentumFirstStepKeepsWeights(weights: Vector, grad: Vector, learningRate: real, momentum: real)
    requires |grad| == |weights|
    ensures MomentumStep(MomentumInit(weights), grad, learningRate, momentum).weights == weights
  {
  }

  // ---------------------------------------------------------------------------
  // Nesterov momentum, as the code computes it

  /** The three pairs nesterov_method_updates returns: the velocity snapshot,
      the velocity, then the weights. All three read the pre-step values. */
  function NesterovUpdates(weights: Vector, velocity: Vector, velocityPrev: Vector, grad: Vector,
                           learningRate: real, momentum: real): (ps: seq<UpdatePair>)
    requires |velocity| == |weights| && |velocityPrev| == |weights| && |grad| == |weights|
    ensures |ps| == 3
    ensures ps[0].target == VelocityPrev && ps[1].target == Velocity && ps[2].target == Weights
    ensures ps[0].value == velocity
    ensures |ps[1].value| == |weights| && |ps[2].value| == |weights|
    ensures forall i :: 0 <= i < |weights| ==>
      ps[1].value[i] == momentum * velocity[i] - learningRate * grad[i]
    ensures forall i :: 0 <= i < |weights| ==>
      ps[2].value[i] == weights[i] - momentum * velocityPrev[i] + (1.0 + momentum) * velocity[i]
  {
    [ UpdatePair(VelocityPrev, velocity),
      UpdatePair(Velocity, Sub(Scale(momentum, velocity), Scale(learningRate, grad))),
      UpdatePair(Weights, Add(Sub(weights, Scale(momentum, velocityPrev)), Scale(1.0 + momentum, velocity))) ]
  }

  /** The state a Nesterov rule acts on. */
  datatype NesterovVars = NesterovVars(weights: Vector, velocity: Vector, velocityPrev: Vector)

  predicate NesterovShaped(s: NesterovVars) {
    |s.velocity| == |s.weights| && |s.velocityPrev| == |s.weights|
  }

  /** The state right after nesterov_method_updates allocates both velocities. */
  function NesterovInit(weights: Vector): (s: NesterovVars)
    ensures s.weights == weights && NesterovShaped(s)
    ensures IsZero(s.velocity) && IsZero(s.velocityPrev)
  {
    NesterovVars(weights, Zeros(|weights|), Zeros(|weights|))
  }

  /** One step: commit the Nesterov pairs as a batch. */
  function NesterovStep(s: NesterovVars, grad: Vector, learningRate: real, momentum: real): (s': NesterovVars)
    requires NesterovShaped(s) && |grad| == |s.weights|
    ensures NesterovShaped(s') && |s'.weights| == |s.weights|
    ensures s'.velocityPrev == s.velocity
    ensures forall i :: 0 <= i < |s.weights| ==>
      s'.velocity[i] == momentum * s.velocity[i] - learningRate * grad[i]
    ensures forall i :: 0 <= i < |s.weights| ==>
      s'.weights[i] == s.weights[i] - momentum * s.velocityPrev[i] + (1.0 + momentum) * s.velocity[i]
  {
    var ps := NesterovUpdates(s.weights, s.velocity, s.velocityPrev, grad, learningRate, momentum);
    assert Assigned(ps, VelocityPrev, s.velocityPrev) == ps[0].value;
    assert Assigned(ps, Velocity, s.velocity) == ps[1].value;
    assert Assigned(ps, Weights, s.weights) == ps[2].value;
    NesterovVars(Assigned(ps, Weights, s.weights),
                 Assigned(ps, Velocity, s.velocity),
                 Assigned(ps, VelocityPrev, s.velocityPrev))
  }

  /** The Nesterov rule over a sequence of gradients, one per step. */
  function NesterovRun(s: NesterovVars, grads: seq<Vector>, learningRate: real, momentum: real): (r: NesterovVars)
    requires NesterovShaped(s)
    requires forall k :: 0 <= k < |grads| ==> |grads[k]| == |s.weights|
    ensures NesterovShaped(r) && |r.weights| == |s.weights|
    decreases |grads|
  {
    if grads == [] then s
    else
      var prev := NesterovRun(s, grads[..|grads| - 1], learningRate, momentum);
      NesterovStep(prev, grads[|grads| - 1], learningRate, momentum)
  }

  /** From the freshly allocated zero velocities, the first step does not move
      the weights, whatever the gradient. */
  lemma NesterovFirstStepKeepsWeights(weights: Vector, grad: Vector, learningRate: real, momentum: real)
    requires |grad| == |weights|
    ensures NesterovStep(NesterovInit(weights), grad, learningRate, momentum).weights == weights
  {
  }

  // ---------------------------------------------------------------------------
  // The persistent state, updated in place once per step

  /** The weights and the velocity that momentum_method_updates allocates. */
  class MomentumOptimizer {
    var weights: Vector
    var velocity: Vector

    ghost predicate Valid()
      reads this
    {
      |velocity| == |weights|
    }

    function Vars(): MomentumVars
      reads this
    {
      MomentumVars(weights, velocity)
    }

    /** The velocity starts zero-filled with the weights' shape. */
    constructor (initialWeights: Vector)
      ensures Valid() && Vars() == MomentumInit(initialWeights)
    {
      weights := initialWeights;
      velocity := Zeros(|initialWeights|);
    }

    /** Build the update list from the pre-step state, then commit every pair
        at once; returns the list it committed. */
    method Step(grad: Vector, learningRate: real, momentum: real) returns (ps: seq<UpdatePair>)
      requires Valid() && |grad| == |weights|
      modifies this
      ensures Valid() && |weights| == old(|weights|)
      ensures ps == MomentumUpdates(old(weights), old(velocity), grad, learningRate, momentum)
      ensures velocity == Sub(Scale(momentum, old(velocity)), Scale(learningRate, grad))
      ensures weights == Add(old(weights), old(velocity))
      ensures Vars() == MomentumStep(old(Vars()), grad, learningRate, momentum)
    {
      ps := MomentumUpdates(weights, velocity, grad, learningRate, momentum);
      weights, velocity := Assigned(ps, Weights, weights), Assigned(ps, Velocity, velocity);
    }
  }

  /** The weights and the two velocities that nesterov_method_updates allocates. */
  class NesterovOptimizer {
    var weights: Vector
    var velocity: Vector
    var velocityPrev: Vector

    ghost predicate Valid()
      reads this
    {
      |velocity| == |weights| && |velocityPrev| == |weights|
    }

    function Vars(): NesterovVars
      reads this
    {
      NesterovVars(weights, velocity, velocityPrev)
    }

    /** Both velocities start zero-filled with the weights' shape. */
    constructor (initialWeights: Vector)
      ensures Valid() && Vars() == NesterovInit(initialWeights)
    {
      weights := initialWeights;
      velocity := Zeros(|initialWeights|);
      velocityPrev := Zeros(|initialWeights|);
    }

    /** Build the update list from the pre-step state, then commit every pair
        at once; returns the list it committed. */
    method Step(grad: Vector, learningRate: real, momentum: real) returns (ps: seq<UpdatePair>)
      requires Valid() && |grad| == |weights|
      modifies this
      ensures Valid() && |weights| == old(|weights|)
      ensures ps == NesterovUpdates(old(weights), old(velocity), old(velocityPrev), grad, learningRate, momentum)
      ensures velocityPrev == old(velocity)
      ensures velocity == Sub(Scale(momentum, old(velocity)), Scale(learningRate, grad))
      ensures weights == Add(Sub(old(weights), Scale(momentum, old(velocityPrev))),
                             Scale(1.0 + momentum, old(velocity)))
      ensures Vars() == NesterovStep(old(Vars()), grad, learningRate, momentum)
    {
      ps := NesterovUpdates(weights, velocity, velocityPrev, grad, learningRate, momentum);
      weights, velocity, velocityPrev :=
        Assigned(ps, Weights, weights), Assigned(ps, Velocity, velocity), Assigned(ps, VelocityPrev, velocityPrev);
    }
  }
}
