/** The recurrences the docstrings of notebooks/Theano/updates.py state, and how
    the code's batch updates relate to them.

    Momentum's docstring says W_{t+1} = W_t + V_{t+1}; the code's weight pair
    reads the velocity from before the step, so W_{t+1} = W_t + V_t. The
    sequential look-ahead form of Nesterov momentum is
    X_{t+1} = X_t - momentum * V_t + (1 + momentum) * V_{t+1}; the code's weight
    pair uses the velocity snapshot and the velocity from before the step. For
    a given gradient sequence, the code's momentum weights trail the docstring's
    recurrence by exactly one step, and the code's Nesterov weights trail the
    look-ahead form (not the docstring's Nesterov recurrence) by exactly one
    step. When each gradient depends on the current weights, the code instead
    works with a gradient one step out of date, and these lags are not exact. */
module Documented {
  import opened Vectors
  import opened Updates

  // ---------------------------------------------------------------------------
  // Momentum as its docstring states it

  /** V_{t+1} = momentum * V_t - learning_rate * grad;  W_{t+1} = W_t + V_{t+1}. */
  function DocMomentumStep(s: MomentumVars, grad: Vector, learningRate: real, momentum: real): (s': MomentumVars)
    requires MomentumShaped(s) && |grad| == |s.weights|
    ensures MomentumShaped(s') && |s'.weights| == |s.weights|
    ensures forall i :: 0 <= i < |s.weights| ==>
      s'.velocity[i] == momentum * s.velocity[i] - learningRate * grad[i]
    ensures forall i :: 0 <= i < |s.weights| ==> s'.weights[i] == s.weights[i] + s'.velocity[i]
  {
    var v := Sub(Scale(momentum, s.velocity), Scale(learningRate, grad));
    MomentumVars(Add(s.weights, v), v)
  }

  function DocMomentumRun(s: MomentumVars, grads: seq<Vector>, learningRate: real, momentum: real): (r: MomentumVars)
    requires MomentumShaped(s)
    requires forall k :: 0 <= k < |grads| ==> |grads[k]| == |s.weights|
    ensures MomentumShaped(r) && |r.weights| == |s.weights|
    decreases |grads|
  {
    if grads == [] then s
    else
      var prev := DocMomentumRun(s, grads[..|grads| - 1], learningRate, momentum);
      DocMomentumStep(prev, grads[|grads| - 1], learningRate, momentum)
  }

  /** The code and the docstring compute the same velocity; their weights agree
      after a step exactly when the step leaves the velocity unchanged. */
  lemma MomentumStepVersusDocstring(s: MomentumVars, grad: Vector, learningRate: real, momentum: real)
    requires MomentumShaped(s) && |grad| == |s.weights|
    ensures MomentumStep(s, grad, learningRate, momentum).velocity ==
            DocMomentumStep(s, grad, learningRate, momentum).velocity
    ensures MomentumStep(s, grad, learningRate, momentum).weights ==
            DocMomentumStep(s, grad, learningRate, momentum).weights
        <==> MomentumStep(s, grad, learningRate, momentum).velocity == s.velocity
  {
    var c := MomentumStep(s, grad, learningRate, momentum);
    var d := DocMomentumStep(s, grad, learningRate, momentum);
    if c.weights == d.weights {
      forall i | 0 <= i < |s.weights| ensures c.velocity[i] == s.velocity[i] {
        assert c.weights[i] == d.weights[i];
      }
    }
  }

  /** From the zero velocity, the code and the docstring disagree on the first
      step's weights unless learning_rate * grad is zero in every coordinate. */
  lemma MomentumFirstStepDiverges(weights: Vector, grad: Vector, learningRate: real, momentum: real)
    requires |grad| == |weights|
    ensures MomentumStep(MomentumInit(weights), grad, learningRate, momentum).weights ==
            DocMomentumStep(MomentumInit(weights), grad, learningRate, momentum).weights
        <==> forall i :: 0 <= i < |grad| ==> learningRate * grad[i] == 0.0
  {
    var s := MomentumInit(weights);
    MomentumStepVersusDocstring(s, grad, learningRate, momentum);
    var c := MomentumStep(s, grad, learningRate, momentum);
    if c.velocity == s.velocity {
      forall i | 0 <= i < |grad| ensures learningRate * grad[i] == 0.0 {
        assert c.velocity[i] == s.velocity[i];
      }
    }
    if forall i :: 0 <= i < |grad| ==> learningRate * grad[i] == 0.0 {
      assert forall i :: 0 <= i < |grad| ==> c.velocity[i] == s.velocity[i];
    }
  }

  /** One step of the lag: if the code's weights equal the docstring's from one
      step earlier and the velocities agree, the same holds after one more step. */
  lemma MomentumLagStep(c: MomentumVars, d: MomentumVars, gPrev: Vector, g: Vector,
                        learningRate: real, momentum: real)
    requires MomentumShaped(c) && MomentumShaped(d)
    requires |c.weights| == |d.weights| && |gPrev| == |d.weights| && |g| == |d.weights|
    requires c.weights == d.weights
    requires c.velocity == DocMomentumStep(d, gPrev, learningRate, momentum).velocity
    ensures MomentumStep(c, g, learningRate, momentum).weights ==
            DocMomentumStep(d, gPrev, learningRate, momentum).weights
    ensures MomentumStep(c, g, learningRate, momentum).velocity ==
            DocMomentumStep(DocMomentumStep(d, gPrev, learningRate, momentum), g, learningRate, momentum).velocity
  {
    var d' := DocMomentumStep(d, gPrev, learningRate, momentum);
    MomentumStepVersusDocstring(c, g, learningRate, momentum);
    MomentumStepVersusDocstring(d', g, learningRate, momentum);
    var c' := MomentumStep(c, g, learningRate, momentum);
    assert forall i :: 0 <= i < |c.weights| ==> c'.weights[i] == d'.weights[i];
  }

  /** With a gradient per step, the code's weights after n + 1 steps are the
      docstring's weights after n steps, and the velocities agree at every step. */
  lemma {:induction false} MomentumLagsDocstring(weights: Vector, grads: seq<Vector>, learningRate: real, momentum: real)
    requires |grads| >= 1
    requires forall k :: 0 <= k < |grads| ==> |grads[k]| == |weights|
    ensures MomentumRun(MomentumInit(weights), grads, learningRate, momentum).weights ==
            DocMomentumRun(MomentumInit(weights), grads[..|grads| - 1], learningRate, momentum).weights
    ensures MomentumRun(MomentumInit(weights), grads, learningRate, momentum).velocity ==
            DocMomentumRun(MomentumInit(weights), grads, learningRate, momentum).velocity
    decreases |grads|
  {
    var s := MomentumInit(weights);
    var n := |grads|;
    var prefix := grads[..n - 1];
    var g := grads[n - 1];
    if n == 1 {
      assert prefix == [];
      MomentumFirstStepKeepsWeights(weights, g, learningRate, momentum);
      MomentumStepVersusDocstring(s, g, learningRate, momentum);
    } else {
      MomentumLagsDocstring(weights, prefix, learningRate, momentum);
      assert prefix[..n - 2] == grads[..n - 2];
      var cPrev := MomentumRun(s, prefix, learningRate, momentum);
      var dPrev2 := DocMomentumRun(s, grads[..n - 2], learningRate, momentum);
      assert DocMomentumRun(s, prefix, learningRate, momentum) ==
             DocMomentumStep(dPrev2, prefix[n - 2], learningRate, momentum);
      MomentumLagStep(cPrev, dPrev2, prefix[n - 2], g, learningRate, momentum);
    }
  }

  /** For a given gradient sequence, the code's and the docstring's weights
      agree after n >= 1 steps exactly when the docstring's velocity after n
      steps is zero: the two diverge from the first step onwards. */
  lemma MomentumDivergesEveryStep(weights: Vector, grads: seq<Vector>, learningRate: real, momentum: real)
    requires |grads| >= 1
    requires forall k :: 0 <= k < |grads| ==> |grads[k]| == |weights|
    ensures MomentumRun(MomentumInit(weights), grads, learningRate, momentum).weights ==
            DocMomentumRun(MomentumInit(weights), grads, learningRate, momentum).weights
        <==> IsZero(DocMomentumRun(MomentumInit(weights), grads, learningRate, momentum).velocity)
  {
    var s := MomentumInit(weights);
    var n := |grads|;
    MomentumLagsDocstring(weights, grads, learningRate, momentum);
    var c := MomentumRun(s, grads, learningRate, momentum);
    var dPrev := DocMomentumRun(s, grads[..n - 1], learningRate, momentum);
    var d := DocMomentumRun(s, grads, learningRate, momentum);
    assert d == DocMomentumStep(dPrev, grads[n - 1], learningRate, momentum);
    assert forall i :: 0 <= i < |weights| ==> d.weights[i] == c.weights[i] + d.velocity[i];
    if c.weights == d.weights {
      assert forall i :: 0 <= i < |weights| ==> d.velocity[i] == 0.0;
    }
    if IsZero(d.velocity) {
      assert forall i :: 0 <= i < |weights| ==> d.weights[i] == c.weights[i];
    }
  }

  /** With momentum 0 the docstring's recurrence is gradient descent. */
  lemma {:induction false} DocMomentumZeroIsGradientDescent(weights: Vector, grads: seq<Vector>, learningRate: real)
    requires forall k :: 0 <= k < |grads| ==> |grads[k]| == |weights|
    ensures DocMomentumRun(MomentumInit(weights), grads, learningRate, 0.0).weights ==
            GradientDescentRun(weights, grads, learningRate)
    decreases |grads|
  {
    if grads != [] {
      var n := |grads|;
      DocMomentumZeroIsGradientDescent(weights, grads[..n - 1], learningRate);
      var prev := DocMomentumRun(MomentumInit(weights), grads[..n - 1], learningRate, 0.0);
      var d := DocMomentumStep(prev, grads[n - 1], learningRate, 0.0);
      var w := GradientDescentStep(prev.weights, grads[n - 1], learningRate);
      assert forall i :: 0 <= i < |weights| ==> d.weights[i] == w[i];
    }
  }

  /** With momentum 0 and a given gradient sequence, the code does not reduce to
      gradient descent: its first step leaves the weights alone and after that
      it trails gradient descent by one step. */
  lemma MomentumZeroLagsGradientDescent(weights: Vector, grads: seq<Vector>, learningRate: real)
    requires |grads| >= 1
    requires forall k :: 0 <= k < |grads| ==> |grads[k]| == |weights|
    ensures MomentumRun(MomentumInit(weights), grads, learningRate, 0.0).weights ==
            GradientDescentRun(weights, grads[..|grads| - 1], learningRate)
  {
    MomentumLagsDocstring(weights, grads, learningRate, 0.0);
    DocMomentumZeroIsGradientDescent(weights, grads[..|grads| - 1], learningRate);
  }

  // ---------------------------------------------------------------------------
  // Nesterov momentum: the docstring and the look-ahead form

  /** The docstring's recurrence, with the gradient taken at the shifted point:
      V_{t+1} = momentum * V_t - learning_rate * grad(W_t + momentum * V_t);
      W_{t+1} = W_t + V_{t+1}. The gradient is a function of the point here. */
  function DocNesterovStep(s: MomentumVars, gradAt: Vector -> Vector, learningRate: real, momentum: real): (s': MomentumVars)
    requires MomentumShaped(s)
    requires |gradAt(Add(s.weights, Scale(momentum, s.velocity)))| == |s.weights|
    ensures MomentumShaped(s') && |s'.weights| == |s.weights|
    ensures forall i :: 0 <= i < |s.weights| ==>
      s'.velocity[i] == momentum * s.velocity[i] -
        learningRate * gradAt(Add(s.weights, Scale(momentum, s.velocity)))[i]
    ensures forall i :: 0 <= i < |s.weights| ==> s'.weights[i] == s.weights[i] + s'.velocity[i]
  {
    var v := Sub(Scale(momentum, s.velocity),
                 Scale(learningRate, gradAt(Add(s.weights, Scale(momentum, s.velocity)))));
    MomentumVars(Add(s.weights, v), v)
  }

  /** The look-ahead form applied one assignment after another (the velocity
      first, then the weights with the new velocity):
      V_{t+1} = momentum * V_t - learning_rate * grad(X_t);
      X_{t+1} = X_t - momentum * V_t + (1 + momentum) * V_{t+1}. */
  function LookAheadStep(s: MomentumVars, grad: Vector, learningRate: real, momentum: real): (s': MomentumVars)
    requires MomentumShaped(s) && |grad| == |s.weights|
    ensures MomentumShaped(s') && |s'.weights| == |s.weights|
    ensures forall i :: 0 <= i < |s.weights| ==>
      s'.velocity[i] == momentum * s.velocity[i] - learningRate * grad[i]
    ensures forall i :: 0 <= i < |s.weights| ==>
      s'.weights[i] == s.weights[i] - momentum * s.velocity[i] + (1.0 + momentum) * s'.velocity[i]
  {
    var v := Sub(Scale(momentum, s.velocity), Scale(learningRate, grad));
    MomentumVars(Add(Sub(s.weights, Scale(momentum, s.velocity)), Scale(1.0 + momentum, v)), v)
  }

  function LookAheadRun(s: MomentumVars, grads: seq<Vector>, learningRate: real, momentum: real): (r: MomentumVars)
    requires MomentumShaped(s)
    requires forall k :: 0 <= k < |grads| ==> |grads[k]| == |s.weights|
    ensures MomentumShaped(r) && |r.weights| == |s.weights|
    decreases |grads|
  {
    if grads == [] then s
    else
      var prev := LookAheadRun(s, grads[..|grads| - 1], learningRate, momentum);
      LookAheadStep(prev, grads[|grads| - 1], learningRate, momentum)
  }

  /** The look-ahead form is the docstring's recurrence in the shifted variable
      X = W + momentum * V: a look-ahead step from X, with the gradient taken at
      X itself, lands on W' + momentum * V' and the same velocity. So the
      look-ahead form may take the gradient at its own stored point. This says
      nothing about the code, whose stored weights trail the look-ahead form. */
  lemma LookAheadIsShiftedDocNesterov(s: MomentumVars, gradAt: Vector -> Vector, learningRate: real, momentum: real)
    requires MomentumShaped(s)
    requires |gradAt(Add(s.weights, Scale(momentum, s.velocity)))| == |s.weights|
    ensures
      var x := Add(s.weights, Scale(momentum, s.velocity));
      var d := DocNesterovStep(s, gradAt, learningRate, momentum);
      LookAheadStep(MomentumVars(x, s.velocity), gradAt(x), learningRate, momentum) ==
      MomentumVars(Add(d.weights, Scale(momentum, d.velocity)), d.velocity)
  {
    var x := Add(s.weights, Scale(momentum, s.velocity));
    var d := DocNesterovStep(s, gradAt, learningRate, momentum);
    var l := LookAheadStep(MomentumVars(x, s.velocity), gradAt(x), learningRate, momentum);
    var y := Add(d.weights, Scale(momentum, d.velocity));
    assert l.velocity == d.velocity;
    forall i | 0 <= i < |s.weights| ensures l.weights[i] == y[i] {
      var v := d.velocity[i];
      calc {
        l.weights[i];
        (s.weights[i] + momentum * s.velocity[i]) - momentum * s.velocity[i] + (1.0 + momentum) * v;
        (s.weights[i] + v) + momentum * v;
        y[i];
      }
    }
  }

  /** With a gradient per step, the code's weights after n + 1 steps are the
      look-ahead form's weights after n steps; its velocity is the look-ahead
      velocity after n + 1 steps and its velocity snapshot the one after n. */
  lemma {:induction false} NesterovLagsLookAhead(weights: Vector, grads: seq<Vector>, learningRate: real, momentum: real)
    requires |grads| >= 1
    requires forall k :: 0 <= k < |grads| ==> |grads[k]| == |weights|
    ensures NesterovRun(NesterovInit(weights), grads, learningRate, momentum).weights ==
            LookAheadRun(MomentumInit(weights), grads[..|grads| - 1], learningRate, momentum).weights
    ensures NesterovRun(NesterovInit(weights), grads, learningRate, momentum).velocity ==
            LookAheadRun(MomentumInit(weights), grads, learningRate, momentum).velocity
    ensures NesterovRun(NesterovInit(weights), grads, learningRate, momentum).velocityPrev ==
            LookAheadRun(MomentumInit(weights), grads[..|grads| - 1], learningRate, momentum).velocity
    decreases |grads|
  {
    var s := NesterovInit(weights);
    var t := MomentumInit(weights);
    var n := |grads|;
    var prefix := grads[..n - 1];
    var g := grads[n - 1];
    var c := NesterovRun(s, grads, learningRate, momentum);
    var l := LookAheadRun(t, grads, learningRate, momentum);
    var lPrev := LookAheadRun(t, prefix, learningRate, momentum);
    if n == 1 {
      assert prefix == [];
      assert NesterovRun(s, prefix, learningRate, momentum) == s;
      assert lPrev == t;
      NesterovFirstStepKeepsWeights(weights, g, learningRate, momentum);
      assert c == NesterovStep(s, g, learningRate, momentum);
      assert l == LookAheadStep(t, g, learningRate, momentum);
      assert forall i :: 0 <= i < |weights| ==> c.velocity[i] == l.velocity[i];
    } else {
      NesterovLagsLookAhead(weights, prefix, learningRate, momentum);
      assert prefix[..n - 2] == grads[..n - 2];
      var cPrev := NesterovRun(s, prefix, learningRate, momentum);
      var lPrev2 := LookAheadRun(t, grads[..n - 2], learningRate, momentum);
      assert cPrev.weights == lPrev2.weights;
      assert cPrev.velocity == lPrev.velocity;
      assert cPrev.velocityPrev == lPrev2.velocity;
      assert lPrev == LookAheadStep(lPrev2, prefix[n - 2], learningRate, momentum);
      assert c == NesterovStep(cPrev, g, learningRate, momentum);
      assert c.velocity == l.velocity;
      assert forall i :: 0 <= i < |weights| ==> c.weights[i] == lPrev.weights[i];
    }
  }

  /** With momentum 0 the look-ahead form is gradient descent. */
  lemma {:induction false} LookAheadZeroIsGradientDescent(weights: Vector, grads: seq<Vector>, learningRate: real)
    requires forall k :: 0 <= k < |grads| ==> |grads[k]| == |weights|
    ensures LookAheadRun(MomentumInit(weights), grads, learningRate, 0.0).weights ==
            GradientDescentRun(weights, grads, learningRate)
    decreases |grads|
  {
    if grads != [] {
      var n := |grads|;
      LookAheadZeroIsGradientDescent(weights, grads[..n - 1], learningRate);
      var prev := LookAheadRun(MomentumInit(weights), grads[..n - 1], learningRate, 0.0);
      var l := LookAheadStep(prev, grads[n - 1], learningRate, 0.0);
      var w := GradientDescentStep(prev.weights, grads[n - 1], learningRate);
      assert forall i :: 0 <= i < |weights| ==> l.weights[i] == w[i];
    }
  }

  /** With momentum 0 and a given gradient sequence, the code's Nesterov rule
      trails gradient descent by one step. */
  lemma NesterovZeroLagsGradientDescent(weights: Vector, grads: seq<Vector>, learningRate: real)
    requires |grads| >= 1
    requires forall k :: 0 <= k < |grads| ==> |grads[k]| == |weights|
    ensures NesterovRun(NesterovInit(weights), grads, learningRate, 0.0).weights ==
            GradientDescentRun(weights, grads[..|grads| - 1], learningRate)
  {
    NesterovLagsLookAhead(weights, grads, learningRate, 0.0);
    LookAheadZeroIsGradientDescent(weights, grads[..|grads| - 1], learningRate);
  }

  // ---------------------------------------------------------------------------
  // A worked scenario: W = [1.0], grad = [2.0] at every step,
  // learning_rate = 0.1, momentum = 0.9

  /** The docstring's momentum gives V = [-0.2], W = [0.8] after one step and
      V = [-0.38], W = [0.42] after two; the code reaches W = [0.8] only after
      its second step, its first leaving W = [1.0]. */
  lemma MomentumScenario()
    ensures DocMomentumRun(MomentumInit([1.0]), [[2.0]], 0.1, 0.9) == MomentumVars([0.8], [-0.2])
    ensures DocMomentumRun(MomentumInit([1.0]), [[2.0], [2.0]], 0.1, 0.9) == MomentumVars([0.42], [-0.38])
    ensures MomentumRun(MomentumInit([1.0]), [[2.0]], 0.1, 0.9) == MomentumVars([1.0], [-0.2])
    ensures MomentumRun(MomentumInit([1.0]), [[2.0], [2.0]], 0.1, 0.9) == MomentumVars([0.8], [-0.38])
  {
  }

  /** The look-ahead form gives W = [0.62] after one step and W = [0.078] after
      two; the code reaches those weights one step later. */
  lemma NesterovScenario()
    ensures LookAheadRun(MomentumInit([1.0]), [[2.0]], 0.1, 0.9) == MomentumVars([0.62], [-0.2])
    ensures LookAheadRun(MomentumInit([1.0]), [[2.0], [2.0]], 0.1, 0.9) == MomentumVars([0.078], [-0.38])
    ensures NesterovRun(NesterovInit([1.0]), [[2.0]], 0.1, 0.9) == NesterovVars([1.0], [-0.2], [0.0])
    ensures NesterovRun(NesterovInit([1.0]), [[2.0], [2.0]], 0.1, 0.9) == NesterovVars([0.62], [-0.38], [-0.2])
    ensures NesterovRun(NesterovInit([1.0]), [[2.0], [2.0], [2.0]], 0.1, 0.9).weights == [0.078]
  {
    var t := MomentumInit([1.0]);
    var s := NesterovInit([1.0]);
    assert [[2.0], [2.0], [2.0]][..2] == [[2.0], [2.0]];
    assert [[2.0], [2.0]][..1] == [[2.0]];
    assert [[2.0]][..0] == [];
    var l1 := LookAheadRun(t, [[2.0]], 0.1, 0.9);
    assert l1.velocity[0] == -0.2 && l1.weights[0] == 0.62;
    assert l1 == MomentumVars([0.62], [-0.2]);
    var l2 := LookAheadRun(t, [[2.0], [2.0]], 0.1, 0.9);
    assert l2.velocity[0] == -0.38 && l2.weights[0] == 0.078;
    assert l2 == MomentumVars([0.078], [-0.38]);
    NesterovLagsLookAhead([1.0], [[2.0]], 0.1, 0.9);
    NesterovLagsLookAhead([1.0], [[2.0], [2.0]], 0.1, 0.9);
    NesterovLagsLookAhead([1.0], [[2.0], [2.0], [2.0]], 0.1, 0.9);
    var c1 := NesterovRun(s, [[2.0]], 0.1, 0.9);
    assert c1.velocityPrev[0] == 0.0;
    assert c1 == NesterovVars([1.0], [-0.2], [0.0]);
  }
}
