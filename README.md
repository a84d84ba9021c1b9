# Optimizer update rules, modelled in Dafny

`notebooks/Theano/updates.py` defines three update rules for a weight tensor:
plain gradient descent, momentum, and Nesterov momentum in its look-ahead
form. Each rule returns (state, new value) pairs. Gradient descent returns one
pair. Momentum returns two pairs and allocates a zero velocity of the weights'
shape. Nesterov returns three pairs and allocates a velocity and a velocity
snapshot, both zero. The framework applies a list of pairs as one batch: it
evaluates every right-hand side on the values from before the step, then
replaces them all.

The model works over `real` vectors (`seq<real>`). The gradient is an input
vector of the weights' length.

- `vectors.dfy`, module `Vectors`: element-wise sum, difference, scaling and
  zero vectors.
- `updates.dfy`, module `Updates`: what the code does.
  - Update pairs, and `Assigned`: what committing a batch assigns to each piece
    of state.
  - The three update lists, and one step and a run of steps for each rule.
  - The classes `MomentumOptimizer` and `NesterovOptimizer`. Their fields are
    the persistent state. Their constructors allocate the zero velocities. Their
    `Step` method builds the list from the pre-step fields and commits every
    pair in one simultaneous assignment.
- `documented.dfy`, module `Documented`: the recurrences the docstrings state,
  the sequential look-ahead form of Nesterov momentum, lemmas that compare the
  code with them, and a worked scenario.

## Code and documentation disagree

The model follows the code.

- **Momentum.** The docstring (lines 29-30) says `W_{t+1} = W_t + V_{t+1}`. The
  code's weight pair (lines 55-57) reads `velocity` inside the same batch, so it
  gets the old velocity: `W_{t+1} = W_t + V_t`.
  - From the zero velocity, the first step leaves the weights unchanged.
  - For a given gradient sequence, the code's weights after that trail the
    docstring's weights by exactly one step (`MomentumLagsDocstring`). After
    every step n >= 1 the two agree only when the velocity is zero
    (`MomentumDivergesEveryStep`), so they diverge from the first step onwards.
  - With momentum 0 the docstring's recurrence is gradient descent
    (`DocMomentumZeroIsGradientDescent`); the code's is not. For a given
    gradient sequence it is gradient descent delayed by one step
    (`MomentumZeroLagsGradientDescent`). In training, where each gradient
    depends on the current weights, it is gradient descent applied with a
    gradient one step out of date.
- **Nesterov.** The code's weight pair (line 102) uses the velocity snapshot and
  the velocity from before the step. The usual sequential look-ahead form uses
  `X_{t+1} = X_t - momentum*V_t + (1+momentum)*V_{t+1}` instead.
  - For a given gradient sequence, the code trails that form by exactly one
    step (`NesterovLagsLookAhead`).
  - For W = [1.0], grad = [2.0] at every step, learning rate 0.1 and momentum
    0.9, the look-ahead form gives W = 0.62, then 0.078. The code reaches these
    at its second and third steps, not its first and second
    (`NesterovScenario`).
- **Nesterov gradient point.** The docstring (line 65) takes the gradient at
  `W_t + momentum*V_t`. The code (line 82) takes it at the stored weights.
  `LookAheadIsShiftedDocNesterov` shows that the look-ahead form is the
  docstring's recurrence rewritten in the shifted variable
  `X = W + momentum*V`. So the look-ahead form may take the gradient at its
  stored point. The code, whose weights trail that form, does not: when the
  gradient depends on the weights, it takes the gradient at the look-ahead
  point of the previous step.

## Model

| member | source | states |
|---|---|---|
| `Updates.Assigned` | notebooks/Theano/updates.py:94-104 | committing a batch gives a piece of state the value of the pair naming it, and leaves it unchanged when no pair names it; no list here names a target twice, and taking the first such pair only makes the function total |
| `Updates.GradientDescentUpdate` | notebooks/Theano/updates.py:22-23 | exactly one pair; it targets the weights; its value has the weights' length and equals `weights[i] - learning_rate*grad[i]` in every coordinate |
| `Updates.GradientDescentStep` | notebooks/Theano/updates.py:10-23 | after committing the pair, the weights are `W - learning_rate*grad` element by element, with the same length |
| `Updates.GradientDescentFixedPoint` | notebooks/Theano/updates.py:23 | a step leaves the weights unchanged if and only if `learning_rate*grad` is zero in every coordinate |
| `Updates.GradientDescentZeroGradient` | notebooks/Theano/updates.py:23 | with an all-zero gradient the weights are unchanged |
| `Updates.GradientDescentRun` | notebooks/Theano/updates.py:10-23 | repeated gradient descent keeps the weights' length |
| `Updates.MomentumUpdates` | notebooks/Theano/updates.py:52-59 | exactly two pairs, the velocity pair first and then the weights pair; the velocity value is `momentum*V - learning_rate*grad` and the weights value is `W + V`, both read from the pre-step state |
| `Updates.MomentumInit` | notebooks/Theano/updates.py:46-50 | the velocity starts all zero, with the weights' length, and the weights are untouched |
| `Updates.MomentumStep` | notebooks/Theano/updates.py:52-57 | after a batch step the new velocity is `momentum*V_old - learning_rate*grad`, the new weights are `W_old + V_old` (the old velocity), and the shape is kept |
| `Updates.MomentumRun` | notebooks/Theano/updates.py:46-57 | velocity and weights keep the same shape after any number of steps |
| `Updates.MomentumFirstStepKeepsWeights` | notebooks/Theano/updates.py:46-57 | from the freshly allocated velocity, the first step leaves the weights unchanged, whatever the gradient |
| `Updates.NesterovUpdates` | notebooks/Theano/updates.py:94-104 | exactly three pairs in the order velocity snapshot, velocity, weights, with values `V`, `momentum*V - learning_rate*grad`, and `W - momentum*Vprev + (1+momentum)*V`, all from the pre-step state |
| `Updates.NesterovInit` | notebooks/Theano/updates.py:83-92 | the velocity and the velocity snapshot both start all zero with the weights' length |
| `Updates.NesterovStep` | notebooks/Theano/updates.py:94-102 | after a batch step the snapshot is `V_old`, the velocity is `momentum*V_old - learning_rate*grad`, the weights are `W_old - momentum*Vprev_old + (1+momentum)*V_old`, and the shape is kept |
| `Updates.NesterovRun` | notebooks/Theano/updates.py:83-102 | both velocities keep the weights' shape after any number of steps |
| `Updates.NesterovFirstStepKeepsWeights` | notebooks/Theano/updates.py:83-102 | from the freshly allocated velocities, the first step leaves the weights unchanged, whatever the gradient |
| `Updates.MomentumOptimizer.constructor` | notebooks/Theano/updates.py:46-50 | the object holds the given weights and a zero velocity of their shape |
| `Updates.MomentumOptimizer.Step` | notebooks/Theano/updates.py:52-59 | returns the two-pair list built from the pre-step fields, and the new fields are exactly that list committed together: velocity `momentum*V_old - learning_rate*grad`, weights `W_old + V_old`, shape kept |
| `Updates.NesterovOptimizer.constructor` | notebooks/Theano/updates.py:83-92 | the object holds the given weights and two zero velocities of their shape |
| `Updates.NesterovOptimizer.Step` | notebooks/Theano/updates.py:94-104 | returns the three-pair list built from the pre-step fields, and the new fields are that list committed together: snapshot `V_old`, velocity `momentum*V_old - learning_rate*grad`, weights `W_old - momentum*Vprev_old + (1+momentum)*V_old` |
| `Documented.DocMomentumStep` | notebooks/Theano/updates.py:28-30 | the docstring's recurrence: `V' = momentum*V - learning_rate*grad` and `W' = W + V'`, which uses the new velocity |
| `Documented.DocMomentumRun` | notebooks/Theano/updates.py:28-30 | the docstring's recurrence over many steps keeps the shape |
| `Documented.MomentumStepVersusDocstring` | notebooks/Theano/updates.py:29-30 | the code's and the docstring's velocities agree; their weights agree after a step if and only if the step leaves the velocity unchanged |
| `Documented.MomentumFirstStepDiverges` | notebooks/Theano/updates.py:29-57 | from the zero velocity, the code's first-step weights equal the docstring's if and only if `learning_rate*grad` is zero everywhere |
| `Documented.MomentumLagStep` | notebooks/Theano/updates.py:29-57 | one step of the lag: when the code's weights equal the docstring's from one step earlier and the velocities agree, a code step and a docstring step keep both relations |
| `Documented.MomentumLagsDocstring` | notebooks/Theano/updates.py:29-57 | with the same gradients, the code's weights after n+1 steps are the docstring's after n steps, and the velocities agree at every step |
| `Documented.MomentumDivergesEveryStep` | notebooks/Theano/updates.py:29-57 | for a given gradient sequence and every n >= 1, the code's and the docstring's weights after n steps agree if and only if the docstring's velocity after n steps is zero |
| `Documented.DocMomentumZeroIsGradientDescent` | notebooks/Theano/updates.py:10-30 | with momentum 0 the docstring's recurrence is exactly gradient descent, at every step |
| `Documented.MomentumZeroLagsGradientDescent` | notebooks/Theano/updates.py:45-57 | with momentum 0 and a given gradient sequence, the code's weights after n+1 steps are the gradient-descent weights after n steps |
| `Documented.DocNesterovStep` | notebooks/Theano/updates.py:64-66 | the Nesterov docstring's recurrence, with the gradient taken at `W + momentum*V` and `W' = W + V'` |
| `Documented.LookAheadStep` | notebooks/Theano/updates.py:68 | the look-ahead form with sequential assignment: `V' = momentum*V - learning_rate*grad` and `X' = X - momentum*V + (1+momentum)*V'` |
| `Documented.LookAheadRun` | notebooks/Theano/updates.py:68 | the look-ahead form over many steps keeps the shape |
| `Documented.LookAheadIsShiftedDocNesterov` | notebooks/Theano/updates.py:62-68 | a look-ahead step from `X = W + momentum*V`, with the gradient at X, yields `W' + momentum*V'` and the velocity of the docstring's step |
| `Documented.NesterovLagsLookAhead` | notebooks/Theano/updates.py:94-104 | with the same gradients, the code's weights after n+1 steps are the look-ahead weights after n steps; its velocity is the look-ahead velocity after n+1 steps and its snapshot the look-ahead velocity after n |
| `Documented.LookAheadZeroIsGradientDescent` | notebooks/Theano/updates.py:62-68 | with momentum 0 the look-ahead form is exactly gradient descent |
| `Documented.NesterovZeroLagsGradientDescent` | notebooks/Theano/updates.py:94-102 | with momentum 0 and a given gradient sequence, the code's Nesterov weights after n+1 steps are the gradient-descent weights after n steps |
| `Documented.MomentumScenario` | notebooks/Theano/updates.py:52-57 | for W=[1.0], grad=[2.0], learning rate 0.1, momentum 0.9: the docstring gives W=0.8 then 0.42 with V=-0.2 then -0.38; the code gives W=1.0 then 0.8 with the same velocities |
| `Documented.NesterovScenario` | notebooks/Theano/updates.py:94-102 | same inputs: the look-ahead form gives W=0.62 then 0.078; the code gives W=1.0, 0.62, 0.078 with snapshot 0.0 then -0.2 |

## Left out

- Symbolic differentiation (`T.grad`, lines 22, 45 and 82) calls into a foreign
  library. The gradient is an input vector of the weights' length. Every
  operation requires that length, because the gradient of a tensor has the
  tensor's shape.
- The run lemmas take a fixed sequence of gradients, one per step. In training,
  each gradient depends on the current weights. Once two trajectories differ,
  they see different gradients, so the one-step lags are exact only for a given
  gradient sequence.
- Theano plumbing is not modelled: graph construction, how `theano.shared`
  allocates, the `floatX` dtype, and variable names. At line 92 the velocity
  snapshot gets the same name as the velocity, `velocity_{}`. This affects only
  the name.
- Floating point: the model uses exact `real` arithmetic, and the source makes
  no claims about rounding.
- Coefficient and shape checks: the source does not check that the learning
  rate is positive, that momentum lies in [0, 1), or that shapes agree, and
  has no error path for these. The model adds no such check either. A missing
  gradient path is the differentiation library's error, which is not part of
  this model.
- Learning rate and momentum are arguments of each `Step` call. The docstrings
  type them only as "scalar". A Python number is fixed inside the expressions
  when the list is built, while a symbolic or shared scalar can change from one
  step to the next. Per-step arguments cover both cases: a caller that passes
  the same values at every step gets the first.
- Compiling the update list into a function, the training loop, and concurrent
  application are not in the source.
- `src/coil20_utils.py` is not part of this model. It only finds a directory,
  reads images and reshapes an array, with no logic of its own.
