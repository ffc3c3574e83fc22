# Linear SVM, confusion matrix and Platt targets — a Dafny model

This project models the core of a small Rust program (`Machine_Learning/svm/src/main.rs`). The program trains a linear support vector machine by stochastic sub-gradient descent on the hinge loss with L2 regularisation. It scores the predictions with a confusion matrix, computes the smoothed targets for Platt calibration, and sweeps a probability threshold to trace an ROC curve.

Floating-point numbers (`f64`) are modelled as Dafny `real`, so `+ - * /` are exact. A ratio whose denominator is zero yields NaN in the program. Here it yields `None`.

Modules, one per component:

- `LinAlg` (`linalg.dfy`): the library primitives the trainer uses. It has the dense `Matrix` (rows plus a column count), the dot product as a recursive sum of products, the matrix–vector product `Apply` (`X.apply(&w)`), `AddScalar` (`add_s`) and `Zeros` (`vec![0f64; n]`).
- `Trainer` (`trainer.dfy`): the `SVM` struct. The training rule is first stated on values. `Step` handles one row: test the margin, pick one of the two sub-gradients, step. `Epoch` is one pass in row order, each row seeing the weights left by the previous row. `Train` is `n_iters` passes. The class `Svm` has the struct's fields `w`, `b` and `clsMap`, and its methods update them in place. `Fit` runs the outer loop over iterations, `Pass` the loop over rows and `RowStep` one row; `Fit` is proved to end in exactly the state `Train` computes.
- `Confusion` (`confusion.dfy`): `ConfusionMatrix::new` is a method with the counting loop, proved equal to the specification function `Tally`. The metrics are functions on the four counts.
- `Platt` (`platt.dfy`): the class counts and the smoothed targets `(1+Np)/(2+Np)` and `1/(2+Nn)` of `platt_scaling`.
- `Roc` (`roc.dfy`): the threshold loop of `main`, which labels probabilities above each threshold as +1, counts them and records (TPR, FPR).

The model follows the code as written:

- `ConfusionMatrix::new` zips the two sequences, so the tail of the longer one is ignored.
- `fit` resets `w` but never resets `b`. After `fit` with zero iterations, `b` is whatever it was before.
- A weight/feature dimension mismatch panics inside the matrix library. The model states the matching dimensions as a precondition (`|w| == X.col`).
- In `fit`, row `i` reads `cls_map[i]`, which panics when there are fewer labels than rows. The model requires `n_iters == 0 || rows <= |y|`. With zero iterations nothing is indexed, so nothing is required.
- The body of the inner training loop (`main.rs:134-137`) is the method `Svm.RowStep`, and the inner loop itself is the method `Svm.Pass`. The program writes both inline in `fit`; they do the same steps in the same order.
- The body of the ROC loop (`main.rs:52-56`) is the method `Roc.RocPoint`, written inline in `main`.

## Model

| member | source | states |
|---|---|---|
| `LinAlg.Apply` | Machine_Learning/svm/src/main.rs:144 | the matrix–vector product has one entry per row, and entry i is the dot product of row i with the vector |
| `LinAlg.AddScalar` | Machine_Learning/svm/src/main.rs:144 | adding the bias keeps the length, and each entry exceeds the input entry by exactly the bias |
| `LinAlg.DotComm` | Machine_Learning/svm/src/main.rs:106 | the dot product is symmetric, so the library's row·w and the trainer's w·x give the same score |
| `LinAlg.DotZeros` | Machine_Learning/svm/src/main.rs:155-157 | the zero weight vector gives a dot product of 0 with every row |
| `LinAlg.DotShift` | Machine_Learning/svm/src/main.rs:116-123 | shifting the weights by c·x shifts w·x by c·(x·x) |
| `LinAlg.DotSelfNonNegative` | Machine_Learning/svm/src/main.rs:106 | x·x is never negative |
| `Trainer.ClassMap` | Machine_Learning/svm/src/main.rs:101-103 | the class map keeps the length of y, every entry is +1 or -1, and entry i is +1 exactly when y[i] == 1 |
| `Trainer.ThresholdLabels` | Machine_Learning/svm/src/main.rs:150 | one label per score, each +1 or -1, and +1 exactly when the score is strictly above the threshold (a score equal to the threshold gives -1) |
| `Trainer.Step` | Machine_Learning/svm/src/main.rs:105-125 | a row step keeps the length of w. When y·(w·x+b) ≥ 1 it leaves b unchanged and sets w_j := w_j − lr·λ·w_j. Otherwise it sets w_j := w_j − lr·(λ·w_j − y·x_j) and b := b + lr·y |
| `Trainer.Epoch` | Machine_Learning/svm/src/main.rs:133-138 | a pass over the first n rows, each step applied to the weights left by the previous one, keeps the length of w |
| `Trainer.Train` | Machine_Learning/svm/src/main.rs:132-139 | k full passes keep the length of w |
| `Trainer.HingeStepRaisesMargin` | Machine_Learning/svm/src/main.rs:111-125 | with λ = 0, the step for a violated row raises that row's margin by exactly lr·y²·(x·x+1), a strict increase for lr > 0 and y ≠ 0 |
| `Trainer.ShiftedMargin` | Machine_Learning/svm/src/main.rs:122-124 | moving w by lr·y·x and b by lr·y raises the margin of (x, y) by lr·y²·(x·x+1) |
| `Trainer.TrainTwoPoints` | Machine_Learning/svm/src/main.rs:128-140 | one pass over rows (2,0) and (−2,0) with labels +1, −1, lr = 0.1, λ = 0, from w = 0 and b = 0, ends at w = (0.4, 0), b = 0 |
| `Trainer.Svm.constructor` | Machine_Learning/svm/src/main.rs:86-95 | a new model stores the hyper-parameters and has w = [0], b = 0, cls_map = [0] |
| `Trainer.Svm.InitWeight` | Machine_Learning/svm/src/main.rs:97-99 | w becomes X.col zeros |
| `Trainer.Svm.GetClsMap` | Machine_Learning/svm/src/main.rs:101-103 | cls_map becomes the class map of y |
| `Trainer.Svm.SatisfyConstraint` | Machine_Learning/svm/src/main.rs:105-109 | true exactly when the row's label-weighted score (w·x + b)·cls_map[idx] is at least 1 |
| `Trainer.Svm.GetGradients` | Machine_Learning/svm/src/main.rs:111-120 | dw has the length of w. When the constraint holds, dw_j = λ·w_j and db = 0. Otherwise dw_j = λ·w_j − y·x_j and db = −y, with y = cls_map[idx] |
| `Trainer.Svm.UpdateWeightBias` | Machine_Learning/svm/src/main.rs:122-125 | w and b take one gradient step of size lr, and nothing else changes |
| `Trainer.Svm.RowStep` | Machine_Learning/svm/src/main.rs:134-137 | the margin test, the selected sub-gradient and the update together leave (w, b) equal to the row step of the old (w, b) with label cls_map[idx] |
| `Trainer.Svm.Pass` | Machine_Learning/svm/src/main.rs:133-138 | one pass leaves (w, b) equal to the row steps of all rows applied in order to the old (w, b), each row seeing the previous row's result |
| `Trainer.Svm.Fit` | Machine_Learning/svm/src/main.rs:128-140 | afterwards cls_map is the class map of y, \|w\| = X.col, and (w, b) is exactly n_iters passes of per-row steps from zero weights and the old bias. With n_iters = 0, w is all zeros and b is unchanged |
| `Trainer.Svm.ComputeDecisionValues` | Machine_Learning/svm/src/main.rs:143-145 | one value per row, and value i is w·x_i + b |
| `Trainer.Svm.Predict` | Machine_Learning/svm/src/main.rs:148-152 | one label per row, each +1 or -1, and +1 exactly when w·x_i + b > 0 (a decision value of 0 gives -1) |
| `Trainer.Svm.Baseline` | Machine_Learning/svm/src/main.rs:155-158 | w becomes X.col zeros and b is untouched. The result is the prediction, and every entry is +1 if b > 0 and -1 otherwise |
| `Confusion.Ratio` | Machine_Learning/svm/src/main.rs:197-229 | a count ratio is defined exactly when the denominator is non-zero, lies in [0, 1], and times the denominator gives the numerator |
| `Confusion.ConfusionMatrix.Acc` | Machine_Learning/svm/src/main.rs:197-199 | accuracy is defined exactly when some pair was counted, lies in [0, 1], and is 1 exactly when FP + FN = 0 |
| `Confusion.ConfusionMatrix.Ppv` | Machine_Learning/svm/src/main.rs:201-203 | precision is defined exactly when TP + FP > 0 and lies in [0, 1] |
| `Confusion.ConfusionMatrix.Tpr` | Machine_Learning/svm/src/main.rs:205-207 | recall is defined exactly when TP + FN > 0 and lies in [0, 1] |
| `Confusion.ConfusionMatrix.F1Score` | Machine_Learning/svm/src/main.rs:209-213 | F1 is defined exactly when TP > 0, and then equals 2TP/(2TP+FP+FN) and lies in (0, 1] |
| `Confusion.ConfusionMatrix.Tnr` | Machine_Learning/svm/src/main.rs:215-217 | specificity is defined exactly when TN + FP > 0 and lies in [0, 1] |
| `Confusion.ConfusionMatrix.Npv` | Machine_Learning/svm/src/main.rs:219-221 | NPV is defined exactly when TN + FN > 0 and lies in [0, 1] |
| `Confusion.ConfusionMatrix.Fnr` | Machine_Learning/svm/src/main.rs:223-225 | the miss rate is defined exactly when TP + FN > 0 and lies in [0, 1] |
| `Confusion.ConfusionMatrix.Fpr` | Machine_Learning/svm/src/main.rs:227-229 | the fall-out is defined exactly when TN + FP > 0 and lies in [0, 1] |
| `Confusion.HarmonicMean` | Machine_Learning/svm/src/main.rs:209-213 | 2pr/(p+r) with p = a/c and r = a/d equals 2a/(c+d), which lies in (0, 1] |
| `Confusion.ComplementaryRatios` | Machine_Learning/svm/src/main.rs:205-229 | x/(x+y) + y/(y+x) = 1 for a non-zero total |
| `Confusion.TprFnrComplement` | Machine_Learning/svm/src/main.rs:205-225 | TPR and FNR are defined together, and then TPR + FNR = 1 |
| `Confusion.TnrFprComplement` | Machine_Learning/svm/src/main.rs:215-229 | TNR and FPR are defined together, and then TNR + FPR = 1 |
| `Confusion.New` | Machine_Learning/svm/src/main.rs:171-195 | the counting loop yields exactly the tally of the zipped pairs, and the total is at most the length of each sequence |
| `Confusion.TallyTotal` | Machine_Learning/svm/src/main.rs:177-187 | each pair adds at most one count, so the total is at most n. It equals n exactly when every label and every prediction is +1 or -1 |
| `Confusion.PerfectPrediction` | Machine_Learning/svm/src/main.rs:178-186 | when the predictions equal the labels, FP = FN = 0 |
| `Confusion.PerfectAccuracy` | Machine_Learning/svm/src/main.rs:197-199 | perfect ±1 predictions on a non-empty sequence have accuracy exactly 1 |
| `Platt.Count` | Machine_Learning/svm/src/main.rs:257-258 | the number of labels equal to a value is at most the number of labels |
| `Platt.ClassCountsBound` | Machine_Learning/svm/src/main.rs:257-258 | Np + Nn ≤ \|y\| |
| `Platt.PositiveTarget` | Machine_Learning/svm/src/main.rs:259 | 1/2 ≤ t_p < 1, and t_p > 1/2 once there is a positive label |
| `Platt.NegativeTarget` | Machine_Learning/svm/src/main.rs:260 | 0 < t_n ≤ 1/2, and t_n < 1/2 once there is a negative label |
| `Platt.TargetsCoincide` | Machine_Learning/svm/src/main.rs:259-260 | t_p = t_n exactly when Np = Nn = 0 |
| `Platt.Relabel` | Machine_Learning/svm/src/main.rs:263 | the map keeps the length and sends 1 to t_p and every other label to t_n |
| `Platt.Targets` | Machine_Learning/svm/src/main.rs:257-263 | one target per label, each strictly between 0 and 1. Label 1 gets t_p and every other label gets t_n. When some label is ±1, a target is t_p exactly when its label is 1 |
| `Roc.RocPoint` | Machine_Learning/svm/src/main.rs:52-56 | the two rates of the labels counted against the probabilities cut strictly above the threshold |
| `Roc.RocCurve` | Machine_Learning/svm/src/main.rs:49-57 | one (TPR, FPR) pair per threshold in order, each the rates of the labels against the probabilities cut strictly above that threshold |
| `Roc.TallyDominated` | Machine_Learning/svm/src/main.rs:53-54 | predictions positive only where others are give no more TP or FP, and the same TP + FN and FP + TN |
| `Roc.RatioMonotone` | Machine_Learning/svm/src/main.rs:55-56 | over a fixed denominator, a smaller count gives a smaller rate |
| `Roc.RocMonotone` | Machine_Learning/svm/src/main.rs:52-57 | raising the threshold never raises TPR or FPR, and whether each is defined does not depend on the threshold |
| `Roc.TallyConstant` | Machine_Learning/svm/src/main.rs:53-54 | all-positive predictions give TN = FN = 0, and all-negative predictions give TP = FP = 0 |
| `Roc.AllAbove` | Machine_Learning/svm/src/main.rs:52-57 | a threshold below every probability gives the point (1, 1), where the rates are defined |
| `Roc.AllAtOrBelow` | Machine_Learning/svm/src/main.rs:52-57 | a threshold at or above every probability gives the point (0, 0), where the rates are defined |

## Left out

- Data generation with `Normal(..).sample` (lines 8-24): random sampling from an external library.
- The `DataFrame` assembly, `df.print()` and `write_parquet` (lines 59-73): output and serialisation only.
- `ConfusionMatrix::summary` (lines 241-252): console output of the metrics.
- The Levenberg–Marquardt fit in `platt_scaling` and `logistic_transform` (lines 265-285): a foreign numeric optimiser with automatic differentiation. Its result (A, B) cannot be specified beyond "some pair", so the model stops at the targets the fit is given.
- `sigmoid` (lines 288-290) and every other use of `exp`: transcendental floating point. The ROC sweep therefore takes the probabilities as input.
- `linspace(0, 1, 2N)` (line 49) is library code. `Roc.RocCurve` takes the thresholds as a parameter.
- `to_matrix` (lines 231-239): dead code.
- IEEE-754 rounding, NaN and infinity. Values are exact reals, and a 0/0 metric is `None`.
- Trainer.Svm.ComputeDecisionValues: requires `|w| == X.col`. A mismatch panics inside the matrix library instead of returning an error, so the panic is not modelled.
- Trainer.Svm.Predict: requires `|w| == X.col` for the same reason.
- Trainer.Svm.UpdateWeightBias: requires `|dw| == |w|`. The program zips the two vectors and would drop the tail of the longer one, but every gradient it passes has the length of `w`.
- Trainer.Svm.Fit: requires a label for every row when `n_iters > 0`. With fewer labels, the program panics on `cls_map[i]` part-way through training, and that partial state is not modelled.
