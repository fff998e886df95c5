# scikit-surgeryfred, modelled in Dafny

scikit-surgeryfred (FRED: Fiducial Registration Educational Demonstration) is a
teaching game about registration. The player places fiducial markers on a
pre-operative image and on an intra-operative view. Each marker position is
perturbed by fiducial localisation error (FLE). The two point sets are
registered, and a hidden target is mapped through the registration. In the
game the player then "ablates" a sphere around the estimated target. The
score rewards covering the real target and penalises treating healthy tissue.

This project models the computational core of that program:

| file | module | models |
|---|---|---|
| `scores.dfy` | `Scores` | sphere volumes, two-sphere overlap, the ablation score with Python's `round` |
| `ablation.dfy` | `Ablation` | the `Ablator` object: margin up/down, set-up, ablate |
| `fle.dfy` | `Fle` | `_set_fle`, the `FLE` constructor's validation and probing, `perturb_fiducial` |
| `errors.dfy` | `Errors` | `expected_absolute_value` |
| `point_based_reg.dfy` | `PointBasedReg` | the `PointBasedRegistration` object and its `register` result |
| `fred.dfy` | `Fred` | `is_valid_fiducial`, `make_target_point` |
| `registration_game.dfy` | `RegistrationGame` | `VisibilitySettings` and the round countdown in `keypress_event` |
| `shuffling.dfy` | `Shuffling` | the Durstenfeld shuffle as a specification; repeated blocks |
| `game_js.dfy` | `GameJs` | the web game's `shuffleArray` (in place, on an array) and `create_state_vector` |
| `reals.dfy`, `vectors.dfy`, `outcomes.dfy` | `Reals`, `Vectors`, `Outcomes` | named products of reals, 3-vectors and 3x3 matrices, the Python exceptions with `Option`/`Result` |

Floats are exact reals and integers are unbounded. Python exceptions become
the `Err` case of a `Result`. A Python constructor that can raise becomes a
static `Create`/`New` method that returns a `Result` holding the new object.
Objects whose methods update their fields are classes:
`Ablator`, `PointBasedRegistration`, `VisibilitySettings`, the game's
`GameRounds` and the web game's `WebGame`. The rest are functions.

Some inputs are not computable in the model:
- Random numbers are parameters. A Gaussian draw is a standard normal value
  `noise(i)`, and a shuffle is given the partner index of each step.
- `Math.random()` draws are parameters in [0, 1).
- The square root (`np.linalg.norm`) is a function parameter. Lemmas assume it
  by `IsSqrt`: it returns the non-negative root of every non-negative number.
- `cos`/`sin` of the random angle are parameters with cos² + sin² = 1.
- The sksurgerycore calls (`orthogonal_procrustes`, `compute_tre_from_fle`,
  `compute_fre_from_fle`) are function fields of a `Collaborators` value.

## Model

| member | source | states |
|---|---|---|
| Scores.SphereVolume | sksurgeryfred/algorithms/scores.py:11-15 | the volume has the sign of the radius and is zero only for radius 0 |
| Scores.SphereVolumeStrictlyIncreasing | sksurgeryfred/algorithms/scores.py:11-15 | a larger non-negative radius gives a strictly larger volume |
| Scores.LensVolume | sksurgeryfred/algorithms/scores.py:41-47 | the lens formula; its lemmas below show it meets the other two branches at their boundaries and lies strictly between 0 and the smaller sphere in between |
| Scores.OverlapVolume | sksurgeryfred/algorithms/scores.py:17-47 | `two_sphere_overlap_volume` on the centre distance, with the source's three branches; its properties are stated by the Overlap lemmas below |
| Scores.OverlapDisjoint | sksurgeryfred/algorithms/scores.py:33-34 | centres at least the sum of the radii apart: no overlap |
| Scores.OverlapContained | sksurgeryfred/algorithms/scores.py:36-39 | centres at most the radius difference apart: the overlap is the smaller sphere |
| Scores.OverlapSymmetric | sksurgeryfred/algorithms/scores.py:17-47 | exchanging the two spheres does not change the overlap |
| Scores.LensMeetsDisjoint | sksurgeryfred/algorithms/scores.py:41-47 | the lens formula is 0 where the spheres just touch, so the overlap is continuous there |
| Scores.LensMeetsContained | sksurgeryfred/algorithms/scores.py:41-47 | the lens formula equals the smaller sphere where one just encloses the other |
| Scores.LensPositive | sksurgeryfred/algorithms/scores.py:41-47 | inside the lens branch the volume is strictly positive |
| Scores.LensBelowSmaller | sksurgeryfred/algorithms/scores.py:41-47 | inside the lens branch the volume is strictly below the smaller sphere, in either argument order |
| Scores.OverlapBounds | sksurgeryfred/algorithms/scores.py:17-47 | the overlap lies in [0, volume of the smaller sphere]; for positive radii it is 0 iff the spheres are apart and full iff one encloses the other |
| Scores.RoundHalfEven | sksurgeryfred/algorithms/scores.py:75 | Python's `round`: within 0.5 of the argument, and even on a tie |
| Scores.RoundHalfEvenUnique | sksurgeryfred/algorithms/scores.py:75 | any integer within 0.5 that is even on a tie is the rounded value |
| Scores.RoundHalfEvenWithin | sksurgeryfred/algorithms/scores.py:75 | rounding a value between two integers stays between them |
| Scores.ScoreAtDistance | sksurgeryfred/algorithms/scores.py:50-75 | the score raises ZeroDivisionError exactly when the target or the treatment volume is zero |
| Scores.CalculateScore | sksurgeryfred/algorithms/scores.py:50-75 | the same error condition, with the distance taken as the norm of the centre difference |
| Scores.ScoreContained | sksurgeryfred/algorithms/scores.py:59-75 | a target wholly inside the treatment scores round(1000 · target volume / treatment volume), which lies in [0, 1000] |
| Scores.ScoreNotContained | sksurgeryfred/algorithms/scores.py:65-75 | a target partly untreated scores in [-1000, 0] |
| Scores.ScoreRange | sksurgeryfred/algorithms/scores.py:50-75 | for a positive radius and non-negative margin the score is defined and in [-1000, 1000]; it is non-negative when the target is covered (distance at most the margin) and non-positive when it is not |
| Scores.ScorePerfect | tests/algorithms/test_scores.py:85-96 | no offset and no margin scores 1000 |
| Scores.ScoreMiss | tests/algorithms/test_scores.py:98-109 | a treatment sphere clear of the target scores -1000 |
| Scores.ScoreHitWithDamage | tests/algorithms/test_scores.py:111-125 | radius 10, margin 10, offset 10 scores 125 |
| Scores.CalculateScorePerfect | tests/algorithms/test_scores.py:85-96 | coincident centres score 1000 (for any square root with root 0 of 0) |
| Scores.CalculateScoreMiss | tests/algorithms/test_scores.py:98-109 | the test's centres 200 apart score -1000 |
| Scores.OverlapExamples | tests/algorithms/test_scores.py:11-62 | coincident centres give the smaller sphere in either order; far centres give 0 |
| Scores.CalculateScoreRange | sksurgeryfred/algorithms/scores.py:50-75 | for any two centres, a positive radius and a non-negative margin, the score is defined and in [-1000, 1000] |
| Ablation.Increased | sksurgeryfred/algorithms/ablation.py:32-39 | increasing the margin makes it strictly larger |
| Ablation.Decreased | sksurgeryfred/algorithms/ablation.py:41-50 | decreasing never goes below 0, never grows a non-negative margin, and subtracts 0.1 when it stays positive |
| Ablation.DecreaseUndoesIncrease | sksurgeryfred/algorithms/ablation.py:32-50 | a decrease after an increase restores a non-negative margin |
| Ablation.DecreaseFloorsAtZero | sksurgeryfred/algorithms/ablation.py:41-50 | a margin of at most 0.1 decreases to 0 and stays there |
| Ablation.Ablator.constructor | sksurgeryfred/algorithms/ablation.py:13-22 | the given margin, no target, not ready |
| Ablation.Ablator.Setup | sksurgeryfred/algorithms/ablation.py:24-30 | stores the target and radius, becomes ready, keeps the margin |
| Ablation.Ablator.IncreaseMargin | sksurgeryfred/algorithms/ablation.py:32-39 | when ready the margin grows and is returned; otherwise nothing changes and 0.0 is returned |
| Ablation.Ablator.DecreaseMargin | sksurgeryfred/algorithms/ablation.py:41-50 | when ready the margin shrinks, floored at 0, and is returned; otherwise 0.0; the result is never negative |
| Ablation.Ablator.Ablate | sksurgeryfred/algorithms/ablation.py:53-61 | None before set-up; afterwards the score of the stored target against the estimate, defined and in [-1000, 1000] for a positive radius and non-negative margin |
| Errors.ExpectedAbsoluteValue | sksurgeryfred/algorithms/errors.py:10-18 | the squared norm is non-negative and zero exactly when every standard deviation is zero |
| Errors.ExpectedAbsoluteValueAppend | sksurgeryfred/algorithms/errors.py:10-18 | one more axis adds its variance |
| Errors.ExpectedAbsoluteValueIsotropic | sksurgeryfred/algorithms/errors.py:10-18 | n equal deviations s give n · s² |
| Errors.ExpectedAbsoluteValueExamples | tests/algorithms/test_errors.py:24-117 | the tested zero and unit vectors in one to three dimensions |
| Fle.SetFle | sksurgeryfred/algorithms/fle.py:10-24 | ValueError exactly for an array of neither size 1 nor `dims`; a scalar or one-element array is broadcast to `dims`; a full array is kept |
| Fle.SetFleIdempotent | sksurgeryfred/algorithms/fle.py:10-24 | applying it to its own result changes nothing |
| Fle.Sample | sksurgeryfred/algorithms/fle.py:56-90 | the default Gaussian sampler fails exactly on a negative scale and draws scale[i] · noise(i); the default systematic sampler returns its offset |
| Fle.BroadcastAdd | sksurgeryfred/algorithms/fle.py:99-100 | numpy addition: equal lengths add entrywise, a one-element side is broadcast, anything else is an error |
| Fle.IndependentSampler | sksurgeryfred/algorithms/fle.py:56-66 | giving both a function and a magnitude is a ValueError; a function alone is used as is; with no function, a zero-mean Gaussian whose scales are `_set_fle` of the magnitude (zero when none is given), and exactly `_set_fle`'s ValueError for a magnitude of the wrong length |
| Fle.SystematicSampler | sksurgeryfred/algorithms/fle.py:74-84 | the same rule for the systematic error: with no function, the constant offset `_set_fle` of the magnitude (zero when none is given), and exactly `_set_fle`'s ValueError for a magnitude of the wrong length |
| Fle.NewFle | sksurgeryfred/algorithms/fle.py:53-90 | the constructor succeeds exactly when both samplers can be chosen and both probe calls succeed, and then holds the two chosen samplers; otherwise its error is the first failing step's, in the order independent choice, independent probe, systematic choice, systematic probe |
| Fle.DefaultSamplersBuild | sksurgeryfred/algorithms/fle.py:53-90 | with both default samplers, the constructor succeeds exactly when each magnitude is a scalar or has 1 or `dimension` entries and no independent magnitude is negative; otherwise it raises ValueError |
| Fle.Perturb | sksurgeryfred/algorithms/fle.py:92-100 | a failing systematic sampler fails the perturbation with its error |
| Fle.PerturbAddsErrors | sksurgeryfred/algorithms/fle.py:92-100 | with samples of the marker's length, each coordinate is marker + systematic + independent error |
| Fle.DefaultFleIsIdentity | tests/algorithms/test_fle.py:10-18 | the default FLE leaves every marker where it is |
| Fle.SystematicOnlyShiftsByOffset | sksurgeryfred/algorithms/fle.py:74-100 | a systematic magnitude with no independent error shifts the marker by exactly that offset |
| Fle.ConflictingArgumentsRejected | tests/algorithms/test_fle.py:95-106 | a function together with a magnitude is a ValueError |
| Fle.WrongLengthRejected | tests/algorithms/test_fle.py:83-93 | a systematic array of the wrong length is a ValueError |
| Fle.FailingSamplerRejected | tests/algorithms/test_fle.py:108-122 | a sampler that fails its probe raises TypeError |
| Fle.NegativeMagnitudeRejected | sksurgeryfred/algorithms/fle.py:56-72 | a negative independent magnitude fails the probe draw with ValueError |
| Fle.CustomSamplerExample | tests/algorithms/test_fle.py:125-143 | the test's custom sampler moves [1, 0] to [3, 2] |
| Fle.BroadcastSystematicExample | tests/algorithms/test_fle.py:49-54 | a one-element systematic array is broadcast and added to the anisotropic Gaussian draw |
| PointBasedReg.Registration | sksurgeryfred/algorithms/point_based_reg.py:43-73 | the eight values `register` returns; the lemmas below state its outcome, the moved target and the actual TRE |
| PointBasedReg.RegistrationOutcome | sksurgeryfred/algorithms/point_based_reg.py:43-73 | success exactly with more than two fiducials; the fiducial count and fixed FLE are reported |
| PointBasedReg.RegistrationTooFewFiducials | sksurgeryfred/algorithms/point_based_reg.py:47-73 | with two or fewer fiducials every statistic is zero and the target is the origin |
| PointBasedReg.RegistrationMovesTarget | sksurgeryfred/algorithms/point_based_reg.py:55-65 | with enough fiducials the registration succeeds, reports the fit's FRE and moves the target by the fitted rotation and translation |
| PointBasedReg.ActualTreIsDistance | sksurgeryfred/algorithms/point_based_reg.py:63-68 | the actual TRE is the norm of the target's displacement: non-negative and zero exactly when the target did not move |
| PointBasedReg.TranslationOnlyTre | sksurgeryfred/algorithms/point_based_reg.py:63-67 | a pure translation moves the target by it and the TRE is the translation's length |
| PointBasedReg.TranslationExample | tests/test_main.py:218-238 | with the pre-operative fiducials as the moving set and the intra-operative ones as the fixed set and the fit (I, (200, 0, 0), 0), registration gives success, TRE 200, target (200, 0, 0) and 3 fiducials |
| PointBasedReg.TranslationExampleFits | tests/test_main.py:218-222 | the fit (I, (200, 0, 0)) maps each of the test's pre-operative fiducials exactly onto its intra-operative partner, so it is the zero-residual fit of that data |
| PointBasedReg.PointBasedRegistration.constructor | sksurgeryfred/algorithms/point_based_reg.py:28-41 | stores target and FLEs with no transformed target |
| PointBasedReg.PointBasedRegistration.Create | sksurgeryfred/algorithms/point_based_reg.py:17-32 | NotImplementedError exactly for a non-zero moving FLE; otherwise a fresh, initialised object |
| PointBasedReg.PointBasedRegistration.Reinit | sksurgeryfred/algorithms/point_based_reg.py:34-41 | replaces target and FLEs and forgets the transformed target |
| PointBasedReg.PointBasedRegistration.Register | sksurgeryfred/algorithms/point_based_reg.py:43-73 | returns the registration result and records its transformed target; the set-up is unchanged |
| PointBasedReg.PointBasedRegistration.GetTransformedTarget | sksurgeryfred/algorithms/point_based_reg.py:75-82 | true with the target once one is recorded; false with None before |
| Fred.IsValidFiducial | sksurgeryfred/algorithms/fred.py:8-16 | valid exactly when no coordinate is negative |
| Fred.Mean | sksurgeryfred/algorithms/fred.py:25 | the outline's centre coordinate; MeanTimesCount and MeanWithinRange state what it is |
| Fred.MeanTimesCount | sksurgeryfred/algorithms/fred.py:25 | the mean times the number of points is the sum of the coordinates |
| Fred.MeanWithinRange | sksurgeryfred/algorithms/fred.py:25 | the outline's centre lies between its smallest and largest coordinate |
| Fred.HalfExtent | sksurgeryfred/algorithms/fred.py:26 | half of the outline's extent on one axis is never negative |
| Fred.MaxRadius | sksurgeryfred/algorithms/fred.py:26 | the smaller half-extent scaled by the edge buffer; MaxRadiusBounds bounds it |
| Fred.MaxRadiusBounds | sksurgeryfred/algorithms/fred.py:26 | with an edge buffer in [0, 1] the maximum radius is non-negative and at most half the outline's extent on each axis |
| Fred.MakeTargetPoint | sksurgeryfred/algorithms/fred.py:18-32 | an empty outline raises ValueError; otherwise the target lies in the z = 0 plane |
| Fred.FirstDrawDiscarded | sksurgeryfred/algorithms/fred.py:27-28 | the first radius draw has no effect on the target |
| Fred.PolarDistance | sksurgeryfred/algorithms/fred.py:29-31 | a point at a given angle and radius is that radius away from the centre |
| Fred.TargetPlacement | sksurgeryfred/algorithms/fred.py:18-32 | the target is exactly radius away from the outline's centre, the radius is in [0, maximum radius], and the centre lies in the outline's bounding box |
| Shuffling.Swap | static/game.js:19 | the exchange keeps the length; SwapExchanges and SwapPermutes state what moves |
| Shuffling.SwapExchanges | static/game.js:19 | entries i and j trade places and every other entry stays |
| Shuffling.SwapPermutes | static/game.js:19 | a swap keeps the multiset of entries |
| Shuffling.ShuffleDown | static/game.js:17-20 | the steps i down to 1 keep the length; the lemmas below state what they keep and what they settle |
| Shuffling.ShuffleDownPermutes | static/game.js:17-20 | the shuffle steps keep the multiset of entries |
| Shuffling.ShuffleDownKeepsAbove | static/game.js:17-20 | steps i down to 1 never touch entries above i |
| Shuffling.Shuffled | static/game.js:13-21 | the shuffle keeps the length and the multiset |
| Shuffling.ShuffledLast | sksurgeryfred/widgets/registration_game.py:203-205 | the entry a pop takes after the shuffle is the one the last step's pick names |
| Shuffling.ShuffleDownSelfPicks | static/game.js:17-20 | when every partner is the step's own index nothing moves |
| Shuffling.Repeated | sksurgeryfred/widgets/registration_game.py:193-197 | k copies of a block appended one after another; RepeatedCounts and RepeatedSingle state their counts |
| Shuffling.RepeatedCounts | sksurgeryfred/widgets/registration_game.py:193-197 | k appended copies hold k times the length and k times each count |
| Shuffling.RepeatedSingle | static/game.js:34-36 | k pushes of one value give k entries, all that value |
| RegistrationGame.VisibilitySettings.constructor | sksurgeryfred/widgets/registration_game.py:180-197 | the state list is `each_bin` bins of the four states, none for a non-positive count |
| RegistrationGame.VisibilitySettings.New | sksurgeryfred/widgets/registration_game.py:172-197 | ValueError exactly when the buffer size is not divisible by 4; otherwise a quarter of it in bins |
| RegistrationGame.VisibilitySettings.GetVisState | sksurgeryfred/widgets/registration_game.py:199-208 | shuffles, then pops the last state; an empty buffer is an IndexError; the popped state plus the rest is the old multiset |
| RegistrationGame.BinsHoldEachStateEqually | sksurgeryfred/widgets/registration_game.py:180-197 | b bins hold 4b states, b of each kind |
| RegistrationGame.GameRounds.constructor | sksurgeryfred/widgets/registration_game.py:40-42 | 20 rounds, a buffer of 16 states, start state "Actual TRE", and the round invariant holds |
| RegistrationGame.GameRounds.FinishRound | sksurgeryfred/widgets/registration_game.py:94-108 | counts down while rounds remain and reports game over at the last; from repeats 17 to 2 it pops the next state, which never fails because the buffer holds one state per remaining popping round |
| GameJs.PartnerInRange | static/game.js:17-19 | every swap partner j satisfies 0 ≤ j ≤ i |
| GameJs.Partner | static/game.js:18 | the swap partner of step i, the floor of the step's draw times i + 1; PartnerInRange bounds it |
| GameJs.Picks | static/game.js:17-18 | the partners the draws produce are valid picks for the shuffle |
| GameJs.ShuffleArray | static/game.js:13-21 | the array afterwards is the shuffle of its old contents, a permutation of them |
| GameJs.JsRem | static/game.js:26 | JavaScript's remainder is positive exactly for a positive count that is not a multiple |
| GameJs.Blocks | static/game.js:33-34 | the block loop runs only for a positive count and a non-empty state list |
| GameJs.WebGame.constructor | static/game.js:10 | the state vector starts empty |
| GameJs.WebGame.CreateStateVector | static/game.js:23-44 | empties the global vector, then returns it holding the specified state vector |
| GameJs.WebGame.PopState | static/game.js:109-116 | takes the last state, or `undefined` (None) from an empty vector |
| GameJs.StateVector | static/game.js:23-44 | the vector `create_state_vector` returns; StateVectorEmpty and StateVectorLayout state when it is empty and how it is laid out |
| GameJs.StateVectorEmpty | static/game.js:25-29 | the vector is empty exactly when the count is not a positive multiple of the number of states |
| GameJs.StateVectorLayout | static/game.js:33-41 | one entry per round; the last `blocks` entries are the first state; the rest hold `blocks` copies of each other state |
| GameJs.WebGameSchedule | static/game.js:181-184 | ten rounds of five states: the first two pops are "Actual TRE", and the other eight rounds hold two of each remaining state |

## Left out

- Floating point: all arithmetic is on exact reals. Float rounding, NaN and infinities are not modelled; `np.isclose` comparisons in the tests become equalities.
- `math.pi` is the decimal 3.141592653589793.
- Square root, cosine, sine and the random generators are parameters, as described above. The statistical tests (normality of samples, average TRE) are not modelled.
- The sksurgerycore functions `orthogonal_procrustes`, `compute_tre_from_fle` and `compute_fre_from_fle` are parameters. Their exceptions are not modelled.
- Array shapes (1x3 against 3x1, `[:, 0:3]` slices, `transpose`) are not modelled. Points are 3-vectors. The outline is taken to be an N x 2 list of points.
- Ablation.Ablator.Ablate: `ablation.py` imports `calculate_score` from the separate `sksurgeryfredbe` package. The model binds it to this repository's `scores.py`. The `est_target` field is never read and is not modelled.
- Python's `random.shuffle` is the same Durstenfeld loop as `shuffleArray`. It is modelled as the `Shuffled` specification, given the partner of each step.
- GameJs.WebGame.CreateStateVector: an empty state list with a positive count makes the JavaScript loop run forever. That call is excluded by its precondition.
- GameJs.Blocks: JavaScript divides the count as a float. The model keeps only the number of loop iterations that division gives.
- The visibility state lists are shared objects in Python. They are modelled as values, since they are never mutated.
- The rest of `RegistrationGame` and all of `main.py` are not modelled. This covers plotting, mouse and key handling other than the round countdown, `fit_contour`, logging, the results database and the DOM code of the web game.
