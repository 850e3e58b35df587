# quantum-sim: the exactly decidable core, in Dafny

This project models the parts of the `quantum_sim` package whose behaviour is
decided exactly rather than by floating-point formulas:

- the exception family (`QuantumSimError`, `InvalidParameterError`,
  `SimulationError`), their default messages and their string forms
  (`exceptions.dfy`, module `Exceptions`);
- the parameter validators `validate_positive`, `validate_non_negative` and
  `validate_range` (`wave_validators.dfy`, module `WaveValidators`), each a
  function returning `Success(true)` or `Failure(InvalidParameterError(...))`;
- the potential landscapes `FreePotential`, `StepPotential` and `InfiniteWell`
  (`potentials.dfy`, module `Potentials`). They are one variant datatype, the
  form the abstract `Potential` base takes. `evaluate` is a function of one
  position (`EvaluateAt`), lifted element-wise over a sequence of positions
  (`Evaluate`). `parameters`, `__str__` and the well's bounds guard are also
  modelled;
- the `WaveResult` record (`wave_result.dfy`, module `WaveResults`). It is a
  class whose fields are the arrays `x`, `psi` and `t` (`t` is null for
  Python's `None`) and a `Metadata` dictionary object. It has the dataclass
  constructor, the fresh default dictionary and the deep `copy()`.

Floats are modelled as `real`. For finite values, `<`, `<=` and `>=` on
floats agree with the same comparisons on reals, so the step's half-open
boundary and the well's closed interior are exact. `wrappers.dfy` holds
`Option` and `Result`.

Two behaviours of the code worth noting:

- `InfiniteWell` with `a >= b` raises the builtin `ValueError` with the message
  "Left boundary 'a' must be less than right boundary 'b'"
  (src/quantum_sim/potentials/infinite_well.py:24-25), not an `InvalidParameterError`.
  `NewInfiniteWell` returns `Failure(ValueError(...))`.
- The well's description text says `a < x < b`, but `evaluate` treats both
  walls as inside (`a <= x <= b`). `Describe` reproduces the text and
  `WellBoundary` proves the closed interval.

## Model

| member | source | states |
|---|---|---|
| Exceptions.ParameterText | src/quantum_sim/errors/exceptions.py:16 | a present parameter renders as itself; a missing one as "None" |
| Exceptions.ToString | src/quantum_sim/errors/exceptions.py:15-16 | every error's text starts with its message; an invalid-parameter error continues with ": " and the parameter; the other kinds render as their message alone |
| Exceptions.InvalidParameterFields | src/quantum_sim/errors/exceptions.py:10-12 | the fields hold exactly the constructor arguments; the message defaults to "Invalid parameter provided" |
| Exceptions.SimulationDefaults | src/quantum_sim/errors/exceptions.py:20-25 | a simulation error defaults its message to "An error occurred during the simulation" and renders as that message |
| Exceptions.InvalidParameterRendering | src/quantum_sim/errors/exceptions.py:15-16 | the text of `InvalidParameterError(p, m)` is exactly `m + ": " + p` |
| Exceptions.MissingParameterRendering | tests/quantum_sim/errors/test_exceptions.py:36-39 | `InvalidParameterError(None)` renders as "Invalid parameter provided: None" |
| Exceptions.RenderingDeterminesMessage | src/quantum_sim/errors/exceptions.py:15-16 | for a fixed parameter, two errors with the same text have the same message |
| Exceptions.RenderingDeterminesParameterText | src/quantum_sim/errors/exceptions.py:15-16 | for a fixed message, two errors with the same text have the same parameter text |
| Exceptions.NoneAndNoneStringRenderAlike | src/quantum_sim/errors/exceptions.py:16 | a missing parameter and the parameter string "None" are different errors with the same text |
| WaveValidators.ValidatePositive | src/quantum_sim/validators/wave_validators.py:4-8 | succeeds, with true, iff the value is > 0; otherwise fails with the given name (default "value") and "Value must be positive" |
| WaveValidators.ValidateNonNegative | src/quantum_sim/validators/wave_validators.py:10-14 | succeeds, with true, iff the value is >= 0; otherwise fails with the given name and "Value must be non-negative" |
| WaveValidators.ValidateRange | src/quantum_sim/validators/wave_validators.py:16-23 | succeeds, with true, iff min <= value <= max, inclusive at both ends; otherwise fails with the given name and the "between" message |
| WaveValidators.PositiveStricterThanNonNegative | src/quantum_sim/validators/wave_validators.py:6-14 | every value the positivity check accepts is accepted by the non-negativity check; the two differ exactly at 0 |
| WaveValidators.InvertedRangeRejectsAll | src/quantum_sim/validators/wave_validators.py:18-22 | with min > max, every value fails |
| WaveValidators.DegenerateRange | src/quantum_sim/validators/wave_validators.py:18 | with min == max, exactly that point passes (so (0, 0, 0) passes) |
| WaveValidators.DefaultNameRendering | tests/quantum_sim/validators/test_wave_validators.py:16-22 | a rejected value without a name renders as "Value must be positive: value", and likewise for non-negativity |
| Potentials.NewInfiniteWell | src/quantum_sim/potentials/infinite_well.py:14-28 | construction succeeds iff a < b (so a == b fails); a constructed well satisfies the well invariant and keeps a, b, V_wall; failure is the bounds ValueError |
| Potentials.EvaluateAt | src/quantum_sim/potentials/infinite_well.py:40-41 | every value of every potential is 0 or that potential's single non-zero level; the free and step cases model free_potential.py:27-28 and step_potential.py:36-37 |
| Potentials.Evaluate | src/quantum_sim/potentials/step_potential.py:36-37 | evaluation is element-wise: as many outputs as inputs, output i computed from input i alone |
| Potentials.Parameters | src/quantum_sim/potentials/step_potential.py:39-42 | free: the empty map; step: exactly {"x0", "V0"}; well: exactly {"a", "b", "V_wall"}, each holding its construction argument |
| Potentials.Describe | src/quantum_sim/potentials/free_potential.py:35-37 | the free potential's text is exactly "FreePotential: V(x) = 0"; every text begins with its class name and a colon |
| Potentials.FreeIgnoresPositions | src/quantum_sim/potentials/free_potential.py:17-28 | the free potential is 0 at every position, and its output depends only on how many positions there are |
| Potentials.StepAlwaysValid | src/quantum_sim/potentials/step_potential.py:14-24 | a step of any position and height is a valid potential |
| Potentials.StepBoundary | src/quantum_sim/potentials/step_potential.py:34-37 | 0 below x0 and V0 from x0 on; the step point itself takes V0 |
| Potentials.StepMonotone | src/quantum_sim/potentials/step_potential.py:37 | a step with V0 >= 0 never decreases along the axis |
| Potentials.WellBoundary | src/quantum_sim/potentials/infinite_well.py:38-41 | a constructed well is 0 on the closed interval [a, b], both walls included, and V_wall outside |
| Potentials.ZeroExactlyInZeroRegion | src/quantum_sim/potentials/infinite_well.py:41 | when a potential's level is non-zero, its value is 0 iff the position is in its zero region (x < x0 for the step, a <= x <= b for the well), and equals the level iff it is not |
| Potentials.EvaluateAppend | src/quantum_sim/potentials/step_potential.py:36-37 | evaluating two grids joined together gives the two evaluations joined together |
| Potentials.ParametersDetermine | src/quantum_sim/potentials/infinite_well.py:43-46 | two potentials of the same class with the same parameter map are equal, so the map loses nothing |
| Potentials.DefaultWallInParameters | src/quantum_sim/potentials/infinite_well.py:14 | a well built without V_wall reports V_wall = 1e10 |
| Potentials.DescriptionsDistinguishKinds | src/quantum_sim/potentials/Potential.py:40-43 | potentials of different classes never have the same text, however floats are formatted |
| Potentials.StepSampleGrid | tests/test_potential.py:35-42 | StepPotential(2, 5) on [0, 1.9, 2, 2.1, 5] gives [0, 0, 5, 5, 5] |
| Potentials.WellSampleGrid | tests/test_potential.py:53-65 | InfiniteWell(-1, 1) on [-2, -1, 0, 1, 2] gives [1e10, 0, 0, 0, 1e10]; InfiniteWell(1, 1) fails |
| WaveResults.Metadata.Empty | src/quantum_sim/waves/result.py:21 | a new dictionary is empty |
| WaveResults.Metadata.constructor | tests/quantum_sim/waves/test_wave_result.py:12 | a dictionary literal holds exactly the given entries |
| WaveResults.Metadata.Put | tests/quantum_sim/waves/test_wave_result.py:30 | `d[key] = value` maps the key to the value and leaves every other entry as it was |
| WaveResults.Metadata.Copy | src/quantum_sim/waves/result.py:34 | `dict.copy()` gives a newly allocated dictionary with the same entries |
| WaveResults.CopyArray | src/quantum_sim/waves/result.py:31-33 | `np.copy` gives a newly allocated array with the same elements |
| WaveResults.WaveResult.constructor | src/quantum_sim/waves/result.py:18-21 | the record holds the given arrays and dictionary themselves, not copies |
| WaveResults.WaveResult.WithDefaultMetadata | src/quantum_sim/waves/result.py:21 | without a metadata argument, the record gets a newly allocated empty dictionary |
| WaveResults.WaveResult.Copy | src/quantum_sim/waves/result.py:23-35 | the copy is a new object whose x, psi and metadata are newly allocated with equal contents; a null t stays null, and a present t is newly allocated with equal contents; the original is unchanged |
| WaveResults.MutatedCopyLeavesOriginal | tests/quantum_sim/waves/test_wave_result.py:47-59 | after writing copy.x[0], copy.psi[1] and a new metadata key, the original's arrays and metadata are as before |
| WaveResults.DefaultMetadataNotShared | tests/quantum_sim/waves/test_wave_result.py:26-31 | two records built without metadata have distinct dictionaries; a key put into one is absent from the other |

## Left out

- PlaneWave (src/quantum_sim/waves/plane_wave.py): complex exponentials and float formulas with pi. They are not exact. Its `__init__` also never calls `validate_parameters`, so the code does not reject a bad wavelength at construction, although the class defines `validate_parameters` for that check.
- The `PlaneWave.py` and `wave_packet.py` stubs: every method is `pass`, so there is no behaviour to state.
- The `WaveFunction` abstract base: no behaviour of its own.
- Physical constants (src/quantum_sim/utils/constants.py): float literals used only by the plane wave.
- scripts/clean_links.py: file I/O and regex rewriting of generated HTML.
- Python's float-to-text conversion: `validate_range`'s message and the `__str__` of the step and the well take it as a parameter `fmt`. Their exact text is therefore stated only up to that conversion.
- NaN and infinities: reals have neither. In Python a NaN passes `validate_positive` and `validate_non_negative` (`NaN <= 0` is false). It also fails `validate_range`, builds an `InfiniteWell` (`NaN >= b` is false), and evaluates to 0 on a step and to V_wall in a well.
- An error's parameter is `Option<string>`. Python accepts any object and renders it with `str()`, so `InvalidParameterError(42)` gives "Invalid parameter provided: 42"; every caller in the package passes a string or `None`.
- `TypeError` on non-numeric input: ruled out by Dafny's typing.
- numpy's scalar-versus-array shape polymorphism: a position is `real` and an array is `seq<real>`. An integer input array to `FreePotential.evaluate` gives integer zeros in numpy; here all values are reals.
- Exception machinery: raising, `args` and the Python class hierarchy are not modelled. The base class is the `Base` variant, and "is a QuantumSimError" holds by typing. A base exception's text is modelled for the one-message case only.
- Metadata values are a type parameter `V`. The copy shares them, as `dict.copy()` does; values are not deep-copied.
- No length relation between `x`, `psi` and `t` is assumed, because the code does not enforce one.
