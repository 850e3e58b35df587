/** Potential energy landscapes: the abstract base in
    src/quantum_sim/potentials/Potential.py and its three variants in
    free_potential.py, step_potential.py and infinite_well.py of the same
    directory. A float position is a `real`; an array of positions a `seq<real>`. */
module Potentials {
  import opened Wrappers

  /** The wall height an `InfiniteWell` gets when none is given (1e10). */
  const DefaultWallHeight: real := 10000000000.0
  const WellBoundsMessage: string := "Left boundary 'a' must be less than right boundary 'b'"
  const FreeDescription: string := "FreePotential: V(x) = 0"

  /** The builtin `ValueError` the well's constructor raises. */
  datatype ValueError = ValueError(message: string)

  datatype Potential =
    | FreePotential
    | StepPotential(x0: real, v0: real)
    | InfiniteWell(a: real, b: real, vWall: real)

  /** What construction guarantees: a well's left wall lies left of its right
      wall (the guard at src/quantum_sim/potentials/infinite_well.py:24-28). */
  predicate Valid(p: Potential)
  {
    p.InfiniteWell? ==> p.a < p.b
  }

  /** `InfiniteWell(a, b, V_wall)`: fails unless `a < b`. */
  function NewInfiniteWell(a: real, b: real, vWall: real := DefaultWallHeight): (r: Result<Potential, ValueError>)
    ensures r.Success? <==> a < b
    ensures r.Success? ==> r.value == InfiniteWell(a, b, vWall) && Valid(r.value)
    ensures r.Failure? ==> r.error == ValueError(WellBoundsMessage)
  {
    if a >= b then Failure(ValueError(WellBoundsMessage))
    else Success(InfiniteWell(a, b, vWall))
  }

  /** The one non-zero level a potential can take. */
  function Height(p: Potential): real
  {
    match p
    case FreePotential => 0.0
    case StepPotential(_, v0) => v0
    case InfiniteWell(_, _, vWall) => vWall
  }

  /** Is `x` in the region where the potential is zero? The step's zero region
      is open at `x0`; the well's is the closed interval between its walls. */
  predicate InZeroRegion(p: Potential, x: real)
  {
    match p
    case FreePotential => true
    case StepPotential(x0, _) => x < x0
    case InfiniteWell(a, b, _) => a <= x <= b
  }

  /** `evaluate` at one position. */
  function EvaluateAt(p: Potential, x: real): (v: real)
    ensures v == 0.0 || v == Height(p)
  {
    match p
    case FreePotential => 0.0
    case StepPotential(x0, v0) => if x >= x0 then v0 else 0.0
    case InfiniteWell(a, b, vWall) => if x >= a && x <= b then 0.0 else vWall
  }

  /** `evaluate` over an array of positions: one output per input, each
      computed from its own input alone. */
  function Evaluate(p: Potential, xs: seq<real>): (vs: seq<real>)
    ensures |vs| == |xs|
    ensures forall i :: 0 <= i < |xs| ==> vs[i] == EvaluateAt(p, xs[i])
  {
    if xs == [] then [] else [EvaluateAt(p, xs[0])] + Evaluate(p, xs[1..])
  }

  /** The `parameters` property: exactly the named construction arguments. */
  function Parameters(p: Potential): (m: map<string, real>)
    ensures p.FreePotential? ==> m == map[]
    ensures p.StepPotential? ==> m.Keys == {"x0", "V0"} && m["x0"] == p.x0 && m["V0"] == p.v0
    ensures p.InfiniteWell? ==>
      m.Keys == {"a", "b", "V_wall"} && m["a"] == p.a && m["b"] == p.b && m["V_wall"] == p.vWall
  {
    match p
    case FreePotential => map[]
    case StepPotential(x0, v0) => map["x0" := x0, "V0" := v0]
    case InfiniteWell(a, b, vWall) => map["a" := a, "b" := b, "V_wall" := vWall]
  }

  function ClassName(p: Potential): string
  {
    match p
    case FreePotential => "FreePotential"
    case StepPotential(_, _) => "StepPotential"
    case InfiniteWell(_, _, _) => "InfiniteWell"
  }

  /** `str(p)`; `fmt` stands for Python's float-to-text conversion, which is not modelled. */
  function Describe(p: Potential, fmt: real -> string): (s: string)
    ensures p.FreePotential? ==> s == "FreePotential: V(x) = 0"
    ensures |ClassName(p)| < |s| && s[..|ClassName(p)|] == ClassName(p) && s[|ClassName(p)|] == ':'
  {
    match p
    case FreePotential => FreeDescription
    case StepPotential(x0, v0) =>
      "StepPotential: V(x) = 0 for x < " + fmt(x0) + ", V(x) = " + fmt(v0) + " for x >= " + fmt(x0)
    case InfiniteWell(a, b, vWall) =>
      "InfiniteWell: V(x) = 0 for " + fmt(a) + " < x < " + fmt(b) + ", V(x) = " + fmt(vWall) + " otherwise"
  }

  // ---- free potential ----

  /** The free potential is zero everywhere, so its output depends only on
      the number of positions. */
  lemma FreeIgnoresPositions(xs: seq<real>, ys: seq<real>)
    requires |xs| == |ys|
    ensures forall i :: 0 <= i < |xs| ==> Evaluate(FreePotential, xs)[i] == 0.0
    ensures Evaluate(FreePotential, xs) == Evaluate(FreePotential, ys)
  {
  }

  // ---- step potential ----

  /** Construction of a step has no precondition: the `StepPotential`
      constructor has no `requires`, and `Valid` places no condition on steps,
      so every step satisfies the invariant the other operations may assume. */
  lemma StepAlwaysValid(x0: real, v0: real)
    ensures Valid(StepPotential(x0, v0))
  {
  }

  /** The step point itself belongs to the `V0` side. */
  lemma StepBoundary(x0: real, v0: real, x: real)
    ensures x < x0 ==> EvaluateAt(StepPotential(x0, v0), x) == 0.0
    ensures x >= x0 ==> EvaluateAt(StepPotential(x0, v0), x) == v0
    ensures EvaluateAt(StepPotential(x0, v0), x0) == v0
  {
  }

  /** A non-negative step never decreases along the axis. */
  lemma StepMonotone(x0: real, v0: real, x: real, y: real)
    requires 0.0 <= v0 && x <= y
    ensures EvaluateAt(StepPotential(x0, v0), x) <= EvaluateAt(StepPotential(x0, v0), y)
  {
  }

  // ---- infinite well ----

  /** Both walls count as inside the well. */
  lemma WellBoundary(p: Potential, x: real)
    requires p.InfiniteWell? && Valid(p)
    ensures p.a <= x <= p.b ==> EvaluateAt(p, x) == 0.0
    ensures (x < p.a || x > p.b) ==> EvaluateAt(p, x) == p.vWall
    ensures EvaluateAt(p, p.a) == 0.0 && EvaluateAt(p, p.b) == 0.0
  {
  }

  // ---- all variants ----

  /** Whenever the non-zero level really is non-zero, a potential is zero
      exactly in its zero region, and equals its level exactly outside it. */
  lemma ZeroExactlyInZeroRegion(p: Potential, x: real)
    requires Height(p) != 0.0
    ensures EvaluateAt(p, x) == 0.0 <==> InZeroRegion(p, x)
    ensures EvaluateAt(p, x) == Height(p) <==> !InZeroRegion(p, x)
  {
  }

  /** Element-wise evaluation of a concatenation is the concatenation of the
      evaluations. */
  lemma EvaluateAppend(p: Potential, xs: seq<real>, ys: seq<real>)
    ensures Evaluate(p, xs + ys) == Evaluate(p, xs) + Evaluate(p, ys)
  {
  }

  /** Within one kind of potential, the parameter map determines the potential. */
  lemma ParametersDetermine(p: Potential, q: Potential)
    requires ClassName(p) == ClassName(q) && Parameters(p) == Parameters(q)
    ensures p == q
  {
  }

  /** The default wall height appears among the well's parameters. */
  lemma DefaultWallInParameters(a: real, b: real)
    requires a < b
    ensures Parameters(NewInfiniteWell(a, b).value)["V_wall"] == 10000000000.0
  {
  }

  /** The descriptions of two kinds of potential never coincide. */
  lemma DescriptionsDistinguishKinds(p: Potential, q: Potential, fmt: real -> string)
    requires ClassName(p) != ClassName(q)
    ensures Describe(p, fmt) != Describe(q, fmt)
  {
  }

  // ---- the documented sample grids ----

  lemma StepSampleGrid()
    ensures Evaluate(StepPotential(2.0, 5.0), [0.0, 1.9, 2.0, 2.1, 5.0]) == [0.0, 0.0, 5.0, 5.0, 5.0]
  {
  }

  lemma WellSampleGrid()
    ensures NewInfiniteWell(-1.0, 1.0).Success?
    ensures Evaluate(NewInfiniteWell(-1.0, 1.0).value, [-2.0, -1.0, 0.0, 1.0, 2.0])
         == [10000000000.0, 0.0, 0.0, 0.0, 10000000000.0]
    ensures NewInfiniteWell(1.0, 1.0).Failure?
  {
  }
}
