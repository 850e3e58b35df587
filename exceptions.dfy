/** The exception family of the simulator (src/quantum_sim/errors/exceptions.py).
    Every exception the package defines is a `QuantumSimError`; the two
    specialised kinds are variants of that one datatype. */
module Exceptions {
  import opened Wrappers

  const DefaultInvalidParameterMessage: string := "Invalid parameter provided"
  const DefaultSimulationMessage: string := "An error occurred during the simulation"

  /** How Python renders a missing parameter inside an f-string. */
  const NoneText: string := "None"

  /** `Base` is the base class raised directly with a message; the parameter of
      an `InvalidParameterError` may be absent (Python `None`). */
  datatype QuantumSimError =
    | Base(message: string)
    | InvalidParameterError(parameter: Option<string>, message: string := DefaultInvalidParameterMessage)
    | SimulationError(message: string := DefaultSimulationMessage)

  /** The text that `{self.parameter}` produces. */
  function ParameterText(parameter: Option<string>): (s: string)
    ensures parameter.Some? ==> s == parameter.value
    ensures parameter.None? ==> s == NoneText
  {
    match parameter
    case None => NoneText
    case Some(p) => p
  }

  /** `str(e)`: the message, followed for an invalid parameter by ": " and the
      parameter's text. */
  function ToString(e: QuantumSimError): (s: string)
    ensures |e.message| <= |s| && s[..|e.message|] == e.message
    ensures e.InvalidParameterError? ==> s[|e.message|..] == ": " + ParameterText(e.parameter)
    ensures !e.InvalidParameterError? ==> s == e.message
  {
    match e
    case InvalidParameterError(parameter, message) => message + ": " + ParameterText(parameter)
    case _ => e.message
  }

  /** Construction keeps both arguments unchanged, and the message defaults. */
  lemma InvalidParameterFields(p: Option<string>, m: string)
    ensures InvalidParameterError(p, m).parameter == p && InvalidParameterError(p, m).message == m
    ensures InvalidParameterError(p).message == "Invalid parameter provided"
  {
  }

  lemma SimulationDefaults()
    ensures SimulationError().message == "An error occurred during the simulation"
    ensures ToString(SimulationError()) == "An error occurred during the simulation"
  {
  }

  /** The rendering of an invalid-parameter error is `message + ": " + parameter`. */
  lemma InvalidParameterRendering(p: string, m: string)
    ensures ToString(InvalidParameterError(Some(p), m)) == m + ": " + p
  {
  }

  /** A missing parameter renders as "None". */
  lemma MissingParameterRendering()
    ensures ToString(InvalidParameterError(None)) == "Invalid parameter provided: None"
  {
  }

  /** For a fixed parameter the rendered string determines the message. */
  lemma RenderingDeterminesMessage(p: Option<string>, m1: string, m2: string)
    requires ToString(InvalidParameterError(p, m1)) == ToString(InvalidParameterError(p, m2))
    ensures m1 == m2
  {
  }

  /** For a fixed message the rendered string determines the parameter's text;
      the text, though, cannot tell an absent parameter from the string "None". */
  lemma RenderingDeterminesParameterText(p1: Option<string>, p2: Option<string>, m: string)
    requires ToString(InvalidParameterError(p1, m)) == ToString(InvalidParameterError(p2, m))
    ensures ParameterText(p1) == ParameterText(p2)
  {
    var s := ToString(InvalidParameterError(p1, m));
    assert ": " + ParameterText(p1) == s[|m|..] == ": " + ParameterText(p2);
    assert ParameterText(p1) == (": " + ParameterText(p1))[2..];
    assert ParameterText(p2) == (": " + ParameterText(p2))[2..];
  }

  lemma NoneAndNoneStringRenderAlike(m: string)
    ensures InvalidParameterError(None, m) != InvalidParameterError(Some("None"), m)
    ensures ToString(InvalidParameterError(None, m)) == ToString(InvalidParameterError(Some("None"), m))
  {
  }
}
