/**
 * The stabilizer's configuration: the algorithm choice, the master
 * `strength` dial, the tunables derived from it, and the effect of the
 * key=value lines of the configuration file once they are split.
 */
module Settings {
  import opened Evdev

  datatype Option<T> = None | Some(value: T)

  datatype Algorithm = MovingAvg | GaussianAvg | StringPull | OneEuro | Off

  datatype Config = Config(
    algorithm: Algorithm,
    strength: real,
    pressureSmoothing: bool,
    tiltSmoothing: bool,
    movingAvgWindow: int,
    gaussianSigma: real,
    stringLength: real,
    stringFinish: bool,
    oneEuroMinCutoff: real,
    oneEuroBeta: real,
    oneEuroDCutoff: real)

  /** The initialisers of `struct Config`, before anything is derived from strength. */
  const DefaultConfig: Config :=
    Config(StringPull, 0.5, false, false, 8, 30.0, 25.0, true, 1.0, 0.007, 1.0)

  /**
   * What every configuration the program can hold satisfies: the strength
   * dial is inside [0,1] and the string length is not negative.
   */
  predicate ConfigOk(c: Config)
  {
    0.0 <= c.strength <= 1.0 && 0.0 <= c.stringLength
  }

  /**
   * derive_params: recompute the five strength-dependent tunables from
   * `strength` alone. The window truncates `strength * 28`.
   */
  function DeriveParams(c: Config): (r: Config)
    ensures r.(movingAvgWindow := c.movingAvgWindow, gaussianSigma := c.gaussianSigma,
               stringLength := c.stringLength, oneEuroMinCutoff := c.oneEuroMinCutoff,
               oneEuroBeta := c.oneEuroBeta) == c
    ensures 0.0 <= c.strength ==>
              (r.movingAvgWindow - 4) as real <= 28.0 * c.strength < (r.movingAvgWindow - 3) as real
    ensures 0.0 <= c.strength <= 1.0 ==>
              && 4 <= r.movingAvgWindow <= 32
              && 50.0 <= r.gaussianSigma <= 500.0
              && 100.0 <= r.stringLength <= 1000.0
              && 0.2 <= r.oneEuroMinCutoff <= 1.5
              && 0.001 <= r.oneEuroBeta <= 0.011
    ensures ConfigOk(c) ==> ConfigOk(r)
  {
    var s := c.strength;
    c.(movingAvgWindow := 4 + Trunc(s * 28.0),
       gaussianSigma := 50.0 + s * 450.0,
       stringLength := 100.0 + s * 900.0,
       oneEuroMinCutoff := 1.5 - s * 1.3,
       oneEuroBeta := 0.001 + s * 0.01)
  }

  /** A larger strength never gives a smaller window, sigma or string length. */
  lemma DeriveParamsMonotone(c: Config, d: Config)
    requires 0.0 <= c.strength <= d.strength
    ensures DeriveParams(c).movingAvgWindow <= DeriveParams(d).movingAvgWindow
    ensures DeriveParams(c).gaussianSigma <= DeriveParams(d).gaussianSigma
    ensures DeriveParams(c).stringLength <= DeriveParams(d).stringLength
    ensures DeriveParams(c).oneEuroMinCutoff >= DeriveParams(d).oneEuroMinCutoff
  {
    var wc, wd := DeriveParams(c).movingAvgWindow, DeriveParams(d).movingAvgWindow;
    assert (wc - 4) as real <= 28.0 * c.strength <= 28.0 * d.strength < (wd - 3) as real;
  }

  /** Sample values: strength 0.5 gives window 18 and string length 550; strength 0 gives window 4; strength 1 gives 32 and 1000. */
  lemma DeriveParamsExamples(c: Config)
    ensures c.strength == 0.5 ==> DeriveParams(c).stringLength == 550.0 && DeriveParams(c).movingAvgWindow == 18
    ensures c.strength == 0.0 ==> DeriveParams(c).stringLength == 100.0 && DeriveParams(c).movingAvgWindow == 4
    ensures c.strength == 1.0 ==> DeriveParams(c).stringLength == 1000.0 && DeriveParams(c).movingAvgWindow == 32
  {
  }

  /** The tunables depend on strength only, so deriving twice changes nothing. */
  lemma DeriveParamsIdempotent(c: Config)
    ensures DeriveParams(DeriveParams(c)) == DeriveParams(c)
  {
  }

  /** The strength assignment of load_config: values below 0 become 0, above 1 become 1. */
  function ClampStrength(v: real): (r: real)
    ensures 0.0 <= r <= 1.0
    ensures 0.0 <= v <= 1.0 ==> r == v
    ensures v < 0.0 ==> r == 0.0
    ensures 1.0 < v ==> r == 1.0
  {
    var atLeastZero := if v < 0.0 then 0.0 else v;
    if atLeastZero > 1.0 then 1.0 else atLeastZero
  }

  /** The configuration-file spelling of each algorithm. */
  function AlgorithmName(a: Algorithm): string
  {
    match a
    case MovingAvg => "moving_avg"
    case GaussianAvg => "gaussian"
    case StringPull => "string_pull"
    case OneEuro => "one_euro"
    case Off => "off"
  }

  /** The `algorithm=` value chain of load_config; an unknown name is None. */
  function AlgorithmNamed(v: string): (r: Option<Algorithm>)
    ensures r.Some? ==> AlgorithmName(r.value) == v
    ensures r.None? ==> forall a: Algorithm :: AlgorithmName(a) != v
  {
    if v == "off" then Some(Off)
    else if v == "moving_avg" then Some(MovingAvg)
    else if v == "gaussian" then Some(GaussianAvg)
    else if v == "string_pull" then Some(StringPull)
    else if v == "one_euro" then Some(OneEuro)
    else None
  }

  lemma AlgorithmNameRoundTrip(a: Algorithm)
    ensures AlgorithmNamed(AlgorithmName(a)) == Some(a)
  {
  }

  predicate IsKnownKey(key: string)
  {
    key == "algorithm" || key == "strength" || key == "pressure_smoothing" || key == "tilt_smoothing"
  }

  /**
   * The effect of one `key=value` line on the configuration. `atof` stands
   * for the C library's string-to-double conversion.
   */
  function ApplyPair(c: Config, key: string, val: string, atof: string -> real): (r: Config)
    ensures r.(algorithm := c.algorithm, strength := c.strength,
               pressureSmoothing := c.pressureSmoothing, tiltSmoothing := c.tiltSmoothing) == c
    ensures !IsKnownKey(key) ==> r == c
    ensures key == "algorithm" && AlgorithmNamed(val).None? ==> r == c
    ensures key == "algorithm" && AlgorithmNamed(val).Some? ==> r.algorithm == AlgorithmNamed(val).value
    ensures key != "algorithm" ==> r.algorithm == c.algorithm
    ensures key == "strength" ==> r.strength == ClampStrength(atof(val)) && 0.0 <= r.strength <= 1.0
    ensures key != "strength" ==> r.strength == c.strength
    ensures key == "pressure_smoothing" ==> r.pressureSmoothing == (val == "true")
    ensures key != "pressure_smoothing" ==> r.pressureSmoothing == c.pressureSmoothing
    ensures key == "tilt_smoothing" ==> r.tiltSmoothing == (val == "true")
    ensures key != "tilt_smoothing" ==> r.tiltSmoothing == c.tiltSmoothing
    ensures ConfigOk(c) ==> ConfigOk(r)
  {
    if key == "algorithm" then
      match AlgorithmNamed(val)
      case Some(a) => c.(algorithm := a)
      case None => c
    else if key == "strength" then
      c.(strength := ClampStrength(atof(val)))
    else if key == "pressure_smoothing" then
      c.(pressureSmoothing := val == "true")
    else if key == "tilt_smoothing" then
      c.(tiltSmoothing := val == "true")
    else
      c
  }

  /** The lines of the file applied in order (a left fold). */
  function ApplyPairs(c: Config, pairs: seq<(string, string)>, atof: string -> real): (r: Config)
    ensures r.(algorithm := c.algorithm, strength := c.strength,
               pressureSmoothing := c.pressureSmoothing, tiltSmoothing := c.tiltSmoothing) == c
    ensures ConfigOk(c) ==> ConfigOk(r)
    decreases |pairs|
  {
    if pairs == [] then c
    else
      var last := pairs[|pairs| - 1];
      ApplyPair(ApplyPairs(c, pairs[..|pairs| - 1], atof), last.0, last.1, atof)
  }

  /** Lines without a known key leave the configuration as it was. */
  lemma {:induction false} UnknownKeysIgnored(c: Config, pairs: seq<(string, string)>, atof: string -> real)
    requires forall k :: 0 <= k < |pairs| ==> !IsKnownKey(pairs[k].0)
    ensures ApplyPairs(c, pairs, atof) == c
    decreases |pairs|
  {
    if pairs != [] {
      UnknownKeysIgnored(c, pairs[..|pairs| - 1], atof);
    }
  }

  /** The strength comes from the last `strength=` line, or is unchanged when there is none. */
  lemma {:induction false} LastStrengthWins(c: Config, pairs: seq<(string, string)>, atof: string -> real, j: nat)
    requires j < |pairs| && pairs[j].0 == "strength"
    requires forall k :: j < k < |pairs| ==> pairs[k].0 != "strength"
    ensures ApplyPairs(c, pairs, atof).strength == ClampStrength(atof(pairs[j].1))
    decreases |pairs|
  {
    if j < |pairs| - 1 {
      LastStrengthWins(c, pairs[..|pairs| - 1], atof, j);
    }
  }

  lemma {:induction false} NoStrengthKeepsStrength(c: Config, pairs: seq<(string, string)>, atof: string -> real)
    requires forall k :: 0 <= k < |pairs| ==> pairs[k].0 != "strength"
    ensures ApplyPairs(c, pairs, atof).strength == c.strength
    decreases |pairs|
  {
    if pairs != [] {
      NoStrengthKeepsStrength(c, pairs[..|pairs| - 1], atof);
    }
  }

  /** A line that selects an algorithm: key `algorithm` with a recognised name. */
  predicate SelectsAlgorithm(line: (string, string))
  {
    line.0 == "algorithm" && AlgorithmNamed(line.1).Some?
  }

  /**
   * The algorithm is the one named by the last `algorithm=` line with a
   * recognised name; later lines with an unknown name do not undo it.
   */
  lemma {:induction false} LastAlgorithmWins(c: Config, pairs: seq<(string, string)>, atof: string -> real, j: nat)
    requires j < |pairs| && SelectsAlgorithm(pairs[j])
    requires forall k :: j < k < |pairs| ==> !SelectsAlgorithm(pairs[k])
    ensures ApplyPairs(c, pairs, atof).algorithm == AlgorithmNamed(pairs[j].1).value
    decreases |pairs|
  {
    if j < |pairs| - 1 {
      LastAlgorithmWins(c, pairs[..|pairs| - 1], atof, j);
    }
  }

  /** Without a line that selects an algorithm, the algorithm is unchanged. */
  lemma {:induction false} NoAlgorithmKeepsAlgorithm(c: Config, pairs: seq<(string, string)>, atof: string -> real)
    requires forall k :: 0 <= k < |pairs| ==> !SelectsAlgorithm(pairs[k])
    ensures ApplyPairs(c, pairs, atof).algorithm == c.algorithm
    decreases |pairs|
  {
    if pairs != [] {
      NoAlgorithmKeepsAlgorithm(c, pairs[..|pairs| - 1], atof);
    }
  }

  /**
   * load_config as a value: derive from the current configuration; with no
   * file stop there, otherwise apply the lines and derive again from the
   * final strength.
   */
  function Loaded(current: Config, file: Option<seq<(string, string)>>, atof: string -> real): (r: Config)
    ensures DeriveParams(r) == r
    ensures ConfigOk(current) ==> ConfigOk(r)
    ensures file.None? ==> r.strength == current.strength && r.algorithm == current.algorithm
  {
    DeriveParamsIdempotent(current);
    match file
    case None => DeriveParams(current)
    case Some(pairs) =>
      var c := ApplyPairs(DeriveParams(current), pairs, atof);
      DeriveParamsIdempotent(c);
      DeriveParams(c)
  }

  /** load_config, the loop over the file's lines after they are split at '='. */
  method LoadConfig(current: Config, file: Option<seq<(string, string)>>, atof: string -> real)
    returns (c: Config)
    ensures c == Loaded(current, file, atof)
    ensures 0.0 <= current.strength <= 1.0 ==> 0.0 <= c.strength <= 1.0 && 4 <= c.movingAvgWindow <= 32
    ensures 0.0 <= current.strength <= 1.0 ==> 100.0 <= c.stringLength <= 1000.0
  {
    c := DeriveParams(current);
    if file.None? {
      return;
    }
    var pairs := file.value;
    var i := 0;
    while i < |pairs|
      invariant 0 <= i <= |pairs|
      invariant c == ApplyPairs(DeriveParams(current), pairs[..i], atof)
    {
      assert pairs[..i + 1][..i] == pairs[..i];
      c := ApplyPair(c, pairs[i].0, pairs[i].1, atof);
      i := i + 1;
    }
    assert pairs[..i] == pairs;
    c := DeriveParams(c);
  }
}
