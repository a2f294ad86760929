/**
 * The planning part of `render_angles`: the angle list is validated, with a
 * fallback to a front and a side view, and every surviving angle gets one
 * render with its own numbered file path. The camera position is computed
 * with floating-point trigonometry, which this module does not model except
 * for the one way it fails: `math.cos` of an infinite angle raises
 * `ValueError` and ends the loop. A render is represented by the angle it is
 * taken from and the path set for it.
 */
module RenderAngles {
  import opened Wrappers
  import opened JsonValue
  import opened Naming

  /**
   * What `float(s)` makes of a string: it raises `ValueError`, or gives an
   * infinity (`"inf"`, `"-Infinity"`, `"1e400"`, ...), or any other value,
   * finite or NaN. Python's float grammar is not modelled; a run takes it
   * as a parameter of this type.
   */
  datatype StringFloat = NotAFloat | Infinite | Ordinary

  /**
   * A camera azimuth. The numeric value is not modelled: an angle records
   * where it came from, one of the two defaults or an element of the input
   * list that `float()` accepted.
   */
  datatype Angle = DefaultFront | DefaultSide | Converted(source: Json)

  /** `[0, math.pi/2]`. */
  const DefaultAngles: seq<Angle> := [DefaultFront, DefaultSide]

  /** The failures of `render_angles` that nothing catches. */
  datatype RenderError =
    | AngleTooLargeForFloat   // float(angle) raises OverflowError (line 99)
    | InfiniteAngle           // math.cos(angle) raises ValueError (line 115)

  /** What `float(v)` does: return a value, or raise one of two kinds of exception. */
  datatype FloatOutcome = Converts | ValueOrTypeError | OverflowError

  /**
   * 2^1024 - 2^970. Converting an integer to the nearest double carries any
   * magnitude from here on past the largest finite double, and Python then
   * raises `OverflowError`.
   */
  const IntOverflowBound: int :=
    0xFFFF_FFFF_FFFF_FC00_0000_0000_0000_0000_0000_0000_0000_0000_0000_0000_0000_0000_0000_0000_0000_0000_0000_0000_0000_0000_0000_0000_0000_0000_0000_0000_0000_0000_0000_0000_0000_0000_0000_0000_0000_0000_0000_0000_0000_0000_0000_0000_0000_0000_0000_0000_0000_0000_0000_0000_0000_0000_0000_0000_0000_0000_0000_0000_0000_0000

  /** The bits of a double other than its sign, and their value for an infinity. */
  const MagnitudeMask: bv64 := 0x7FFF_FFFF_FFFF_FFFF
  const InfinityBits: bv64 := 0x7FF0_0000_0000_0000

  /**
   * `float(v)` for a decoded JSON value. Booleans, integers below the bound
   * and floats convert; `None`, lists and dicts raise `TypeError`; a string
   * raises `ValueError` when Python's float grammar rejects it.
   */
  function ToFloat(v: Json, parseFloat: string -> StringFloat): (r: FloatOutcome)
    ensures r == OverflowError <==> v.JInt? && !(-IntOverflowBound < v.i < IntOverflowBound)
    ensures r == ValueOrTypeError <==>
      v.JNull? || v.JArray? || v.JObject? || (v.JString? && parseFloat(v.s) == NotAFloat)
    ensures v.JBool? || v.JFloat? ==> r == Converts
  {
    match v
    case JNull => ValueOrTypeError
    case JBool(_) => Converts
    case JInt(i) => if -IntOverflowBound < i < IntOverflowBound then Converts else OverflowError
    case JFloat(_) => Converts
    case JString(s) => if parseFloat(s) == NotAFloat then ValueOrTypeError else Converts
    case JArray(_) => ValueOrTypeError
    case JObject(_) => ValueOrTypeError
  }

  /** The bit patterns of +inf and -inf. */
  const PositiveInfinityBits: bv64 := 0x7FF0_0000_0000_0000
  const NegativeInfinityBits: bv64 := 0xFFF0_0000_0000_0000

  /**
   * The converted angle is an infinity, the values for which `math.cos`
   * raises: a JSON float with infinite bits (`json.load` reads `1e400` and
   * `Infinity` so), or a string that `float()` reads as one. NaN, booleans
   * and integers below the bound are not.
   */
  predicate IsInfinite(a: Angle, parseFloat: string -> StringFloat) {
    match a
    case Converted(JFloat(bits)) => bits & MagnitudeMask == InfinityBits
    case Converted(JString(s)) => parseFloat(s) == Infinite
    case _ => false
  }

  /**
   * Exactly the angles converted from +inf or -inf, or from a string that
   * `float()` reads as an infinity, are infinite.
   */
  lemma InfiniteExactly(a: Angle, parseFloat: string -> StringFloat)
    ensures IsInfinite(a, parseFloat) ==> a.Converted? && (a.source.JFloat? || a.source.JString?)
    ensures a.Converted? && a.source.JFloat? ==>
      (IsInfinite(a, parseFloat) <==> a.source.bits == PositiveInfinityBits || a.source.bits == NegativeInfinityBits)
    ensures a.Converted? && a.source.JString? ==> (IsInfinite(a, parseFloat) <==> parseFloat(a.source.s) == Infinite)
  {
  }

  /** A NaN (all exponent bits set, a non-zero fraction) does not make `math.cos` raise. */
  lemma NaNIsNotInfinite(bits: bv64, parseFloat: string -> StringFloat)
    requires bits & InfinityBits == InfinityBits && bits & 0x000F_FFFF_FFFF_FFFF != 0
    ensures !IsInfinite(Converted(JFloat(bits)), parseFloat)
  {
  }

  /** `k` is the first element of `xs` that `float()` does not accept. */
  predicate FirstFailure(xs: seq<Json>, parseFloat: string -> StringFloat, k: int) {
    0 <= k < |xs| && ToFloat(xs[k], parseFloat) != Converts &&
    forall j :: 0 <= j < k ==> ToFloat(xs[j], parseFloat) == Converts
  }

  /** How `[float(angle) for angle in angles]` ends. */
  datatype Conversion = AllConverted(angles: seq<Angle>) | Caught | Uncaught

  /**
   * The list comprehension, element by element from the front: the first
   * element that `float()` rejects decides which exception escapes it.
   */
  function ConvertAll(xs: seq<Json>, parseFloat: string -> StringFloat): (r: Conversion)
    ensures r.AllConverted? <==> forall k :: 0 <= k < |xs| ==> ToFloat(xs[k], parseFloat) == Converts
    ensures r.AllConverted? ==>
      |r.angles| == |xs| && forall k :: 0 <= k < |xs| ==> r.angles[k] == Converted(xs[k])
    ensures r.Caught? <==>
      exists k :: FirstFailure(xs, parseFloat, k) && ToFloat(xs[k], parseFloat) == ValueOrTypeError
    ensures r.Uncaught? <==>
      exists k :: FirstFailure(xs, parseFloat, k) && ToFloat(xs[k], parseFloat) == OverflowError
    decreases |xs|
  {
    if xs == [] then AllConverted([])
    else
      match ToFloat(xs[0], parseFloat)
      case ValueOrTypeError =>
        assert FirstFailure(xs, parseFloat, 0);
        Caught
      case OverflowError =>
        assert FirstFailure(xs, parseFloat, 0);
        Uncaught
      case Converts =>
        var rest := ConvertAll(xs[1..], parseFloat);
        FirstFailureShift(xs, parseFloat);
        match rest
        case AllConverted(tail) => AllConverted([Converted(xs[0])] + tail)
        case Caught => Caught
        case Uncaught => Uncaught
  }

  /** Behind an element that converts, the first failure moves one place. */
  lemma FirstFailureShift(xs: seq<Json>, parseFloat: string -> StringFloat)
    requires |xs| > 0 && ToFloat(xs[0], parseFloat) == Converts
    ensures forall k :: FirstFailure(xs, parseFloat, k) <==> k >= 1 && FirstFailure(xs[1..], parseFloat, k - 1)
  {
  }

  /**
   * The angle list `render_angles` goes on with (lines 89-102): `None` and
   * anything but a list become the defaults, and so does a list with an
   * element that `float()` rejects with `ValueError` or `TypeError`; an
   * `OverflowError` is not caught there and ends the script. The list is
   * never kept in part.
   */
  function ValidatedAngles(angles: Json, parseFloat: string -> StringFloat): (r: Result<seq<Angle>, RenderError>)
    ensures r.Err? <==> angles.JArray? && ConvertAll(angles.items, parseFloat).Uncaught?
    ensures r.Err? ==> r.error == AngleTooLargeForFloat
    ensures !angles.JArray? ==> r == Ok(DefaultAngles)
    ensures r.Ok? ==>
      (r.value == DefaultAngles ||
       (angles.JArray? && |r.value| == |angles.items| &&
        forall k :: 0 <= k < |angles.items| ==> r.value[k] == Converted(angles.items[k])))
  {
    if angles.JNull? then Ok(DefaultAngles)
    else if !angles.JArray? then Ok(DefaultAngles)
    else
      match ConvertAll(angles.items, parseFloat)
      case AllConverted(converted) => Ok(converted)
      case Caught => Ok(DefaultAngles)
      case Uncaught => Err(AngleTooLargeForFloat)
  }

  /** One render: the camera angle it is taken from and the file path set for it. */
  datatype Shot = Shot(angle: Angle, filepath: string)

  /** The renders done, in order, and the exception that ended them early, if any. */
  datatype RenderOutcome = RenderOutcome(shots: seq<Shot>, failure: Option<RenderError>)

  /** Position of the first infinite angle, or the length when there is none. */
  function FirstInfinite(angles: seq<Angle>, parseFloat: string -> StringFloat): (n: nat)
    ensures n <= |angles|
    ensures forall k :: 0 <= k < n ==> !IsInfinite(angles[k], parseFloat)
    ensures n < |angles| ==> IsInfinite(angles[n], parseFloat)
    decreases |angles|
  {
    if angles == [] || IsInfinite(angles[0], parseFloat) then 0
    else 1 + FirstInfinite(angles[1..], parseFloat)
  }

  /**
   * The `for i, angle in enumerate(angles)` loop: angle `i` is rendered
   * with path `<path>_<NN>.<ext>`, until an infinite angle makes the camera
   * placement raise before its path is set.
   */
  function RenderLoop(outputBase: string, angles: seq<Angle>, parseFloat: string -> StringFloat): (r: RenderOutcome)
    ensures |r.shots| <= |angles|
    ensures forall k :: 0 <= k < |r.shots| ==>
      !IsInfinite(angles[k], parseFloat) &&
      r.shots[k] == Shot(angles[k], FileName(SplitOutputBase(outputBase).path, SplitOutputBase(outputBase).ext, k))
    ensures r.failure.None? <==> |r.shots| == |angles|
    ensures r.failure.Some? ==> r.failure.value == InfiniteAngle && IsInfinite(angles[|r.shots|], parseFloat)
  {
    var split := SplitOutputBase(outputBase);
    var n := FirstInfinite(angles, parseFloat);
    RenderOutcome(
      seq(n, k requires 0 <= k < n => Shot(angles[k], FileName(split.path, split.ext, k))),
      if n < |angles| then Some(InfiniteAngle) else None)
  }

  /** Everything `render_angles` renders, and the exception that stops it, if any. */
  function RenderPlan(outputBase: string, angles: Json, parseFloat: string -> StringFloat): (r: RenderOutcome)
    ensures r.failure == Some(AngleTooLargeForFloat) <==> ValidatedAngles(angles, parseFloat).Err?
    ensures r.failure == Some(AngleTooLargeForFloat) ==> r.shots == []
    ensures r.failure.None? ==> |r.shots| == |ValidatedAngles(angles, parseFloat).value|
    ensures forall k :: 0 <= k < |r.shots| ==>
      r.shots[k].filepath == FileName(SplitOutputBase(outputBase).path, SplitOutputBase(outputBase).ext, k)
  {
    match ValidatedAngles(angles, parseFloat)
    case Ok(validated) => RenderLoop(outputBase, validated, parseFloat)
    case Err(e) => RenderOutcome([], Some(e))
  }

  /** `[float(angle) for angle in angles]`, evaluated left to right. */
  method ConvertAngles(xs: seq<Json>, parseFloat: string -> StringFloat) returns (r: Conversion)
    ensures r == ConvertAll(xs, parseFloat)
  {
    var converted: seq<Angle> := [];
    var i := 0;
    while i < |xs|
      invariant 0 <= i <= |xs|
      invariant forall k :: 0 <= k < i ==> ToFloat(xs[k], parseFloat) == Converts
      invariant |converted| == i && forall k :: 0 <= k < i ==> converted[k] == Converted(xs[k])
    {
      var outcome := ToFloat(xs[i], parseFloat);
      if outcome == ValueOrTypeError {
        assert FirstFailure(xs, parseFloat, i);
        return Caught;
      } else if outcome == OverflowError {
        assert FirstFailure(xs, parseFloat, i);
        return Uncaught;
      }
      converted := converted + [Converted(xs[i])];
      i := i + 1;
    }
    r := AllConverted(converted);
  }

  /** The render loop: the file path set for each angle, until an infinite angle raises. */
  method PlanShots(outputBase: string, angles: seq<Angle>, parseFloat: string -> StringFloat)
    returns (r: RenderOutcome)
    ensures r == RenderLoop(outputBase, angles, parseFloat)
  {
    var split := SplitOutputBase(outputBase);
    var shots := [];
    for i := 0 to |angles|
      invariant |shots| == i
      invariant forall k :: 0 <= k < i ==> !IsInfinite(angles[k], parseFloat)
      invariant forall k :: 0 <= k < i ==> shots[k] == Shot(angles[k], FileName(split.path, split.ext, k))
    {
      if IsInfinite(angles[i], parseFloat) {
        RenderLoopStopsAt(outputBase, angles, parseFloat, shots);
        return RenderOutcome(shots, Some(InfiniteAngle));
      }
      shots := shots + [Shot(angles[i], FileName(split.path, split.ext, i))];
    }
    RenderLoopStopsAt(outputBase, angles, parseFloat, shots);
    r := RenderOutcome(shots, None);
  }

  /**
   * Renders of the finite angles before position `|shots|`, with their
   * paths, are the loop's outcome when that position holds an infinite
   * angle or is the end.
   */
  lemma RenderLoopStopsAt(outputBase: string, angles: seq<Angle>, parseFloat: string -> StringFloat, shots: seq<Shot>)
    requires |shots| <= |angles|
    requires forall k :: 0 <= k < |shots| ==> !IsInfinite(angles[k], parseFloat)
    requires forall k :: 0 <= k < |shots| ==>
      shots[k] == Shot(angles[k], FileName(SplitOutputBase(outputBase).path, SplitOutputBase(outputBase).ext, k))
    requires |shots| < |angles| ==> IsInfinite(angles[|shots|], parseFloat)
    ensures RenderLoop(outputBase, angles, parseFloat) ==
      RenderOutcome(shots, if |shots| < |angles| then Some(InfiniteAngle) else None)
  {
    assert FirstInfinite(angles, parseFloat) == |shots|;
    var r := RenderLoop(outputBase, angles, parseFloat);
    assert |r.shots| == |shots|;
    assert forall k :: 0 <= k < |shots| ==> r.shots[k] == shots[k];
    assert r.shots == shots;
  }

  /** `render_angles(camera, output_base, angles)` without the scene updates. */
  method PlanRenderAngles(outputBase: string, angles: Json, parseFloat: string -> StringFloat)
    returns (r: RenderOutcome)
    ensures r == RenderPlan(outputBase, angles, parseFloat)
  {
    var validated: seq<Angle>;
    if angles.JNull? {
      validated := DefaultAngles;
    } else if !angles.JArray? {
      validated := DefaultAngles;
    } else {
      var conversion := ConvertAngles(angles.items, parseFloat);
      match conversion {
        case AllConverted(converted) => validated := converted;
        case Caught => validated := DefaultAngles;
        case Uncaught => return RenderOutcome([], Some(AngleTooLargeForFloat));
      }
    }
    r := PlanShots(outputBase, validated, parseFloat);
  }

  // Properties of the plan

  /** With no angles (`None`), exactly the two default views are rendered. */
  lemma AbsentAnglesRenderDefaults(outputBase: string, parseFloat: string -> StringFloat)
    ensures RenderPlan(outputBase, JNull, parseFloat) == RenderLoop(outputBase, DefaultAngles, parseFloat)
    ensures RenderPlan(outputBase, JNull, parseFloat).failure.None?
    ensures |RenderPlan(outputBase, JNull, parseFloat).shots| == 2
  {
  }

  /** Angles that are not a list fall back to the defaults, never an error. */
  lemma NonListAnglesRenderDefaults(outputBase: string, angles: Json, parseFloat: string -> StringFloat)
    requires !angles.JArray?
    ensures RenderPlan(outputBase, angles, parseFloat) == RenderLoop(outputBase, DefaultAngles, parseFloat)
    ensures RenderPlan(outputBase, angles, parseFloat).failure.None?
  {
  }

  /**
   * One rejected element replaces the whole list by the defaults, provided
   * no element before it overflows.
   */
  lemma RejectedElementRendersDefaults(outputBase: string, xs: seq<Json>, parseFloat: string -> StringFloat, k: nat)
    requires k < |xs| && ToFloat(xs[k], parseFloat) == ValueOrTypeError
    requires forall j :: 0 <= j < k ==> ToFloat(xs[j], parseFloat) != OverflowError
    ensures RenderPlan(outputBase, JArray(xs), parseFloat) == RenderLoop(outputBase, DefaultAngles, parseFloat)
  {
  }

  /** An integer too large for a double, met before any rejected element, ends the script before any render. */
  lemma OverflowBeforeRejectionFails(outputBase: string, xs: seq<Json>, parseFloat: string -> StringFloat, k: nat)
    requires FirstFailure(xs, parseFloat, k) && ToFloat(xs[k], parseFloat) == OverflowError
    ensures RenderPlan(outputBase, JArray(xs), parseFloat) == RenderOutcome([], Some(AngleTooLargeForFloat))
  {
  }

  /** An empty list is kept: nothing is rendered. */
  lemma EmptyListRendersNothing(outputBase: string, parseFloat: string -> StringFloat)
    ensures RenderPlan(outputBase, JArray([]), parseFloat) == RenderOutcome([], None)
  {
  }

  /**
   * A list of finite angles that converts throughout gives one render per
   * element, in input order, the `k`-th with the path of index `k`.
   */
  lemma ValidListRendersEach(outputBase: string, xs: seq<Json>, parseFloat: string -> StringFloat)
    requires forall k :: 0 <= k < |xs| ==> ToFloat(xs[k], parseFloat) == Converts
    requires forall k :: 0 <= k < |xs| ==> !IsInfinite(Converted(xs[k]), parseFloat)
    ensures var r := RenderPlan(outputBase, JArray(xs), parseFloat);
      var split := SplitOutputBase(outputBase);
      r.failure.None? && |r.shots| == |xs| &&
      forall k :: 0 <= k < |xs| ==> r.shots[k] == Shot(Converted(xs[k]), FileName(split.path, split.ext, k))
  {
  }

  /**
   * An infinite angle at position `k` of a list that converts throughout
   * ends the run with `ValueError` after the `k` renders before it.
   */
  lemma InfiniteAngleStopsRendering(outputBase: string, xs: seq<Json>, parseFloat: string -> StringFloat, k: nat)
    requires forall j :: 0 <= j < |xs| ==> ToFloat(xs[j], parseFloat) == Converts
    requires k < |xs| && IsInfinite(Converted(xs[k]), parseFloat)
    requires forall j :: 0 <= j < k ==> !IsInfinite(Converted(xs[j]), parseFloat)
    ensures var r := RenderPlan(outputBase, JArray(xs), parseFloat);
      var split := SplitOutputBase(outputBase);
      r.failure == Some(InfiniteAngle) && |r.shots| == k &&
      forall j :: 0 <= j < k ==> r.shots[j] == Shot(Converted(xs[j]), FileName(split.path, split.ext, j))
  {
  }

  /** `"angles": [0, 1e400]`: the first view is rendered, then `math.cos(inf)` raises. */
  lemma InfiniteSecondAngle(outputBase: string, parseFloat: string -> StringFloat)
    ensures var r := RenderPlan(outputBase, JArray([JInt(0), JFloat(InfinityBits)]), parseFloat);
      var split := SplitOutputBase(outputBase);
      r == RenderOutcome([Shot(Converted(JInt(0)), FileName(split.path, split.ext, 0))], Some(InfiniteAngle))
  {
  }

  /** No two renders of a plan get the same file path. */
  lemma PlannedFilesDistinct(outputBase: string, angles: seq<Angle>, parseFloat: string -> StringFloat)
    ensures var shots := RenderLoop(outputBase, angles, parseFloat).shots;
      forall i, j :: 0 <= i < j < |shots| ==> shots[i].filepath != shots[j].filepath
  {
  }
}
