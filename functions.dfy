/**
 * The closed family of one-variable functions the calculator plots:
 * linear, quadratic and exponential. Each variant carries its own
 * parameters, evaluates to a real, has a type tag and a textual form.
 *
 * Two library facilities of the C++ program have no Dafny counterpart and are
 * passed in as parameters: the exponential `exp` and the decimal rendering
 * of a number inside a description (`show`).
 */
module Functions {

  datatype Function =
    | Linear(m: real, c: real)
    | Quadratic(a: real, b: real, c: real)
    | Exponential(coefficient: real, exponent: real)

  function Abs(r: real): (a: real)
    ensures a >= 0.0 && (a == r || a == -r)
  {
    if r < 0.0 then -r else r
  }

  /**
   * The value of `f` at `x`; `exp` stands for the exponential function.
   * At `x == 0` every function takes its constant term (for the exponential,
   * given `exp(0) == 1`).
   */
  function Evaluate(f: Function, x: real, exp: real -> real): (y: real)
    ensures x == 0.0 && f.Linear? ==> y == f.c
    ensures x == 0.0 && f.Quadratic? ==> y == f.c
    ensures x == 0.0 && f.Exponential? && exp(0.0) == 1.0 ==> y == f.coefficient
  {
    match f
    case Linear(m, c) => m * x + c
    case Quadratic(a, b, c) => a * x * x + b * x + c
    case Exponential(coefficient, exponent) =>
      assert x == 0.0 ==> exponent * x == exponent * 0.0 == 0.0;
      coefficient * exp(exponent * x)
  }

  /** The tag used for display and for saved records. */
  function TypeTag(f: Function): (t: string)
    ensures t == "Linear" <==> f.Linear?
    ensures t == "Quadratic" <==> f.Quadratic?
    ensures t == "Exponential" <==> f.Exponential?
  {
    match f
    case Linear(_, _) => "Linear"
    case Quadratic(_, _, _) => "Quadratic"
    case Exponential(_, _) => "Exponential"
  }

  /**
   * A signed term of a description: a non-negative value is written
   * " + v", a negative one " - |v|".
   */
  function SignedTerm(v: real, show: real -> string): (s: string)
    ensures |s| >= 3 && s[3..] == show(Abs(v))
    ensures s[..3] == " - " <==> v < 0.0
    ensures s[..3] == " + " <==> v >= 0.0
  {
    if v >= 0.0 then " + " + show(v) else " - " + show(-v)
  }

  /** The textual form fixed when the function is constructed. */
  function Describe(f: Function, show: real -> string): (s: string)
    ensures |s| >= 4 && s[..4] == "y = "
  {
    match f
    case Linear(m, c) => "y = " + show(m) + "x" + SignedTerm(c, show)
    case Quadratic(a, b, c) =>
      "y = " + show(a) + "x^2" + SignedTerm(b, show) + "x" + SignedTerm(c, show)
    case Exponential(coefficient, exponent) =>
      "y = " + show(coefficient) + "*e^(" + show(exponent) + "x)"
  }

  /** The line `display()` writes for a function, e.g. "Linear Function: y = ...". */
  function DisplayLine(f: Function, show: real -> string): (s: string)
    ensures |s| > |TypeTag(f)| && s[..|TypeTag(f)|] == TypeTag(f)
    ensures |s| >= |Describe(f, show)| && s[|s| - |Describe(f, show)|..] == Describe(f, show)
  {
    TypeTag(f) + " Function: " + Describe(f, show)
  }

  /** The constant term of a linear description carries the sign of `c`. */
  lemma LinearDescriptionEndsWithIntercept(m: real, c: real, show: real -> string)
    ensures var s := Describe(Linear(m, c), show);
            var n := |show(Abs(c))|;
            |s| >= n + 3 &&
            s[|s| - n..] == show(Abs(c)) &&
            (s[|s| - n - 3..|s| - n] == " - " <==> c < 0.0)
  {
    var s := Describe(Linear(m, c), show);
    var p := "y = " + show(m) + "x";
    var t := SignedTerm(c, show);
    assert s == p + t;
    assert t == t[..3] + t[3..];
    assert s[|s| - |show(Abs(c))|..] == t[3..];
    assert s[|s| - |show(Abs(c))| - 3..|s| - |show(Abs(c))|] == t[..3];
  }

  /**
   * A quadratic description carries two signed terms after "y = a x^2": the
   * magnitude of `b`, preceded by " - " exactly when `b` is negative and
   * followed by "x", then the magnitude of `c`, preceded by " - " exactly when
   * `c` is negative.
   */
  lemma QuadraticDescriptionSigns(a: real, b: real, c: real, show: real -> string)
    ensures var s := Describe(Quadratic(a, b, c), show);
            var p := |"y = " + show(a) + "x^2"|;
            var nb := |show(Abs(b))|;
            |s| == p + nb + 7 + |show(Abs(c))| &&
            (s[p..p + 3] == " - " <==> b < 0.0) &&
            s[p + 3..p + 3 + nb] == show(Abs(b)) &&
            s[p + 3 + nb] == 'x' &&
            (s[p + 4 + nb..p + 7 + nb] == " - " <==> c < 0.0) &&
            s[p + 7 + nb..] == show(Abs(c))
  {
    var head := "y = " + show(a) + "x^2";
    var tb, tc := SignedTerm(b, show), SignedTerm(c, show);
    var s := Describe(Quadratic(a, b, c), show);
    assert s == head + tb + "x" + tc;
    assert tb == tb[..3] + tb[3..] && tc == tc[..3] + tc[3..];
    var p, nb := |head|, |show(Abs(b))|;
    assert s[p..p + 3] == tb[..3];
    assert s[p + 3..p + 3 + nb] == tb[3..];
    assert s[p + 4 + nb..p + 7 + nb] == tc[..3];
    assert s[p + 7 + nb..] == tc[3..];
  }
}
