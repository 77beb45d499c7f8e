/** The scripting engine as the pipeline sees it: the values that cross
    between host and script, the bindings a script leaves behind, and the
    outcome of evaluating a script or calling one of its functions.
    What the engine does inside a script is not modelled; its results are
    inputs to the pipeline. */
module Js {

  datatype Option<+T> = None | Some(value: T)

  /** A script value. Numbers are modelled as integers. */
  datatype Value =
    | Undefined
    | Null
    | Bool(b: bool)
    | Number(n: int)
    | Str(s: string)
    | Array(elements: seq<Value>)
    | Object(properties: map<string, Value>)

  /** undefined and null: the two values that export to the host's nil. */
  predicate IsNullish(v: Value) {
    v.Undefined? || v.Null?
  }

  /** Exporting a script value to the host: undefined and null become nil
      (None), any other value is carried over unchanged. */
  function Export(v: Value): (r: Option<Value>)
    ensures r.None? <==> IsNullish(v)
    ensures r.Some? ==> r.value == v
  {
    if IsNullish(v) then None else Some(v)
  }

  /** The outcome of calling a script function: a value, or a thrown error
      with its message. */
  datatype HookResult = Returned(value: Value) | Raised(message: string)

  /** A script value other than undefined: what a bound global that is
      not absent can hold. */
  type Defined = v: Value | !v.Undefined? witness Null

  /** What looking a global name up in an evaluated context yields: nothing
      (the name is unbound or bound to undefined), a value that is not a
      function, or a function, given by what it returns for each argument
      list. */
  datatype Binding =
    | Absent
    | NotCallable(value: Defined)
    | Callable(call: seq<Value> -> HookResult)

  /** The outcome of running a script's source text in a fresh context. */
  datatype Evaluation = Failed(message: string) | Ran(globals: map<string, Binding>)

  /** The binding of a global name; an unbound name reads as Absent. */
  function Get(globals: map<string, Binding>, name: string): (b: Binding)
    ensures name !in globals ==> b.Absent?
  {
    if name in globals then globals[name] else Absent
  }

  /** Decimal digits of a natural number, most significant first. */
  function Digits(n: nat): (r: string)
    ensures |r| >= 1
    ensures forall i :: 0 <= i < |r| ==> '0' <= r[i] <= '9'
    decreases n
  {
    var d := [(('0' as int) + n % 10) as char];
    if n < 10 then d else Digits(n / 10) + d
  }

  /** The text form of a number. */
  function Decimal(n: int): (r: string)
    ensures |r| >= 1
    ensures n < 0 <==> r[0] == '-'
  {
    if n < 0 then "-" + Digits(-n) else Digits(n)
  }

  /** The text form of a value, as the engine's string conversion gives it
      for numbers below 10^21 in magnitude (larger ones the engine writes in
      exponent form): an array joins its elements with commas, writing
      undefined and null elements as empty text; every object reads as
      "[object Object]". */
  function StringForm(v: Value): string
    decreases v, 1
  {
    match v
    case Undefined => "undefined"
    case Null => "null"
    case Bool(b) => if b then "true" else "false"
    case Number(n) => Decimal(n)
    case Str(s) => s
    case Array(xs) => Join(v, 0)
    case Object(_) => "[object Object]"
  }

  /** The comma-separated text of the elements of array `a` from index
      `i` on. */
  function Join(a: Value, i: nat): string
    requires a.Array? && i <= |a.elements|
    decreases a, 0, |a.elements| - i
  {
    if i == |a.elements| then ""
    else
      var x := a.elements[i];
      var text := if IsNullish(x) then "" else StringForm(x);
      if i + 1 == |a.elements| then text else text + "," + Join(a, i + 1)
  }

  /** The text of an array element: undefined and null elements are
      empty. */
  function ElementText(x: Value): string {
    if IsNullish(x) then "" else StringForm(x)
  }

  /** The texts of a list of elements, in order. */
  function Texts(xs: seq<Value>): (ts: seq<string>)
    ensures |ts| == |xs|
  {
    if xs == [] then [] else [ElementText(xs[0])] + Texts(xs[1..])
  }

  /** Texts separated by commas, built from the last text backwards. */
  function CommaJoined(ts: seq<string>): string {
    if |ts| == 0 then ""
    else if |ts| == 1 then ts[0]
    else CommaJoined(ts[..|ts| - 1]) + "," + ts[|ts| - 1]
  }

  /** Joining from the front agrees with joining from the back. */
  lemma {:induction false} CommaJoinedCons(t: string, ts: seq<string>)
    requires |ts| >= 1
    ensures CommaJoined([t] + ts) == t + "," + CommaJoined(ts)
    decreases |ts|
  {
    if |ts| == 1 {
      assert ([t] + ts)[..1] == [t];
    } else {
      var init := ts[..|ts| - 1];
      assert ([t] + ts)[..|ts|] == [t] + init;
      CommaJoinedCons(t, init);
    }
  }

  /** The elements of an array from index `i` on are written as their
      texts separated by commas. */
  lemma {:induction false} JoinSuffix(a: Value, i: nat)
    requires a.Array? && i <= |a.elements|
    ensures Join(a, i) == CommaJoined(Texts(a.elements[i..]))
    decreases |a.elements| - i
  {
    var xs := a.elements;
    if i < |xs| {
      assert xs[i..] == [xs[i]] + xs[i + 1..];
      assert Texts(xs[i..]) == [ElementText(xs[i])] + Texts(xs[i + 1..]);
      if i + 1 < |xs| {
        JoinSuffix(a, i + 1);
        CommaJoinedCons(ElementText(xs[i]), Texts(xs[i + 1..]));
      }
    }
  }

  /** The text of an array is the comma-separated list of its elements'
      texts, with undefined and null elements written as empty text. */
  lemma ArrayText(xs: seq<Value>)
    ensures StringForm(Array(xs)) == CommaJoined(Texts(xs))
  {
    JoinSuffix(Array(xs), 0);
    assert xs[0..] == xs;
  }
}
