/** The JavaScript values the assertion helpers compare and print, and the
    Error objects they throw. Numbers are integral here (no fractions, no
    NaN, no infinities) and exact: JavaScript's doubles agree with them only
    for magnitudes up to 2^53 (beyond that distinct integers collapse) and
    print them in plain decimal only below 10^21. Objects, arrays and
    functions as compared values are not modelled. */
module JsValues {
  import opened JsStrings

  /** An optional argument: `None` is an argument left out (or passed as
      `undefined`), which makes a default parameter take effect. */
  datatype Option<T> = None | Some(value: T)

  /** The value a parameter `p = default` ends up with. */
  function OrDefault<T>(arg: Option<T>, default: T): T {
    match arg
    case Some(v) => v
    case None => default
  }

  datatype Value =
    | Undefined
    | Null
    | Bool(b: bool)
    | Num(n: int)
    | Str(s: string)

  /** `===`: values of different types are never equal; values of the same
      type are equal when their payloads are. */
  predicate StrictEquals(a: Value, b: Value) {
    match (a, b)
    case (Undefined, Undefined) => true
    case (Null, Null) => true
    case (Bool(x), Bool(y)) => x == y
    case (Num(x), Num(y)) => x == y
    case (Str(x), Str(y)) => x == y
    case _ => false
  }

  /** For the values modelled here, `===` is exactly identity: no coercion
      between types ever makes two different values strictly equal. */
  lemma StrictEqualsIsIdentity(a: Value, b: Value)
    ensures StrictEquals(a, b) <==> a == b
  {
  }

  /** ToBoolean, the test `if (!x)` applies. */
  predicate Truthy(v: Value) {
    match v
    case Undefined => false
    case Null => false
    case Bool(b) => b
    case Num(n) => n != 0
    case Str(s) => s != ""
  }

  /** Exactly five of the modelled values are falsy: undefined, null, false,
      0 and "". */
  lemma FalsyValues(v: Value)
    ensures !Truthy(v) <==> v in {Undefined, Null, Bool(false), Num(0), Str("")}
  {
  }

  /** How a value prints when spliced into a template literal `${v}`. */
  function Display(v: Value): string {
    match v
    case Undefined => "undefined"
    case Null => "null"
    case Bool(b) => if b then "true" else "false"
    case Num(n) => IntToString(n)
    case Str(s) => s
  }

  /** Within one type the display tells values apart: two numbers, two
      strings or two booleans print alike exactly when they are the same
      value. Across types it does not: the number 1 and the string "1" both
      print as "1", and `null` prints like the string "null". */
  lemma DisplayDistinguishesWithinType(a: Value, b: Value)
    ensures a.Num? && b.Num? ==> (Display(a) == Display(b) <==> a == b)
    ensures a.Str? && b.Str? ==> (Display(a) == Display(b) <==> a == b)
    ensures a.Bool? && b.Bool? ==> (Display(a) == Display(b) <==> a == b)
    ensures Display(Num(1)) == Display(Str("1"))
    ensures Display(Null) == Display(Str("null"))
  {
    if a.Num? && b.Num? {
      IntToStringInjective(a.n, b.n);
    }
    assert IntToString(1) == "1";
  }

  /** How `Array.prototype.join` prints one element: null and undefined
      become the empty string, everything else prints as in a template. */
  function JoinElement(v: Value): string {
    if v.Undefined? || v.Null? then "" else Display(v)
  }

  /** `array.join(sep)`. */
  function Join(vs: seq<Value>, sep: string): string
    decreases |vs|
  {
    if vs == [] then ""
    else if |vs| == 1 then JoinElement(vs[0])
    else JoinElement(vs[0]) + sep + Join(vs[1..], sep)
  }

  /** Joining one more element appends the separator and that element. */
  lemma {:induction false} JoinSnoc(vs: seq<Value>, v: Value, sep: string)
    requires vs != []
    ensures Join(vs + [v], sep) == Join(vs, sep) + sep + JoinElement(v)
    decreases |vs|
  {
    if |vs| > 1 {
      assert (vs + [v])[1..] == vs[1..] + [v];
      JoinSnoc(vs[1..], v, sep);
    } else {
      assert (vs + [v])[1..] == [v];
    }
  }

  /** `[1, null, "x", undefined].join(", ")` is "1, , x, ": the null and
      undefined elements print as nothing between their separators. */
  lemma JoinSkipsNullish()
    ensures Join([Num(1), Null, Str("x")], ", ") == "1, , x"
    ensures Join([Num(1), Null, Str("x"), Undefined], ", ") == "1, , x, "
  {
  }

  /** `array.includes(item)`, a left-to-right scan with SameValueZero, which
      on the values modelled here is `===`. */
  predicate Includes(vs: seq<Value>, item: Value)
    decreases |vs|
  {
    |vs| > 0 && (StrictEquals(vs[0], item) || Includes(vs[1..], item))
  }

  /** The scan finds the item exactly when it occurs in the array. */
  lemma {:induction false} IncludesIffMember(vs: seq<Value>, item: Value)
    ensures Includes(vs, item) <==> item in vs
    decreases |vs|
  {
    if |vs| > 0 {
      StrictEqualsIsIdentity(vs[0], item);
      IncludesIffMember(vs[1..], item);
      assert vs == [vs[0]] + vs[1..];
    }
  }

  /** An object on a prototype chain: the name of its constructor, the
      names of the classes above that constructor on its chain, and its
      `message`. */
  datatype JsError = JsError(ctor: string, ancestors: set<string>, message: string)

  /** What every `Error` object satisfies: `Object.prototype` is on its
      chain, and so is `Error.prototype` unless `Error` is its own
      constructor. */
  predicate IsErrorObject(e: JsError) {
    "Object" in e.ancestors && (e.ctor == "Error" || "Error" in e.ancestors)
  }

  /** The values that are thrown: `Error` objects and instances of its
      subclasses. */
  type ErrorObject = e: JsError | IsErrorObject(e) witness JsError("Error", {"Object"}, "")

  /** `new Error(message)`; `Error.prototype` inherits from
      `Object.prototype`. */
  function PlainError(message: string): ErrorObject {
    JsError("Error", {"Object"}, message)
  }

  /** `new TypeError(message)`; `TypeError` extends `Error`. */
  function TypeError(message: string): ErrorObject {
    JsError("TypeError", {"Error", "Object"}, message)
  }

  /** `error instanceof C`, for the class named `className`. */
  predicate InstanceOf(e: JsError, className: string) {
    className == e.ctor || className in e.ancestors
  }

  /** Every thrown value is an instance of `Object` and of `Error`. */
  lemma ErrorObjectsAreErrors(e: ErrorObject)
    ensures InstanceOf(e, "Object") && InstanceOf(e, "Error")
  {
  }
}
