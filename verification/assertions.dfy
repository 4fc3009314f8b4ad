/** The assertion methods of `TestFramework`. Each one either returns
    normally or throws an `Error` whose message has a fixed shape; here that
    is an `Outcome`, the settled result of calling it. The same type stands
    for the settled result of a whole test function. */
module Assertions {
  import opened JsStrings
  import opened JsValues

  datatype Outcome = Completes | Throws(error: ErrorObject)

  /** The message of an equality-style violation:
      "<message>. Expected: <expected>, Actual: <actual>". */
  function Violation(message: string, expected: string, actual: string): string {
    message + ". Expected: " + expected + ", Actual: " + actual
  }

  /** The message of a containment violation:
      "<message>. Array: [<a, b, c>], Item: <item>". */
  function ContainsViolation(message: string, arr: seq<Value>, item: Value): string {
    message + ". Array: [" + Join(arr, ", ") + "], Item: " + Display(item)
  }

  /** `assert(condition, message)`: throws the bare message when the
      condition is falsy. */
  function Assert(condition: Value, message: Option<string>): (r: Outcome)
    ensures r.Throws? <==> !Truthy(condition)
    ensures r.Throws? ==> r.error == PlainError(OrDefault(message, "Assertion failed"))
  {
    if !Truthy(condition) then Throws(PlainError(OrDefault(message, "Assertion failed")))
    else Completes
  }

  /** `assertEqual(actual, expected, message)`: throws exactly when the two
      values differ, with no coercion between types. */
  function AssertEqual(actual: Value, expected: Value, message: Option<string>): (r: Outcome)
    ensures r.Throws? <==> actual != expected
    ensures r.Throws? ==> r.error == PlainError(Violation(OrDefault(message, "Values are not equal"),
                                                          Display(expected), Display(actual)))
  {
    StrictEqualsIsIdentity(actual, expected);
    if !StrictEquals(actual, expected) then
      Throws(PlainError(Violation(OrDefault(message, "Values are not equal"), Display(expected), Display(actual))))
    else Completes
  }

  /** `assertNotEqual(actual, expected, message)`: throws exactly when the
      two values are the same value. */
  function AssertNotEqual(actual: Value, expected: Value, message: Option<string>): (r: Outcome)
    ensures r.Throws? <==> actual == expected
    ensures r.Throws? ==> r.error == PlainError(Violation(OrDefault(message, "Values are equal"),
                                                          "not " + Display(expected), Display(actual)))
  {
    StrictEqualsIsIdentity(actual, expected);
    if StrictEquals(actual, expected) then
      Throws(PlainError(Violation(OrDefault(message, "Values are equal"), "not " + Display(expected), Display(actual))))
    else Completes
  }

  /** `assertTrue(condition, message)`: passes for the boolean `true` only,
      not for other truthy values. */
  function AssertTrue(condition: Value, message: Option<string>): (r: Outcome)
    ensures r.Completes? <==> condition == Bool(true)
    ensures r.Throws? ==> r.error == PlainError(Violation(OrDefault(message, "Condition is not true"),
                                                          "true", Display(condition)))
  {
    if !StrictEquals(condition, Bool(true)) then
      Throws(PlainError(Violation(OrDefault(message, "Condition is not true"), "true", Display(condition))))
    else Completes
  }

  /** `assertFalse(condition, message)`: passes for the boolean `false`
      only, not for other falsy values. */
  function AssertFalse(condition: Value, message: Option<string>): (r: Outcome)
    ensures r.Completes? <==> condition == Bool(false)
    ensures r.Throws? ==> r.error == PlainError(Violation(OrDefault(message, "Condition is not false"),
                                                          "false", Display(condition)))
  {
    if !StrictEquals(condition, Bool(false)) then
      Throws(PlainError(Violation(OrDefault(message, "Condition is not false"), "false", Display(condition))))
    else Completes
  }

  /** `assertNull(value, message)`: passes for `null` only; `undefined`
      fails. */
  function AssertNull(value: Value, message: Option<string>): (r: Outcome)
    ensures r.Completes? <==> value == Null
    ensures r.Throws? ==> r.error == PlainError(Violation(OrDefault(message, "Value is not null"),
                                                          "null", Display(value)))
  {
    if !StrictEquals(value, Null) then
      Throws(PlainError(Violation(OrDefault(message, "Value is not null"), "null", Display(value))))
    else Completes
  }

  /** `assertNotNull(value, message)`: fails for `null` only. */
  function AssertNotNull(value: Value, message: Option<string>): (r: Outcome)
    ensures r.Throws? <==> value == Null
    ensures r.Throws? ==> r.error == PlainError(Violation(OrDefault(message, "Value is null"),
                                                          "not null", "null"))
  {
    if StrictEquals(value, Null) then
      Throws(PlainError(Violation(OrDefault(message, "Value is null"), "not null", "null")))
    else Completes
  }

  /** `assertUndefined(value, message)`: passes for `undefined` only;
      `null` fails. */
  function AssertUndefined(value: Value, message: Option<string>): (r: Outcome)
    ensures r.Completes? <==> value == Undefined
    ensures r.Throws? ==> r.error == PlainError(Violation(OrDefault(message, "Value is not undefined"),
                                                          "undefined", Display(value)))
  {
    if !StrictEquals(value, Undefined) then
      Throws(PlainError(Violation(OrDefault(message, "Value is not undefined"), "undefined", Display(value))))
    else Completes
  }

  /** `assertNotUndefined(value, message)`: fails for `undefined` only. */
  function AssertNotUndefined(value: Value, message: Option<string>): (r: Outcome)
    ensures r.Throws? <==> value == Undefined
    ensures r.Throws? ==> r.error == PlainError(Violation(OrDefault(message, "Value is undefined"),
                                                          "not undefined", "undefined"))
  {
    if StrictEquals(value, Undefined) then
      Throws(PlainError(Violation(OrDefault(message, "Value is undefined"), "not undefined", "undefined")))
    else Completes
  }

  /** `assertContains(arr, item, message)`: throws exactly when the item
      does not occur in the array. */
  function AssertContains(arr: seq<Value>, item: Value, message: Option<string>): (r: Outcome)
    ensures r.Throws? <==> item !in arr
    ensures r.Throws? ==> r.error == PlainError(ContainsViolation(OrDefault(message, "Array does not contain item"),
                                                                  arr, item))
  {
    IncludesIffMember(arr, item);
    if !Includes(arr, item) then
      Throws(PlainError(ContainsViolation(OrDefault(message, "Array does not contain item"), arr, item)))
    else Completes
  }

  /** `assertNotContains(arr, item, message)`: throws exactly when the
      item occurs in the array. */
  function AssertNotContains(arr: seq<Value>, item: Value, message: Option<string>): (r: Outcome)
    ensures r.Throws? <==> item in arr
    ensures r.Throws? ==> r.error == PlainError(ContainsViolation(OrDefault(message, "Array contains item"),
                                                                  arr, item))
  {
    IncludesIffMember(arr, item);
    if Includes(arr, item) then
      Throws(PlainError(ContainsViolation(OrDefault(message, "Array contains item"), arr, item)))
    else Completes
  }

  /** The error `assertThrows` ends up holding in its `catch`: the one `fn`
      threw, or, when `fn` returned, the "did not throw" sentinel raised
      right after the call inside the same `try`. `fn` is called without
      `await`, so its outcome here is what the synchronous call does: an
      `async` function returns a promise and counts as `Completes`, whatever
      the promise settles to. */
  function CaughtByAssertThrows(fn: Outcome, message: Option<string>): ErrorObject {
    match fn
    case Throws(e) => e
    case Completes => PlainError(OrDefault(message, "Function did not throw"))
  }

  /** The error `assertThrows` throws when the caught error is not of the
      expected class. */
  function WrongErrorType(expectedError: string, caught: JsError): ErrorObject {
    PlainError("Expected error type " + expectedError + ", got " + caught.ctor)
  }

  /** `assertThrows(fn, expectedError, message)` as written. Because the
      sentinel is thrown inside the `try` whose `catch` inspects it, the
      helper throws only when an expected class is given and the caught
      error is not an instance of it; without an expected class it never
      throws, whatever `fn` does. */
  function AssertThrows(fn: Outcome, expectedError: Option<string>, message: Option<string>): (r: Outcome)
    ensures expectedError.None? ==> r == Completes
    ensures r.Throws? <==> expectedError.Some? && !InstanceOf(CaughtByAssertThrows(fn, message), expectedError.value)
    ensures r.Throws? ==> r.error == WrongErrorType(expectedError.value, CaughtByAssertThrows(fn, message))
  {
    var caught := CaughtByAssertThrows(fn, message);
    match expectedError
    case Some(cls) =>
      if !InstanceOf(caught, cls) then Throws(WrongErrorType(cls, caught)) else Completes
    case None => Completes
  }

  /** `assertThrows` as its name and default message promise: a `fn` that
      returns is a failure with the "did not throw" message, a `fn` that
      throws passes unless an expected class is given and not matched. */
  function AssertThrowsIntended(fn: Outcome, expectedError: Option<string>, message: Option<string>): (r: Outcome)
    ensures r.Completes? <==> fn.Throws? && (expectedError.None? || InstanceOf(fn.error, expectedError.value))
    ensures fn.Completes? ==> r == Throws(PlainError(OrDefault(message, "Function did not throw")))
  {
    match fn
    case Completes => Throws(PlainError(OrDefault(message, "Function did not throw")))
    case Throws(e) =>
      match expectedError
      case Some(cls) => if !InstanceOf(e, cls) then Throws(WrongErrorType(cls, e)) else Completes
      case None => Completes
  }

  /** The discrepancy: a function that returns normally passes
      `assertThrows(fn)`, and even `assertThrows(fn, Error)`, because the
      sentinel is itself an `Error`. */
  lemma AssertThrowsSwallowsSentinel()
    ensures AssertThrows(Completes, None, None) == Completes
    ensures AssertThrows(Completes, Some("Error"), Some("Should throw division by zero error")) == Completes
    ensures AssertThrowsIntended(Completes, None, None).Throws?
    ensures AssertThrowsIntended(Completes, None, None).error.message == "Function did not throw"
  {
  }

  /** With a non-`Error` expected class a returning `fn` is reported, but
      as a wrong error type, not as "did not throw". */
  lemma AssertThrowsReturningFnWrongType()
    ensures AssertThrows(Completes, Some("TypeError"), None)
            == Throws(PlainError("Expected error type TypeError, got Error"))
  {
  }

  /** `instanceof` follows the prototype chain. Every thrown value is an
      `Object` and an `Error`, so with either class as the expected one the
      as-written helper passes whatever `fn` does (the sentinel included),
      and the corrected one passes whenever `fn` throws; a plain `Error` is
      not a `TypeError`, so that class rejects it. */
  lemma AssertThrowsFollowsPrototypeChain(fn: Outcome, message: Option<string>, m: string)
    ensures AssertThrows(fn, Some("Object"), message) == Completes
    ensures AssertThrows(fn, Some("Error"), message) == Completes
    ensures fn.Throws? ==> && AssertThrowsIntended(fn, Some("Object"), message) == Completes
                           && AssertThrowsIntended(fn, Some("Error"), message) == Completes
    ensures AssertThrowsIntended(Throws(PlainError(m)), Some("TypeError"), message).Throws?
  {
    ErrorObjectsAreErrors(CaughtByAssertThrows(fn, message));
  }

  /** The as-written and intended helpers agree whenever `fn` throws, and
      the intended one is never more lenient. */
  lemma AssertThrowsAgreesWhenFnThrows(fn: Outcome, expectedError: Option<string>, message: Option<string>)
    ensures fn.Throws? ==> AssertThrows(fn, expectedError, message) == AssertThrowsIntended(fn, expectedError, message)
    ensures AssertThrowsIntended(fn, expectedError, message).Completes? ==> AssertThrows(fn, expectedError, message).Completes?
  {
  }

  /** `assertEqual` and `assertNotEqual` are complementary: for any pair of
      values exactly one of them throws. */
  lemma EqualNotEqualComplementary(actual: Value, expected: Value, m1: Option<string>, m2: Option<string>)
    ensures AssertEqual(actual, expected, m1).Throws? != AssertNotEqual(actual, expected, m2).Throws?
  {
  }

  /** `assertTrue` is stricter than `assert`: whatever passes the former
      passes the latter, and `1` passes `assert` but fails `assertTrue`. */
  lemma AssertTrueStricterThanAssert(v: Value, m1: Option<string>, m2: Option<string>)
    ensures AssertTrue(v, m1).Completes? ==> Assert(v, m2).Completes?
    ensures Assert(Num(1), m2).Completes? && AssertTrue(Num(1), m1).Throws?
    ensures AssertFalse(v, m1).Completes? ==> !Truthy(v)
    ensures Assert(Num(0), m2).Throws? && AssertFalse(Num(0), m1).Throws?
  {
  }

  /** Strictness: `assertEqual(1, "1")` fails, and so do `null` against
      `undefined` and `0` against `false`. */
  lemma AssertEqualNoCoercion()
    ensures AssertEqual(Num(1), Str("1"), None).Throws?
    ensures AssertEqual(Null, Undefined, None).Throws?
    ensures AssertEqual(Num(0), Bool(false), None).Throws?
    ensures AssertNull(Undefined, None).Throws? && AssertUndefined(Null, None).Throws?
  {
  }

  /** The message of a failed `assertEqual(2 + 2, 5)`. */
  lemma AssertEqualMessageExample()
    ensures AssertEqual(Num(4), Num(5), None)
            == Throws(PlainError("Values are not equal. Expected: 5, Actual: 4"))
  {
    assert Display(Num(5)) == "5" && Display(Num(4)) == "4";
    assert Violation("Values are not equal", "5", "4") == "Values are not equal. Expected: 5, Actual: 4";
  }

  /** The message alone does not show why `assertEqual(1, "1")` failed: the
      number and the string print alike, so the expected and actual parts
      of the message are the same. */
  lemma AssertEqualCrossTypeMessage()
    ensures AssertEqual(Num(1), Str("1"), None)
            == Throws(PlainError("Values are not equal. Expected: 1, Actual: 1"))
  {
    assert Display(Num(1)) == "1" && Display(Str("1")) == "1";
    assert Violation("Values are not equal", "1", "1") == "Values are not equal. Expected: 1, Actual: 1";
  }

  /** `assertContains` and `assertNotContains` are complementary. */
  lemma ContainsNotContainsComplementary(arr: seq<Value>, item: Value, m1: Option<string>, m2: Option<string>)
    ensures AssertContains(arr, item, m1).Throws? != AssertNotContains(arr, item, m2).Throws?
  {
  }

  /** A test function whose body is a sequence of statements, each settled
      to an outcome: the first statement that throws ends the body with its
      error, and the body completes when every statement does. */
  function RunBody(steps: seq<Outcome>): (r: Outcome)
    ensures r.Completes? <==> forall i :: 0 <= i < |steps| ==> steps[i].Completes?
    ensures r.Throws? ==> exists i :: 0 <= i < |steps| && steps[i] == r
                                   && forall j :: 0 <= j < i ==> steps[j].Completes?
    decreases |steps|
  {
    if steps == [] then Completes
    else if steps[0].Throws? then steps[0]
    else
      var r := RunBody(steps[1..]);
      assert r.Throws? ==> exists i :: 1 <= i < |steps| && steps[i] == r
                                     && forall j :: 0 <= j < i ==> steps[j].Completes?;
      r
  }
}
