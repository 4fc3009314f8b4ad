# JavaScript Testing Playground: test runner and todo list, in Dafny

This project models two small pieces of the "JavaScript Testing Playground":

- **The in-browser test framework** (`TestFramework` in `javascript_tests/test-framework.js`).
  It keeps a list of named tests. `runAll` runs them in registration order; a test that throws (or rejects with) an `Error` is recorded as failed and the run goes on.
  It records one `PASSED`/`FAILED` result per test and returns `{passed, failed, total}`.
  `getResults` and `clear` expose and reset the state. The assertion helpers throw an `Error` with a fixed message shape.
- **The todo list operations** in `javascript_tests/app.js`: `addTodo`, `addTodoItem`, `toggleTodo` and `deleteTodo`,
  plus the `testTodoFunctionality` scenario that exercises them.

Each piece of code that may throw is modelled by an `Outcome`: `Completes` or `Throws(error)`.
What the outcome records depends on whether the caller awaits the call:
- The runner awaits each test function, so a test is the outcome it settles to.
  A test's outcome is fixed: the source calls the function afresh on every run, and the model assumes each call settles the same way.
- `assertThrows` calls `fn()` without `await`, so `fn`'s outcome is what the synchronous call does.
  An `async` function returns a pending promise and is therefore `Completes`, even when the promise later rejects.

A thrown value is an `ErrorObject`: an `Error` or an instance of one of its subclasses, with `Object` and (below `Error`) `Error` on its prototype chain.
The runner is then a left fold over a `seq<TestCase>`.
The framework instance and the todo list are immutable values, and every operation returns the new value.

Modules, one concept each:

- `JsStrings` (`js_strings.dfy`): `String.prototype.trim` and the decimal rendering of integers.
- `JsValues` (`js_values.dfy`): the values the assertions compare (`undefined`, `null`, booleans, integral numbers, strings).
  It also has `===`, truthiness, template-literal display, `Array.prototype.join`, `includes`, and `Error` objects with `instanceof`.
- `Assertions` (`assertions.dfy`): the assertion methods, plus `RunBody`, a test body made of statements (several assertions in a row) where the first throw ends the body.
- `Runner` (`runner.dfy`): the framework state (`tests`, `results`, `currentTest`) with `Register`, `RunAll`, `GetResults` and `Clear`.
  It also has `RunAllLoop`, the imperative form of the `runAll` loop, proved equal to the fold.
- `Todos` (`todos.dfy`): the todo list, the text box feeding `addTodo`, and the scenario.

## Model

| member | source | states |
|---|---|---|
| `Runner.New` | javascript_tests/test-framework.js:7-11 | a new instance has no tests, no results and no current test, and running it reports `{0, 0, 0}` |
| `Runner.Register` | javascript_tests/test-framework.js:14-16 | exactly one entry is appended at the end with the given name and function; earlier entries, results and `currentTest` are unchanged; duplicate names are accepted |
| `Runner.Execute` | javascript_tests/test-framework.js:107-116 | a test is recorded under its own name; `PASSED` exactly when its function completes, then with a null error; a throwing function is recorded `FAILED` with the error's message |
| `Runner.RunCases` | javascript_tests/test-framework.js:105-117 | the loop pushes exactly one result per registered test |
| `Runner.RunCasesPointwise` | javascript_tests/test-framework.js:105-117 | the result at each position is the result of the test at that position, whatever the tests before it did |
| `Runner.CountsPartition` | javascript_tests/test-framework.js:99-114 | the passed and failed counts add up to the number of results |
| `Runner.RunAll` | javascript_tests/test-framework.js:97-123 | results are replaced by one result per registered test in registration order; `passed`/`failed` count the two statuses; `passed + failed == total == tests.length`; tests unchanged; `currentTest` is the last test |
| `Runner.RunAllLoop` | javascript_tests/test-framework.js:97-123 | the loop with its two counters computes exactly what the fold `RunAll` states |
| `Runner.PassedCountsCompleting` | javascript_tests/test-framework.js:107-116 | `passed` counts exactly the tests whose function completes; `failed` counts the rest, wherever they stand in the list |
| `Runner.RunCasesAppend` | javascript_tests/test-framework.js:105-117 | running a concatenation gives the two runs' results concatenated, so a failing test (one that throws an `Error`) never affects later tests |
| `Runner.RunReplacesResults` | javascript_tests/test-framework.js:98 | what a run produces does not depend on the results left by an earlier run |
| `Runner.RunAllTwice` | javascript_tests/test-framework.js:97-123 | running again with no new registrations gives the same results and counts |
| `Runner.GetResultsAfterRun` | javascript_tests/test-framework.js:126-128 | after a run `getResults` lists every registered test in order, under its own name, `PASSED` exactly when its function completes |
| `Runner.RunBodyResult` | javascript_tests/tests.js:7-12 | a test whose body is several assertions in a row is recorded `PASSED` exactly when every assertion passes, and otherwise `FAILED` with the message of the first one that throws |
| `Runner.GetResultsBeforeRun` | javascript_tests/test-framework.js:126-128 | `getResults` is empty before any run, even with tests registered; registering after a run keeps that run's results |
| `Runner.Clear` | javascript_tests/test-framework.js:131-134 | both lists are emptied; `currentTest` is not reset |
| `Runner.ClearThenRun` | javascript_tests/test-framework.js:131-134 | after `clear`, `getResults` is empty and `runAll` returns `{0, 0, 0}` with no results |
| `Runner.DuplicateNamesKept` | javascript_tests/test-framework.js:14-16 | two tests under one name give two results under that name |
| `Runner.ThreeTestScenario` | javascript_tests/test-framework.js:97-123 | tests `2+2 === 4`, `2+2 === 5` and an awaited "ok" give `{2, 1, 3}`; the three results are in order; the failure's message is "Values are not equal. Expected: 5, Actual: 4" |
| `Assertions.Assert` | javascript_tests/test-framework.js:19-23 | throws exactly for falsy conditions, with the bare message (default "Assertion failed") |
| `Assertions.AssertEqual` | javascript_tests/test-framework.js:25-29 | throws exactly when the values differ, with no coercion; message "<message>. Expected: <expected>, Actual: <actual>" |
| `Assertions.AssertNotEqual` | javascript_tests/test-framework.js:31-35 | throws exactly when the values are the same; message "... Expected: not <expected>, Actual: <actual>" |
| `Assertions.AssertTrue` | javascript_tests/test-framework.js:37-41 | passes for the boolean `true` only; any other value throws with "Expected: true" |
| `Assertions.AssertFalse` | javascript_tests/test-framework.js:43-47 | passes for the boolean `false` only; any other value throws with "Expected: false" |
| `Assertions.AssertNull` | javascript_tests/test-framework.js:49-53 | passes for `null` only |
| `Assertions.AssertNotNull` | javascript_tests/test-framework.js:55-59 | throws for `null` only, with the fixed "Expected: not null, Actual: null" |
| `Assertions.AssertUndefined` | javascript_tests/test-framework.js:61-65 | passes for `undefined` only |
| `Assertions.AssertNotUndefined` | javascript_tests/test-framework.js:67-71 | throws for `undefined` only, with the fixed "Expected: not undefined, Actual: undefined" |
| `Assertions.AssertThrows` | javascript_tests/test-framework.js:73-82 | as written: never throws when no expected class is given, even when `fn` returns; otherwise throws exactly when the caught error (the sentinel if `fn` returned) is not an instance of the expected class, with "Expected error type X, got Y" |
| `Assertions.AssertThrowsIntended` | javascript_tests/test-framework.js:73-82 | corrected: passes exactly when `fn` throws an error of the expected class (any class if none given); a returning `fn` fails with "Function did not throw" |
| `Assertions.AssertThrowsSwallowsSentinel` | javascript_tests/test-framework.js:73-82 | a returning function passes `assertThrows(fn)` and `assertThrows(fn, Error)`; the corrected helper fails it |
| `Assertions.AssertThrowsReturningFnWrongType` | javascript_tests/test-framework.js:78-80 | with expected class `TypeError`, a returning function is reported as "Expected error type TypeError, got Error" |
| `Assertions.AssertThrowsFollowsPrototypeChain` | javascript_tests/test-framework.js:78-80 | `instanceof` follows the prototype chain: with `Object` or `Error` as the expected class the helper passes whatever `fn` does, since every thrown value and the sentinel are instances of both; the corrected helper passes with those classes whenever `fn` throws; `TypeError` rejects a plain `Error` |
| `Assertions.AssertThrowsAgreesWhenFnThrows` | javascript_tests/test-framework.js:73-82 | the as-written and corrected helpers agree whenever `fn` throws, and the corrected one is never more lenient |
| `Assertions.AssertContains` | javascript_tests/test-framework.js:84-88 | throws exactly when the item is not in the array; message lists the joined array and the item |
| `Assertions.AssertNotContains` | javascript_tests/test-framework.js:90-94 | throws exactly when the item is in the array |
| `Assertions.EqualNotEqualComplementary` | javascript_tests/test-framework.js:25-35 | for every pair of values exactly one of `assertEqual` and `assertNotEqual` throws |
| `Assertions.ContainsNotContainsComplementary` | javascript_tests/test-framework.js:84-94 | for every array and item exactly one of `assertContains` and `assertNotContains` throws |
| `Assertions.AssertTrueStricterThanAssert` | javascript_tests/test-framework.js:19-47 | whatever passes `assertTrue` passes `assert`, but `1` passes `assert` and fails `assertTrue`; `0` fails both `assert` and `assertFalse` |
| `Assertions.AssertEqualNoCoercion` | javascript_tests/test-framework.js:25-29 | `1` vs `"1"`, `null` vs `undefined` and `0` vs `false` all fail |
| `Assertions.AssertEqualMessageExample` | javascript_tests/test-framework.js:27 | the exact message of a failed `assertEqual(4, 5)` |
| `Assertions.RunBody` | javascript_tests/tests.js:7-12 | a test body completes exactly when all its statements do; otherwise it fails with the first throwing statement's error |
| `JsValues.FalsyValues` | javascript_tests/test-framework.js:20 | `!condition` holds for exactly `undefined`, `null`, `false`, `0` and `""` |
| `JsValues.ErrorObjectsAreErrors` | javascript_tests/test-framework.js:78 | every thrown value is `instanceof Object` and `instanceof Error` |
| `JsValues.DisplayDistinguishesWithinType` | javascript_tests/test-framework.js:27 | in a message, two numbers, two strings or two booleans print alike exactly when they are equal; across types they can collide: `1` and `"1"` both print "1", `null` prints like `"null"` |
| `Assertions.AssertEqualCrossTypeMessage` | javascript_tests/test-framework.js:25-29 | `assertEqual(1, "1")` fails with "Values are not equal. Expected: 1, Actual: 1", whose two sides read the same |
| `JsValues.JoinSnoc` | javascript_tests/test-framework.js:86 | joining one more element appends the separator and that element |
| `JsValues.StrictEqualsIsIdentity` | javascript_tests/test-framework.js:26 | on the modelled values, `===` holds exactly for identical values |
| `JsValues.JoinSkipsNullish` | javascript_tests/test-framework.js:86 | in the array list of a containment message, `null` and `undefined` elements print as nothing between the separators |
| `JsValues.IncludesIffMember` | javascript_tests/test-framework.js:85 | the left-to-right `includes` scan finds the item exactly when it occurs in the array |
| `JsStrings.NatToString` | javascript_tests/app.js:357 | a length prints as a non-empty string of decimal digits with no leading zero |
| `JsStrings.NatToStringValue` | javascript_tests/app.js:357 | the printed digits denote exactly the number printed |
| `JsStrings.NatToStringInjective` | javascript_tests/app.js:357 | two lengths print the same exactly when they are equal |
| `JsStrings.IntToString` | javascript_tests/test-framework.js:27 | an integer prints with a leading minus sign exactly when it is negative |
| `JsStrings.IntToStringValue` | javascript_tests/test-framework.js:27 | after the optional minus sign, the printed digits denote the magnitude of the number |
| `JsStrings.IntToStringInjective` | javascript_tests/test-framework.js:27 | two integers print the same exactly when they are equal, so "Expected" and "Actual" differ whenever the numbers do |
| `JsStrings.TrimStart` | javascript_tests/app.js:481 | the result is a suffix, everything dropped is white space, and the result does not start with white space |
| `JsStrings.TrimEnd` | javascript_tests/app.js:481 | the result is a prefix, everything dropped is white space, and the result does not end with white space |
| `JsStrings.TrimIsInfix` | javascript_tests/app.js:481 | `trim` returns a contiguous piece of its input with only white space around it |
| `JsStrings.TrimHasNoOuterWhiteSpace` | javascript_tests/app.js:481 | what `trim` returns neither starts nor ends with white space |
| `JsStrings.TrimEmptyIffWhiteSpace` | javascript_tests/app.js:481-483 | `trim` gives "" exactly when the input is all white space |
| `JsStrings.TrimIdempotent` | javascript_tests/app.js:481 | trimming twice is trimming once |
| `Todos.AddTodoItem` | javascript_tests/app.js:490-498 | one not-completed todo with exactly the given text and id is appended; existing todos unchanged; length grows by one |
| `Todos.AddTodo` | javascript_tests/app.js:479-488 | empty or white-space-only input adds nothing and leaves the box as it was; otherwise exactly one todo with the trimmed, non-empty text is appended and the box is emptied |
| `Todos.ToggleTodo` | javascript_tests/app.js:501-507 | an in-range index flips that todo's `completed` only; the length and every other todo are unchanged; an out-of-range index changes nothing |
| `Todos.ToggleTwice` | javascript_tests/app.js:503 | toggling the same index twice restores the list |
| `Todos.DeleteTodo` | javascript_tests/app.js:509-515 | an in-range index removes exactly that todo, keeping the others in order; the length drops by one; an out-of-range index changes nothing |
| `Todos.DeleteRemovesOne` | javascript_tests/app.js:511 | deletion removes one occurrence of the deleted todo and keeps every other todo |
| `Todos.DeleteUndoesAdd` | javascript_tests/app.js:490-515 | deleting the todo just appended gives back the original list |
| `Todos.TodoFunctionality` | javascript_tests/app.js:346-379 | the scenario adds two todos and deletes one, so the list grows by exactly one |
| `Todos.TodoFunctionalityFromEmpty` | javascript_tests/app.js:352-370 | from an empty list the scenario leaves only "Test Todo 1", completed, and prints lengths 2 and 1 and "First todo completed: true" |
| `Todos.TodoFunctionalityOnExistingList` | javascript_tests/app.js:352-370 | on a list of two or more todos, the scenario flips the first existing todo and deletes the second existing one; the new todos end up at the end |
| `Todos.TodoFunctionalityOnSingleton` | javascript_tests/app.js:352-370 | on a list of one todo, the scenario flips that todo and deletes its own "Test Todo 1", leaving the flipped todo and "Test Todo 2" |
| `Todos.TodoFunctionalityLines` | javascript_tests/app.js:352-370 | on any list both guarded blocks run, and the six printed lines give the length plus two, the first todo's new state, and the length plus one |

## Findings

| source | as written | input that shows it | evidently intended | confidence | as-written member | corrected member |
|---|---|---|---|---|---|---|
| javascript_tests/test-framework.js:73-82 | the "did not throw" sentinel is thrown inside the `try` whose `catch` inspects it. So without an expected class the helper never fails, and with `Error` as the expected class it accepts the sentinel | `assertThrows(() => {})`, and `assertThrows(() => 5, Error)`, the call form used at javascript_tests/tests.js:226 | a function that returns normally fails with "Function did not throw" | high; not executed | `Assertions.AssertThrows`, `Assertions.AssertThrowsSwallowsSentinel` | `Assertions.AssertThrowsIntended` |

The runner does not call either helper, because a test is modelled by its settled outcome.
`Assertions.AssertThrows` is the code as written.
`Assertions.AssertThrowsIntended` is the corrected behaviour, with its property proved.

The model follows the code where it departs from what the names promise.
The name `assertThrows` and its default message "Function did not throw" promise a failure when the function returns normally, and the code does not deliver it.
`currentTest` is set on every iteration of `runAll` and is not reset by `clear`; the model keeps both behaviours.

## Left out

- Rendering and browser globals: `renderTodos`, the `window.*` assertion wrappers, `window.runAllTests`, `window.clearTestResults` and all `console.log` output. These are presentation only.
- Persistence: `saveTodos`/`loadTodos` and `localStorage`. The todo list is plain state, and the page's initial list is a parameter.
- Asynchrony: Promises, `await`, timers and `fetch`. Every test function is its already-settled outcome. A test that never settles, which would stall the source's runner, cannot be expressed.
- Time: the `Date.now()` id is a parameter of `AddTodoItem`/`AddTodo`, and `createdAt` is not modelled. Two todos added in the same millisecond get the same id in the source; the model makes no uniqueness claim.
- Numbers are unbounded integers. There are no fractions, `NaN` (`NaN !== NaN`), `-0` or infinities. The decimal rendering covers integers only.
- JsValues.StrictEquals: exact on all integers. JavaScript's doubles lose precision from 2^53 on, where distinct integers such as 9007199254740992 and 9007199254740993 are `===`; the model does not bound `Num`, so its equality (and `AssertEqual`'s verdict) matches the source only for magnitudes up to 2^53.
- JsStrings.IntToString: plain decimal for every integer. JavaScript prints magnitudes of 10^21 and more in exponent notation (`String(1e21)` is "1e+21"), so the rendered messages match the source only below 10^21.
- Objects, arrays and functions cannot be compared values. `===` on them is reference identity, which has no counterpart among the modelled values.
- Thrown values are always `Error` objects. A test that throws or rejects with a non-Error primitive such as a string would be recorded with `error.message === undefined`; that is not modelled.
- A test that throws or rejects with `null` or `undefined` (`await Promise.reject()`, say) is not modelled. In the source the `catch` then reads `error.message` (javascript_tests/test-framework.js:113), which itself throws a `TypeError`: `runAll` rejects, no later test runs, and `results` keeps only the results pushed before it.
- Runner.RunCasesAppend: "a failure never affects later tests" holds for tests that throw objects; a `null` or `undefined` rejection aborts the source's run, as the line above says.
- Message arguments are strings or left out (`None`, which includes an explicit `undefined`). Other argument types are not modelled.
- `toggleTodo`/`deleteTodo` take an integer index. A fractional index passes the source's range check. `toggleTodo` then throws on the missing element, and `deleteTodo`'s `splice` truncates the index. Neither case is modelled.
- Changing the framework while `runAll` is in progress cannot happen in the model, because `RunAll` works on a snapshot of the tests. In the source:
  - A test that registers another test extends the array that `for…of` is walking, so the new test runs in the same pass.
  - A test that calls `clear()` breaks `passed + failed == total`: `for…of` keeps iterating the old array (javascript_tests/test-framework.js:105), and the later results go into the fresh `results`. `total` is read after the loop (line 122), so tests `[() => testFramework.clear(), () => {}]` return `{passed: 2, failed: 0, total: 0}`.
  - Two overlapping `runAll` calls both push into the one `results` array, so it no longer holds one result per test. This happens when the run button is pressed again while a timer-based test is awaiting.
- Todos.TodoFunctionality: its own contract states only the length change. The resulting list is stated by `TodoFunctionalityFromEmpty`, `TodoFunctionalityOnSingleton` and `TodoFunctionalityOnExistingList`, which together cover every list, and the printed lines by `TodoFunctionalityLines`. The scenario's `try`/`catch` is not modelled because nothing in it can throw here.
- The demo widgets in `app.js`, the example tests in `tests.js`, the Python stubs and tests, and the Selenium/Playwright/web-scraping suites are outside this model.

