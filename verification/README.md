# Calculator brain, modelled in Dafny

This project models `CalculatorBrain`, the engine of an iOS calculator.
The brain is a small state machine with three stored properties:

- an optional accumulator, which is the displayed `result`;
- an optional pending binary operation, which is a function plus its first operand;
- an ordered list of description fragments, whose concatenation is the `description`.

Callers drive it through three entry points: `setOperand`, `performOperation(symbol)` and `clear`.
`performOperation` looks the symbol up in a fifteen-entry table.
It dispatches on the entry's kind: constant, unary, binary, no-argument or equals.

The model is functional:

- `Brain<N>` is an immutable record.
- Every entry point is a pure function from the old brain to the new one (`brain.dfy`).
- The table's keys are the enumeration `Symbol`. `Parse` finds the key a string spells, and `Entry` gives each key's entry over an abstract number type `N` (`operations.dfy`).
- Every numeric primitive (√, cos, sin, tan, ±, ×, ÷, +, −, π, e, the literals 1 and 100, and the value one press of "Ran" draws) is a field of an `Arith<N>` record.
- The number formatter is a parameter `format: N -> string`.

So every property below holds for any interpretation of the numbers and any formatter.

The description rules are modelled exactly, as sequence and string facts:

- An operand with nothing pending replaces all fragments by its rendering.
- An operand with an operation pending, a constant, "Ran" or a binary symbol that finds a result appends one fragment.
- A unary operator wraps the last fragment when an operation is pending.
- Otherwise a unary operator wraps the whole description.

`invariant.dfy` states the safety invariant behind the force-unwrap `descriptions.last!` at CalculatorBrain.swift:42.
A unary operator with a pending operation but an empty fragment list would trap at line 42.
The model makes this trap explicit: `ApplyUnary` and `PerformOperation` return `None` for it.
`Valid` holds of a fresh brain and is preserved by every call, so no sequence of calls ever reaches the trap (`NeverTraps`).
The other force-unwrap, `formattedAccumulator!` at line 30, needs no invariant: it is safe because the accumulator was set one line earlier.
`SetOperand` uses `.value` there, and the verifier discharges its precondition when it checks that function.

`properties.dfy` holds the lemmas that relate several calls, for example:

- two binary operators in a row act as one;
- "=" is idempotent;
- chaining is strictly left to right.

It also states the observable description after each kind of call.
Finally, it walks through typical key sequences symbolically; `7 + 3 =` is one of them.

The view controllers call members this engine does not define: `setOperand(variable:)` at CalculatorViewController.swift:108, `undo()` at CalculatorViewController.swift:115 and `evaluate(using:)` at CalculatorViewController.swift:160. They belong to a later, replaying engine that records a token program. The model follows this engine's code, which behaves differently in several ways:

- With nothing pending, a constant or "Ran" does not start a new expression. It only sets the accumulator and appends its symbol, so `7 π` shows `π` described as `7π` (`ScenarioConstantKeepsDescription`).
- The binary guard is "the accumulator is not empty", not a "just written" flag.
- A binary operator completes the pending operation and then clears the accumulator, so after `a + b +` no result is shown; the sum is stored only as the new pending operation's first operand (`ScenarioAddThenAdd`).
- The multiplication symbol is `x` and the minus symbol is the ASCII `-`.
- There is no token program, undo or variable binding (see "Left out").

## Model

| member | source | states |
|---|---|---|
| CalculatorOperations.Parse | Calculator/CalculatorBrain.swift:104-120 | a string that parses names a key whose spelling is exactly that string; a string that does not parse is no key's spelling |
| CalculatorOperations.ParseText | Calculator/CalculatorBrain.swift:104-120 | the fifteen spellings are distinct, so parsing a key's spelling gives back that key |
| CalculatorOperations.Entry | Calculator/CalculatorBrain.swift:104-120 | a key's entry is a constant, unary, binary, no-argument or equals entry exactly when the key is in that class (π and e; √, 1/x, %, cos, sin, tan, ±; x, ÷, +, -; Ran; =) |
| CalculatorOperations.Lookup | Calculator/CalculatorBrain.swift:34 | a symbol has an entry exactly when some key is spelled that way, and then it is that key's entry |
| CalculatorBrain.PendingBinaryOperation.Perform | Calculator/CalculatorBrain.swift:135-137 | the stored first operand is the left argument of the operation and the new operand its right |
| CalculatorBrain.Initial | Calculator/CalculatorBrain.swift:85-86 | a fresh brain has no result, nothing pending (the default at line 129) and an empty description |
| CalculatorBrain.Result | Calculator/CalculatorBrain.swift:15-19 | the result is the accumulator, set or not |
| CalculatorBrain.ResultIsPending | Calculator/CalculatorBrain.swift:21-23 | a result is pending exactly when a binary operation is stored |
| CalculatorBrain.Concat | Calculator/CalculatorBrain.swift:74-80 | the reference join of the fragments: no fragments join to the empty string, the join starts with the first fragment, and every fragment fits inside it |
| CalculatorBrain.Description | Calculator/CalculatorBrain.swift:74-80 | the description of no fragments is empty; otherwise it is the description of all fragments but the last followed by the last one, the step the loop repeats |
| CalculatorBrain.ComputeDescription | Calculator/CalculatorBrain.swift:74-80 | the left-to-right appending loop yields exactly the description, the in-order join of the fragments |
| CalculatorBrain.FormattedAccumulator | Calculator/CalculatorBrain.swift:88-94 | a rendering exists exactly when the accumulator is set, and it is the formatter's rendering of the result |
| CalculatorBrain.Clear | Calculator/CalculatorBrain.swift:66-70 | after clear there is no result, nothing is pending, the description is empty, and the brain equals a fresh one |
| CalculatorBrain.SetOperand | Calculator/CalculatorBrain.swift:25-31 | the operand becomes the result and the pending operation is kept; with nothing pending the fragments become exactly the operand's rendering, otherwise exactly that rendering is appended |
| CalculatorBrain.PerformPendingBinaryOperation | Calculator/CalculatorBrain.swift:123-137 | with both a pending operation and a result, the result becomes the operation applied to its first operand and the result, and nothing stays pending; otherwise nothing changes; the fragments never change |
| CalculatorBrain.ApplyConstant | Calculator/CalculatorBrain.swift:36-38 | a constant becomes the result, the pending operation is kept, and exactly its symbol is appended |
| CalculatorBrain.ApplyNoArgument | Calculator/CalculatorBrain.swift:58-60 | the drawn value becomes the result, the pending operation is kept, and exactly the symbol is appended |
| CalculatorBrain.ApplyUnary | Calculator/CalculatorBrain.swift:39-48 | no-op without a result; traps exactly when a result and a pending operation coexist with no fragments; otherwise the result becomes its image and the pending operation is kept; when pending, the length and prefix of the fragments stay and the last one becomes `sym(L)`; when not pending, the fragments become `sym(` + old + `)` |
| CalculatorBrain.ApplyBinary | Calculator/CalculatorBrain.swift:49-57 | afterwards there is never a result; something is pending exactly when something was pending or there was a result; without a result nothing changes; with one, the new pending operation is this operator applied to the resolved value, and exactly the symbol is appended |
| CalculatorBrain.PerformOperation | Calculator/CalculatorBrain.swift:33-64 | an unknown symbol changes nothing; only a unary symbol can trap; "=" never changes the fragments; after a binary symbol there is no result |
| BrainInvariant.InitialIsValid | Calculator/CalculatorBrain.swift:85-86 | a fresh brain (no result, nothing pending, no fragments) satisfies the safety invariant |
| BrainInvariant.StepPreservesValid | Calculator/CalculatorBrain.swift:25-70 | from a valid state, each of setOperand, performOperation and clear succeeds and leads to a valid state |
| BrainInvariant.RunPreservesValid | Calculator/CalculatorBrain.swift:25-70 | from a valid state, every sequence of calls succeeds and ends in a valid state |
| BrainInvariant.NeverTraps | Calculator/CalculatorBrain.swift:40-43 | no sequence of calls on a fresh brain makes the force-unwrap `descriptions.last!` fail |
| BrainInvariant.TrapOutsideInvariant | Calculator/CalculatorBrain.swift:41-43 | the unwrap genuinely depends on the invariant: a state with a result and a pending operation but no fragments is invalid, and "√" traps on it |
| BrainProperties.DescriptionAfterSetOperand | Calculator/CalculatorBrain.swift:25-31 | with nothing pending the description becomes the operand's rendering; otherwise the rendering is appended to the description |
| BrainProperties.DescriptionAfterUnary | Calculator/CalculatorBrain.swift:39-48 | without a pending operation the description becomes `sym(` + old description + `)`; with one it is the untouched prefix followed by `sym(L)` |
| BrainProperties.DescriptionAfterSymbol | Calculator/CalculatorBrain.swift:36-60 | a constant, "Ran", or a binary operator that finds a result extends the description by exactly its symbol |
| BrainProperties.UnaryNests | Calculator/CalculatorBrain.swift:45 | two unary operators on a whole expression nest: `g(f(...))` |
| BrainProperties.SetOperandStartsAfresh | Calculator/CalculatorBrain.swift:26-28 | with nothing pending, an operand forgets everything before it: the outcome is the same as on a fresh brain |
| BrainProperties.BinaryTwiceIsNoOp | Calculator/CalculatorBrain.swift:49-57 | a binary operator pressed right after another changes nothing |
| BrainProperties.EqualsIsIdempotent | Calculator/CalculatorBrain.swift:61-62 | pressing "=" twice is the same as pressing it once |
| BrainProperties.EqualsResolves | Calculator/CalculatorBrain.swift:123-127 | "=" with a pending operation and a result resolves it and leaves nothing pending; in every other state it changes nothing |
| BrainProperties.BinaryChainsLeftToRight | Calculator/CalculatorBrain.swift:50-54 | a binary operator pressed while another is pending and has its second operand first resolves the old one; the resolved value becomes the first operand of the new one |
| BrainProperties.ScenarioAddThenEquals | Calculator/CalculatorBrain.swift:25-62 | `a + b =` gives the sum a+b with nothing pending, described as `a+b` |
| BrainProperties.ScenarioAddThenAdd | Calculator/CalculatorBrain.swift:49-57 | `a + b +` shows no result and keeps a new addition pending whose first operand is a+b, described as `a+b+` |
| BrainProperties.ScenarioNoPrecedence | Calculator/CalculatorBrain.swift:49-62 | `a + b x c =` evaluates to (a+b)×c |
| BrainProperties.ScenarioUnaryWithoutOperand | Calculator/CalculatorBrain.swift:39-40 | "√" on a fresh brain does nothing |
| BrainProperties.ScenarioSquareRoot | Calculator/CalculatorBrain.swift:39-48 | `a √` gives √a, described as `√(a)` |
| BrainProperties.ScenarioUnaryOnSecondOperand | Calculator/CalculatorBrain.swift:41-43 | `a + b √ =` gives a+√b, described as `a+√(b)` |
| BrainProperties.ScenarioConstantAsSecondOperand | Calculator/CalculatorBrain.swift:36-38 | `a + π =` gives a+π, described as `a+π` |
| BrainProperties.ScenarioConstantKeepsDescription | Calculator/CalculatorBrain.swift:36-38 | with nothing pending, `a π` shows π but the description is `aπ`: a constant does not start a new expression |

## Left out

- The numeric meaning of the operations is not modelled. This covers `sqrt`, `cos`, `sin`, `tan`, negation, `1/x`, `%` and the four binary operators, together with NaN, infinity and division by zero. They are uninterpreted fields of `Arith<N>`; "1/x" and "%" are written as `divide(one, x)` and `divide(x, hundred)`, matching their closures.
- `drand48()` for "Ran" is nondeterministic and foreign. It is the opaque value `Arith.random`, fixed for a given `Arith` record; a caller models a new draw by passing a different record.
- `NumberFormatter` and its `String(number)` fallback at line 90 are a foreign formatter. Together they are the parameter `format`. The `weak var numberFormatter` reference itself is not modelled.
- Swift compares dictionary keys by canonical Unicode equivalence; the model compares symbols as plain character sequences. All table symbols are single fixed spellings, so the difference does not arise for them.
- The in-place mutation of the Swift struct is not modelled. Each call returns a new `Brain`; `Step` and `Run` chain calls the way a caller would.
- `evaluate(using:)`, `undo()`, `setOperand(variable:)`, `saveState`/`loadState` and any token program are called from the view controllers. CalculatorBrain.swift does not define them, so they are not part of this model.
- CalculatorOperations.Entry: its contract fixes only the kind of each key's entry. Which constant, closure or primitive the entry carries (π for "π", `divide(one, x)` for "1/x", `minus` for "-", and so on) is fixed by the function's body, not stated as a separate property.
- The view controllers, the graph view and the UIKit extensions are not part of this model. They only drive the engine and render its outputs.
