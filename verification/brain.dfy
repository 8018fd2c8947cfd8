/** The calculator brain: an accumulator, an optional pending binary operation
    and the list of description fragments, driven by `SetOperand`,
    `PerformOperation` and `Clear`. Every transition is a pure function from
    the old brain to the new one. */
module CalculatorBrain {
  import opened Wrappers
  import opened CalculatorOperations

  /** A binary operation waiting for its second operand. */
  datatype PendingBinaryOperation<!N> = PendingBinaryOperation(operation: (N, N) -> N, firstOperand: N) {

    /** Completes the operation with its second operand: the stored operand
        is the left argument, the new one the right. */
    function Perform(secondOperand: N): (r: N)
      ensures r == operation(firstOperand, secondOperand)
    {
      operation(firstOperand, secondOperand)
    }
  }

  /** The three stored properties of the brain. */
  datatype Brain<!N> = Brain(
    accumulator: Option<N>,
    pendingBinaryOperation: Option<PendingBinaryOperation<N>>,
    descriptions: seq<string>
  )

  /** A freshly constructed brain: no result, nothing pending, and an empty
      description. */
  function Initial<N>(): (r: Brain<N>)
    ensures Result(r).None?
    ensures !ResultIsPending(r)
    ensures r.descriptions == [] && Description(r) == ""
  {
    Brain(None, None, [])
  }

  /** The computed property `result`: the accumulator, if any. */
  function Result<N>(b: Brain<N>): (r: Option<N>)
    ensures r == b.accumulator
  {
    b.accumulator
  }

  /** The computed property `resultIsPending`: a binary operation waits for
      its second operand. */
  predicate ResultIsPending<N>(b: Brain<N>)
    ensures ResultIsPending(b) <==> b.pendingBinaryOperation.Some?
  {
    b.pendingBinaryOperation.Some?
  }

  function Last(s: seq<string>): string
    requires |s| > 0
  {
    s[|s| - 1]
  }

  // ---------------------------------------------------------------------
  // The description

  /** The fragments joined in order, with nothing between them: the empty
      list joins to "", the join starts with the first fragment, and no
      fragment is longer than the join. */
  function Concat(fragments: seq<string>): (r: string)
    ensures |fragments| == 0 ==> r == ""
    ensures |fragments| > 0 ==> |fragments[0]| <= |r| && r[..|fragments[0]|] == fragments[0]
    ensures forall i :: 0 <= i < |fragments| ==> |fragments[i]| <= |r|
  {
    if |fragments| == 0 then "" else fragments[0] + Concat(fragments[1..])
  }

  /** The computed property `description`: the join of all fragments, which
      is the description of all but the last fragment followed by the last
      one, as the appending loop builds it. */
  function Description<N>(b: Brain<N>): (r: string)
    ensures |b.descriptions| == 0 ==> r == ""
    ensures |b.descriptions| > 0 ==>
              r == Concat(b.descriptions[..|b.descriptions| - 1]) + Last(b.descriptions)
  {
    if |b.descriptions| == 0 then
      ""
    else
      var n := |b.descriptions| - 1;
      assert b.descriptions == b.descriptions[..n] + [Last(b.descriptions)];
      ConcatAppend(b.descriptions[..n], [Last(b.descriptions)]);
      Concat(b.descriptions)
  }

  /** Joining distributes over sequence concatenation. */
  lemma {:induction false} ConcatAppend(a: seq<string>, c: seq<string>)
    ensures Concat(a + c) == Concat(a) + Concat(c)
  {
    if |a| == 0 {
      assert a + c == c;
    } else {
      assert (a + c)[1..] == a[1..] + c;
      ConcatAppend(a[1..], c);
    }
  }

  /** Extending a prefix by one fragment extends its join by that fragment. */
  lemma ConcatPrefix(fragments: seq<string>, i: nat)
    requires i < |fragments|
    ensures Concat(fragments[..i + 1]) == Concat(fragments[..i]) + fragments[i]
  {
    assert fragments[..i + 1] == fragments[..i] + [fragments[i]];
    ConcatAppend(fragments[..i], [fragments[i]]);
  }

  /** The computed property `description`: a left-to-right loop that appends
      each fragment to the string built so far. */
  method ComputeDescription<N>(b: Brain<N>) returns (s: string)
    ensures s == Description(b)
  {
    s := "";
    var i := 0;
    while i < |b.descriptions|
      invariant 0 <= i <= |b.descriptions|
      invariant s == Concat(b.descriptions[..i])
    {
      ConcatPrefix(b.descriptions, i);
      s := s + b.descriptions[i];
      i := i + 1;
    }
    assert b.descriptions[..i] == b.descriptions;
    assert s == Concat(b.descriptions);
  }

  /** The private computed property `formattedAccumulator`: the accumulator
      rendered by the formatter, or nothing when the accumulator is empty. */
  function FormattedAccumulator<N>(b: Brain<N>, format: N -> string): (r: Option<string>)
    ensures r.Some? <==> Result(b).Some?
    ensures r.Some? ==> r.value == format(Result(b).value)
  {
    match b.accumulator
    case Some(number) => Some(format(number))
    case None => None
  }

  // ---------------------------------------------------------------------
  // Transitions

  /** `clear()`: forget everything. */
  function Clear<N>(b: Brain<N>): (r: Brain<N>)
    ensures Result(r).None?
    ensures !ResultIsPending(r)
    ensures Description(r) == ""
    ensures r == Initial()
  {
    Brain(None, None, [])
  }

  /** `setOperand(_:)`: with nothing pending a new expression is started;
      either way the operand becomes the result and its rendering the last
      fragment. The force-unwrap of `formattedAccumulator` is the `.value`
      below, whose precondition is discharged by the accumulator just set. */
  function SetOperand<N>(b: Brain<N>, operand: N, format: N -> string): (r: Brain<N>)
    ensures Result(r) == Some(operand)
    ensures r.pendingBinaryOperation == b.pendingBinaryOperation
    ensures !ResultIsPending(b) ==> r.descriptions == [format(operand)]
    ensures ResultIsPending(b) ==> r.descriptions == b.descriptions + [format(operand)]
  {
    var started := if !ResultIsPending(b) then Clear(b) else b;
    var stored := started.(accumulator := Some(operand));
    stored.(descriptions := stored.descriptions + [FormattedAccumulator(stored, format).value])
  }

  /** `performPendingBinaryOperation()`: when both a pending operation and an
      accumulator exist, the accumulator becomes their combination and nothing
      is pending any more; otherwise nothing happens. The fragments are never
      touched. */
  function PerformPendingBinaryOperation<N>(b: Brain<N>): (r: Brain<N>)
    ensures r.descriptions == b.descriptions
    ensures ResultIsPending(b) && Result(b).Some? ==>
              && !ResultIsPending(r)
              && Result(r) == Some(b.pendingBinaryOperation.value.operation(
                                     b.pendingBinaryOperation.value.firstOperand, Result(b).value))
    ensures !(ResultIsPending(b) && Result(b).Some?) ==> r == b
  {
    if b.pendingBinaryOperation.Some? && b.accumulator.Some? then
      b.(accumulator := Some(b.pendingBinaryOperation.value.Perform(b.accumulator.value)),
         pendingBinaryOperation := None)
    else
      b
  }

  /** A constant: its value becomes the result and its symbol the last
      fragment; the pending operation is kept. */
  function ApplyConstant<N>(b: Brain<N>, symbol: string, value: N): (r: Brain<N>)
    ensures Result(r) == Some(value)
    ensures r.pendingBinaryOperation == b.pendingBinaryOperation
    ensures r.descriptions == b.descriptions + [symbol]
  {
    b.(accumulator := Some(value), descriptions := b.descriptions + [symbol])
  }

  /** A no-argument operation: the value it produces becomes the result and
      its symbol the last fragment; the pending operation is kept. */
  function ApplyNoArgument<N>(b: Brain<N>, symbol: string, function0: () -> N): (r: Brain<N>)
    ensures Result(r) == Some(function0())
    ensures r.pendingBinaryOperation == b.pendingBinaryOperation
    ensures r.descriptions == b.descriptions + [symbol]
  {
    b.(accumulator := Some(function0()), descriptions := b.descriptions + [symbol])
  }

  /** A unary operation. With an empty accumulator it does nothing. Otherwise
      the accumulator is replaced by its image and the description wrapped:
      only the last fragment when an operation is pending, everything so far
      when not. `None` is the run-time trap of `descriptions.last!` on an
      empty fragment list, which is the only way this can fail. */
  function ApplyUnary<N>(b: Brain<N>, symbol: string, function1: N -> N): (r: Option<Brain<N>>)
    ensures r.None? <==> Result(b).Some? && ResultIsPending(b) && |b.descriptions| == 0
    ensures Result(b).None? ==> r == Some(b)
    ensures r.Some? && Result(b).Some? ==>
              && Result(r.value) == Some(function1(Result(b).value))
              && r.value.pendingBinaryOperation == b.pendingBinaryOperation
    ensures r.Some? && Result(b).Some? && ResultIsPending(b) ==>
              && |r.value.descriptions| == |b.descriptions|
              && r.value.descriptions[..|b.descriptions| - 1] == b.descriptions[..|b.descriptions| - 1]
              && Last(r.value.descriptions) == symbol + "(" + Last(b.descriptions) + ")"
    ensures r.Some? && Result(b).Some? && !ResultIsPending(b) ==>
              r.value.descriptions == [symbol + "("] + b.descriptions + [")"]
  {
    match b.accumulator
    case None => Some(b)
    case Some(operand) =>
      if ResultIsPending(b) then
        if |b.descriptions| == 0 then
          None
        else
          var lastOperand := b.descriptions[|b.descriptions| - 1];
          Some(b.(accumulator := Some(function1(operand)),
                  descriptions := b.descriptions[..|b.descriptions| - 1] + [symbol + "(" + lastOperand + ")"]))
      else
        Some(b.(accumulator := Some(function1(operand)),
                descriptions := [symbol + "("] + b.descriptions + [")"]))
  }

  /** A binary operation. Any pending operation is resolved first; if there
      is then a result, it becomes the first operand of a new pending
      operation, the accumulator is emptied and the symbol appended. After a
      binary operator the brain never shows a result. */
  function ApplyBinary<N>(b: Brain<N>, symbol: string, function2: (N, N) -> N): (r: Brain<N>)
    ensures Result(r).None?
    ensures ResultIsPending(r) <==> ResultIsPending(b) || Result(b).Some?
    ensures Result(b).None? ==> r == b
    ensures Result(b).Some? ==>
              && r.descriptions == b.descriptions + [symbol]
              && r.pendingBinaryOperation.value.operation == function2
              && r.pendingBinaryOperation.value.firstOperand ==
                   (if ResultIsPending(b)
                    then b.pendingBinaryOperation.value.operation(
                           b.pendingBinaryOperation.value.firstOperand, Result(b).value)
                    else Result(b).value)
  {
    var resolved := if ResultIsPending(b) then PerformPendingBinaryOperation(b) else b;
    if resolved.accumulator.Some? then
      resolved.(pendingBinaryOperation := Some(PendingBinaryOperation(function2, resolved.accumulator.value)),
                accumulator := None,
                descriptions := resolved.descriptions + [symbol])
    else
      resolved
  }

  /** `performOperation(_:)`: look the symbol up and dispatch on the kind of
      its entry. `None` is a run-time trap, possible only for a unary symbol. */
  function PerformOperation<N>(b: Brain<N>, symbol: string, m: Arith<N>): (r: Option<Brain<N>>)
    ensures Parse(symbol).None? ==> r == Some(b)
    ensures r.None? ==> IsUnarySymbol(symbol)
    ensures Parse(symbol) == Some(EqualsSign) ==> r.Some? && r.value.descriptions == b.descriptions
    ensures IsBinarySymbol(symbol) ==> r.Some? && Result(r.value).None?
  {
    match Lookup(m, symbol)
    case None => Some(b)
    case Some(operation) =>
      match operation
      case Constant(value) => Some(ApplyConstant(b, symbol, value))
      case UnaryOperation(function1) => ApplyUnary(b, symbol, function1)
      case BinaryOperation(function2) => Some(ApplyBinary(b, symbol, function2))
      case NoArgumentOperation(function0) => Some(ApplyNoArgument(b, symbol, function0))
      case Equals => Some(PerformPendingBinaryOperation(b))
  }
}
