/** The safety invariant of the brain. Its stored properties are private, so
    the only states a caller can reach are those produced from a fresh brain
    by a sequence of key presses; every such state satisfies `Valid`, and in
    a `Valid` state the force-unwrap `descriptions.last!` of a unary
    operation cannot fail. */
module BrainInvariant {
  import opened Wrappers
  import opened CalculatorOperations
  import opened CalculatorBrain

  /** Whenever there is a result there is at least one fragment; whenever
      an operation is pending there are at least two; and when the pending
      operation still waits for its second operand, the last fragment is a
      binary symbol. */
  predicate Valid<N>(b: Brain<N>)
  {
    && (Result(b).Some? ==> |b.descriptions| > 0)
    && (ResultIsPending(b) ==> |b.descriptions| >= 2)
    && (ResultIsPending(b) && Result(b).None? ==> IsBinarySymbol(Last(b.descriptions)))
  }

  /** One call of the brain's public interface, as the view controller makes it. */
  datatype Key<!N> = OperandKey(operand: N) | SymbolKey(symbol: string) | ClearKey

  /** One call; `None` is a run-time trap. */
  function Step<N>(b: Brain<N>, k: Key<N>, m: Arith<N>, format: N -> string): Option<Brain<N>>
  {
    match k
    case OperandKey(x) => Some(SetOperand(b, x, format))
    case SymbolKey(symbol) => PerformOperation(b, symbol, m)
    case ClearKey => Some(Clear(b))
  }

  /** A sequence of calls, stopping at the first trap. */
  function Run<N>(b: Brain<N>, keys: seq<Key<N>>, m: Arith<N>, format: N -> string): Option<Brain<N>>
    decreases |keys|
  {
    if |keys| == 0 then
      Some(b)
    else
      match Step(b, keys[0], m, format)
      case None => None
      case Some(next) => Run(next, keys[1..], m, format)
  }

  /** Running a sequence is running its first call, then the rest. */
  lemma RunUnfold<N>(b: Brain<N>, keys: seq<Key<N>>, next: Brain<N>, m: Arith<N>, format: N -> string)
    requires |keys| > 0 && Step(b, keys[0], m, format) == Some(next)
    ensures Run(b, keys, m, format) == Run(next, keys[1..], m, format)
  {
  }

  lemma InitialIsValid<N>()
    ensures Valid(Initial<N>())
  {
  }

  /** Every call from a valid state succeeds and leads to a valid state. */
  lemma StepPreservesValid<N>(b: Brain<N>, k: Key<N>, m: Arith<N>, format: N -> string)
    requires Valid(b)
    ensures Step(b, k, m, format).Some?
    ensures Valid(Step(b, k, m, format).value)
  {
    match k
    case OperandKey(x) =>
    case ClearKey =>
    case SymbolKey(symbol) =>
      match Lookup(m, symbol)
      case None =>
      case Some(operation) =>
        match operation
        case Constant(value) =>
        case UnaryOperation(f) =>
        case BinaryOperation(f) =>
        case NoArgumentOperation(f) =>
        case Equals =>
  }

  /** No sequence of calls from a valid state ever traps, and the state it
      ends in is valid again. */
  lemma {:induction false} RunPreservesValid<N>(b: Brain<N>, keys: seq<Key<N>>, m: Arith<N>, format: N -> string)
    requires Valid(b)
    ensures Run(b, keys, m, format).Some?
    ensures Valid(Run(b, keys, m, format).value)
    decreases |keys|
  {
    if |keys| > 0 {
      StepPreservesValid(b, keys[0], m, format);
      RunPreservesValid(Step(b, keys[0], m, format).value, keys[1..], m, format);
    }
  }

  /** Hence a brain used only through its public interface never crashes on
      `descriptions.last!`. */
  lemma NeverTraps<N>(keys: seq<Key<N>>, m: Arith<N>, format: N -> string)
    ensures Run(Initial(), keys, m, format).Some?
  {
    InitialIsValid<N>();
    RunPreservesValid(Initial(), keys, m, format);
  }

  /** The invariant is what keeps the unwrap safe: a state with a result and
      a pending operation but no fragments, which no call sequence reaches,
      would trap on any unary operator. */
  lemma TrapOutsideInvariant<N>(x: N, p: PendingBinaryOperation<N>, m: Arith<N>)
    ensures !Valid(Brain(Some(x), Some(p), []))
    ensures PerformOperation(Brain(Some(x), Some(p), []), SquareRoot.Text(), m).None?
  {
  }
}
