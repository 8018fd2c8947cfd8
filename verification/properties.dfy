/** Properties of the brain that relate several calls or state a transition
    in terms of the observable `description`, plus the behaviour of the key
    sequences a user typically types. */
module BrainProperties {
  import opened Wrappers
  import opened CalculatorOperations
  import opened CalculatorBrain
  import opened BrainInvariant

  // ---------------------------------------------------------------------
  // The description seen through each transition

  /** Appending one fragment appends it to the description. */
  lemma {:induction false} DescriptionAppend(fragments: seq<string>, fragment: string)
    ensures Concat(fragments + [fragment]) == Concat(fragments) + fragment
  {
    ConcatAppend(fragments, [fragment]);
    assert Concat([fragment]) == fragment + Concat([]);
  }

  /** An operand replaces the description when nothing is pending and
      extends it otherwise. */
  lemma DescriptionAfterSetOperand<N>(b: Brain<N>, operand: N, format: N -> string)
    ensures !ResultIsPending(b) ==> Description(SetOperand(b, operand, format)) == format(operand)
    ensures ResultIsPending(b) ==>
              Description(SetOperand(b, operand, format)) == Description(b) + format(operand)
  {
    DescriptionAppend([], format(operand));
    DescriptionAppend(b.descriptions, format(operand));
  }

  /** A unary operator shows as `symbol(...)` around the whole description
      when nothing is pending, and around the last fragment only, after an
      untouched prefix, when an operation is pending. */
  lemma DescriptionAfterUnary<N>(b: Brain<N>, symbol: string, f: N -> N)
    requires ApplyUnary(b, symbol, f).Some? && Result(b).Some?
    ensures !ResultIsPending(b) ==>
              Description(ApplyUnary(b, symbol, f).value) == symbol + "(" + Description(b) + ")"
    ensures ResultIsPending(b) ==>
              Description(ApplyUnary(b, symbol, f).value) ==
                Concat(b.descriptions[..|b.descriptions| - 1]) + symbol + "(" + Last(b.descriptions) + ")"
  {
    var r := ApplyUnary(b, symbol, f).value;
    if ResultIsPending(b) {
      var n := |b.descriptions| - 1;
      assert r.descriptions == b.descriptions[..n] + [Last(r.descriptions)];
      DescriptionAppend(b.descriptions[..n], Last(r.descriptions));
    } else {
      DescriptionAppend([symbol + "("] + b.descriptions, ")");
      ConcatAppend([symbol + "("], b.descriptions);
      assert Concat([symbol + "("]) == symbol + "(" + Concat([]);
    }
  }

  /** Constants, "Ran" and a binary operator that finds a result append
      exactly their symbol to the description. */
  lemma DescriptionAfterSymbol<N>(b: Brain<N>, symbol: string, m: Arith<N>)
    requires IsConstantSymbol(symbol) || IsNoArgumentSymbol(symbol)
          || (IsBinarySymbol(symbol) && Result(b).Some?)
    ensures PerformOperation(b, symbol, m).Some?
    ensures Description(PerformOperation(b, symbol, m).value) == Description(b) + symbol
  {
    DescriptionAppend(b.descriptions, symbol);
  }

  /** A unary operator applied to a whole expression wraps the description
      once per press: two presses give `g(f(...))`, and the result is the
      composition of the two operations. */
  lemma UnaryNests<N>(b: Brain<N>, f: string, uf: N -> N, g: string, ug: N -> N)
    requires !ResultIsPending(b) && Result(b).Some?
    ensures var once := ApplyUnary(b, f, uf).value;
            && ApplyUnary(b, f, uf).Some?
            && ApplyUnary(once, g, ug).Some?
            && Result(ApplyUnary(once, g, ug).value) == Some(ug(uf(Result(b).value)))
            && Description(ApplyUnary(once, g, ug).value) == g + "(" + f + "(" + Description(b) + ")" + ")"
  {
    var once := ApplyUnary(b, f, uf).value;
    DescriptionAfterUnary(b, f, uf);
    DescriptionAfterUnary(once, g, ug);
  }

  // ---------------------------------------------------------------------
  // Relations between calls

  /** With nothing pending, an operand starts a new expression: what was
      there before is forgotten. */
  lemma SetOperandStartsAfresh<N>(b: Brain<N>, operand: N, format: N -> string)
    requires !ResultIsPending(b)
    ensures SetOperand(b, operand, format) == SetOperand(Initial(), operand, format)
  {
  }

  /** Pressing a second binary operator right after a first one changes
      nothing. */
  lemma BinaryTwiceIsNoOp<N>(b: Brain<N>, first: string, second: string, m: Arith<N>)
    requires IsBinarySymbol(first) && IsBinarySymbol(second)
    ensures PerformOperation(b, first, m).Some?
    ensures PerformOperation(PerformOperation(b, first, m).value, second, m) == PerformOperation(b, first, m)
  {
  }

  /** Pressing "=" twice is the same as pressing it once. */
  lemma EqualsIsIdempotent<N>(b: Brain<N>, m: Arith<N>)
    ensures PerformOperation(b, "=", m).Some?
    ensures PerformOperation(PerformOperation(b, "=", m).value, "=", m) == PerformOperation(b, "=", m)
  {
  }

  /** "=" with nothing to resolve is a no-op; with a pending operation and a
      second operand it resolves it and leaves nothing pending. */
  lemma EqualsResolves<N>(b: Brain<N>, m: Arith<N>)
    ensures ResultIsPending(b) && Result(b).Some? ==>
              && !ResultIsPending(PerformOperation(b, "=", m).value)
              && Result(PerformOperation(b, "=", m).value) ==
                   Some(b.pendingBinaryOperation.value.Perform(Result(b).value))
    ensures !(ResultIsPending(b) && Result(b).Some?) ==> PerformOperation(b, "=", m) == Some(b)
  {
  }

  /** A binary operator resolves the pending one first: binary operators
      combine strictly from left to right, with no precedence. */
  lemma BinaryChainsLeftToRight<N>(b: Brain<N>, symbol: string, m: Arith<N>)
    requires IsBinarySymbol(symbol) && ResultIsPending(b) && Result(b).Some?
    ensures var r := PerformOperation(b, symbol, m);
            && r.Some?
            && ResultIsPending(r.value)
            && r.value.pendingBinaryOperation.value.operation == Lookup(m, symbol).value.binary
            && r.value.pendingBinaryOperation.value.firstOperand ==
                 b.pendingBinaryOperation.value.Perform(Result(b).value)
  {
  }

  // ---------------------------------------------------------------------
  // Typical key sequences

  /** The common start of the key sequences below: `a +` leaves no result,
      an addition with first operand `a` pending, and two fragments. */
  lemma RunOperandPlus<N>(keys: seq<Key<N>>, x: N, m: Arith<N>, format: N -> string)
    requires |keys| >= 2 && keys[..2] == [OperandKey(x), SymbolKey("+")]
    ensures Run(Initial(), keys, m, format) ==
            Run(Brain(None, Some(PendingBinaryOperation(m.plus, x)), [format(x), "+"]), keys[2..], m, format)
  {
    assert keys[0] == OperandKey(x) && keys[1] == SymbolKey("+");
    ParseKeys();
    var b1 := Brain(Some(x), None, [format(x)]);
    var b2 := Brain(None, Some(PendingBinaryOperation(m.plus, x)), [format(x), "+"]);
    assert SetOperand(Initial(), x, format) == b1;
    assert ApplyBinary(b1, "+", m.plus) == b2;
    RunUnfold(Initial(), keys, b1, m, format);
    RunUnfold(b1, keys[1..], b2, m, format);
    assert keys[1..][1..] == keys[2..];
  }

  /** `a + b` leaves `b` as the result, the addition still pending, and
      three fragments. */
  lemma RunOperandPlusOperand<N>(keys: seq<Key<N>>, x: N, y: N, m: Arith<N>, format: N -> string)
    requires |keys| >= 3 && keys[..3] == [OperandKey(x), SymbolKey("+"), OperandKey(y)]
    ensures Run(Initial(), keys, m, format) ==
            Run(Brain(Some(y), Some(PendingBinaryOperation(m.plus, x)), [format(x), "+", format(y)]),
                keys[3..], m, format)
  {
    assert keys[..2] == [OperandKey(x), SymbolKey("+")] && keys[2] == OperandKey(y);
    RunOperandPlus(keys, x, m, format);
    var b2 := Brain(None, Some(PendingBinaryOperation(m.plus, x)), [format(x), "+"]);
    var b3 := Brain(Some(y), Some(PendingBinaryOperation(m.plus, x)), [format(x), "+", format(y)]);
    assert SetOperand(b2, y, format) == b3;
    RunUnfold(b2, keys[2..], b3, m, format);
    assert keys[2..][1..] == keys[3..];
  }

  /** `7 + 3 =`: the sum, nothing pending, described as `7+3`. */
  lemma ScenarioAddThenEquals<N>(x: N, y: N, m: Arith<N>, format: N -> string)
    ensures var r := Run(Initial(), [OperandKey(x), SymbolKey("+"), OperandKey(y), SymbolKey("=")], m, format);
            && r.Some?
            && Result(r.value) == Some(m.plus(x, y))
            && !ResultIsPending(r.value)
            && Description(r.value) == format(x) + "+" + format(y)
  {
    var keys := [OperandKey(x), SymbolKey("+"), OperandKey(y), SymbolKey("=")];
    ParseKeys();
    RunOperandPlusOperand(keys, x, y, m, format);
    var b3 := Brain(Some(y), Some(PendingBinaryOperation(m.plus, x)), [format(x), "+", format(y)]);
    RunUnfold(b3, keys[3..], PerformPendingBinaryOperation(b3), m, format);
    DescriptionOfThree(format(x), "+", format(y));
  }

  /** `7 + 3 +`: the first sum is the first operand of a new pending
      addition, described as `7+3+`. */
  lemma ScenarioAddThenAdd<N>(x: N, y: N, m: Arith<N>, format: N -> string)
    ensures var r := Run(Initial(), [OperandKey(x), SymbolKey("+"), OperandKey(y), SymbolKey("+")], m, format);
            && r.Some?
            && Result(r.value).None?
            && ResultIsPending(r.value)
            && r.value.pendingBinaryOperation.value.firstOperand == m.plus(x, y)
            && Description(r.value) == format(x) + "+" + format(y) + "+"
  {
    var keys := [OperandKey(x), SymbolKey("+"), OperandKey(y), SymbolKey("+")];
    ParseKeys();
    RunOperandPlusOperand(keys, x, y, m, format);
    var b3 := Brain(Some(y), Some(PendingBinaryOperation(m.plus, x)), [format(x), "+", format(y)]);
    RunUnfold(b3, keys[3..], ApplyBinary(b3, "+", m.plus), m, format);
    DescriptionOfThree(format(x), "+", format(y));
    DescriptionAfterSymbol(b3, "+", m);
  }

  /** `2 + 3 x 4 =` is `(2 + 3) x 4`. */
  lemma ScenarioNoPrecedence<N>(x: N, y: N, z: N, m: Arith<N>, format: N -> string)
    ensures var r := Run(Initial(), [OperandKey(x), SymbolKey("+"), OperandKey(y), SymbolKey("x"),
                                     OperandKey(z), SymbolKey("=")], m, format);
            && r.Some?
            && Result(r.value) == Some(m.times(m.plus(x, y), z))
            && !ResultIsPending(r.value)
  {
    var keys := [OperandKey(x), SymbolKey("+"), OperandKey(y), SymbolKey("x"), OperandKey(z), SymbolKey("=")];
    ParseKeys();
    RunOperandPlusOperand(keys, x, y, m, format);
    var b3 := Brain(Some(y), Some(PendingBinaryOperation(m.plus, x)), [format(x), "+", format(y)]);
    var b4 := ApplyBinary(b3, "x", m.times);
    var b5 := SetOperand(b4, z, format);
    var b6 := PerformPendingBinaryOperation(b5);
    RunUnfold(b3, keys[3..], b4, m, format);
    assert keys[3..][1..] == keys[4..];
    RunUnfold(b4, keys[4..], b5, m, format);
    assert keys[4..][1..] == keys[5..];
    RunUnfold(b5, keys[5..], b6, m, format);
  }

  /** Three fragments describe themselves joined. */
  lemma DescriptionOfThree(a: string, c: string, d: string)
    ensures Concat([a, c, d]) == a + c + d
  {
    assert [a, c, d][1..] == [c, d];
    assert [c, d][1..] == [d];
    assert Concat([d]) == d + Concat([]);
    assert a + (c + d) == a + c + d;
  }

  /** `√` on a fresh brain does nothing. */
  lemma ScenarioUnaryWithoutOperand<N>(m: Arith<N>, format: N -> string)
    ensures Run(Initial(), [SymbolKey("√")], m, format) == Some(Initial())
  {
    ParseKeys();
    RunUnfold(Initial(), [SymbolKey("√")], Initial(), m, format);
  }

  /** `4 √`: the root, described as `√(4)`. */
  lemma ScenarioSquareRoot<N>(x: N, m: Arith<N>, format: N -> string)
    ensures var r := Run(Initial(), [OperandKey(x), SymbolKey("√")], m, format);
            && r.Some?
            && Result(r.value) == Some(m.sqrt(x))
            && Description(r.value) == "√(" + format(x) + ")"
  {
    var keys := [OperandKey(x), SymbolKey("√")];
    ParseKeys();
    var b1 := Brain(Some(x), None, [format(x)]);
    var b2 := Brain(Some(m.sqrt(x)), None, ["√("] + [format(x)] + [")"]);
    assert SetOperand(Initial(), x, format) == b1;
    assert "√" + "(" == "√(";
    assert ApplyUnary(b1, "√", m.sqrt) == Some(b2);
    RunUnfold(Initial(), keys, b1, m, format);
    RunUnfold(b1, keys[1..], b2, m, format);
    assert b2.descriptions == ["√(", format(x), ")"];
    DescriptionOfThree("√(", format(x), ")");
  }

  /** `7 + 3 √ =`: the root wraps only the second operand, `7+√(3)`. */
  lemma ScenarioUnaryOnSecondOperand<N>(x: N, y: N, m: Arith<N>, format: N -> string)
    ensures var r := Run(Initial(), [OperandKey(x), SymbolKey("+"), OperandKey(y), SymbolKey("√"),
                                     SymbolKey("=")], m, format);
            && r.Some?
            && Result(r.value) == Some(m.plus(x, m.sqrt(y)))
            && Description(r.value) == format(x) + "+" + "√(" + format(y) + ")"
  {
    var keys := [OperandKey(x), SymbolKey("+"), OperandKey(y), SymbolKey("√"), SymbolKey("=")];
    ParseKeys();
    RunOperandPlusOperand(keys, x, y, m, format);
    var b3 := Brain(Some(y), Some(PendingBinaryOperation(m.plus, x)), [format(x), "+", format(y)]);
    var b4 := Brain(Some(m.sqrt(y)), Some(PendingBinaryOperation(m.plus, x)), [format(x), "+", "√(" + format(y) + ")"]);
    var b5 := Brain(Some(m.plus(x, m.sqrt(y))), None, b4.descriptions);
    RootOfSecondOperand(x, y, m, format);
    RunUnfold(b3, keys[3..], b4, m, format);
    assert keys[3..][1..] == keys[4..];
    RunUnfold(b4, keys[4..], b5, m, format);
    DescriptionOfThree(format(x), "+", "√(" + format(y) + ")");
  }

  /** The `√` step of the sequence above: the root replaces only the last
      fragment. */
  lemma RootOfSecondOperand<N>(x: N, y: N, m: Arith<N>, format: N -> string)
    ensures ApplyUnary(Brain(Some(y), Some(PendingBinaryOperation(m.plus, x)), [format(x), "+", format(y)]), "√", m.sqrt)
         == Some(Brain(Some(m.sqrt(y)), Some(PendingBinaryOperation(m.plus, x)), [format(x), "+", "√(" + format(y) + ")"]))
  {
    var b3 := Brain(Some(y), Some(PendingBinaryOperation(m.plus, x)), [format(x), "+", format(y)]);
    var r := ApplyUnary(b3, "√", m.sqrt).value;
    assert "√" + "(" + format(y) + ")" == "√(" + format(y) + ")";
    assert Last(r.descriptions) == "√(" + format(y) + ")";
    assert r.descriptions[..2] == b3.descriptions[..2] == [format(x), "+"];
    assert r.descriptions == r.descriptions[..2] + [Last(r.descriptions)];
    assert r.descriptions == [format(x), "+", "√(" + format(y) + ")"];
    assert r.accumulator == Some(m.sqrt(y));
  }

  /** `5 + π =`: a constant after a binary operator is its second operand,
      described as `5+π`. */
  lemma ScenarioConstantAsSecondOperand<N>(x: N, m: Arith<N>, format: N -> string)
    ensures var r := Run(Initial(), [OperandKey(x), SymbolKey("+"), SymbolKey("π"), SymbolKey("=")], m, format);
            && r.Some?
            && Result(r.value) == Some(m.plus(x, m.pi))
            && Description(r.value) == format(x) + "+" + "π"
  {
    RunConstantAsSecondOperand(x, m, format);
    DescriptionOfThree(format(x), "+", "π");
  }

  lemma RunConstantAsSecondOperand<N>(x: N, m: Arith<N>, format: N -> string)
    ensures Run(Initial(), [OperandKey(x), SymbolKey("+"), SymbolKey("π"), SymbolKey("=")], m, format)
         == Some(Brain(Some(m.plus(x, m.pi)), None, [format(x), "+", "π"]))
  {
    var keys := [OperandKey(x), SymbolKey("+"), SymbolKey("π"), SymbolKey("=")];
    RunOperandPlus(keys, x, m, format);
    ParseKeys();
    var b2 := Brain(None, Some(PendingBinaryOperation(m.plus, x)), [format(x), "+"]);
    var b3 := Brain(Some(m.pi), Some(PendingBinaryOperation(m.plus, x)), [format(x), "+", "π"]);
    var b4 := Brain(Some(m.plus(x, m.pi)), None, [format(x), "+", "π"]);
    assert ApplyConstant(b2, "π", m.pi) == b3;
    RunUnfold(b2, keys[2..], b3, m, format);
    assert keys[2..][1..] == keys[3..];
    RunUnfold(b3, keys[3..], b4, m, format);
  }

  /** `7 π`: with nothing pending a constant does not start a new
      expression; it replaces the result but is appended to the old
      description, giving `7π`. */
  lemma ScenarioConstantKeepsDescription<N>(x: N, m: Arith<N>, format: N -> string)
    ensures var r := Run(Initial(), [OperandKey(x), SymbolKey("π")], m, format);
            && r.Some?
            && Result(r.value) == Some(m.pi)
            && Description(r.value) == format(x) + "π"
  {
    var keys := [OperandKey(x), SymbolKey("π")];
    ParseKeys();
    var b1 := SetOperand(Initial(), x, format);
    var b2 := ApplyConstant(b1, "π", m.pi);
    RunUnfold(Initial(), keys, b1, m, format);
    RunUnfold(b1, keys[1..], b2, m, format);
    DescriptionAfterSetOperand(Initial<N>(), x, format);
    DescriptionAfterSymbol(b1, "π", m);
  }
}
