/** The operation table of the calculator brain: the five kinds of operation
    and the fifteen symbols the brain knows, over an abstract number type `N`.
    The floating-point meaning of the numbers is not modelled: every numeric
    primitive the table uses is a field of an `Arith<N>` record, so all facts
    proved here and downstream hold for any interpretation of them. */
module CalculatorOperations {
  import opened Wrappers

  /** The numeric primitives the table is built from. `random` is the value
      one press of "Ran" draws; `one` and `hundred` are the literals of the
      "1/x" and "%" closures. */
  datatype Arith<!N> = Arith(
    pi: N,
    e: N,
    one: N,
    hundred: N,
    random: N,
    sqrt: N -> N,
    cos: N -> N,
    sin: N -> N,
    tan: N -> N,
    negate: N -> N,
    times: (N, N) -> N,
    divide: (N, N) -> N,
    plus: (N, N) -> N,
    minus: (N, N) -> N
  )

  /** One entry of the table. */
  datatype Operation<!N> =
    | Constant(value: N)
    | UnaryOperation(unary: N -> N)
    | BinaryOperation(binary: (N, N) -> N)
    | NoArgumentOperation(nullary: () -> N)
    | Equals

  /** The keys of the table. */
  datatype Symbol =
    | Pi | EulerE | SquareRoot | Reciprocal | Percent | Cosine | Sine | Tangent
    | Random | PlusMinus | Times | Divide | Plus | Minus | EqualsSign
  {
    /** The key's spelling, as the buttons send it. */
    function Text(): string
    {
      match this
      case Pi => "π"
      case EulerE => "e"
      case SquareRoot => "√"
      case Reciprocal => "1/x"
      case Percent => "%"
      case Cosine => "cos"
      case Sine => "sin"
      case Tangent => "tan"
      case Random => "Ran"
      case PlusMinus => "±"
      case Times => "x"
      case Divide => "÷"
      case Plus => "+"
      case Minus => "-"
      case EqualsSign => "="
    }

    predicate IsConstant() { Pi? || EulerE? }

    predicate IsUnary()
    {
      SquareRoot? || Reciprocal? || Percent? || Cosine? || Sine? || Tangent? || PlusMinus?
    }

    predicate IsBinary() { Times? || Divide? || Plus? || Minus? }

    predicate IsNoArgument() { Random? }
  }

  /** The dictionary lookup `operations[symbol]` on the key side: the symbol
      a string spells, if any. A string that is no key's spelling has no
      entry. */
  function Parse(s: string): (r: Option<Symbol>)
    ensures r.Some? ==> r.value.Text() == s
    ensures r.None? ==> forall t: Symbol :: t.Text() != s
  {
    if s == "π" then Some(Pi)
    else if s == "e" then Some(EulerE)
    else if s == "√" then Some(SquareRoot)
    else if s == "1/x" then Some(Reciprocal)
    else if s == "%" then Some(Percent)
    else if s == "cos" then Some(Cosine)
    else if s == "sin" then Some(Sine)
    else if s == "tan" then Some(Tangent)
    else if s == "Ran" then Some(Random)
    else if s == "±" then Some(PlusMinus)
    else if s == "x" then Some(Times)
    else if s == "÷" then Some(Divide)
    else if s == "+" then Some(Plus)
    else if s == "-" then Some(Minus)
    else if s == "=" then Some(EqualsSign)
    else None
  }

  /** Distinct keys have distinct spellings, so the spelling of a key looks
      up that key. */
  lemma ParseText(t: Symbol)
    ensures Parse(t.Text()) == Some(t)
  {
  }

  /** The spellings the key sequences of the brain's properties use. */
  lemma ParseKeys()
    ensures Parse("π") == Some(Pi)
    ensures Parse("√") == Some(SquareRoot)
    ensures Parse("x") == Some(Times)
    ensures Parse("+") == Some(Plus)
    ensures Parse("=") == Some(EqualsSign)
  {
    ParseText(Pi);
    ParseText(SquareRoot);
    ParseText(Times);
    ParseText(Plus);
    ParseText(EqualsSign);
  }

  /** The dictionary `operations` on the value side: the entry of each key. */
  function Entry<N>(m: Arith<N>, t: Symbol): (op: Operation<N>)
    ensures op.Constant? <==> t.IsConstant()
    ensures op.UnaryOperation? <==> t.IsUnary()
    ensures op.BinaryOperation? <==> t.IsBinary()
    ensures op.NoArgumentOperation? <==> t.IsNoArgument()
    ensures op.Equals? <==> t.EqualsSign?
  {
    match t
    case Pi => Constant(m.pi)
    case EulerE => Constant(m.e)
    case SquareRoot => UnaryOperation(m.sqrt)
    case Reciprocal => UnaryOperation(x => m.divide(m.one, x))
    case Percent => UnaryOperation(x => m.divide(x, m.hundred))
    case Cosine => UnaryOperation(m.cos)
    case Sine => UnaryOperation(m.sin)
    case Tangent => UnaryOperation(m.tan)
    case Random => NoArgumentOperation(() => m.random)
    case PlusMinus => UnaryOperation(m.negate)
    case Times => BinaryOperation(m.times)
    case Divide => BinaryOperation(m.divide)
    case Plus => BinaryOperation(m.plus)
    case Minus => BinaryOperation(m.minus)
    case EqualsSign => Equals
  }

  /** The symbol classes of strings, as `performOperation` receives them. */
  predicate IsConstantSymbol(s: string) { Parse(s).Some? && Parse(s).value.IsConstant() }
  predicate IsUnarySymbol(s: string) { Parse(s).Some? && Parse(s).value.IsUnary() }
  predicate IsBinarySymbol(s: string) { Parse(s).Some? && Parse(s).value.IsBinary() }
  predicate IsNoArgumentSymbol(s: string) { Parse(s).Some? && Parse(s).value.IsNoArgument() }

  /** `operations[symbol]`: the entry of the key a string spells, if any. */
  function Lookup<N>(m: Arith<N>, symbol: string): (r: Option<Operation<N>>)
    ensures r.Some? <==> exists t: Symbol :: t.Text() == symbol
    ensures r.Some? ==> r == Some(Entry(m, Parse(symbol).value))
  {
    match Parse(symbol)
    case None => None
    case Some(t) => Some(Entry(m, t))
  }
}
