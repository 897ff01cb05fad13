/**
 * The node types of the syntactic trees built for intensional expressions
 * (`XEnums.TypeExpr`): each constant carries a minimal and a maximal arity and
 * its name in lower case, and `postfixExpressionFor` turns an operator and its
 * already encoded operands into one fragment of a reverse-Polish token stream.
 */
module Expressions {
  import opened Wrappers
  import opened JavaStrings
  import XEnums

  /** `Integer.MAX_VALUE`, the maximal arity stored for the n-ary node types. */
  const IntegerMaxValue: int := 2147483647

  /** The arity bounds a `TypeExpr` constant is declared with (its final fields `arityMin` and `arityMax`). */
  datatype Arity = Arity(arityMin: int, arityMax: int)

  /** The two checks of `postfixExpressionFor` that abort the encoding. */
  datatype EncodingError =
    | BadNumberOfOperands  // the operand count lies outside [arityMin, arityMax]
    | ZeroAryOperator      // a 0-ary node type other than SET

  datatype TypeExpr =
    | NEG | ABS | ADD | SUB | MUL | DIV | MOD | SQR
    | POW | MIN | MAX | DIST | LT | LE | GE | GT
    | NE | EQ | SET | IN | NOT | AND | OR | XOR
    | IFF | IMP | IF | CARD | UNION | INTER | DIFF | SDIFF
    | HULL | DJOINT | SUBSET | SUBSEQ | SUPSET | SUPSEQ | CONVEX | FDIV
    | FMOD | SQRT | NROOT | EXP | LN | LOG | SIN | COS
    | TAN | ASIN | ACOS | ATAN | SINH | COSH | TANH | LONG
    | RATIONAL | DECIMAL | VAR | PAR | SYMBOL
  {
    /** The identifier of the constant, as `name()` returns it. */
    function Name(): string
    {
      match this
      case NEG => "NEG"
      case ABS => "ABS"
      case ADD => "ADD"
      case SUB => "SUB"
      case MUL => "MUL"
      case DIV => "DIV"
      case MOD => "MOD"
      case SQR => "SQR"
      case POW => "POW"
      case MIN => "MIN"
      case MAX => "MAX"
      case DIST => "DIST"
      case LT => "LT"
      case LE => "LE"
      case GE => "GE"
      case GT => "GT"
      case NE => "NE"
      case EQ => "EQ"
      case SET => "SET"
      case IN => "IN"
      case NOT => "NOT"
      case AND => "AND"
      case OR => "OR"
      case XOR => "XOR"
      case IFF => "IFF"
      case IMP => "IMP"
      case IF => "IF"
      case CARD => "CARD"
      case UNION => "UNION"
      case INTER => "INTER"
      case DIFF => "DIFF"
      case SDIFF => "SDIFF"
      case HULL => "HULL"
      case DJOINT => "DJOINT"
      case SUBSET => "SUBSET"
      case SUBSEQ => "SUBSEQ"
      case SUPSET => "SUPSET"
      case SUPSEQ => "SUPSEQ"
      case CONVEX => "CONVEX"
      case FDIV => "FDIV"
      case FMOD => "FMOD"
      case SQRT => "SQRT"
      case NROOT => "NROOT"
      case EXP => "EXP"
      case LN => "LN"
      case LOG => "LOG"
      case SIN => "SIN"
      case COS => "COS"
      case TAN => "TAN"
      case ASIN => "ASIN"
      case ACOS => "ACOS"
      case ATAN => "ATAN"
      case SINH => "SINH"
      case COSH => "COSH"
      case TANH => "TANH"
      case LONG => "LONG"
      case RATIONAL => "RATIONAL"
      case DECIMAL => "DECIMAL"
      case VAR => "VAR"
      case PAR => "PAR"
      case SYMBOL => "SYMBOL"
    }

    /** The declaration of each constant: one argument for a fixed arity, two for a range. */
    function Declaration(): Arity
    {
      match this
      case NEG => Fixed(1)
      case ABS => Fixed(1)
      case ADD => Ranged(2, IntegerMaxValue)
      case SUB => Fixed(2)
      case MUL => Ranged(2, IntegerMaxValue)
      case DIV => Fixed(2)
      case MOD => Fixed(2)
      case SQR => Fixed(1)
      case POW => Fixed(2)
      case MIN => Ranged(2, IntegerMaxValue)
      case MAX => Ranged(2, IntegerMaxValue)
      case DIST => Fixed(2)
      case LT => Fixed(2)
      case LE => Fixed(2)
      case GE => Fixed(2)
      case GT => Fixed(2)
      case NE => Fixed(2)
      case EQ => Ranged(2, IntegerMaxValue)
      case SET => Ranged(0, IntegerMaxValue)
      case IN => Fixed(2)
      case NOT => Fixed(1)
      case AND => Ranged(2, IntegerMaxValue)
      case OR => Ranged(2, IntegerMaxValue)
      case XOR => Ranged(2, IntegerMaxValue)
      case IFF => Ranged(2, IntegerMaxValue)
      case IMP => Fixed(2)
      case IF => Fixed(3)
      case CARD => Fixed(1)
      case UNION => Ranged(2, IntegerMaxValue)
      case INTER => Ranged(2, IntegerMaxValue)
      case DIFF => Fixed(2)
      case SDIFF => Ranged(2, IntegerMaxValue)
      case HULL => Fixed(1)
      case DJOINT => Fixed(2)
      case SUBSET => Fixed(2)
      case SUBSEQ => Fixed(2)
      case SUPSET => Fixed(2)
      case SUPSEQ => Fixed(2)
      case CONVEX => Fixed(1)
      case FDIV => Fixed(2)
      case FMOD => Fixed(2)
      case SQRT => Fixed(1)
      case NROOT => Fixed(2)
      case EXP => Fixed(1)
      case LN => Fixed(1)
      case LOG => Fixed(2)
      case SIN => Fixed(1)
      case COS => Fixed(1)
      case TAN => Fixed(1)
      case ASIN => Fixed(1)
      case ACOS => Fixed(1)
      case ATAN => Fixed(1)
      case SINH => Fixed(1)
      case COSH => Fixed(1)
      case TANH => Fixed(1)
      case LONG => Fixed(0)
      case RATIONAL => Fixed(0)
      case DECIMAL => Fixed(0)
      case VAR => Fixed(0)
      case PAR => Fixed(0)
      case SYMBOL => Fixed(0)
    }

    function ArityMin(): int { Declaration().arityMin }

    function ArityMax(): int { Declaration().arityMax }

    /** The final field `lcname`, which both constructors set to `name().toLowerCase()`. */
    function LcName(): string { ToLower(Name()) }

    /**
     * `TypeExpr.valueOf`: the constant whose identifier is exactly `s`, if any.
     * The table is split by first letter into four helpers only to keep each
     * proof about it small; the split carries no meaning of its own.
     */
    static function ValueOf(s: string): (r: Option<TypeExpr>)
      ensures r.Some? ==> r.value.Name() == s
    {
      if s == [] then None
      else if s[0] <= 'D' then ExprNamedAToD(s)
      else if s[0] <= 'M' then ExprNamedEToM(s)
      else if s[0] <= 'R' then ExprNamedNToR(s)
      else ExprNamedSToZ(s)
    }

    /** `postfixExpressionFor`, which reads the constant's fields and whether it is SET. */
    function PostfixExpressionFor(operands: seq<string>): (r: Result<string, EncodingError>)
      ensures r.Success? <==> ArityMin() <= |operands| <= ArityMax() && (this == SET || ArityMin() != 0)
      ensures !(ArityMin() <= |operands| <= ArityMax()) ==> r == Failure(BadNumberOfOperands)
    {
      Postfix(this == SET, Declaration(), LcName(), operands)
    }
  }

  /** The part of `TypeExpr.valueOf` for identifiers from `A` to `D`. */
  function ExprNamedAToD(s: string): (r: Option<TypeExpr>)
    ensures r.Some? ==> r.value.Name() == s
  {
    if s == [] then None else
    match s[0]
    case 'A' => (
      match |s|
      case 3 => (
        match s[1]
        case 'B' => if s == ABS.Name() then Some(ABS) else None
        case 'D' => if s == ADD.Name() then Some(ADD) else None
        case 'N' => if s == AND.Name() then Some(AND) else None
        case _ => None)
      case 4 => (
        match s[1]
        case 'C' => if s == ACOS.Name() then Some(ACOS) else None
        case 'S' => if s == ASIN.Name() then Some(ASIN) else None
        case 'T' => if s == ATAN.Name() then Some(ATAN) else None
        case _ => None)
      case _ => None)
    case 'C' => (
      match |s|
      case 3 => if s == COS.Name() then Some(COS) else None
      case 4 => if s == CARD.Name() then Some(CARD) else if s == COSH.Name() then Some(COSH) else None
      case 6 => if s == CONVEX.Name() then Some(CONVEX) else None
      case _ => None)
    case 'D' => (
      match |s|
      case 3 => if s == DIV.Name() then Some(DIV) else None
      case 4 => if s == DIST.Name() then Some(DIST) else if s == DIFF.Name() then Some(DIFF) else None
      case 6 => if s == DJOINT.Name() then Some(DJOINT) else None
      case 7 => if s == DECIMAL.Name() then Some(DECIMAL) else None
      case _ => None)
    case _ => None
  }

  /** The part of `TypeExpr.valueOf` for identifiers from `E` to `M`. */
  function ExprNamedEToM(s: string): (r: Option<TypeExpr>)
    ensures r.Some? ==> r.value.Name() == s
  {
    if s == [] then None else
    match s[0]
    case 'E' => (
      match |s|
      case 2 => if s == EQ.Name() then Some(EQ) else None
      case 3 => if s == EXP.Name() then Some(EXP) else None
      case _ => None)
    case 'F' => (
      match |s|
      case 4 => if s == FDIV.Name() then Some(FDIV) else if s == FMOD.Name() then Some(FMOD) else None
      case _ => None)
    case 'G' => (
      match |s|
      case 2 => if s == GE.Name() then Some(GE) else if s == GT.Name() then Some(GT) else None
      case _ => None)
    case 'H' => (
      match |s|
      case 4 => if s == HULL.Name() then Some(HULL) else None
      case _ => None)
    case 'I' => (
      match |s|
      case 2 => if s == IN.Name() then Some(IN) else if s == IF.Name() then Some(IF) else None
      case 3 => if s == IFF.Name() then Some(IFF) else if s == IMP.Name() then Some(IMP) else None
      case 5 => if s == INTER.Name() then Some(INTER) else None
      case _ => None)
    case 'L' => (
      match |s|
      case 2 => (
        match s[1]
        case 'E' => if s == LE.Name() then Some(LE) else None
        case 'N' => if s == LN.Name() then Some(LN) else None
        case 'T' => if s == LT.Name() then Some(LT) else None
        case _ => None)
      case 3 => if s == LOG.Name() then Some(LOG) else None
      case 4 => if s == LONG.Name() then Some(LONG) else None
      case _ => None)
    case 'M' => (
      match |s|
      case 3 => (
        match s[1]
        case 'A' => if s == MAX.Name() then Some(MAX) else None
        case 'I' => if s == MIN.Name() then Some(MIN) else None
        case 'O' => if s == MOD.Name() then Some(MOD) else None
        case 'U' => if s == MUL.Name() then Some(MUL) else None
        case _ => None)
      case _ => None)
    case _ => None
  }

  /** The part of `TypeExpr.valueOf` for identifiers from `N` to `R`. */
  function ExprNamedNToR(s: string): (r: Option<TypeExpr>)
    ensures r.Some? ==> r.value.Name() == s
  {
    if s == [] then None else
    match s[0]
    case 'N' => (
      match |s|
      case 2 => if s == NE.Name() then Some(NE) else None
      case 3 => if s == NEG.Name() then Some(NEG) else if s == NOT.Name() then Some(NOT) else None
      case 5 => if s == NROOT.Name() then Some(NROOT) else None
      case _ => None)
    case 'O' => (
      match |s|
      case 2 => if s == OR.Name() then Some(OR) else None
      case _ => None)
    case 'P' => (
      match |s|
      case 3 => if s == POW.Name() then Some(POW) else if s == PAR.Name() then Some(PAR) else None
      case _ => None)
    case 'R' => (
      match |s|
      case 8 => if s == RATIONAL.Name() then Some(RATIONAL) else None
      case _ => None)
    case _ => None
  }

  /** The part of `TypeExpr.valueOf` for identifiers from `S` to `Z`. */
  function ExprNamedSToZ(s: string): (r: Option<TypeExpr>)
    ensures r.Some? ==> r.value.Name() == s
  {
    if s == [] then None else
    match s[0]
    case 'S' => (
      match |s|
      case 3 => (
        match s[1]
        case 'E' => if s == SET.Name() then Some(SET) else None
        case 'I' => if s == SIN.Name() then Some(SIN) else None
        case 'Q' => if s == SQR.Name() then Some(SQR) else None
        case 'U' => if s == SUB.Name() then Some(SUB) else None
        case _ => None)
      case 4 => if s == SQRT.Name() then Some(SQRT) else if s == SINH.Name() then Some(SINH) else None
      case 5 => if s == SDIFF.Name() then Some(SDIFF) else None
      case 6 => (
        match s[2]
        case 'B' => if s == SUBSET.Name() then Some(SUBSET) else if s == SUBSEQ.Name() then Some(SUBSEQ) else None
        case 'M' => if s == SYMBOL.Name() then Some(SYMBOL) else None
        case 'P' => if s == SUPSET.Name() then Some(SUPSET) else if s == SUPSEQ.Name() then Some(SUPSEQ) else None
        case _ => None)
      case _ => None)
    case 'T' => (
      match |s|
      case 3 => if s == TAN.Name() then Some(TAN) else None
      case 4 => if s == TANH.Name() then Some(TANH) else None
      case _ => None)
    case 'U' => (
      match |s|
      case 5 => if s == UNION.Name() then Some(UNION) else None
      case _ => None)
    case 'V' => (
      match |s|
      case 3 => if s == VAR.Name() then Some(VAR) else None
      case _ => None)
    case 'X' => (
      match |s|
      case 3 => if s == XOR.Name() then Some(XOR) else None
      case _ => None)
    case _ => None
  }

  /**
   * The encoding `postfixExpressionFor` performs with the fields of a constant:
   * it checks the operand count against the arity bounds, then emits the
   * operands, the operand count when it is needed, the lower-case name and one
   * space. SET always states the count; any other 0-ary node type is refused.
   */
  function Postfix(isSet: bool, arity: Arity, lcname: string, operands: seq<string>)
    : (r: Result<string, EncodingError>)
    ensures r.Success? <==> arity.arityMin <= |operands| <= arity.arityMax && (isSet || arity.arityMin != 0)
    ensures !(arity.arityMin <= |operands| <= arity.arityMax) ==> r == Failure(BadNumberOfOperands)
  {
    var n := |operands|;
    if !(arity.arityMin <= n && n <= arity.arityMax) then
      Failure(BadNumberOfOperands)
    else if isSet then
      Success((if n > 0 then Join(operands) + " " else "") + DecimalString(n) + lcname + " ")
    else if arity.arityMin == 0 then
      Failure(ZeroAryOperator)
    else
      Success(Join(operands) + " " + (if n == arity.arityMin then "" else DecimalString(n)) + lcname + " ")
  }

  /** The constructor `TypeExpr(int arityMin, int arityMax)`. */
  function Ranged(arityMin: int, arityMax: int): Arity
  {
    Arity(arityMin, arityMax)
  }

  /** The constructor `TypeExpr(int arity)`, which delegates with the same value for both bounds. */
  function Fixed(arity: int): (a: Arity)
    ensures a.arityMin == a.arityMax == arity
  {
    Ranged(arity, arity)
  }

  /*
   * The node types are grouped below by their position in the declaration
   * list. The groups carry no meaning in the source: every lemma about all 61
   * constants is proved group by group (one empty-bodied lemma per group) and
   * put together by a dispatcher, only to keep each proof small.
   */

  /** The basic arithmetic node types. */
  predicate IsArithmetic(k: TypeExpr) {
    match k
    case NEG | ABS | ADD | SUB | MUL | DIV | MOD => true
    case _ => false
  }

  /** The powers, the minimum, the maximum and the distance. */
  predicate IsPowerOrBound(k: TypeExpr) {
    match k
    case SQR | POW | MIN | MAX | DIST => true
    case _ => false
  }

  /** The relational node types. */
  predicate IsRelational(k: TypeExpr) {
    match k
    case LT | LE | GE | GT | NE | EQ => true
    case _ => false
  }

  /** The node types that build or query sets. */
  predicate IsSetOperation(k: TypeExpr) {
    match k
    case SET | IN | CARD | UNION | INTER | DIFF | SDIFF => true
    case _ => false
  }

  /** The logical node types. */
  predicate IsLogical(k: TypeExpr) {
    match k
    case NOT | AND | OR | XOR | IFF | IMP | IF => true
    case _ => false
  }

  /** The set relations and the interval hull. */
  predicate IsSetRelation(k: TypeExpr) {
    match k
    case HULL | DJOINT | SUBSET | SUBSEQ | SUPSET | SUPSEQ | CONVEX => true
    case _ => false
  }

  /** The arithmetic node types over real numbers. */
  predicate IsRealArithmetic(k: TypeExpr) {
    match k
    case FDIV | FMOD | SQRT | NROOT | EXP | LN | LOG => true
    case _ => false
  }

  /** The trigonometric and hyperbolic node types. */
  predicate IsTrigonometric(k: TypeExpr) {
    match k
    case SIN | COS | TAN | ASIN | ACOS | ATAN | SINH | COSH | TANH => true
    case _ => false
  }

  /** The leaf node types. */
  predicate IsLeaf(k: TypeExpr) {
    match k
    case LONG | RATIONAL | DECIMAL | VAR | PAR | SYMBOL => true
    case _ => false
  }

  /** Every declaration satisfies 0 <= arityMin <= arityMax <= Integer.MAX_VALUE. */
  lemma ArityBounds(k: TypeExpr)
    ensures 0 <= k.ArityMin() <= k.ArityMax() <= IntegerMaxValue
  {
    if IsArithmetic(k) {
      ArityBoundsArithmetic(k);
    } else if IsPowerOrBound(k) {
      ArityBoundsPowerOrBound(k);
    } else if IsRelational(k) {
      ArityBoundsRelational(k);
    } else if IsSetOperation(k) {
      ArityBoundsSetOperation(k);
    } else if IsLogical(k) {
      ArityBoundsLogical(k);
    } else if IsSetRelation(k) {
      ArityBoundsSetRelation(k);
    } else if IsRealArithmetic(k) {
      ArityBoundsRealArithmetic(k);
    } else if IsTrigonometric(k) {
      ArityBoundsTrigonometric(k);
    } else {
      ArityBoundsLeaf(k);
    }
  }

  lemma ArityBoundsArithmetic(k: TypeExpr)
    requires IsArithmetic(k)
    ensures 0 <= k.ArityMin() <= k.ArityMax() <= IntegerMaxValue
  {
  }

  lemma ArityBoundsPowerOrBound(k: TypeExpr)
    requires IsPowerOrBound(k)
    ensures 0 <= k.ArityMin() <= k.ArityMax() <= IntegerMaxValue
  {
  }

  lemma ArityBoundsRelational(k: TypeExpr)
    requires IsRelational(k)
    ensures 0 <= k.ArityMin() <= k.ArityMax() <= IntegerMaxValue
  {
  }

  lemma ArityBoundsSetOperation(k: TypeExpr)
    requires IsSetOperation(k)
    ensures 0 <= k.ArityMin() <= k.ArityMax() <= IntegerMaxValue
  {
  }

  lemma ArityBoundsLogical(k: TypeExpr)
    requires IsLogical(k)
    ensures 0 <= k.ArityMin() <= k.ArityMax() <= IntegerMaxValue
  {
  }

  lemma ArityBoundsSetRelation(k: TypeExpr)
    requires IsSetRelation(k)
    ensures 0 <= k.ArityMin() <= k.ArityMax() <= IntegerMaxValue
  {
  }

  lemma ArityBoundsRealArithmetic(k: TypeExpr)
    requires IsRealArithmetic(k)
    ensures 0 <= k.ArityMin() <= k.ArityMax() <= IntegerMaxValue
  {
  }

  lemma ArityBoundsTrigonometric(k: TypeExpr)
    requires IsTrigonometric(k)
    ensures 0 <= k.ArityMin() <= k.ArityMax() <= IntegerMaxValue
  {
  }

  lemma ArityBoundsLeaf(k: TypeExpr)
    requires IsLeaf(k)
    ensures 0 <= k.ArityMin() <= k.ArityMax() <= IntegerMaxValue
  {
  }

  /** The two bounds are either equal (the one-argument constructor) or open up to Integer.MAX_VALUE. */
  lemma FixedOrOpenArity(k: TypeExpr)
    ensures k.ArityMin() == k.ArityMax() <= 3 || k.ArityMax() == IntegerMaxValue
  {
    if IsArithmetic(k) {
      FixedOrOpenArityArithmetic(k);
    } else if IsPowerOrBound(k) {
      FixedOrOpenArityPowerOrBound(k);
    } else if IsRelational(k) {
      FixedOrOpenArityRelational(k);
    } else if IsSetOperation(k) {
      FixedOrOpenAritySetOperation(k);
    } else if IsLogical(k) {
      FixedOrOpenArityLogical(k);
    } else if IsSetRelation(k) {
      FixedOrOpenAritySetRelation(k);
    } else if IsRealArithmetic(k) {
      FixedOrOpenArityRealArithmetic(k);
    } else if IsTrigonometric(k) {
      FixedOrOpenArityTrigonometric(k);
    } else {
      FixedOrOpenArityLeaf(k);
    }
  }

  lemma FixedOrOpenArityArithmetic(k: TypeExpr)
    requires IsArithmetic(k)
    ensures k.ArityMin() == k.ArityMax() <= 3 || k.ArityMax() == IntegerMaxValue
  {
  }

  lemma FixedOrOpenArityPowerOrBound(k: TypeExpr)
    requires IsPowerOrBound(k)
    ensures k.ArityMin() == k.ArityMax() <= 3 || k.ArityMax() == IntegerMaxValue
  {
  }

  lemma FixedOrOpenArityRelational(k: TypeExpr)
    requires IsRelational(k)
    ensures k.ArityMin() == k.ArityMax() <= 3 || k.ArityMax() == IntegerMaxValue
  {
  }

  lemma FixedOrOpenAritySetOperation(k: TypeExpr)
    requires IsSetOperation(k)
    ensures k.ArityMin() == k.ArityMax() <= 3 || k.ArityMax() == IntegerMaxValue
  {
  }

  lemma FixedOrOpenArityLogical(k: TypeExpr)
    requires IsLogical(k)
    ensures k.ArityMin() == k.ArityMax() <= 3 || k.ArityMax() == IntegerMaxValue
  {
  }

  lemma FixedOrOpenAritySetRelation(k: TypeExpr)
    requires IsSetRelation(k)
    ensures k.ArityMin() == k.ArityMax() <= 3 || k.ArityMax() == IntegerMaxValue
  {
  }

  lemma FixedOrOpenArityRealArithmetic(k: TypeExpr)
    requires IsRealArithmetic(k)
    ensures k.ArityMin() == k.ArityMax() <= 3 || k.ArityMax() == IntegerMaxValue
  {
  }

  lemma FixedOrOpenArityTrigonometric(k: TypeExpr)
    requires IsTrigonometric(k)
    ensures k.ArityMin() == k.ArityMax() <= 3 || k.ArityMax() == IntegerMaxValue
  {
  }

  lemma FixedOrOpenArityLeaf(k: TypeExpr)
    requires IsLeaf(k)
    ensures k.ArityMin() == k.ArityMax() <= 3 || k.ArityMax() == IntegerMaxValue
  {
  }

  /** Arity zero belongs to SET, which takes zero or more operands, and to the leaves. */
  lemma ZeroArityKinds(k: TypeExpr)
    ensures k.ArityMin() == 0 <==> k == SET || IsLeaf(k)
  {
    if IsArithmetic(k) {
      ZeroArityKindsArithmetic(k);
    } else if IsPowerOrBound(k) {
      ZeroArityKindsPowerOrBound(k);
    } else if IsRelational(k) {
      ZeroArityKindsRelational(k);
    } else if IsSetOperation(k) {
      ZeroArityKindsSetOperation(k);
    } else if IsLogical(k) {
      ZeroArityKindsLogical(k);
    } else if IsSetRelation(k) {
      ZeroArityKindsSetRelation(k);
    } else if IsRealArithmetic(k) {
      ZeroArityKindsRealArithmetic(k);
    } else if IsTrigonometric(k) {
      ZeroArityKindsTrigonometric(k);
    } else {
      ZeroArityKindsLeaf(k);
    }
  }

  lemma ZeroArityKindsArithmetic(k: TypeExpr)
    requires IsArithmetic(k)
    ensures k.ArityMin() == 0 <==> k == SET || IsLeaf(k)
  {
  }

  lemma ZeroArityKindsPowerOrBound(k: TypeExpr)
    requires IsPowerOrBound(k)
    ensures k.ArityMin() == 0 <==> k == SET || IsLeaf(k)
  {
  }

  lemma ZeroArityKindsRelational(k: TypeExpr)
    requires IsRelational(k)
    ensures k.ArityMin() == 0 <==> k == SET || IsLeaf(k)
  {
  }

  lemma ZeroArityKindsSetOperation(k: TypeExpr)
    requires IsSetOperation(k)
    ensures k.ArityMin() == 0 <==> k == SET || IsLeaf(k)
  {
  }

  lemma ZeroArityKindsLogical(k: TypeExpr)
    requires IsLogical(k)
    ensures k.ArityMin() == 0 <==> k == SET || IsLeaf(k)
  {
  }

  lemma ZeroArityKindsSetRelation(k: TypeExpr)
    requires IsSetRelation(k)
    ensures k.ArityMin() == 0 <==> k == SET || IsLeaf(k)
  {
  }

  lemma ZeroArityKindsRealArithmetic(k: TypeExpr)
    requires IsRealArithmetic(k)
    ensures k.ArityMin() == 0 <==> k == SET || IsLeaf(k)
  {
  }

  lemma ZeroArityKindsTrigonometric(k: TypeExpr)
    requires IsTrigonometric(k)
    ensures k.ArityMin() == 0 <==> k == SET || IsLeaf(k)
  {
  }

  lemma ZeroArityKindsLeaf(k: TypeExpr)
    requires IsLeaf(k)
    ensures k.ArityMin() == 0 <==> k == SET || IsLeaf(k)
  {
  }

  /** A leaf never takes an operand. */
  lemma LeafArity(k: TypeExpr)
    requires IsLeaf(k)
    ensures k.ArityMin() == k.ArityMax() == 0
  {
  }

  /** Apart from SET, every node type with an open arity needs at least two operands. */
  lemma OpenArityKinds(k: TypeExpr)
    requires k.ArityMax() == IntegerMaxValue
    ensures k == SET || k.ArityMin() == 2
  {
  }

  /** Every identifier is a non-empty word of capital letters. */
  lemma NameIsUpperWord(k: TypeExpr)
    ensures k.Name() != [] && IsUpperWord(k.Name())
  {
    if IsArithmetic(k) {
      NameIsUpperWordArithmetic(k);
    } else if IsPowerOrBound(k) {
      NameIsUpperWordPowerOrBound(k);
    } else if IsRelational(k) {
      NameIsUpperWordRelational(k);
    } else if IsSetOperation(k) {
      NameIsUpperWordSetOperation(k);
    } else if IsLogical(k) {
      NameIsUpperWordLogical(k);
    } else if IsSetRelation(k) {
      NameIsUpperWordSetRelation(k);
    } else if IsRealArithmetic(k) {
      NameIsUpperWordRealArithmetic(k);
    } else if IsTrigonometric(k) {
      NameIsUpperWordTrigonometric(k);
    } else {
      NameIsUpperWordLeaf(k);
    }
  }

  lemma NameIsUpperWordArithmetic(k: TypeExpr)
    requires IsArithmetic(k)
    ensures k.Name() != [] && IsUpperWord(k.Name())
  {
  }

  lemma NameIsUpperWordPowerOrBound(k: TypeExpr)
    requires IsPowerOrBound(k)
    ensures k.Name() != [] && IsUpperWord(k.Name())
  {
  }

  lemma NameIsUpperWordRelational(k: TypeExpr)
    requires IsRelational(k)
    ensures k.Name() != [] && IsUpperWord(k.Name())
  {
  }

  lemma NameIsUpperWordSetOperation(k: TypeExpr)
    requires IsSetOperation(k)
    ensures k.Name() != [] && IsUpperWord(k.Name())
  {
  }

  lemma NameIsUpperWordLogical(k: TypeExpr)
    requires IsLogical(k)
    ensures k.Name() != [] && IsUpperWord(k.Name())
  {
  }

  lemma NameIsUpperWordSetRelation(k: TypeExpr)
    requires IsSetRelation(k)
    ensures k.Name() != [] && IsUpperWord(k.Name())
  {
  }

  lemma NameIsUpperWordRealArithmetic(k: TypeExpr)
    requires IsRealArithmetic(k)
    ensures k.Name() != [] && IsUpperWord(k.Name())
  {
  }

  lemma NameIsUpperWordTrigonometric(k: TypeExpr)
    requires IsTrigonometric(k)
    ensures k.Name() != [] && IsUpperWord(k.Name())
  {
  }

  lemma NameIsUpperWordLeaf(k: TypeExpr)
    requires IsLeaf(k)
    ensures k.Name() != [] && IsUpperWord(k.Name())
  {
  }

  /** `lcname` is a non-empty word of lower-case letters, and upper-casing it gives back the identifier. */
  lemma LcNameIsLowerWord(k: TypeExpr)
    ensures k.LcName() != [] && IsLowerWord(k.LcName())
    ensures ToUpper(k.LcName()) == k.Name()
  {
    NameIsUpperWord(k);
    UpperWordRoundTrip(k.Name());
  }

  /** The identifier of every constant resolves to that constant, so no two constants share a name. */
  lemma ValueOfName(k: TypeExpr)
    ensures TypeExpr.ValueOf(k.Name()) == Some(k)
  {
    if IsArithmetic(k) {
      ValueOfNameArithmetic(k);
    } else if IsPowerOrBound(k) {
      ValueOfNamePowerOrBound(k);
    } else if IsRelational(k) {
      ValueOfNameRelational(k);
    } else if IsSetOperation(k) {
      ValueOfNameSetOperation(k);
    } else if IsLogical(k) {
      ValueOfNameLogical(k);
    } else if IsSetRelation(k) {
      ValueOfNameSetRelation(k);
    } else if IsRealArithmetic(k) {
      ValueOfNameRealArithmetic(k);
    } else if IsTrigonometric(k) {
      ValueOfNameTrigonometric(k);
    } else {
      ValueOfNameLeaf(k);
    }
  }

  lemma ValueOfNameArithmetic(k: TypeExpr)
    requires IsArithmetic(k)
    ensures TypeExpr.ValueOf(k.Name()) == Some(k)
  {
  }

  lemma ValueOfNamePowerOrBound(k: TypeExpr)
    requires IsPowerOrBound(k)
    ensures TypeExpr.ValueOf(k.Name()) == Some(k)
  {
  }

  lemma ValueOfNameRelational(k: TypeExpr)
    requires IsRelational(k)
    ensures TypeExpr.ValueOf(k.Name()) == Some(k)
  {
  }

  lemma ValueOfNameSetOperation(k: TypeExpr)
    requires IsSetOperation(k)
    ensures TypeExpr.ValueOf(k.Name()) == Some(k)
  {
  }

  lemma ValueOfNameLogical(k: TypeExpr)
    requires IsLogical(k)
    ensures TypeExpr.ValueOf(k.Name()) == Some(k)
  {
  }

  lemma ValueOfNameSetRelation(k: TypeExpr)
    requires IsSetRelation(k)
    ensures TypeExpr.ValueOf(k.Name()) == Some(k)
  {
  }

  lemma ValueOfNameRealArithmetic(k: TypeExpr)
    requires IsRealArithmetic(k)
    ensures TypeExpr.ValueOf(k.Name()) == Some(k)
  {
  }

  lemma ValueOfNameTrigonometric(k: TypeExpr)
    requires IsTrigonometric(k)
    ensures TypeExpr.ValueOf(k.Name()) == Some(k)
  {
  }

  lemma ValueOfNameLeaf(k: TypeExpr)
    requires IsLeaf(k)
    ensures TypeExpr.ValueOf(k.Name()) == Some(k)
  {
  }

  /**
   * `XEnums.valueOf(TypeExpr.class, s)` finds the constant exactly when `s`
   * upper-cases to its identifier: `add`, `Add` and `ADD` all resolve to ADD.
   */
  lemma ResolveIgnoresCase(k: TypeExpr, s: string)
    ensures XEnums.ValueOf(TypeExpr.ValueOf, s) == Some(k) <==> ToUpper(s) == k.Name()
  {
    ValueOfName(k);
  }

  /** A name that upper-cases to no identifier gives null (`None`) rather than an exception. */
  lemma ResolveUnknown(s: string)
    requires forall k: TypeExpr :: ToUpper(s) != k.Name()
    ensures XEnums.ValueOf(TypeExpr.ValueOf, s) == None
  {
  }

  /** The lower-case name a fragment carries resolves back to its node type. */
  lemma ResolveLcName(k: TypeExpr)
    ensures XEnums.ValueOf(TypeExpr.ValueOf, k.LcName()) == Some(k)
  {
    LcNameIsLowerWord(k);
    ResolveIgnoresCase(k, k.LcName());
  }

  /** SET always states its operand count, even for one operand or two. */
  lemma PostfixSet(operands: seq<string>)
    requires 0 < |operands| <= IntegerMaxValue
    ensures SET.PostfixExpressionFor(operands)
         == Success(Join(operands) + " " + DecimalString(|operands|) + "set ")
  {
    SetLcName();
    var text, count := Join(operands), DecimalString(|operands|);
    assert SET.PostfixExpressionFor(operands) == Success(text + " " + count + SET.LcName() + " ");
    assert text + " " + count + "set" + " " == text + " " + count + "set ";
  }

  /** The empty set is written `0set `. */
  lemma PostfixEmptySet()
    ensures SET.PostfixExpressionFor([]) == Success("0set ")
  {
    SetLcName();
    assert DecimalString(0) == "0";
    assert "" + "0" + "set" + " " == "0set ";
  }

  lemma SetLcName()
    ensures SET.LcName() == "set"
  {
    assert ToLower("SET") == "set";
  }

  /** A leaf cannot be encoded, not even with no operand at all. */
  lemma PostfixLeaf(k: TypeExpr, operands: seq<string>)
    requires IsLeaf(k)
    ensures k.PostfixExpressionFor(operands)
         == Failure(if operands == [] then ZeroAryOperator else BadNumberOfOperands)
  {
    LeafArity(k);
  }

  /** `ADD` with its usual two operands carries no count: `x 3 add `. */
  lemma ExampleAddBinary()
    ensures ADD.PostfixExpressionFor(["x", "3"]) == Success("x 3 add ")
  {
    assert ADD.LcName() == "add" by {
      assert ToLower("ADD") == "add";
    }
    assert Join(["x", "3"]) == "x 3" by {
      assert ["x", "3"][1..] == ["3"];
    }
    assert "x 3" + " " + "" + "add" + " " == "x 3 add ";
  }

  /** `ADD` with three operands states the count before the name: `x y z 3add `. */
  lemma ExampleAddTernary()
    ensures ADD.PostfixExpressionFor(["x", "y", "z"]) == Success("x y z 3add ")
  {
    assert ADD.LcName() == "add" by {
      assert ToLower("ADD") == "add";
    }
    assert Join(["x", "y", "z"]) == "x y z" by {
      assert ["x", "y", "z"][1..] == ["y", "z"];
      assert ["y", "z"][1..] == ["z"];
    }
    assert DecimalString(3) == "3";
    assert "x y z" + " " + "3" + "add" + " " == "x y z 3add ";
  }

  /** `ADD` with a single operand is refused. */
  lemma ExampleAddUnary()
    ensures ADD.PostfixExpressionFor(["x"]) == Failure(BadNumberOfOperands)
  {
  }
}
