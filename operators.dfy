/**
 * The comparison operators of XCSP3 conditions (`XEnums.TypeConditionOperator`):
 * six relational operators that compare two integers and two set operators that
 * test membership in an interval. Their meaning is given independently of the
 * conditional chains of `isValidFor`, by the outcome of a three-way comparison
 * and the outcomes each relational operator accepts.
 */
module ConditionOperators {

  /** The outcome of comparing two integers. */
  datatype Order = Less | Same | Greater

  function Compare(v1: int, v2: int): (o: Order)
    ensures o == Less <==> v1 < v2
    ensures o == Same <==> v1 == v2
    ensures o == Greater <==> v1 > v2
  {
    if v1 < v2 then Less else if v1 == v2 then Same else Greater
  }

  /** The outcome seen when the two operands change places. */
  function Opposite(o: Order): Order
  {
    match o
    case Less => Greater
    case Same => Same
    case Greater => Less
  }

  lemma CompareSwapped(v1: int, v2: int)
    ensures Compare(v2, v1) == Opposite(Compare(v1, v2))
  {
  }

  datatype TypeConditionOperator = LT | LE | GE | GT | NE | EQ | IN | NOTIN
  {
    function Name(): string
    {
      match this
      case LT => "LT"
      case LE => "LE"
      case GE => "GE"
      case GT => "GT"
      case NE => "NE"
      case EQ => "EQ"
      case IN => "IN"
      case NOTIN => "NOTIN"
    }

    /** `isSet`: the operator tests membership in an interval rather than comparing two values. */
    predicate IsSet() { this == IN || this == NOTIN }

    /** The comparison outcomes a relational operator accepts. */
    function Accepted(): set<Order>
      requires !IsSet()
    {
      match this
      case LT => {Less}
      case LE => {Less, Same}
      case GE => {Same, Greater}
      case GT => {Greater}
      case NE => {Less, Greater}
      case EQ => {Same}
    }

    /**
     * `isValidFor(int v1, int v2)`: whether `v1 op v2` holds. The Java method
     * asserts that the operator is relational.
     */
    function IsValidFor(v1: int, v2: int): (b: bool)
      requires !IsSet()
      ensures b <==> Compare(v1, v2) in Accepted()
    {
      if this == LT then v1 < v2
      else if this == LE then v1 <= v2
      else if this == GE then v1 >= v2
      else if this == GT then v1 > v2
      else if this == NE then v1 != v2
      else v1 == v2
    }

    /**
     * `isValidFor(int v, int min, int max)`: membership (IN) or non-membership
     * (NOTIN) of `v` in the interval `min..max`, that is `v GE min` and
     * `v LE max`. The Java method asserts that the operator is a set operator.
     */
    function IsValidForInterval(v: int, min: int, max: int): (b: bool)
      requires IsSet()
      ensures b <==> (this == IN <==> GE.IsValidFor(v, min) && LE.IsValidFor(v, max))
    {
      if this == IN then min <= v && v <= max else v < min || v > max
    }
  }

  /** NOTIN holds exactly where IN does not. */
  lemma InNotInComplementary(v: int, min: int, max: int)
    ensures NOTIN.IsValidForInterval(v, min, max) == !IN.IsValidForInterval(v, min, max)
  {
  }

  /** An interval whose bounds are crossed is empty: nothing is IN and everything is NOTIN. */
  lemma EmptyInterval(v: int, min: int, max: int)
    requires max < min
    ensures !IN.IsValidForInterval(v, min, max)
    ensures NOTIN.IsValidForInterval(v, min, max)
  {
  }

  /** The relational operators come in complementary pairs: LT and GE, LE and GT, NE and EQ. */
  lemma RelationalComplements(v1: int, v2: int)
    ensures LT.IsValidFor(v1, v2) == !GE.IsValidFor(v1, v2)
    ensures LE.IsValidFor(v1, v2) == !GT.IsValidFor(v1, v2)
    ensures NE.IsValidFor(v1, v2) == !EQ.IsValidFor(v1, v2)
  {
  }

  /** No two relational operators hold for the same pairs of values. */
  lemma RelationalDistinct(op1: TypeConditionOperator, op2: TypeConditionOperator)
    requires !op1.IsSet() && !op2.IsSet()
    requires op1.IsValidFor(0, 1) == op2.IsValidFor(0, 1)
    requires op1.IsValidFor(0, 0) == op2.IsValidFor(0, 0)
    requires op1.IsValidFor(1, 0) == op2.IsValidFor(1, 0)
    ensures op1 == op2
  {
  }
}

/**
 * The relational operators of conditions (`XEnums.TypeConditionOperatorRel`)
 * and `reverseForSwap`, which gives the operator to use once the two operands
 * of a condition have been exchanged.
 */
module RelationalOperators {
  import ConditionOperators

  datatype TypeConditionOperatorRel = LT | LE | GE | GT | NE | EQ
  {
    function Name(): string
    {
      match this
      case LT => "LT"
      case LE => "LE"
      case GE => "GE"
      case GT => "GT"
      case NE => "NE"
      case EQ => "EQ"
    }

    /** The condition operator of the same name. */
    function ToCondition(): (c: ConditionOperators.TypeConditionOperator)
      ensures !c.IsSet() && c.Name() == Name()
    {
      match this
      case LT => ConditionOperators.TypeConditionOperator.LT
      case LE => ConditionOperators.TypeConditionOperator.LE
      case GE => ConditionOperators.TypeConditionOperator.GE
      case GT => ConditionOperators.TypeConditionOperator.GT
      case NE => ConditionOperators.TypeConditionOperator.NE
      case EQ => ConditionOperators.TypeConditionOperator.EQ
    }

    /**
     * `reverseForSwap`: `v2 r v1` holds exactly when `v1 this v2` does, for all
     * values, so a condition keeps its meaning when its operands change places.
     */
    function ReverseForSwap(): (r: TypeConditionOperatorRel)
      ensures forall v1: int, v2: int :: r.ToCondition().IsValidFor(v2, v1) == ToCondition().IsValidFor(v1, v2)
    {
      if this == LT then GT
      else if this == LE then GE
      else if this == GE then LE
      else if this == GT then LT
      else this
    }
  }

  /** Every relational condition operator is the counterpart of a relational operator. */
  lemma ConditionCounterpart(c: ConditionOperators.TypeConditionOperator)
    ensures !c.IsSet() <==> exists op: TypeConditionOperatorRel :: op.ToCondition() == c
  {
    if !c.IsSet() {
      var op: TypeConditionOperatorRel := match c
        case LT => LT
        case LE => LE
        case GE => GE
        case GT => GT
        case NE => NE
        case _ => EQ;
      assert op.ToCondition() == c;
    }
  }

  /** Two relational operators that hold for the same pairs of values are the same operator. */
  lemma RelSameMeaning(op1: TypeConditionOperatorRel, op2: TypeConditionOperatorRel)
    requires forall v1: int, v2: int :: op1.ToCondition().IsValidFor(v1, v2) == op2.ToCondition().IsValidFor(v1, v2)
    ensures op1 == op2
  {
    var c1, c2 := op1.ToCondition(), op2.ToCondition();
    assert c1.IsValidFor(0, 1) == c2.IsValidFor(0, 1);
    assert c1.IsValidFor(0, 0) == c2.IsValidFor(0, 0);
    assert c1.IsValidFor(1, 0) == c2.IsValidFor(1, 0);
    ConditionOperators.RelationalDistinct(c1, c2);
  }

  /** The swap property determines `reverseForSwap`: no other operator has it. */
  lemma ReverseForSwapUnique(op: TypeConditionOperatorRel, other: TypeConditionOperatorRel)
    requires forall v1: int, v2: int :: other.ToCondition().IsValidFor(v2, v1) == op.ToCondition().IsValidFor(v1, v2)
    ensures other == op.ReverseForSwap()
  {
    var r := op.ReverseForSwap();
    forall v1: int, v2: int
      ensures other.ToCondition().IsValidFor(v1, v2) == r.ToCondition().IsValidFor(v1, v2)
    {
      assert other.ToCondition().IsValidFor(v1, v2) == op.ToCondition().IsValidFor(v2, v1);
    }
    RelSameMeaning(other, r);
  }

  /** Swapping twice gives back the original operator. */
  lemma ReverseForSwapInvolution(op: TypeConditionOperatorRel)
    ensures op.ReverseForSwap().ReverseForSwap() == op
  {
    var r := op.ReverseForSwap();
    forall v1: int, v2: int
      ensures op.ToCondition().IsValidFor(v2, v1) == r.ToCondition().IsValidFor(v1, v2)
    {
      assert r.ToCondition().IsValidFor(v1, v2) == op.ToCondition().IsValidFor(v2, v1);
    }
    ReverseForSwapUnique(r, op);
  }

  /** NE and EQ are symmetric and stay as they are; LT and GT, LE and GE are exchanged. */
  lemma ReverseForSwapPairs(op: TypeConditionOperatorRel)
    ensures op.ReverseForSwap() == op <==> op == NE || op == EQ
    ensures op == LT <==> op.ReverseForSwap() == GT
    ensures op == LE <==> op.ReverseForSwap() == GE
  {
  }
}

/**
 * The operators of `<operator>` elements (`XEnums.TypeOperator`): the four
 * order comparisons shared with conditions and four set inclusions, read from
 * the text of the element with `valOf`.
 */
module Operators {
  import opened Wrappers
  import opened JavaStrings
  import ConditionOperators

  datatype TypeOperator = LT | LE | GE | GT | SUBSET | SUBSEQ | SUPSEQ | SUPSET
  {
    function Name(): string
    {
      match this
      case LT => "LT"
      case LE => "LE"
      case GE => "GE"
      case GT => "GT"
      case SUBSET => "SUBSET"
      case SUBSEQ => "SUBSEQ"
      case SUPSEQ => "SUPSEQ"
      case SUPSET => "SUPSET"
    }

    /** `TypeOperator.valueOf`: the constant whose identifier is exactly `s`; `None` stands for the exception. */
    static function ValueOf(s: string): (r: Option<TypeOperator>)
      ensures r.Some? ==> r.value.Name() == s
    {
      if s == LT.Name() then Some(LT)
      else if s == LE.Name() then Some(LE)
      else if s == GE.Name() then Some(GE)
      else if s == GT.Name() then Some(GT)
      else if s == SUBSET.Name() then Some(SUBSET)
      else if s == SUBSEQ.Name() then Some(SUBSEQ)
      else if s == SUPSEQ.Name() then Some(SUPSEQ)
      else if s == SUPSET.Name() then Some(SUPSET)
      else None
    }

    /**
     * `valOf`: the text is trimmed and upper-cased before the lookup; `None`
     * stands for the exception `valueOf` throws on any other text.
     */
    static function ValOf(s: string): (r: Option<TypeOperator>)
      ensures r.Some? ==> r.value.Name() == ToUpper(Trim(s))
    {
      ValueOf(ToUpper(Trim(s)))
    }

    /** `isSet`: the operator compares two sets rather than two integers. */
    predicate IsSet() { this == SUBSET || this == SUBSEQ || this == SUPSEQ || this == SUPSET }

    /** The condition operator of the same name, for the four order comparisons. */
    function ToCondition(): (c: ConditionOperators.TypeConditionOperator)
      requires !IsSet()
      ensures !c.IsSet() && c.Name() == Name()
    {
      match this
      case LT => ConditionOperators.TypeConditionOperator.LT
      case LE => ConditionOperators.TypeConditionOperator.LE
      case GE => ConditionOperators.TypeConditionOperator.GE
      case GT => ConditionOperators.TypeConditionOperator.GT
    }

    /**
     * `isValidFor(int v1, int v2)`: whether `v1 op v2` holds, exactly as the
     * condition operator of the same name decides it. The Java method asserts
     * that the operator is not a set operator.
     */
    function IsValidFor(v1: int, v2: int): (b: bool)
      requires !IsSet()
      ensures b == ToCondition().IsValidFor(v1, v2)
    {
      if this == LT then v1 < v2
      else if this == LE then v1 <= v2
      else if this == GE then v1 >= v2
      else v1 > v2
    }
  }

  /** The identifier of every operator resolves to that operator. */
  lemma OperatorValueOfName(op: TypeOperator)
    ensures TypeOperator.ValueOf(op.Name()) == Some(op)
  {
  }

  /**
   * `valOf` finds an operator exactly when the trimmed text upper-cases to its
   * identifier.
   */
  lemma ValOfExactly(op: TypeOperator, s: string)
    ensures TypeOperator.ValOf(s) == Some(op) <==> ToUpper(Trim(s)) == op.Name()
  {
    OperatorValueOfName(op);
  }

  /** Whatever blanks surround it and however it is capitalised, an operator's name is read back as that operator: ` subset ` gives SUBSET. */
  lemma ValOfPadded(op: TypeOperator, p: string, w: string, q: string)
    requires IsBlank(p) && IsBlank(q)
    requires ToUpper(w) == op.Name()
    ensures TypeOperator.ValOf(p + w + q) == Some(op)
  {
    assert op.Name() != [] && IsUpperWord(op.Name());
    assert w[0] > ' ' by {
      assert UpperChar(w[0]) == op.Name()[0];
    }
    assert w[|w| - 1] > ' ' by {
      assert UpperChar(w[|w| - 1]) == op.Name()[|w| - 1];
    }
    TrimPadded(p, w, q);
    ValOfExactly(op, p + w + q);
  }

  /** The set operators are exactly those that have no relational condition operator of the same name. */
  lemma OperatorSetKinds(op: TypeOperator)
    ensures !op.IsSet() <==> exists c: ConditionOperators.TypeConditionOperator :: !c.IsSet() && c.Name() == op.Name()
  {
    if !op.IsSet() {
      var c := op.ToCondition();
      assert !c.IsSet() && c.Name() == op.Name();
    } else {
      forall c: ConditionOperators.TypeConditionOperator | !c.IsSet()
        ensures c.Name() != op.Name()
      {
        assert |c.Name()| == 2;
      }
    }
  }
}
