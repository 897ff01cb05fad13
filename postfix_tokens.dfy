/**
 * The text of a postfix fragment: its operand part, the operator token in front
 * of the trailing space, and the decimal count an operator token may start with.
 */
module TokenText {
  import opened JavaStrings

  /** The longest suffix of `s` that holds no space. */
  function LastWord(s: string): (w: string)
    ensures |w| <= |s| && w == s[|s| - |w|..]
    ensures ' ' !in w
    ensures |w| < |s| ==> s[|s| - |w| - 1] == ' '
  {
    if s == [] || s[|s| - 1] == ' ' then [] else LastWord(s[..|s| - 1]) + [s[|s| - 1]]
  }

  /** The operator token of a fragment: its last word, in front of the trailing space. */
  function OperatorToken(fragment: string): string
  {
    if fragment == [] then [] else LastWord(fragment[..|fragment| - 1])
  }

  /** The decimal digits a token starts with. */
  function LeadingDigits(t: string): (d: string)
    ensures IsDigits(d) && |d| <= |t| && d == t[..|d|]
    ensures |d| < |t| ==> !IsDigit(t[|d|])
  {
    if t != [] && IsDigit(t[0]) then [t[0]] + LeadingDigits(t[1..]) else []
  }

  /** After a space (or at the start), a word without spaces is the last word. */
  lemma {:induction false} LastWordAfterSpace(p: string, w: string)
    requires ' ' !in w
    requires p == [] || p[|p| - 1] == ' '
    ensures LastWord(p + w) == w
  {
    var s := p + w;
    if w == [] {
      assert s == p;
    } else {
      var w' := w[..|w| - 1];
      assert s[..|s| - 1] == p + w';
      assert s[|s| - 1] == w[|w| - 1];
      assert ' ' !in w' by {
        forall i | 0 <= i < |w'|
          ensures w'[i] != ' '
        {
          assert w'[i] == w[i];
        }
      }
      LastWordAfterSpace(p, w');
      assert LastWord(s) == LastWord(s[..|s| - 1]) + [s[|s| - 1]];
      assert w == w' + [w[|w| - 1]];
    }
  }

  /** The digits in front of a name that starts with a letter are exactly the count. */
  lemma {:induction false} LeadingDigitsOfCount(d: string, name: string)
    requires IsDigits(d)
    requires name != [] && !IsDigit(name[0])
    ensures LeadingDigits(d + name) == d
  {
    if d != [] {
      assert (d + name)[1..] == d[1..] + name;
      LeadingDigitsOfCount(d[1..], name);
      assert d == [d[0]] + d[1..];
    } else {
      assert d + name == name;
    }
  }

  /** The operand part of a fragment: the operands and a space, or nothing for the empty set. */
  function OperandText(operands: seq<string>): string
  {
    if operands == [] then "" else Join(operands) + " "
  }

  /** A count followed by a name made of letters holds no space, and its digits are the count. */
  lemma TokenParts(count: string, lcname: string)
    requires IsDigits(count)
    requires lcname != [] && IsLowerWord(lcname)
    ensures ' ' !in count + lcname
    ensures LeadingDigits(count + lcname) == count
    ensures (count + lcname)[|count|..] == lcname
  {
    var t := count + lcname;
    forall i | 0 <= i < |t|
      ensures t[i] != ' '
    {
      if i >= |count| {
        assert t[i] == lcname[i - |count|];
      }
    }
    LeadingDigitsOfCount(count, lcname);
  }

  /** Read from a fragment's end, a token after the operand part is the operator token. */
  lemma TokenAfterOperands(body: string, t: string)
    requires body == [] || body[|body| - 1] == ' '
    requires t != [] && ' ' !in t
    ensures OperatorToken(body + t + " ") == t
    ensures var r := body + t + " "; |r| >= 2 && r[|r| - 1] == ' ' && r[|r| - 2] != ' '
  {
    var r := body + t + " ";
    assert r[..|r| - 1] == body + t;
    LastWordAfterSpace(body, t);
    assert r[|r| - 2] == t[|t| - 1];
  }

  /** The operand part is empty or ends with the space that separates it from the operator token. */
  lemma OperandTextEnd(operands: seq<string>)
    ensures var body := OperandText(operands); body == [] || body[|body| - 1] == ' '
  {
  }

  /**
   * A fragment made of an operand part, a count, a name made of letters and a
   * space ends with exactly one space, and its operator token is the count
   * followed by the name.
   */
  lemma FragmentText(operands: seq<string>, count: string, name: string)
    requires IsDigits(count)
    requires name != [] && IsLowerWord(name)
    ensures var r := OperandText(operands) + (count + name) + " ";
            && OperatorToken(r) == count + name
            && |r| >= 2 && r[|r| - 1] == ' ' && r[|r| - 2] != ' '
  {
    TokenParts(count, name);
    OperandTextEnd(operands);
    TokenAfterOperands(OperandText(operands), count + name);
  }
}

/**
 * How the operator token of a postfix fragment is read. The encoder's
 * documentation says a stack evaluator reads an optional operand count followed
 * by the operator's name, and falls back to the usual arity when no count is
 * given. Only that reading of the final token is modelled here; the stack and
 * the popping of operands are not. The round-trip lemma shows that the token
 * of every fragment `postfixExpressionFor` builds reads back as the node type
 * and operand count it was built from, with the operands kept verbatim in front
 * of the token.
 */
module PostfixTokens {
  import opened Wrappers
  import opened JavaStrings
  import opened Expressions
  import opened TokenText
  import XEnums

  /**
   * How a stack evaluator reads an operator token: an optional operand count,
   * then the operator's name, resolved with `XEnums.valueOf`; without a count
   * the operator takes its minimal arity.
   */
  function DecodeOperatorToken(t: string): Option<(TypeExpr, int)>
  {
    var d := LeadingDigits(t);
    match XEnums.ValueOf(TypeExpr.ValueOf, t[|d|..])
    case None => None
    case Some(k) => Some((k, if d == [] then k.ArityMin() else DecimalValue(d)))
  }

  /** The count part of the operator token: empty exactly for a node type other than SET used with its minimal arity. */
  function CountPrefix(isSet: bool, arityMin: int, n: nat): string
  {
    if !isSet && n == arityMin then "" else DecimalString(n)
  }

  /** A successful fragment is the operand part, the operator token and a space. */
  lemma FragmentShape(isSet: bool, arity: Arity, lcname: string, operands: seq<string>)
    requires 0 <= arity.arityMin
    requires Postfix(isSet, arity, lcname, operands).Success?
    ensures Postfix(isSet, arity, lcname, operands).value
         == OperandText(operands) + (CountPrefix(isSet, arity.arityMin, |operands|) + lcname) + " "
  {
    var n := |operands|;
    var r := Postfix(isSet, arity, lcname, operands).value;
    var body, count := OperandText(operands), CountPrefix(isSet, arity.arityMin, n);
    if isSet {
      assert (if n > 0 then Join(operands) + " " else "") == body;
      assert r == body + count + lcname + " ";
    } else {
      assert operands != [];
      assert r == body + count + lcname + " ";
    }
    assert body + count + lcname + " " == body + (count + lcname) + " ";
  }

  /**
   * The operator token of a successful fragment is its count part followed by
   * the lower-case name, and the fragment is the operand part, that token and
   * one space.
   */
  lemma FragmentToken(isSet: bool, arity: Arity, lcname: string, operands: seq<string>)
    requires 0 <= arity.arityMin
    requires lcname != [] && IsLowerWord(lcname)
    requires Postfix(isSet, arity, lcname, operands).Success?
    ensures var r := Postfix(isSet, arity, lcname, operands).value;
            var t := OperatorToken(r);
            && t == CountPrefix(isSet, arity.arityMin, |operands|) + lcname
            && r == OperandText(operands) + t + " "
            && ' ' !in t && LeadingDigits(t) == CountPrefix(isSet, arity.arityMin, |operands|)
            && |r| >= 2 && r[|r| - 1] == ' ' && r[|r| - 2] != ' '
  {
    var count := CountPrefix(isSet, arity.arityMin, |operands|);
    FragmentShape(isSet, arity, lcname, operands);
    FragmentText(operands, count, lcname);
    TokenParts(count, lcname);
  }

  /** Without a count, the lower-case name of a node type is read back as that node type with its minimal arity. */
  lemma DecodeName(k: TypeExpr)
    ensures LeadingDigits(k.LcName()) == []
    ensures DecodeOperatorToken(k.LcName()) == Some((k, k.ArityMin()))
  {
    LcNameIsLowerWord(k);
    TokenParts([], k.LcName());
    assert [] + k.LcName() == k.LcName();
    ResolveLcName(k);
  }

  /** A count followed by the lower-case name of a node type is read back as that node type and that count. */
  lemma DecodeCountAndName(k: TypeExpr, n: nat)
    ensures LeadingDigits(DecimalString(n) + k.LcName()) == DecimalString(n)
    ensures DecodeOperatorToken(DecimalString(n) + k.LcName()) == Some((k, n))
  {
    LcNameIsLowerWord(k);
    TokenParts(DecimalString(n), k.LcName());
    ResolveLcName(k);
    DecimalRoundTrip(n);
  }

  /**
   * Every fragment `postfixExpressionFor` builds ends with exactly one space and
   * keeps its operands verbatim in front of the operator token. That token is
   * the count part followed by the lower-case name, and the count is stated
   * exactly when it is not the minimal arity of a node type other than SET.
   * Read back, the token gives the node type and the number of operands the
   * fragment was built from.
   */
  lemma PostfixRoundTrip(k: TypeExpr, operands: seq<string>)
    requires k.PostfixExpressionFor(operands).Success?
    ensures var r := k.PostfixExpressionFor(operands).value;
            var t := OperatorToken(r);
            && t == CountPrefix(k == SET, k.ArityMin(), |operands|) + k.LcName()
            && r == OperandText(operands) + t + " "
            && t != [] && ' ' !in t
            && |r| >= 2 && r[|r| - 1] == ' ' && r[|r| - 2] != ' '
            && (LeadingDigits(t) == [] <==> k != SET && |operands| == k.ArityMin())
            && DecodeOperatorToken(t) == Some((k, |operands|))
  {
    var n := |operands|;
    ArityBounds(k);
    LcNameIsLowerWord(k);
    FragmentToken(k == SET, k.Declaration(), k.LcName(), operands);
    if k != SET && n == k.ArityMin() {
      DecodeName(k);
    } else {
      DecodeCountAndName(k, n);
    }
  }
}
