# XEnums of XCSP3-Java-Tools, in Dafny

This project models `org.xcsp.common.XEnums`, the enumerations that XCSP3-Java-Tools uses for the vocabulary of XCSP3 files, and proves properties about them:

- **`TypeExpr`**: the 61 node types of intensional expressions. Each constant carries its arity bounds and lower-case name. `postfixExpressionFor` turns a node and its already-encoded operands into a fragment of a postfix token stream. This is the heart of the model (modules `Expressions` and `PostfixTokens`).
  - Every declaration satisfies `0 <= arityMin <= arityMax <= Integer.MAX_VALUE`.
  - The encoder succeeds exactly for operand counts inside the bounds, and for no 0-ary node type except `SET`.
  - Every fragment it builds ends with exactly one space and keeps its operands verbatim.
  - The operator token of every fragment reads back as the node type and operand count the fragment was built from. The token reader (`PostfixTokens.DecodeOperatorToken`) is a reference definition written here from the encoder's documentation. It is not code from the repository. It reads only the final token; no stack evaluator is modelled.
- **`XEnums.valueOf`**: the case-insensitive lookup that answers null rather than throwing (module `XEnums`).
  - Applied to `TypeExpr`, it finds a constant exactly when the name upper-cases to its identifier.
  - Applied to `TypeCtr`, it can never find anything, because every constraint kind is spelt with a lower-case first letter.
  - Applied to `TypeAtt`, it can only ever find the three attributes declared in capitals.
- **`TypeCtr`** and **`TypeAtt`**: the constraint kinds and the attributes, in source order (module `Constraints`).
  - For `TypeCtr`: the meta-constraint predicates `isSliding`, `isLogical`, `isControl` and `isMeta`.
  - For `TypeAtt`: `isReifying` and `valOf`, which handles the keyword spellings `class`, `for` and `case`.
- **The condition operators** (modules `ConditionOperators`, `RelationalOperators`, `Operators`):
  - `isValidFor` on two values and on an interval. Its meaning is tied to an independent definition by the outcome of a three-way comparison.
  - `reverseForSwap`, proved to be the unique operator that keeps a condition's meaning when its operands change places, and to be an involution.
  - `TypeOperator.valOf`, which trims and upper-cases the text.
- **Classes** (module `Classes`):
  - `classesFor` maps names to the standard class of that name, or else to a new special class.
  - `disjoint` is an imperative method over two nullable arrays, proved equal to "no name is shared".

The Java `String` operations the enumerations rely on (`toUpperCase`, `toLowerCase`, `trim`, and decimal rendering of an `int`) are defined on ASCII in module `JavaStrings`. `XUtility.join` is not among the modelled files. `Join` stands in for it and is assumed to separate the operands' text with single spaces.

Modelling notes for `postfixExpressionFor`:

- `XUtility.control` is not among the modelled files. It is assumed to abort the encoding when its condition is false. An encoding error is therefore `BadNumberOfOperands` or `ZeroAryOperator`, according to which of the two checks failed.
- A 0-ary node type other than `SET` is refused with `ZeroAryOperator`.
- The open maximal arity is `Integer.MAX_VALUE`.

## Model

| member | source | states |
|---|---|---|
| XEnums.ValueOf | src/main/java/org/xcsp/common/XEnums.java:23-29 | Upper-cases the name, then looks it up in the enumeration's table of identifiers. `None` stands for null. |
| Expressions.TypeExpr.Name | src/main/java/org/xcsp/common/XEnums.java:330-391 | The identifier of each of the 61 node types, in declaration order. |
| Expressions.TypeExpr.Declaration | src/main/java/org/xcsp/common/XEnums.java:330-391 | The arguments each constant is declared with: one arity for the one-argument constructor, or a minimal and maximal arity. |
| Expressions.TypeExpr.ArityMin | src/main/java/org/xcsp/common/XEnums.java:396-402 | The final field `arityMin` set by the constructor. |
| Expressions.TypeExpr.ArityMax | src/main/java/org/xcsp/common/XEnums.java:396-402 | The final field `arityMax` set by the constructor. |
| Expressions.TypeExpr.LcName | src/main/java/org/xcsp/common/XEnums.java:393-404 | The final field `lcname`, the identifier in lower case. |
| Expressions.Ranged | src/main/java/org/xcsp/common/XEnums.java:399-404 | The two-argument constructor keeps both bounds as given. |
| Expressions.TypeExpr.PostfixExpressionFor | src/main/java/org/xcsp/common/XEnums.java:416-422 | Succeeds iff `arityMin <= n <= arityMax` and the node is SET or `arityMin != 0`. Out of bounds, the error is the operand-count failure, which is checked first. |
| Expressions.Postfix | src/main/java/org/xcsp/common/XEnums.java:416-422 | The same success condition and error precedence, stated over the constant's fields `arityMin`, `arityMax`, `lcname` and whether it is SET. |
| Expressions.TypeExpr.ValueOf | src/main/java/org/xcsp/common/XEnums.java:330-391 | Enum `valueOf`: a constant it returns has exactly the given identifier. |
| Expressions.Fixed | src/main/java/org/xcsp/common/XEnums.java:406-409 | The one-argument constructor gives equal minimal and maximal arity. |
| Expressions.ArityBounds | src/main/java/org/xcsp/common/XEnums.java:330-391 | Every constant has `0 <= arityMin <= arityMax <= Integer.MAX_VALUE`. |
| Expressions.FixedOrOpenArity | src/main/java/org/xcsp/common/XEnums.java:330-391 | Bounds are either equal (at most 3) or open up to `Integer.MAX_VALUE`. |
| Expressions.ZeroArityKinds | src/main/java/org/xcsp/common/XEnums.java:330-391 | `arityMin == 0` iff the node is SET or a leaf (LONG, RATIONAL, DECIMAL, VAR, PAR, SYMBOL). |
| Expressions.LeafArity | src/main/java/org/xcsp/common/XEnums.java:386-391 | A leaf has arity exactly 0. |
| Expressions.OpenArityKinds | src/main/java/org/xcsp/common/XEnums.java:330-391 | Apart from SET, every open-arity node needs at least two operands. |
| Expressions.NameIsUpperWord | src/main/java/org/xcsp/common/XEnums.java:330-391 | Every identifier is a non-empty word of capital letters. |
| Expressions.LcNameIsLowerWord | src/main/java/org/xcsp/common/XEnums.java:393-404 | `lcname` is a non-empty lower-case word that upper-cases back to the identifier. |
| Expressions.ValueOfName | src/main/java/org/xcsp/common/XEnums.java:330-391 | Each identifier resolves to its own constant, so no two constants share one. |
| Expressions.ResolveIgnoresCase | src/main/java/org/xcsp/common/XEnums.java:23-29 | `XEnums.valueOf(TypeExpr, s)` gives `k` iff `s` upper-cases to `k`'s identifier. |
| Expressions.ResolveUnknown | src/main/java/org/xcsp/common/XEnums.java:23-29 | A name that upper-cases to no identifier gives null, not an exception. |
| Expressions.ResolveLcName | src/main/java/org/xcsp/common/XEnums.java:400-404 | The `lcname` a fragment carries resolves back to its node type. |
| Expressions.PostfixSet | src/main/java/org/xcsp/common/XEnums.java:418-419 | SET with `n > 0` operands gives the joined operands, a space, `n`, `set` and a space. The count is always stated. |
| Expressions.PostfixEmptySet | src/main/java/org/xcsp/common/XEnums.java:418-419 | The empty set is `0set `. |
| Expressions.PostfixLeaf | src/main/java/org/xcsp/common/XEnums.java:417-420 | A leaf is refused: with no operand because it is 0-ary, and otherwise for its operand count. |
| Expressions.ExampleAddBinary | src/main/java/org/xcsp/common/XEnums.java:421 | `ADD` of `x`, `3` is `x 3 add `. |
| Expressions.ExampleAddTernary | src/main/java/org/xcsp/common/XEnums.java:421 | `ADD` of `x`, `y`, `z` is `x y z 3add `. |
| Expressions.ExampleAddUnary | src/main/java/org/xcsp/common/XEnums.java:417 | `ADD` of one operand fails with the operand-count error. |
| PostfixTokens.DecodeOperatorToken | src/main/java/org/xcsp/common/XEnums.java:411-415 | Reference reader of an operator token: the leading decimal digits as the count, the rest resolved with `XEnums.valueOf`. Without digits the count is the minimal arity. |
| PostfixTokens.CountPrefix | src/main/java/org/xcsp/common/XEnums.java:419-421 | The count part of the token: empty for a node type other than SET used with its minimal arity, and the decimal count otherwise. |
| PostfixTokens.FragmentShape | src/main/java/org/xcsp/common/XEnums.java:416-422 | A successful fragment is the operand part, then the optional count and `lcname`, then one space. |
| PostfixTokens.FragmentToken | src/main/java/org/xcsp/common/XEnums.java:416-422 | The last token of a fragment is the count part followed by `lcname`, has no space, and its leading digits are exactly the count part. |
| PostfixTokens.DecodeName | src/main/java/org/xcsp/common/XEnums.java:411-415 | A bare `lcname` has no leading digits and is read as its node type with minimal arity. |
| PostfixTokens.DecodeCountAndName | src/main/java/org/xcsp/common/XEnums.java:411-415 | A decimal count followed by `lcname` is read as that node type and that count. |
| PostfixTokens.PostfixRoundTrip | src/main/java/org/xcsp/common/XEnums.java:411-422 | Every fragment ends with exactly one space and keeps its operands verbatim before the operator token. The count is present iff the node is SET or the arity is not minimal. The token reads back as (node type, operand count). |
| TokenText.FragmentText | src/main/java/org/xcsp/common/XEnums.java:412-414 | Operand part plus count, name and space ends in exactly one space, and its last token is the count followed by the name. |
| JavaStrings.ToUpper | src/main/java/org/xcsp/common/XEnums.java:25 | `toUpperCase` on ASCII: same length, each lower-case letter replaced by its capital. |
| JavaStrings.ToLower | src/main/java/org/xcsp/common/XEnums.java:403 | `toLowerCase` on ASCII: same length, each capital replaced by its lower-case letter. |
| JavaStrings.Trim | src/main/java/org/xcsp/common/XEnums.java:305 | `trim`: the result is no longer than the input and neither starts nor ends with a character at or below the space. |
| JavaStrings.DecimalString | src/main/java/org/xcsp/common/XEnums.java:419 | The decimal text of an operand count: non-empty digits with no leading zero. |
| JavaStrings.Join | src/main/java/org/xcsp/common/XEnums.java:419 | Stands in for `XUtility.join`: the operands' text in order, separated by single spaces. |
| JavaStrings.UpperWordRoundTrip | src/main/java/org/xcsp/common/XEnums.java:403 | Lower-casing an upper-case identifier gives a lower-case word that upper-cases back to it. |
| JavaStrings.TrimPadded | src/main/java/org/xcsp/common/XEnums.java:305 | `trim` removes exactly the blanks around a word and keeps the word intact. |
| JavaStrings.DecimalRoundTrip | src/main/java/org/xcsp/common/XEnums.java:421 | The decimal text of an operand count reads back as that count. |
| XEnums.ValueOfIgnoresCase | src/main/java/org/xcsp/common/XEnums.java:23-29 | Names that upper-case alike resolve alike. |
| Constraints.TypeCtr.Name | src/main/java/org/xcsp/common/XEnums.java:56-111 | The identifier of each of the 55 constraint kinds, in declaration order. |
| Constraints.TypeCtr.IsSliding | src/main/java/org/xcsp/common/XEnums.java:113-116 | Holds for `slide` and `seqbin`. |
| Constraints.TypeCtr.IsControl | src/main/java/org/xcsp/common/XEnums.java:118-121 | Holds for `ifThen` and `ifThenElse`. |
| Constraints.TypeCtr.IsLogical | src/main/java/org/xcsp/common/XEnums.java:123-126 | Holds for `and`, `or`, `not` and `iff`. |
| Constraints.TypeCtr.IsMeta | src/main/java/org/xcsp/common/XEnums.java:128-131 | Holds when the kind is sliding, logical or control. |
| Constraints.TypeCtr.ValueOf | src/main/java/org/xcsp/common/XEnums.java:56-111 | Enum `valueOf`: a constant it returns has exactly the given identifier. |
| Constraints.CtrValueOfName | src/main/java/org/xcsp/common/XEnums.java:56-111 | Each constraint identifier resolves to its own constant. |
| Constraints.CtrNameStartsLowerCase | src/main/java/org/xcsp/common/XEnums.java:52-111 | Every constraint kind is spelt with a lower-case first letter. |
| Constraints.CtrNeverResolves | src/main/java/org/xcsp/common/XEnums.java:23-29 | `XEnums.valueOf(TypeCtr, s)` is null for every `s`. |
| Constraints.MetaFamiliesDisjoint | src/main/java/org/xcsp/common/XEnums.java:113-131 | `isMeta` iff exactly one of `isSliding`, `isLogical`, `isControl` holds, and no two hold at once. |
| Constraints.MetaName | src/main/java/org/xcsp/common/XEnums.java:113-131 | A meta-constraint is named one of the eight meta names. |
| Constraints.MetaNameResolves | src/main/java/org/xcsp/common/XEnums.java:113-131 | Each of the eight meta names resolves to a meta-constraint. |
| Constraints.MetaNames | src/main/java/org/xcsp/common/XEnums.java:113-131 | `valueOf(s)` is a meta-constraint iff `s` is one of the eight meta names. |
| Constraints.TypeAtt.Name | src/main/java/org/xcsp/common/XEnums.java:188-218 | The identifier of each of the 30 attributes, in declaration order (`CLASS`, `FOR` and `CASE` in capitals). |
| Constraints.TypeAtt.XmlName | src/main/java/org/xcsp/common/XEnums.java:227-230 | The spelling in XCSP3 files: `class`, `for` and `case` for the three keywords, the identifier for the others. |
| Constraints.TypeAtt.IsReifying | src/main/java/org/xcsp/common/XEnums.java:222-225 | Holds for `reifiedBy`, `hreifiedFrom` and `hreifiedTo`. |
| Constraints.TypeAtt.ValueOf | src/main/java/org/xcsp/common/XEnums.java:188-218 | Enum `valueOf`: an attribute it returns has exactly the given identifier. |
| Constraints.AttValueOfName | src/main/java/org/xcsp/common/XEnums.java:188-218 | Each attribute identifier resolves to its own constant. |
| Constraints.AttNameStartsLowerCase | src/main/java/org/xcsp/common/XEnums.java:184-218 | Apart from CLASS, FOR and CASE, every attribute is spelt with a lower-case first letter. |
| Constraints.TypeAtt.ValOf | src/main/java/org/xcsp/common/XEnums.java:227-230 | An attribute it returns is spelt as in XCSP3 files or as its identifier. |
| Constraints.ValOfSpellings | src/main/java/org/xcsp/common/XEnums.java:227-230 | `valOf(s)` gives `a` iff `s` is `a`'s file spelling or its identifier. `class` and `CLASS` both give CLASS; every other string is refused. |
| Constraints.ReifyingNames | src/main/java/org/xcsp/common/XEnums.java:222-225 | `valOf(s)` is reifying iff `s` is `reifiedBy`, `hreifiedFrom` or `hreifiedTo`. |
| Constraints.AttResolvesOnlyKeywords | src/main/java/org/xcsp/common/XEnums.java:23-29 | `XEnums.valueOf(TypeAtt, s)` can only find CLASS, FOR or CASE. |
| ConditionOperators.TypeConditionOperator.Name | src/main/java/org/xcsp/common/XEnums.java:247-255 | The identifiers LT, LE, GE, GT, NE, EQ, IN and NOTIN. |
| ConditionOperators.TypeConditionOperator.IsSet | src/main/java/org/xcsp/common/XEnums.java:257-260 | Holds for IN and NOTIN. |
| ConditionOperators.TypeConditionOperator.IsValidFor | src/main/java/org/xcsp/common/XEnums.java:262-265 | `v1 op v2` holds iff the outcome of comparing `v1` with `v2` is one the operator accepts. |
| ConditionOperators.TypeConditionOperator.IsValidForInterval | src/main/java/org/xcsp/common/XEnums.java:267-270 | IN holds iff `v GE min` and `v LE max`; NOTIN holds iff that fails. |
| ConditionOperators.InNotInComplementary | src/main/java/org/xcsp/common/XEnums.java:267-270 | NOTIN holds exactly where IN does not. |
| ConditionOperators.EmptyInterval | src/main/java/org/xcsp/common/XEnums.java:267-270 | With `max < min`, nothing is IN and everything is NOTIN. |
| ConditionOperators.RelationalComplements | src/main/java/org/xcsp/common/XEnums.java:262-265 | LT/GE, LE/GT and NE/EQ are complementary. |
| ConditionOperators.RelationalDistinct | src/main/java/org/xcsp/common/XEnums.java:262-265 | Relational operators that agree on (0,1), (0,0) and (1,0) are equal. |
| ConditionOperators.CompareSwapped | src/main/java/org/xcsp/common/XEnums.java:282-284 | Swapping the operands reverses the comparison outcome. |
| RelationalOperators.TypeConditionOperatorRel.Name | src/main/java/org/xcsp/common/XEnums.java:274-280 | The identifiers LT, LE, GE, GT, NE and EQ. |
| RelationalOperators.TypeConditionOperatorRel.ToCondition | src/main/java/org/xcsp/common/XEnums.java:274-280 | Each relational operator has a relational condition operator of the same name. |
| RelationalOperators.ConditionCounterpart | src/main/java/org/xcsp/common/XEnums.java:257-260 | A condition operator is not a set operator iff it is the counterpart of a relational operator. |
| RelationalOperators.RelSameMeaning | src/main/java/org/xcsp/common/XEnums.java:262-265 | Relational operators that hold for the same pairs are the same operator. |
| RelationalOperators.TypeConditionOperatorRel.ReverseForSwap | src/main/java/org/xcsp/common/XEnums.java:282-284 | For all `v1`, `v2`: `v2 r v1` holds iff `v1 op v2` holds. |
| RelationalOperators.ReverseForSwapUnique | src/main/java/org/xcsp/common/XEnums.java:282-284 | Any operator with that swap property is `reverseForSwap()`. |
| RelationalOperators.ReverseForSwapInvolution | src/main/java/org/xcsp/common/XEnums.java:282-284 | Reversing twice gives back the operator. |
| RelationalOperators.ReverseForSwapPairs | src/main/java/org/xcsp/common/XEnums.java:282-284 | Only NE and EQ are fixed points. LT and GT are swapped, and so are LE and GE. |
| Operators.TypeOperator.Name | src/main/java/org/xcsp/common/XEnums.java:294-302 | The identifiers LT, LE, GE, GT, SUBSET, SUBSEQ, SUPSEQ and SUPSET. |
| Operators.TypeOperator.IsSet | src/main/java/org/xcsp/common/XEnums.java:308-311 | Holds for SUBSET, SUBSEQ, SUPSEQ and SUPSET. |
| Operators.TypeOperator.ValueOf | src/main/java/org/xcsp/common/XEnums.java:294-302 | Enum `valueOf`: an operator it returns has exactly the given identifier. |
| Operators.OperatorValueOfName | src/main/java/org/xcsp/common/XEnums.java:294-302 | Each operator identifier resolves to its own constant. |
| Operators.TypeOperator.ValOf | src/main/java/org/xcsp/common/XEnums.java:304-306 | An operator it returns is named by the trimmed, upper-cased text. |
| Operators.ValOfExactly | src/main/java/org/xcsp/common/XEnums.java:304-306 | `valOf(s)` gives `op` iff `trim(s).toUpperCase()` is `op`'s identifier. |
| Operators.ValOfPadded | src/main/java/org/xcsp/common/XEnums.java:304-306 | A name in any capitalisation, surrounded by blanks, is read as its operator (` subset ` gives SUBSET). |
| Operators.OperatorSetKinds | src/main/java/org/xcsp/common/XEnums.java:308-311 | `isSet` iff no relational condition operator has the same name. |
| Operators.TypeOperator.ToCondition | src/main/java/org/xcsp/common/XEnums.java:294-298 | The four order operators have relational condition operators of the same name. |
| Operators.TypeOperator.IsValidFor | src/main/java/org/xcsp/common/XEnums.java:313-316 | `v1 op v2` agrees with the condition operator of the same name. |
| Classes.StandardClass.Name | src/main/java/org/xcsp/common/XEnums.java:481-492 | The identifier of each of the nine standard classes. |
| Classes.TypeClass.Name | src/main/java/org/xcsp/common/XEnums.java:457-459 | `name()`: the identifier of a standard class, or the name a special class was built with (lines 502-504). |
| Classes.FirstNamed | src/main/java/org/xcsp/common/XEnums.java:465 | The standard class found carries the name. If none is found, no standard class carries it. |
| Classes.ClassFor | src/main/java/org/xcsp/common/XEnums.java:465 | The class made from a name carries that name, and is standard iff some standard class has that name. |
| Classes.ClassesFor | src/main/java/org/xcsp/common/XEnums.java:462-467 | One class per name, in order. Each carries its name and is standard iff that name is standard. |
| Classes.Disjoint | src/main/java/org/xcsp/common/XEnums.java:470-478 | True iff either array is null or no class of `t1` has the name of a class of `t2`. |
| Classes.StandardValuesComplete | src/main/java/org/xcsp/common/XEnums.java:482-492 | `values()` holds every standard class. |
| Classes.StandardNamesDistinct | src/main/java/org/xcsp/common/XEnums.java:482-492 | Standard classes with the same name are equal. |
| Classes.ClassForStandardName | src/main/java/org/xcsp/common/XEnums.java:465 | A standard name gives back that standard class. |
| Classes.ClassForOtherName | src/main/java/org/xcsp/common/XEnums.java:495-505 | Any other name gives a special class holding that name. |
| Classes.NoSharedNameSymmetric | src/main/java/org/xcsp/common/XEnums.java:470-478 | Disjointness does not depend on argument order. |
| Classes.NoSharedNameSelf | src/main/java/org/xcsp/common/XEnums.java:470-478 | An array is disjoint from itself iff it is empty. |
| Classes.ClassesForDisjoint | src/main/java/org/xcsp/common/XEnums.java:462-478 | The classes of two name lists share no name iff the lists share no name. |

## Left out

- `src/main/java/org/xcsp/modeler/problems/Pic.java` is not part of this model. It is an example problem with no logic of its own.
- The enumerations that are pure data and have no method are not modelled: `TypeFramework`, `TypeChild`, `TypeConditionOperatorSet`, `TypeArithmeticOperator`, `TypeFlag`, `TypeReification` and the rest. They only list constants.
- `ToUpper`, `ToLower` and `Trim` cover ASCII only. Java's Unicode case mappings (for example the German sharp s, which upper-cases to two letters) are not modelled.
- The no-argument `toUpperCase()` and `toLowerCase()` (lines 25, 305 and 403) follow the JVM's default locale. The model assumes a locale whose case mapping on ASCII letters is the standard one. Under a Turkish or Azerbaijani locale, `"MIN".toLowerCase()` is `"mın"` (dotless i) and `"in".toUpperCase()` is `"İN"`. `lcname`, the postfix text and `XEnums.valueOf` would then differ from the model on identifiers that contain `I` or `i`.
- `XUtility.java` is not part of this model. `XUtility.join` is assumed to write the operands' text separated by single spaces. `XUtility.control` is assumed to abort the encoding when its condition is false, and that abort is modelled as a `Failure` result.
- Operands of `postfixExpressionFor` are given as their text, not as Java objects whose `toString` gives that text.
- Java `int` is modelled as an unbounded integer. `isValidFor` only compares values, so no overflow can occur. The operand count of a Java array never exceeds `Integer.MAX_VALUE`.
- The Java `assert` statements of `isValidFor` are preconditions (`requires`). The behaviour with assertions disabled is not modelled. In that case the two-argument form on IN or NOTIN would test `v1 == v2`, and the interval form on a relational operator would act as NOTIN.
- Null strings and null array elements, and the `NullPointerException`s they cause, are not modelled. The null arrays that `disjoint` accepts are modelled.
- The `IllegalArgumentException` of an enumeration's own `valueOf` is modelled as `None`.
- The token reader in `PostfixTokens` (`DecodeOperatorToken`) is not code from the repository. It is a reference reader written from the encoder's documentation, so that the round trip can be stated. It reads only the final operator token of a fragment. The stack evaluator that pops operands, and any property of it, are not modelled.
- The real- and trigonometric-valued node types (`FDIV`, `SIN`, …) appear only as names and arities. No floating-point evaluation is modelled.
