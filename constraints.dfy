/**
 * The element and attribute vocabularies of XCSP3 files: the constraint and
 * meta-constraint kinds (`XEnums.TypeCtr`), whose constants are spelt exactly as
 * the elements, and the attributes (`XEnums.TypeAtt`), where the Java keywords
 * `class`, `for` and `case` have to be spelt in capitals and are mapped back by
 * `valOf`.
 */
module Constraints {
  import opened Wrappers
  import opened JavaStrings
  import XEnums

  datatype TypeCtr =
    | extension | intension | regular | grammar | mdd | allDifferent | allEqual | allDistant
    | ordered | lex | allIncomparable | sum | count | nValues | cardinality | balance
    | spread | deviation | sumCosts | stretch | noOverlap | cumulative | binPacking | knapsack
    | networkFlow | circuit | nCircuits | path | nPaths | tree | nTrees | arbo
    | nArbos | nCliques | clause | instantiation | allIntersecting | range | roots | partition
    | minimum | maximum | element | channel | permutation | precedence | and | or
    | not | iff | ifThen | ifThenElse | slide | seqbin | smart
  {
    /** The identifier of the constant, which is the element name in XCSP3 files. */
    function Name(): string
    {
      match this
      case extension => "extension"
      case intension => "intension"
      case regular => "regular"
      case grammar => "grammar"
      case mdd => "mdd"
      case allDifferent => "allDifferent"
      case allEqual => "allEqual"
      case allDistant => "allDistant"
      case ordered => "ordered"
      case lex => "lex"
      case allIncomparable => "allIncomparable"
      case sum => "sum"
      case count => "count"
      case nValues => "nValues"
      case cardinality => "cardinality"
      case balance => "balance"
      case spread => "spread"
      case deviation => "deviation"
      case sumCosts => "sumCosts"
      case stretch => "stretch"
      case noOverlap => "noOverlap"
      case cumulative => "cumulative"
      case binPacking => "binPacking"
      case knapsack => "knapsack"
      case networkFlow => "networkFlow"
      case circuit => "circuit"
      case nCircuits => "nCircuits"
      case path => "path"
      case nPaths => "nPaths"
      case tree => "tree"
      case nTrees => "nTrees"
      case arbo => "arbo"
      case nArbos => "nArbos"
      case nCliques => "nCliques"
      case clause => "clause"
      case instantiation => "instantiation"
      case allIntersecting => "allIntersecting"
      case range => "range"
      case roots => "roots"
      case partition => "partition"
      case minimum => "minimum"
      case maximum => "maximum"
      case element => "element"
      case channel => "channel"
      case permutation => "permutation"
      case precedence => "precedence"
      case and => "and"
      case or => "or"
      case not => "not"
      case iff => "iff"
      case ifThen => "ifThen"
      case ifThenElse => "ifThenElse"
      case slide => "slide"
      case seqbin => "seqbin"
      case smart => "smart"
    }

    /**
     * `TypeCtr.valueOf`: the constant whose identifier is exactly `s`, if any.
     * The table is split by first letter into four helpers only to keep each
     * proof about it small; the split carries no meaning of its own.
     */
    static function ValueOf(s: string): (r: Option<TypeCtr>)
      ensures r.Some? ==> r.value.Name() == s
    {
      if s == [] then None
      else if s[0] <= 'c' then CtrNamedAToC(s)
      else if s[0] <= 'm' then CtrNamedDToM(s)
      else if s[0] <= 'p' then CtrNamedNToP(s)
      else CtrNamedQToZ(s)
    }

    /** `isSliding`: the constraint slides over a sequence of variables. */
    predicate IsSliding() { this == slide || this == seqbin }

    /** `isControl`: an if-based control structure. */
    predicate IsControl() { this == ifThen || this == ifThenElse }

    /** `isLogical`: a logical combination of constraints. */
    predicate IsLogical() { this == and || this == or || this == not || this == iff }

    /** `isMeta`: a meta-constraint, one that is built over other constraints. */
    predicate IsMeta() { IsSliding() || IsLogical() || IsControl() }
  }

  /** The part of `TypeCtr.valueOf` for identifiers from `a` to `c`. */
  function CtrNamedAToC(s: string): (r: Option<TypeCtr>)
    ensures r.Some? ==> r.value.Name() == s
  {
    if s == [] then None else
    match s[0]
    case 'a' => (
      match |s|
      case 3 => if s == and.Name() then Some(and) else None
      case 4 => if s == arbo.Name() then Some(arbo) else None
      case 8 => if s == allEqual.Name() then Some(allEqual) else None
      case 10 => if s == allDistant.Name() then Some(allDistant) else None
      case 12 => if s == allDifferent.Name() then Some(allDifferent) else None
      case 15 => if s == allIncomparable.Name() then Some(allIncomparable) else if s == allIntersecting.Name() then Some(allIntersecting) else None
      case _ => None)
    case 'b' => (
      match |s|
      case 7 => if s == balance.Name() then Some(balance) else None
      case 10 => if s == binPacking.Name() then Some(binPacking) else None
      case _ => None)
    case 'c' => (
      match |s|
      case 5 => if s == count.Name() then Some(count) else None
      case 6 => if s == clause.Name() then Some(clause) else None
      case 7 => if s == circuit.Name() then Some(circuit) else if s == channel.Name() then Some(channel) else None
      case 10 => if s == cumulative.Name() then Some(cumulative) else None
      case 11 => if s == cardinality.Name() then Some(cardinality) else None
      case _ => None)
    case _ => None
  }

  /** The part of `TypeCtr.valueOf` for identifiers from `d` to `m`. */
  function CtrNamedDToM(s: string): (r: Option<TypeCtr>)
    ensures r.Some? ==> r.value.Name() == s
  {
    if s == [] then None else
    match s[0]
    case 'd' => (
      match |s|
      case 9 => if s == deviation.Name() then Some(deviation) else None
      case _ => None)
    case 'e' => (
      match |s|
      case 7 => if s == element.Name() then Some(element) else None
      case 9 => if s == extension.Name() then Some(extension) else None
      case _ => None)
    case 'g' => (
      match |s|
      case 7 => if s == grammar.Name() then Some(grammar) else None
      case _ => None)
    case 'i' => (
      match |s|
      case 3 => if s == iff.Name() then Some(iff) else None
      case 6 => if s == ifThen.Name() then Some(ifThen) else None
      case 9 => if s == intension.Name() then Some(intension) else None
      case 10 => if s == ifThenElse.Name() then Some(ifThenElse) else None
      case 13 => if s == instantiation.Name() then Some(instantiation) else None
      case _ => None)
    case 'k' => (
      match |s|
      case 8 => if s == knapsack.Name() then Some(knapsack) else None
      case _ => None)
    case 'l' => (
      match |s|
      case 3 => if s == lex.Name() then Some(lex) else None
      case _ => None)
    case 'm' => (
      match |s|
      case 3 => if s == mdd.Name() then Some(mdd) else None
      case 7 => if s == minimum.Name() then Some(minimum) else if s == maximum.Name() then Some(maximum) else None
      case _ => None)
    case _ => None
  }

  /** The part of `TypeCtr.valueOf` for identifiers from `n` to `p`. */
  function CtrNamedNToP(s: string): (r: Option<TypeCtr>)
    ensures r.Some? ==> r.value.Name() == s
  {
    if s == [] then None else
    match s[0]
    case 'n' => (
      match |s|
      case 3 => if s == not.Name() then Some(not) else None
      case 6 => (
        match s[1]
        case 'A' => if s == nArbos.Name() then Some(nArbos) else None
        case 'P' => if s == nPaths.Name() then Some(nPaths) else None
        case 'T' => if s == nTrees.Name() then Some(nTrees) else None
        case _ => None)
      case 7 => if s == nValues.Name() then Some(nValues) else None
      case 8 => if s == nCliques.Name() then Some(nCliques) else None
      case 9 => if s == noOverlap.Name() then Some(noOverlap) else if s == nCircuits.Name() then Some(nCircuits) else None
      case 11 => if s == networkFlow.Name() then Some(networkFlow) else None
      case _ => None)
    case 'o' => (
      match |s|
      case 2 => if s == or.Name() then Some(or) else None
      case 7 => if s == ordered.Name() then Some(ordered) else None
      case _ => None)
    case 'p' => (
      match |s|
      case 4 => if s == path.Name() then Some(path) else None
      case 9 => if s == partition.Name() then Some(partition) else None
      case 10 => if s == precedence.Name() then Some(precedence) else None
      case 11 => if s == permutation.Name() then Some(permutation) else None
      case _ => None)
    case _ => None
  }

  /** The part of `TypeCtr.valueOf` for identifiers from `q` to `z`. */
  function CtrNamedQToZ(s: string): (r: Option<TypeCtr>)
    ensures r.Some? ==> r.value.Name() == s
  {
    if s == [] then None else
    match s[0]
    case 'r' => (
      match |s|
      case 5 => if s == range.Name() then Some(range) else if s == roots.Name() then Some(roots) else None
      case 7 => if s == regular.Name() then Some(regular) else None
      case _ => None)
    case 's' => (
      match |s|
      case 3 => if s == sum.Name() then Some(sum) else None
      case 5 => if s == slide.Name() then Some(slide) else if s == smart.Name() then Some(smart) else None
      case 6 => if s == spread.Name() then Some(spread) else if s == seqbin.Name() then Some(seqbin) else None
      case 7 => if s == stretch.Name() then Some(stretch) else None
      case 8 => if s == sumCosts.Name() then Some(sumCosts) else None
      case _ => None)
    case 't' => (
      match |s|
      case 4 => if s == tree.Name() then Some(tree) else None
      case _ => None)
    case _ => None
  }

  /*
   * The constraint kinds are grouped below by their position in the
   * declaration list. Apart from the meta-constraint predicates above, the
   * groups carry no meaning in the source: every lemma about all 55 constants
   * is proved group by group and put together by a dispatcher, only to keep
   * each proof small.
   */

  /** Generic and language-based constraints, in declaration order. */
  predicate IsGenericOrLanguage(c: TypeCtr) {
    match c
    case extension | intension | regular | grammar | mdd => true
    case _ => false
  }

  /** Comparison constraints, in declaration order. */
  predicate IsComparison(c: TypeCtr) {
    match c
    case allDifferent | allEqual | allDistant | ordered | lex | allIncomparable => true
    case _ => false
  }

  /** Counting and summing constraints, in declaration order. */
  predicate IsCounting(c: TypeCtr) {
    match c
    case sum | count | nValues | cardinality | balance | spread | deviation | sumCosts => true
    case _ => false
  }

  /** Connection, packing and scheduling constraints, in declaration order. */
  predicate IsScheduling(c: TypeCtr) {
    match c
    case stretch | noOverlap | cumulative | binPacking | knapsack | networkFlow => true
    case _ => false
  }

  /** Graph constraints, in declaration order. */
  predicate IsGraph(c: TypeCtr) {
    match c
    case circuit | nCircuits | path | nPaths | tree | nTrees | arbo | nArbos | nCliques => true
    case _ => false
  }

  /** Elementary and set constraints, in declaration order. */
  predicate IsElementary(c: TypeCtr) {
    match c
    case clause | instantiation | allIntersecting | range | roots | partition | minimum | maximum | element | channel | permutation | precedence => true
    case _ => false
  }

  /** Meta-constraints and the constraint reserved for later, in declaration order. */
  predicate IsCombining(c: TypeCtr) {
    match c
    case and | or | not | iff | ifThen | ifThenElse | slide | seqbin | smart => true
    case _ => false
  }


  /**
   * `isMeta` holds exactly when one of `isSliding`, `isLogical` and `isControl`
   * holds, and never two of them at once.
   */
  lemma MetaFamiliesDisjoint(c: TypeCtr)
    ensures c.IsMeta() <==>
      (if c.IsSliding() then 1 else 0) + (if c.IsLogical() then 1 else 0) + (if c.IsControl() then 1 else 0) == 1
    ensures !(c.IsSliding() && c.IsLogical())
    ensures !(c.IsSliding() && c.IsControl())
    ensures !(c.IsLogical() && c.IsControl())
  {
  }

  /** Each identifier is the element name of exactly one constraint kind. */
  lemma CtrValueOfName(c: TypeCtr)
    ensures TypeCtr.ValueOf(c.Name()) == Some(c)
  {
    if IsGenericOrLanguage(c) {
      CtrValueOfNameGenericOrLanguage(c);
    } else if IsComparison(c) {
      CtrValueOfNameComparison(c);
    } else if IsCounting(c) {
      CtrValueOfNameCounting(c);
    } else if IsScheduling(c) {
      CtrValueOfNameScheduling(c);
    } else if IsGraph(c) {
      CtrValueOfNameGraph(c);
    } else if IsElementary(c) {
      CtrValueOfNameElementary(c);
    } else {
      CtrValueOfNameCombining(c);
    }
  }

  lemma CtrValueOfNameGenericOrLanguage(c: TypeCtr)
    requires IsGenericOrLanguage(c)
    ensures TypeCtr.ValueOf(c.Name()) == Some(c)
  {
  }

  lemma CtrValueOfNameComparison(c: TypeCtr)
    requires IsComparison(c)
    ensures TypeCtr.ValueOf(c.Name()) == Some(c)
  {
  }

  lemma CtrValueOfNameCounting(c: TypeCtr)
    requires IsCounting(c)
    ensures TypeCtr.ValueOf(c.Name()) == Some(c)
  {
  }

  lemma CtrValueOfNameScheduling(c: TypeCtr)
    requires IsScheduling(c)
    ensures TypeCtr.ValueOf(c.Name()) == Some(c)
  {
  }

  lemma CtrValueOfNameGraph(c: TypeCtr)
    requires IsGraph(c)
    ensures TypeCtr.ValueOf(c.Name()) == Some(c)
  {
  }

  lemma CtrValueOfNameElementary(c: TypeCtr)
    requires IsElementary(c)
    ensures TypeCtr.ValueOf(c.Name()) == Some(c)
  {
  }

  lemma CtrValueOfNameCombining(c: TypeCtr)
    requires IsCombining(c)
    ensures TypeCtr.ValueOf(c.Name()) == Some(c)
  {
  }

  /** Every identifier of a constraint kind starts with a lower-case letter. */
  lemma CtrNameStartsLowerCase(c: TypeCtr)
    ensures StartsLowerCase(c.Name())
  {
    if IsGenericOrLanguage(c) {
      CtrNameStartsLowerCaseGenericOrLanguage(c);
    } else if IsComparison(c) {
      CtrNameStartsLowerCaseComparison(c);
    } else if IsCounting(c) {
      CtrNameStartsLowerCaseCounting(c);
    } else if IsScheduling(c) {
      CtrNameStartsLowerCaseScheduling(c);
    } else if IsGraph(c) {
      CtrNameStartsLowerCaseGraph(c);
    } else if IsElementary(c) {
      CtrNameStartsLowerCaseElementary(c);
    } else {
      CtrNameStartsLowerCaseCombining(c);
    }
  }

  lemma CtrNameStartsLowerCaseGenericOrLanguage(c: TypeCtr)
    requires IsGenericOrLanguage(c)
    ensures StartsLowerCase(c.Name())
  {
  }

  lemma CtrNameStartsLowerCaseComparison(c: TypeCtr)
    requires IsComparison(c)
    ensures StartsLowerCase(c.Name())
  {
  }

  lemma CtrNameStartsLowerCaseCounting(c: TypeCtr)
    requires IsCounting(c)
    ensures StartsLowerCase(c.Name())
  {
  }

  lemma CtrNameStartsLowerCaseScheduling(c: TypeCtr)
    requires IsScheduling(c)
    ensures StartsLowerCase(c.Name())
  {
  }

  lemma CtrNameStartsLowerCaseGraph(c: TypeCtr)
    requires IsGraph(c)
    ensures StartsLowerCase(c.Name())
  {
  }

  lemma CtrNameStartsLowerCaseElementary(c: TypeCtr)
    requires IsElementary(c)
    ensures StartsLowerCase(c.Name())
  {
  }

  lemma CtrNameStartsLowerCaseCombining(c: TypeCtr)
    requires IsCombining(c)
    ensures StartsLowerCase(c.Name())
  {
  }

  /** The element names of the eight meta-constraints. */
  const MetaNameSet: set<string> := {"slide", "seqbin", "and", "or", "not", "iff", "ifThen", "ifThenElse"}

  /** A meta-constraint is spelt with one of the eight meta-constraint names. */
  lemma MetaName(c: TypeCtr)
    requires c.IsMeta()
    ensures c.Name() in MetaNameSet
  {
    if c.IsSliding() {
      SlidingName(c);
    } else if c.IsLogical() {
      LogicalName(c);
    } else {
      ControlName(c);
    }
  }

  lemma SlidingName(c: TypeCtr)
    requires c.IsSliding()
    ensures c.Name() in MetaNameSet
  {
  }

  lemma LogicalName(c: TypeCtr)
    requires c.IsLogical()
    ensures c.Name() in MetaNameSet
  {
  }

  lemma ControlName(c: TypeCtr)
    requires c.IsControl()
    ensures c.Name() in MetaNameSet
  {
  }

  /** Each meta-constraint name belongs to a meta-constraint. */
  lemma MetaNameResolves(s: string)
    requires s in MetaNameSet
    ensures TypeCtr.ValueOf(s).Some? && TypeCtr.ValueOf(s).value.IsMeta()
  {
    if s == "slide" || s == "seqbin" {
      SlidingNameResolves(s);
    } else if s == "ifThen" || s == "ifThenElse" {
      ControlNameResolves(s);
    } else {
      LogicalNameResolves(s);
    }
  }

  lemma SlidingNameResolves(s: string)
    requires s == "slide" || s == "seqbin"
    ensures TypeCtr.ValueOf(s).Some? && TypeCtr.ValueOf(s).value.IsSliding()
  {
    var c := if s == "slide" then slide else seqbin;
    assert c.Name() == s;
    CtrValueOfName(c);
  }

  lemma ControlNameResolves(s: string)
    requires s == "ifThen" || s == "ifThenElse"
    ensures TypeCtr.ValueOf(s).Some? && TypeCtr.ValueOf(s).value.IsControl()
  {
    var c := if s == "ifThen" then ifThen else ifThenElse;
    assert c.Name() == s;
    CtrValueOfName(c);
  }

  lemma LogicalNameResolves(s: string)
    requires s == "and" || s == "or" || s == "not" || s == "iff"
    ensures TypeCtr.ValueOf(s).Some? && TypeCtr.ValueOf(s).value.IsLogical()
  {
    var c := if s == "and" then and else if s == "or" then or else if s == "not" then not else iff;
    assert c.Name() == s;
    CtrValueOfName(c);
  }

  /**
   * The element names of the meta-constraints: `valueOf` gives a
   * meta-constraint exactly for these eight names.
   */
  lemma MetaNames(s: string)
    ensures (TypeCtr.ValueOf(s).Some? && TypeCtr.ValueOf(s).value.IsMeta()) <==> s in MetaNameSet
  {
    var r := TypeCtr.ValueOf(s);
    if r.Some? && r.value.IsMeta() {
      MetaName(r.value);
    }
    if s in MetaNameSet {
      MetaNameResolves(s);
    }
  }

  /**
   * `XEnums.valueOf(TypeCtr.class, s)` upper-cases `s` before the lookup, and
   * no constraint kind is spelt with a capital first letter, so it never finds
   * one, whatever `s` is.
   */
  lemma CtrNeverResolves(s: string)
    ensures XEnums.ValueOf(TypeCtr.ValueOf, s) == None
  {
    var r := XEnums.ValueOf(TypeCtr.ValueOf, s);
    if r.Some? {
      var u := ToUpper(s);
      assert r.value.Name() == u;
      CtrNameStartsLowerCase(r.value);
      assert false;
    }
  }

  datatype TypeAtt =
    | format | type_ | id | CLASS | note | as_ | size | violationMeasure
    | violationParameters | defaultCost | violationCost | cost | reifiedBy | hreifiedFrom | hreifiedTo | closed
    | FOR | restriction | rank | startIndex | zeroIgnored | CASE | order | circular
    | offset | collect | violable | lb | ub | combination
  {
    /** The identifier of the constant, as `name()` returns it. */
    function Name(): string
    {
      match this
      case format => "format"
      case type_ => "type"
      case id => "id"
      case CLASS => "CLASS"
      case note => "note"
      case as_ => "as"
      case size => "size"
      case violationMeasure => "violationMeasure"
      case violationParameters => "violationParameters"
      case defaultCost => "defaultCost"
      case violationCost => "violationCost"
      case cost => "cost"
      case reifiedBy => "reifiedBy"
      case hreifiedFrom => "hreifiedFrom"
      case hreifiedTo => "hreifiedTo"
      case closed => "closed"
      case FOR => "FOR"
      case restriction => "restriction"
      case rank => "rank"
      case startIndex => "startIndex"
      case zeroIgnored => "zeroIgnored"
      case CASE => "CASE"
      case order => "order"
      case circular => "circular"
      case offset => "offset"
      case collect => "collect"
      case violable => "violable"
      case lb => "lb"
      case ub => "ub"
      case combination => "combination"
    }

    /** `TypeAtt.valueOf`: the constant whose identifier is exactly `s`, if any; `None` stands for the exception. */
    static function ValueOf(s: string): (r: Option<TypeAtt>)
      ensures r.Some? ==> r.value.Name() == s
    {
      if s == [] then None else
      match s[0]
      case 'C' => (
        match |s|
        case 4 => if s == CASE.Name() then Some(CASE) else None
        case 5 => if s == CLASS.Name() then Some(CLASS) else None
        case _ => None)
      case 'F' => (
        match |s|
        case 3 => if s == FOR.Name() then Some(FOR) else None
        case _ => None)
      case 'a' => (
        match |s|
        case 2 => if s == as_.Name() then Some(as_) else None
        case _ => None)
      case 'c' => (
        match |s|
        case 4 => if s == cost.Name() then Some(cost) else None
        case 6 => if s == closed.Name() then Some(closed) else None
        case 7 => if s == collect.Name() then Some(collect) else None
        case 8 => if s == circular.Name() then Some(circular) else None
        case 11 => if s == combination.Name() then Some(combination) else None
        case _ => None)
      case 'd' => (
        match |s|
        case 11 => if s == defaultCost.Name() then Some(defaultCost) else None
        case _ => None)
      case 'f' => (
        match |s|
        case 6 => if s == format.Name() then Some(format) else None
        case _ => None)
      case 'h' => (
        match |s|
        case 10 => if s == hreifiedTo.Name() then Some(hreifiedTo) else None
        case 12 => if s == hreifiedFrom.Name() then Some(hreifiedFrom) else None
        case _ => None)
      case 'i' => (
        match |s|
        case 2 => if s == id.Name() then Some(id) else None
        case _ => None)
      case 'l' => (
        match |s|
        case 2 => if s == lb.Name() then Some(lb) else None
        case _ => None)
      case 'n' => (
        match |s|
        case 4 => if s == note.Name() then Some(note) else None
        case _ => None)
      case 'o' => (
        match |s|
        case 5 => if s == order.Name() then Some(order) else None
        case 6 => if s == offset.Name() then Some(offset) else None
        case _ => None)
      case 'r' => (
        match |s|
        case 4 => if s == rank.Name() then Some(rank) else None
        case 9 => if s == reifiedBy.Name() then Some(reifiedBy) else None
        case 11 => if s == restriction.Name() then Some(restriction) else None
        case _ => None)
      case 's' => (
        match |s|
        case 4 => if s == size.Name() then Some(size) else None
        case 10 => if s == startIndex.Name() then Some(startIndex) else None
        case _ => None)
      case 't' => (
        match |s|
        case 4 => if s == type_.Name() then Some(type_) else None
        case _ => None)
      case 'u' => (
        match |s|
        case 2 => if s == ub.Name() then Some(ub) else None
        case _ => None)
      case 'v' => (
        match |s|
        case 8 => if s == violable.Name() then Some(violable) else None
        case 13 => if s == violationCost.Name() then Some(violationCost) else None
        case 16 => if s == violationMeasure.Name() then Some(violationMeasure) else None
        case 19 => if s == violationParameters.Name() then Some(violationParameters) else None
        case _ => None)
      case 'z' => (
        match |s|
        case 11 => if s == zeroIgnored.Name() then Some(zeroIgnored) else None
        case _ => None)
      case _ => None
    }

    /** `isReifying`: the attribute gives a full or half reification. */
    predicate IsReifying() { this == reifiedBy || this == hreifiedFrom || this == hreifiedTo }

    /**
     * How the attribute is written in XCSP3 files: in lower case for the three
     * constants named in capitals because their names are Java keywords, as the
     * identifier for the others.
     */
    function XmlName(): string
    {
      match this
      case CLASS => "class"
      case FOR => "for"
      case CASE => "case"
      case _ => Name()
    }

    /**
     * `valOf`: the keyword spellings `class`, `for` and `case` first, then
     * `valueOf`; `None` stands for the exception `valueOf` throws on an unknown
     * name.
     */
    static function ValOf(s: string): (r: Option<TypeAtt>)
      ensures r.Some? ==> s == r.value.XmlName() || s == r.value.Name()
    {
      if s == "class" then Some(CLASS)
      else if s == "for" then Some(FOR)
      else if s == "case" then Some(CASE)
      else ValueOf(s)
    }
  }


  /** The three attributes whose names are Java keywords and are therefore declared in capitals. */
  predicate IsKeyword(a: TypeAtt) {
    a == CLASS || a == FOR || a == CASE
  }

  /** Each identifier belongs to exactly one attribute. */
  lemma AttValueOfName(a: TypeAtt)
    ensures TypeAtt.ValueOf(a.Name()) == Some(a)
  {
  }

  /** Apart from the three keywords, every attribute is spelt with a lower-case first letter. */
  lemma AttNameStartsLowerCase(a: TypeAtt)
    requires !IsKeyword(a)
    ensures StartsLowerCase(a.Name())
  {
  }

  /**
   * `valOf` accepts an attribute exactly under its spelling in XCSP3 files and
   * under its identifier: `class` and `CLASS` both give CLASS, `reifiedBy`
   * gives reifiedBy, and every other string is refused.
   */
  lemma ValOfSpellings(a: TypeAtt, s: string)
    ensures TypeAtt.ValOf(s) == Some(a) <==> s == a.XmlName() || s == a.Name()
  {
    AttValueOfName(a);
    if !IsKeyword(a) {
      AttNameStartsLowerCase(a);
      assert a.XmlName() == a.Name();
    }
  }

  /** The reification attributes of XCSP3 files. */
  const ReifyingNameSet: set<string> := {"reifiedBy", "hreifiedFrom", "hreifiedTo"}

  /** `valOf` gives a reifying attribute exactly for the three reification attribute names. */
  lemma ReifyingNames(s: string)
    ensures (TypeAtt.ValOf(s).Some? && TypeAtt.ValOf(s).value.IsReifying()) <==> s in ReifyingNameSet
  {
    var r := TypeAtt.ValOf(s);
    if r.Some? && r.value.IsReifying() {
      assert s == r.value.Name();
    }
    if s in ReifyingNameSet {
      var a := if s == "reifiedBy" then reifiedBy else if s == "hreifiedFrom" then hreifiedFrom else hreifiedTo;
      assert a.Name() == s;
      ValOfSpellings(a, s);
    }
  }

  /**
   * `XEnums.valueOf(TypeAtt.class, s)` upper-cases `s`, so of all attributes it
   * can only ever find the three declared in capitals.
   */
  lemma AttResolvesOnlyKeywords(s: string)
    ensures XEnums.ValueOf(TypeAtt.ValueOf, s).Some? ==> IsKeyword(XEnums.ValueOf(TypeAtt.ValueOf, s).value)
  {
    var r := XEnums.ValueOf(TypeAtt.ValueOf, s);
    if r.Some? && !IsKeyword(r.value) {
      assert r.value.Name() == ToUpper(s);
      AttNameStartsLowerCase(r.value);
      assert false;
    }
  }
}
