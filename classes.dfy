/**
 * The classes an XCSP3 element may be tagged with (`XEnums.TypeClass`): the
 * nine standard classes of `StandardClass` and the classes users name
 * themselves (`SpecialClass`). `classesFor` turns the names found in a `class`
 * attribute into classes; `disjoint` tells whether two arrays of classes share
 * no name.
 */
module Classes {
  import opened Wrappers

  datatype StandardClass =
    | channeling | clues | rows | columns | blocks | diagonals
    | symmetryBreaking | redundantConstraints | nogoods
  {
    function Name(): string
    {
      match this
      case channeling => "channeling"
      case clues => "clues"
      case rows => "rows"
      case columns => "columns"
      case blocks => "blocks"
      case diagonals => "diagonals"
      case symmetryBreaking => "symmetryBreaking"
      case redundantConstraints => "redundantConstraints"
      case nogoods => "nogoods"
    }
  }

  /** `StandardClass.values()`, in declaration order. */
  const StandardValues: seq<StandardClass> :=
    [channeling, clues, rows, columns, blocks, diagonals, symmetryBreaking, redundantConstraints, nogoods]

  /**
   * A `TypeClass`: one of the standard classes, or a `SpecialClass`, whose
   * only field is the name it was constructed with.
   */
  datatype TypeClass = Standard(standard: StandardClass) | Special(name: string)
  {
    /** `name()`: the constant's identifier for a standard class, the stored name for a special one. */
    function Name(): string
    {
      match this
      case Standard(c) => c.Name()
      case Special(n) => n
    }
  }

  /** Some standard class is called `s`. */
  predicate IsStandardName(s: string) {
    exists c: StandardClass :: c.Name() == s
  }

  /** `filter(c -> c.name().equals(s)).findFirst()` over a sequence of standard classes. */
  function FirstNamed(cs: seq<StandardClass>, s: string): (r: Option<StandardClass>)
    ensures r.Some? ==> r.value in cs && r.value.Name() == s
    ensures r.None? ==> forall c :: c in cs ==> c.Name() != s
  {
    if cs == [] then None
    else if cs[0].Name() == s then Some(cs[0])
    else FirstNamed(cs[1..], s)
  }

  /** The class `classesFor` gives one name: the standard class of that name if there is one, else a new special class. */
  function ClassFor(s: string): (r: TypeClass)
    ensures r.Name() == s
    ensures r.Standard? <==> IsStandardName(s)
  {
    StandardValuesComplete();
    match FirstNamed(StandardValues, s)
    case Some(c) => Standard(c)
    case None => Special(s)
  }

  /** `classesFor`: one class per name, in the same order, each carrying that name. */
  function ClassesFor(names: seq<string>): (r: seq<TypeClass>)
    ensures |r| == |names|
    ensures forall i :: 0 <= i < |names| ==> r[i].Name() == names[i]
    ensures forall i :: 0 <= i < |names| ==> (r[i].Standard? <==> IsStandardName(names[i]))
  {
    seq(|names|, i requires 0 <= i < |names| => ClassFor(names[i]))
  }

  /** No class of `t1` has the name of a class of `t2`. */
  predicate NoSharedName(t1: seq<TypeClass>, t2: seq<TypeClass>) {
    forall i, j :: 0 <= i < |t1| && 0 <= j < |t2| ==> t1[i].Name() != t2[j].Name()
  }

  /**
   * `disjoint`: true when either array is null; otherwise compares the names
   * of every pair of classes and answers false at the first match.
   */
  method Disjoint(t1: array?<TypeClass>, t2: array?<TypeClass>) returns (b: bool)
    ensures b <==> t1 == null || t2 == null || NoSharedName(t1[..], t2[..])
  {
    if t1 == null || t2 == null {
      return true;
    }
    for i := 0 to t1.Length
      invariant forall i', j :: 0 <= i' < i && 0 <= j < t2.Length ==> t1[i'].Name() != t2[j].Name()
    {
      for j := 0 to t2.Length
        invariant forall j' :: 0 <= j' < j ==> t1[i].Name() != t2[j'].Name()
      {
        if t1[i].Name() == t2[j].Name() {
          return false;
        }
      }
    }
    return true;
  }

  /** Every standard class is among `values()`. */
  lemma StandardValuesComplete()
    ensures forall c: StandardClass :: c in StandardValues
  {
    forall c: StandardClass
      ensures c in StandardValues
    {
      match c {
        case channeling => assert StandardValues[0] == c;
        case clues => assert StandardValues[1] == c;
        case rows => assert StandardValues[2] == c;
        case columns => assert StandardValues[3] == c;
        case blocks => assert StandardValues[4] == c;
        case diagonals => assert StandardValues[5] == c;
        case symmetryBreaking => assert StandardValues[6] == c;
        case redundantConstraints => assert StandardValues[7] == c;
        case nogoods => assert StandardValues[8] == c;
      }
    }
  }

  /** Each standard class is called by a name no other standard class has. */
  lemma StandardNamesDistinct(c: StandardClass, d: StandardClass)
    requires c.Name() == d.Name()
    ensures c == d
  {
  }

  /** The name of a standard class is read back as that standard class, never as a special class. */
  lemma ClassForStandardName(c: StandardClass)
    ensures ClassFor(c.Name()) == Standard(c)
  {
    var r := ClassFor(c.Name());
    assert IsStandardName(c.Name());
    StandardNamesDistinct(r.standard, c);
  }

  /** Any other name gives a special class holding that name. */
  lemma ClassForOtherName(s: string)
    requires !IsStandardName(s)
    ensures ClassFor(s) == Special(s)
  {
  }

  /** Being disjoint does not depend on the order of the two arrays. */
  lemma NoSharedNameSymmetric(t1: seq<TypeClass>, t2: seq<TypeClass>)
    ensures NoSharedName(t1, t2) == NoSharedName(t2, t1)
  {
    if NoSharedName(t1, t2) {
      forall i, j | 0 <= i < |t2| && 0 <= j < |t1|
        ensures t2[i].Name() != t1[j].Name()
      {
        assert t1[j].Name() != t2[i].Name();
      }
    }
    if NoSharedName(t2, t1) {
      forall i, j | 0 <= i < |t1| && 0 <= j < |t2|
        ensures t1[i].Name() != t2[j].Name()
      {
        assert t2[j].Name() != t1[i].Name();
      }
    }
  }

  /** Non-empty classes are never disjoint from themselves. */
  lemma NoSharedNameSelf(t: seq<TypeClass>)
    ensures NoSharedName(t, t) <==> t == []
  {
    if t != [] {
      assert t[0].Name() == t[0].Name();
    }
  }

  /**
   * The classes made from two lists of names are disjoint exactly when no
   * name occurs in both lists, whether the names are standard or not.
   */
  lemma ClassesForDisjoint(names1: seq<string>, names2: seq<string>)
    ensures NoSharedName(ClassesFor(names1), ClassesFor(names2))
        <==> forall i, j :: 0 <= i < |names1| && 0 <= j < |names2| ==> names1[i] != names2[j]
  {
    var t1, t2 := ClassesFor(names1), ClassesFor(names2);
    if NoSharedName(t1, t2) {
      forall i, j | 0 <= i < |names1| && 0 <= j < |names2|
        ensures names1[i] != names2[j]
      {
        assert t1[i].Name() != t2[j].Name();
      }
    }
  }
}
