/**
 * The generic lookup `XEnums.valueOf(enumType, name)`, which resolves a name
 * against an enumeration after upper-casing it and answers null instead of
 * throwing when no constant has that identifier.
 */
module XEnums {
  import opened Wrappers
  import opened JavaStrings

  /**
   * `XEnums.valueOf`: `directory` stands for the enumeration's own `valueOf`,
   * the table from identifiers to constants, whose `IllegalArgumentException`
   * on an unknown identifier is read here as `None`, the null answer.
   */
  function ValueOf<T>(directory: string -> Option<T>, name: string): Option<T>
  {
    directory(ToUpper(name))
  }

  /** The lookup ignores case: two names that upper-case alike resolve alike. */
  lemma ValueOfIgnoresCase<T>(directory: string -> Option<T>, s: string, t: string)
    requires ToUpper(s) == ToUpper(t)
    ensures ValueOf(directory, s) == ValueOf(directory, t)
  {
  }
}
