/**
  Java class names in their two spellings: the internal form used inside
  class files ("de/javagil/mypackage/TestClass", package separator '/')
  and the external, dotted form ("de.javagil.mypackage.TestClass").
 */
module ClassNames {

  /** The check `enteringClass` applies to its argument: a name containing
      a '.' is not in internal form. */
  predicate IsDotted(name: string) {
    '.' in name
  }

  /** One character of the internal-to-external translation. */
  function ExternalChar(c: char): char {
    if c == '/' then '.' else c
  }

  /** The external spelling of an internal class name: every '/' becomes '.'. */
  function ExternalName(name: string): string {
    seq(|name|, i requires 0 <= i < |name| => ExternalChar(name[i]))
  }

  /** The reverse translation, every '.' becomes '/'. It is not an operation
      of the traversal context; it serves to state that ExternalName loses
      nothing on the names the context accepts. */
  function InternalName(name: string): string {
    seq(|name|, i requires 0 <= i < |name| => if name[i] == '.' then '/' else name[i])
  }

  /** The dotted spelling of any name: same length, every '/' turned into
      '.', every other character kept, no '/' left. */
  lemma ExternalNameSpelling(internal: string)
    ensures var external := ExternalName(internal);
      && |external| == |internal|
      && (forall i :: 0 <= i < |internal| ==> external[i] == if internal[i] == '/' then '.' else internal[i])
      && '/' !in external
  {
  }

  /** On a name `enteringClass` accepts (no '.'), the dotted spelling turns
      back into the internal one. */
  lemma ExternalNameRoundTrip(internal: string)
    requires !IsDotted(internal)
    ensures InternalName(ExternalName(internal)) == internal
  {
  }

  /** A name without '/' (a class in the default package) is spelled the
      same in both forms: `toReferrer` reports such a class under its own name. */
  lemma ExternalNameOfUnqualified(name: string)
    requires '/' !in name
    ensures ExternalName(name) == name
  {
  }

  /** Two different accepted internal names never give the same external name. */
  lemma ExternalNameInjective(a: string, b: string)
    requires !IsDotted(a) && !IsDotted(b)
    requires ExternalName(a) == ExternalName(b)
    ensures a == b
  {
    ExternalNameRoundTrip(a);
    ExternalNameRoundTrip(b);
  }
}
