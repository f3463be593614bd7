/**
  The traversal cursor of a bytecode inspection pass, as a value: six
  optional fields, the events the external decoder sends, and the effect
  of each event. The class `Api.VisitorContext` updates its fields exactly
  as `Step` says; the lemmas here hold for every state a pass can reach.
 */
module Traversal {
  import opened Wrappers
  import opened ClassNames

  /** An opaque handle to the resource (class file) being inspected. Only
      its identity matters: the context stores and returns the very object. */
  class Resource {
    constructor () {}
  }

  datatype Context = Context(
    resource: Option<Resource>,
    className: Option<string>,   // internal form, '/' separated
    source: Option<string>,      // source file name, kept across leavingClass
    methodName: Option<string>,
    methodDesc: Option<string>,
    lineNumber: Option<int>)

  /** A freshly constructed context: nothing entered. */
  const Initial: Context := Context(None, None, None, None, None, None)

  const MultipleEnteringClass: string := "multiple calls to enteringClass without leavingClass"
  const NotInternalClassName: string := "not a proper internal Java class name ('/' as separator, not '.')"

  /** The calls the decoder makes on the context. */
  datatype Event =
    | EnteringResource(handle: Resource)
    | LeavingResource
    | EnteringClass(name: string)
    | LeavingClass
    | EnteringSource(fileName: string)
    | EnteringMethod(methodName: string, methodDesc: string)
    | LeavingMethod
    | InspectingLineNumber(line: int)

  /** The outcome of one call: the next context, or the assertion failure
      (contract violation) with its message. */
  datatype StepResult = Next(context: Context) | Violation(message: string)

  function Step(c: Context, e: Event): StepResult {
    match e
    case EnteringResource(r) => Next(c.(resource := Some(r)))
    case LeavingResource => Next(c.(resource := None))
    case EnteringClass(name) =>
      if c.className.Some? then Violation(MultipleEnteringClass)
      else if IsDotted(name) then Violation(NotInternalClassName)
      else Next(c.(className := Some(name)))
    case LeavingClass => Next(c.(className := None, methodName := None, methodDesc := None, lineNumber := None))
    case EnteringSource(f) => Next(c.(source := Some(f)))
    case EnteringMethod(m, d) => Next(c.(methodName := Some(m), methodDesc := Some(d)))
    case LeavingMethod => Next(c.(methodName := None, methodDesc := None, lineNumber := None))
    case InspectingLineNumber(l) => Next(c.(lineNumber := Some(l)))
  }

  /** A pass: the events applied in order; a violation is fatal and ends it. */
  function Run(c: Context, es: seq<Event>): StepResult
    decreases |es|
  {
    if es == [] then Next(c)
    else match Step(c, es[0])
      case Next(c') => Run(c', es[1..])
      case Violation(msg) => Violation(msg)
  }

  /** The invariant `enteringClass` establishes: an open class is named in internal form. */
  predicate HasInternalName(c: Context) {
    c.className.Some? ==> !IsDotted(c.className.value)
  }

  /** Only `enteringClass` can fail, exactly in its two guarded cases, and
      with the message of the first guard that fails. */
  lemma StepViolations(c: Context, e: Event)
    ensures Step(c, e).Violation? <==> e.EnteringClass? && (c.className.Some? || IsDotted(e.name))
    ensures e.EnteringClass? && c.className.Some? ==> Step(c, e) == Violation(MultipleEnteringClass)
    ensures e.EnteringClass? && c.className.None? && IsDotted(e.name) ==> Step(c, e) == Violation(NotInternalClassName)
  {
  }

  lemma {:induction false} RunAppend(c: Context, a: seq<Event>, b: seq<Event>)
    ensures Run(c, a + b) == match Run(c, a)
      case Next(c') => Run(c', b)
      case Violation(msg) => Violation(msg)
    decreases |a|
  {
    if a == [] {
      assert a + b == b;
    } else {
      assert (a + b)[0] == a[0];
      assert (a + b)[1..] == a[1..] + b;
      match Step(c, a[0])
      case Next(c') => RunAppend(c', a[1..], b);
      case Violation(_) =>
    }
  }

  /** A contract violation ends the pass: nothing after it has any effect. */
  lemma ViolationIsFatal(c: Context, a: seq<Event>, b: seq<Event>)
    requires Run(c, a).Violation?
    ensures Run(c, a + b) == Run(c, a)
  {
    RunAppend(c, a, b);
  }

  /** Every state a pass reaches names its open class in internal form. */
  lemma {:induction false} RunKeepsInternalName(c: Context, es: seq<Event>)
    requires HasInternalName(c)
    ensures Run(c, es).Next? ==> HasInternalName(Run(c, es).context)
    decreases |es|
  {
    if es != [] {
      match Step(c, es[0])
      case Next(c') => RunKeepsInternalName(c', es[1..]);
      case Violation(_) =>
    }
  }

  /** The source file name is sticky: only `enteringSource` changes it;
      leaving a method or a class does not reset it. */
  lemma {:induction false} SourceIsSticky(c: Context, es: seq<Event>)
    requires forall i :: 0 <= i < |es| ==> !es[i].EnteringSource?
    ensures Run(c, es).Next? ==> Run(c, es).context.source == c.source
    decreases |es|
  {
    if es != [] {
      match Step(c, es[0])
      case Next(c') =>
        assert forall i :: 0 <= i < |es[1..]| ==> es[1..][i] == es[i + 1];
        SourceIsSticky(c', es[1..]);
      case Violation(_) =>
    }
  }

  /** The resource handle is kept, as the same object, until the next
      resource event, whatever class, method and line events come between. */
  lemma {:induction false} ResourceIsKept(c: Context, es: seq<Event>)
    requires forall i :: 0 <= i < |es| ==> !es[i].EnteringResource? && !es[i].LeavingResource?
    ensures Run(c, es).Next? ==> Run(c, es).context.resource == c.resource
    decreases |es|
  {
    if es != [] {
      match Step(c, es[0])
      case Next(c') =>
        assert forall i :: 0 <= i < |es[1..]| ==> es[1..][i] == es[i + 1];
        ResourceIsKept(c', es[1..]);
      case Violation(_) =>
    }
  }

  /** The line number events of a method body. */
  function LineEvents(lines: seq<int>): (es: seq<Event>)
    ensures |es| == |lines|
    ensures forall i :: 0 <= i < |lines| ==> es[i] == InspectingLineNumber(lines[i])
  {
    if lines == [] then [] else [InspectingLineNumber(lines[0])] + LineEvents(lines[1..])
  }

  /** Inspecting line numbers never fails and leaves the last one current. */
  lemma {:induction false} RunLines(c: Context, lines: seq<int>)
    ensures Run(c, LineEvents(lines)) == Next(if lines == [] then c else c.(lineNumber := Some(lines[|lines| - 1])))
    decreases |lines|
  {
    if lines != [] {
      var es := LineEvents(lines);
      assert es[1..] == LineEvents(lines[1..]);
      RunLines(c.(lineNumber := Some(lines[0])), lines[1..]);
    }
  }

  /** The events of one whole class visit with a single method. */
  function ClassVisit(name: string, file: string, m: string, d: string, lines: seq<int>): seq<Event> {
    [EnteringClass(name), EnteringSource(file), EnteringMethod(m, d)] + LineEvents(lines) + [LeavingMethod, LeavingClass]
  }

  /** A complete, well-nested class visit succeeds on a context with no open
      class, closes the class, method and line scopes again, keeps the
      resource, and leaves the source file name of the class current. */
  lemma ClassVisitCloses(c: Context, name: string, file: string, m: string, d: string, lines: seq<int>)
    requires c.className.None? && !IsDotted(name)
    ensures Run(c, ClassVisit(name, file, m, d, lines)) == Next(c.(source := Some(file), methodName := None, methodDesc := None, lineNumber := None))
  {
    var head := [EnteringClass(name), EnteringSource(file), EnteringMethod(m, d)];
    var tail: seq<Event> := [LeavingMethod, LeavingClass];
    var c3 := c.(className := Some(name), source := Some(file), methodName := Some(m), methodDesc := Some(d));
    var c1 := c.(className := Some(name));
    var c2 := c1.(source := Some(file));
    assert Run(c2, head[2..]) == Next(c3) by { assert head[2..][1..] == []; }
    assert Run(c1, head[1..]) == Next(c3) by { assert head[1..][1..] == head[2..]; }
    assert Run(c, head) == Next(c3);
    RunAppend(c, head, LineEvents(lines));
    RunLines(c3, lines);
    var c4 := if lines == [] then c3 else c3.(lineNumber := Some(lines[|lines| - 1]));
    RunAppend(c, head + LineEvents(lines), tail);
    assert Run(c4, tail) == Next(c.(source := Some(file), methodName := None, methodDesc := None, lineNumber := None));
  }

  /** After a complete class visit the next class can be entered: the
      "multiple calls" guard only fires for a class left open. */
  lemma NextClassAfterVisit(c: Context, name: string, file: string, m: string, d: string, lines: seq<int>, next: string)
    requires c.className.None? && !IsDotted(name) && !IsDotted(next)
    ensures Run(c, ClassVisit(name, file, m, d, lines) + [EnteringClass(next)]).Next?
  {
    ClassVisitCloses(c, name, file, m, d, lines);
    RunAppend(c, ClassVisit(name, file, m, d, lines), [EnteringClass(next)]);
  }

  /** Entering a class while one is open fails, whatever came before. */
  lemma {:induction false} NoNestedClass(c: Context, es: seq<Event>, name: string)
    requires Run(c, es).Next? && Run(c, es).context.className.Some?
    ensures Run(c, es + [EnteringClass(name)]) == Violation(MultipleEnteringClass)
  {
    RunAppend(c, es, [EnteringClass(name)]);
  }
}
