/**
  The traversal cursor object the decoder updates in place, and the
  immutable location record (`Referrer` with its `JavaElement`) it
  synthesizes on demand.
 */
module Api {
  import opened Wrappers
  import opened ClassNames
  import opened Traversal

  /** The element a referrer points into: class (external, dotted form),
      method name and method descriptor, each absent when not entered. */
  datatype JavaElement = JavaElement(className: Option<string>, methodName: Option<string>, methodDesc: Option<string>)

  /** An immutable snapshot of where the traversal stood. */
  datatype Referrer = Referrer(javaElement: JavaElement, sourceFile: Option<string>, lineNo: Option<int>)

  /** The result of `enteringClass`: success, or the assertion failure and its message. */
  datatype Outcome = Pass | Fail(message: string)

  class VisitorContext {
    var resource: Option<Resource>
    var className: Option<string>
    var source: Option<string>
    var methodName: Option<string>
    var methodDesc: Option<string>
    var lineNumber: Option<int>

    /** The six fields as one value of the traversal model. */
    function Snapshot(): Context
      reads this
    {
      Context(resource, className, source, methodName, methodDesc, lineNumber)
    }

    ghost predicate Valid()
      reads this
    {
      HasInternalName(Snapshot())
    }

    constructor ()
      ensures Valid()
      ensures Snapshot() == Initial
    {
      resource, className, source := None, None, None;
      methodName, methodDesc, lineNumber := None, None, None;
    }

    function CurrentResource(): Option<Resource> reads this { resource }
    function CurrentClassName(): Option<string> reads this { className }
    function CurrentSource(): Option<string> reads this { source }
    function CurrentMethodName(): Option<string> reads this { methodName }
    function CurrentMethodDesc(): Option<string> reads this { methodDesc }
    function CurrentLineNumber(): Option<int> reads this { lineNumber }

    method EnteringResource(r: Resource)
      requires Valid()
      modifies this
      ensures Valid()
      ensures Step(old(Snapshot()), Event.EnteringResource(r)) == Next(Snapshot())
      ensures Snapshot() == old(Snapshot()).(resource := Some(r))
    {
      resource := Some(r);
    }

    method LeavingResource()
      requires Valid()
      modifies this
      ensures Valid()
      ensures Step(old(Snapshot()), Event.LeavingResource) == Next(Snapshot())
      ensures Snapshot() == old(Snapshot()).(resource := None)
    {
      resource := None;
    }

    /** Opens a class scope. Fails, changing nothing, while another class is
        open or when the name is dotted rather than in internal form. */
    method EnteringClass(name: string) returns (o: Outcome)
      requires Valid()
      modifies this
      ensures Valid()
      ensures o.Fail? <==> old(className).Some? || IsDotted(name)
      ensures old(className).Some? ==> o == Fail(MultipleEnteringClass)
      ensures old(className).None? && IsDotted(name) ==> o == Fail(NotInternalClassName)
      ensures o.Pass? ==> Snapshot() == old(Snapshot()).(className := Some(name))
      ensures o.Fail? ==> Snapshot() == old(Snapshot())
      ensures Step(old(Snapshot()), Event.EnteringClass(name)) == if o.Pass? then Next(Snapshot()) else Violation(o.message)
    {
      if className.Some? {
        return Fail(MultipleEnteringClass);
      }
      if IsDotted(name) {
        return Fail(NotInternalClassName);
      }
      className := Some(name);
      o := Pass;
    }

    /** Closes the class scope and the method and line inside it; the source
        file name is deliberately kept. */
    method LeavingClass()
      requires Valid()
      modifies this
      ensures Valid()
      ensures Step(old(Snapshot()), Event.LeavingClass) == Next(Snapshot())
      ensures Snapshot() == old(Snapshot()).(className := None, methodName := None, methodDesc := None, lineNumber := None)
      ensures source == old(source)
    {
      className, methodName, methodDesc, lineNumber := None, None, None, None;
    }

    method EnteringSource(fileName: string)
      requires Valid()
      modifies this
      ensures Valid()
      ensures Step(old(Snapshot()), Event.EnteringSource(fileName)) == Next(Snapshot())
      ensures Snapshot() == old(Snapshot()).(source := Some(fileName))
    {
      source := Some(fileName);
    }

    method EnteringMethod(name: string, desc: string)
      requires Valid()
      modifies this
      ensures Valid()
      ensures Step(old(Snapshot()), Event.EnteringMethod(name, desc)) == Next(Snapshot())
      ensures Snapshot() == old(Snapshot()).(methodName := Some(name), methodDesc := Some(desc))
    {
      methodName, methodDesc := Some(name), Some(desc);
    }

    /** Closes the method scope: method name, descriptor and line; class and
        source stay. */
    method LeavingMethod()
      requires Valid()
      modifies this
      ensures Valid()
      ensures Step(old(Snapshot()), Event.LeavingMethod) == Next(Snapshot())
      ensures Snapshot() == old(Snapshot()).(methodName := None, methodDesc := None, lineNumber := None)
    {
      methodName, methodDesc, lineNumber := None, None, None;
    }

    method InspectingLineNumber(line: int)
      requires Valid()
      modifies this
      ensures Valid()
      ensures Step(old(Snapshot()), Event.InspectingLineNumber(line)) == Next(Snapshot())
      ensures Snapshot() == old(Snapshot()).(lineNumber := Some(line))
    {
      lineNumber := Some(line);
    }

    /** The location record of the current position. The class name is given
        in dotted form: same length, each '/' replaced by '.', every other
        character kept, no '/' left, and it translates back to the internal name; everything else is copied. */
    function ToReferrer(): (r: Referrer)
      requires Valid()
      reads this
      ensures r.javaElement.className.Some? <==> className.Some?
      ensures className.Some? ==>
        var internal, external := className.value, r.javaElement.className.value;
        && |external| == |internal|
        && '/' !in external
        && (forall i :: 0 <= i < |internal| ==> external[i] == if internal[i] == '/' then '.' else internal[i])
        && InternalName(external) == internal
      ensures r.javaElement.methodName == methodName && r.javaElement.methodDesc == methodDesc
      ensures r.sourceFile == source && r.lineNo == lineNumber
    {
      var element := JavaElement(None, methodName, methodDesc);
      if className.None? then
        Referrer(element, source, lineNumber)
      else
        ExternalNameSpelling(className.value);
        ExternalNameRoundTrip(className.value);
        Referrer(element.(className := Some(ExternalName(className.value))), source, lineNumber)
    }
  }
}
