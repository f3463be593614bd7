/**
  The unit tests of the traversal cursor, one method per test: each drives
  a fresh `VisitorContext` through the test's calls and returns what the
  test reads back, and its postcondition states at least what the test
  asserts.
 */
module VisitorContextTest {
  import opened Wrappers
  import opened Traversal
  import opened Api
  import ClassNames

  const TestClass: string := "de/javagil/mypackage/TestClass"
  const TestSource: string := "TestClass.java"

  /** What the getters of `ctx` return, read one by one as the tests do.
      Plumbing for the tests below; it states nothing about the cursor. */
  method Observe(ctx: VisitorContext) returns (observed: Context)
    ensures observed.resource == ctx.CurrentResource()
    ensures observed.className == ctx.CurrentClassName() && observed.source == ctx.CurrentSource()
    ensures observed.methodName == ctx.CurrentMethodName() && observed.methodDesc == ctx.CurrentMethodDesc()
    ensures observed.lineNumber == ctx.CurrentLineNumber()
  {
    var resource := ctx.CurrentResource();
    var className := ctx.CurrentClassName();
    var source := ctx.CurrentSource();
    var methodName := ctx.CurrentMethodName();
    var methodDesc := ctx.CurrentMethodDesc();
    var lineNumber := ctx.CurrentLineNumber();
    observed := Context(resource, className, source, methodName, methodDesc, lineNumber);
  }

  method InitialGetterTest() returns (observed: Context)
    ensures observed.className == None && observed.source == None && observed.lineNumber == None
    ensures observed.methodName == None && observed.methodDesc == None
  {
    var ctx := new VisitorContext();
    observed := Observe(ctx);
  }

  method EnteringResourceTest(someResource: Resource) returns (current: Option<Resource>)
    ensures current == Some(someResource)
  {
    var ctx := new VisitorContext();
    ctx.EnteringResource(someResource);
    current := ctx.CurrentResource();
  }

  method LeavingResourceTest(someResource: Resource) returns (current: Option<Resource>)
    ensures current == None
  {
    var ctx := new VisitorContext();
    ctx.EnteringResource(someResource);
    ctx.LeavingResource();
    current := ctx.CurrentResource();
  }

  method EnteringClassTest() returns (observed: Context)
    ensures observed.className == Some(TestClass)
    ensures observed.source == None && observed.methodName == None
    ensures observed.methodDesc == None && observed.lineNumber == None
  {
    var ctx := new VisitorContext();
    var o := ctx.EnteringClass(TestClass);
    observed := Observe(ctx);
  }

  method EnteringClassTwiceTest() returns (o: Outcome)
    ensures o == Fail("multiple calls to enteringClass without leavingClass")
  {
    var ctx := new VisitorContext();
    o := ctx.EnteringClass(TestClass);
    o := ctx.EnteringClass("de/javagil/mypackage/AnotherTestClass");
  }

  method EnteringClassWithInvalidNameFormatTest() returns (o: Outcome)
    ensures o == Fail("not a proper internal Java class name ('/' as separator, not '.')")
  {
    var ctx := new VisitorContext();
    o := ctx.EnteringClass("de.javagil.mypackage.TestClass");
  }

  method EnteringSourceTest() returns (observed: Context)
    ensures observed.className == Some(TestClass) && observed.source == Some(TestSource)
    ensures observed.methodName == None && observed.methodDesc == None && observed.lineNumber == None
  {
    var ctx := new VisitorContext();
    var o := ctx.EnteringClass(TestClass);
    ctx.EnteringSource(TestSource);
    observed := Observe(ctx);
  }

  method EnteringMethodTest() returns (observed: Context)
    ensures observed.className == Some(TestClass) && observed.source == Some(TestSource)
    ensures observed.methodName == Some("myMethod") && observed.methodDesc == Some("()")
    ensures observed.lineNumber == None
  {
    var ctx := new VisitorContext();
    var o := ctx.EnteringClass(TestClass);
    ctx.EnteringSource(TestSource);
    ctx.EnteringMethod("myMethod", "()");
    observed := Observe(ctx);
  }

  method InspectingLineNumberTest() returns (observed: Context)
    ensures observed.className == Some(TestClass) && observed.source == Some(TestSource)
    ensures observed.methodName == Some("myMethod") && observed.methodDesc == Some("()")
    ensures observed.lineNumber == Some(42)
  {
    var ctx := new VisitorContext();
    var o := ctx.EnteringClass(TestClass);
    ctx.EnteringSource(TestSource);
    ctx.EnteringMethod("myMethod", "()");
    ctx.InspectingLineNumber(42);
    observed := Observe(ctx);
  }

  method LeavingMethodTest() returns (observed: Context)
    ensures observed.className == Some(TestClass) && observed.source == Some(TestSource)
    ensures observed.methodName == None && observed.methodDesc == None && observed.lineNumber == None
  {
    var ctx := new VisitorContext();
    var o := ctx.EnteringClass(TestClass);
    ctx.EnteringSource(TestSource);
    ctx.EnteringMethod("myMethod", "()");
    ctx.LeavingMethod();
    observed := Observe(ctx);
  }

  /** The source file name is not reset by leaving the class. */
  method LeavingClassTest() returns (observed: Context)
    ensures observed.className == None && observed.source == Some(TestSource)
    ensures observed.methodName == None && observed.methodDesc == None && observed.lineNumber == None
  {
    var ctx := new VisitorContext();
    var o := ctx.EnteringClass(TestClass);
    ctx.EnteringSource(TestSource);
    ctx.EnteringMethod("myMethod", "()");
    ctx.LeavingMethod();
    ctx.LeavingClass();
    observed := Observe(ctx);
  }

  method ToReferrerTest() returns (referrer: Referrer)
    ensures referrer.javaElement.className == Some("de.javagil.mypackage.TestClass")
    ensures referrer.javaElement.methodName == Some("myMethod")
    ensures referrer.javaElement.methodDesc == Some("()")
    ensures referrer.sourceFile == Some(TestSource)
    ensures referrer.lineNo == Some(42)
  {
    var ctx := new VisitorContext();
    var o := ctx.EnteringClass(TestClass);
    ctx.EnteringSource(TestSource);
    ctx.EnteringMethod("myMethod", "()");
    ctx.InspectingLineNumber(42);
    referrer := ctx.ToReferrer();
    assert referrer.javaElement.className == Some(ClassNames.ExternalName(TestClass));
    assert ClassNames.ExternalName(TestClass) == "de.javagil.mypackage.TestClass";
  }
}
