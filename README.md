# Columbo traversal context and failure normalizer, in Dafny

This project models two parts of Columbo, a tool that inspects compiled Java classes at the bytecode level.

**The traversal cursor (`VisitorContext`).** An external bytecode decoder calls it as it walks the class files. The calls are `enteringResource`/`leavingResource`, `enteringClass`/`leavingClass`, `enteringSource`, `enteringMethod`/`leavingMethod` and `inspectingLineNumber`. The cursor keeps six optional fields: the resource handle, the internal class name (`/`-separated), the source file name, the method name, the method descriptor and the line number. It reads them back through the `getCurrent*` accessors. `toReferrer` synthesizes an immutable location record (`Referrer` holding a `JavaElement`) with the class name in dotted form.

**The failure normalizer (`InspectionException`).** `InspectionException` is Columbo's unchecked exception for unexpected failures during class loading or bytecode reading. The model covers its three constructors and `asRuntimeException`, which turns any exception into a runtime exception.

The implementation of `VisitorContext` is not modelled; its behaviour is taken from its unit test, `VisitorContextTest.java`. Where the test does not observe a field, the model makes a choice of its own; "## Left out" lists each one.

Files:

- `wrappers.dfy`: `Option`, standing for a Java reference that may be `null`.
- `class_names.dfy` (module `ClassNames`):
  - the "dotted name" check `enteringClass` applies;
  - the internal-to-external translation (`/` to `.`);
  - the reverse translation, used only to prove that nothing is lost.
- `traversal.dfy` (module `Traversal`):
  - the cursor's state as a value (`Context`) and the decoder's calls as events;
  - `Step`, the effect of one call, and `Run`, a whole pass;
  - lemmas that hold in every state a pass can reach.
- `visitor_context.dfy` (module `Api`): the `VisitorContext` class.
  - Its fields are updated in place.
  - Each method is proved to change the fields exactly as `Step` says.
  - The class invariant (`Valid`) is that an open class is named in internal form.
  - `ToReferrer` and the `Referrer`/`JavaElement` records are here too.
- `visitor_context_test.dfy` (module `VisitorContextTest`): one method per JUnit test. Each runs the test's calls on a fresh context and reads the getters back as the test does. Its postcondition states at least what the test asserts.
- `inspection_exception.dfy` (module `Inspection`): exceptions as a datatype with a discriminant (checked, other runtime, `InspectionException`), the three constructors and `AsRuntimeException`.

`asRuntimeException` (InspectionException.java:73-79) passes every `RuntimeException` through unchanged, including runtime exceptions that are not `InspectionException`s.

## Model

| member | source | states |
|---|---|---|
| `Api.VisitorContext.constructor` | src/test/java/de/javagil/columbo/api/VisitorContextTest.java:46-55 | a fresh context has every field absent (the initial `Context`) and satisfies the class invariant |
| `Api.VisitorContext.EnteringResource` | src/test/java/de/javagil/columbo/api/VisitorContextTest.java:57-62 | the current resource becomes the very object given; no other field changes |
| `Api.VisitorContext.LeavingResource` | src/test/java/de/javagil/columbo/api/VisitorContextTest.java:64-70 | the current resource becomes absent; no other field changes |
| `Api.VisitorContext.EnteringClass` | src/test/java/de/javagil/columbo/api/VisitorContextTest.java:72-104 | fails exactly when a class is already open or the name contains '.', with "multiple calls to enteringClass without leavingClass" if a class is open and "not a proper internal Java class name ('/' as separator, not '.')" otherwise; on failure nothing changes; on success only the class name is set |
| `Api.VisitorContext.EnteringSource` | src/test/java/de/javagil/columbo/api/VisitorContextTest.java:108-117 | sets the source file name only; class, method, descriptor and line are kept |
| `Api.VisitorContext.EnteringMethod` | src/test/java/de/javagil/columbo/api/VisitorContextTest.java:119-129 | sets method name and descriptor only; class, source and line are kept |
| `Api.VisitorContext.InspectingLineNumber` | src/test/java/de/javagil/columbo/api/VisitorContextTest.java:131-142 | sets the line number only; class, source, method and descriptor are kept |
| `Api.VisitorContext.LeavingMethod` | src/test/java/de/javagil/columbo/api/VisitorContextTest.java:144-155 | clears method name, descriptor and line; class, source and resource are kept |
| `Api.VisitorContext.LeavingClass` | src/test/java/de/javagil/columbo/api/VisitorContextTest.java:157-169 | clears class name, method name, descriptor and line, and keeps the source file name (and the resource) |
| `Api.VisitorContext.ToReferrer` | src/test/java/de/javagil/columbo/api/VisitorContextTest.java:171-185 | the record's class name is present exactly when a class is open, has the internal name's length, has '.' wherever the internal name has '/' and the same character elsewhere, contains no '/', and translates back to the internal name; method name, descriptor, source file and line are copied unchanged |
| `ClassNames.ExternalNameSpelling` | src/test/java/de/javagil/columbo/api/VisitorContextTest.java:180 | for every name, the dotted spelling has the same length, '.' for each '/', every other character kept, and no '/' left |
| `ClassNames.ExternalNameRoundTrip` | src/test/java/de/javagil/columbo/api/VisitorContextTest.java:92-104 | for every name `enteringClass` accepts (no '.'), the dotted spelling maps back to the original |
| `ClassNames.ExternalNameOfUnqualified` | src/test/java/de/javagil/columbo/api/VisitorContextTest.java:180 | a name without '/' is spelled the same in dotted form |
| `ClassNames.ExternalNameInjective` | src/test/java/de/javagil/columbo/api/VisitorContextTest.java:92-104 | two distinct names that `enteringClass` accepts never give the same dotted name, so the record identifies the class |
| `Traversal.StepViolations` | src/test/java/de/javagil/columbo/api/VisitorContextTest.java:82-104 | a call fails if and only if it is `enteringClass` with a class open or a dotted name; the message is that of the first guard that fails; no other call has a guard |
| `Traversal.ViolationIsFatal` | src/test/java/de/javagil/columbo/api/VisitorContextTest.java:82-104 | once a call fails, the pass ends: later calls do not change the outcome |
| `Traversal.RunKeepsInternalName` | src/test/java/de/javagil/columbo/api/VisitorContextTest.java:92-104 | in every state reached from a valid one, an open class is named in internal form (no '.') |
| `Traversal.SourceIsSticky` | src/test/java/de/javagil/columbo/api/VisitorContextTest.java:157-169 | over any sequence of calls without `enteringSource`, the source file name stays what it was, across `leavingMethod` and `leavingClass` |
| `Traversal.ResourceIsKept` | src/test/java/de/javagil/columbo/api/VisitorContextTest.java:57-70 | over any sequence of calls without resource calls, the current resource stays the same object |
| `Traversal.RunLines` | src/test/java/de/javagil/columbo/api/VisitorContextTest.java:131-142 | any number of `inspectingLineNumber` calls succeed, and the last line given is current |
| `Traversal.ClassVisitCloses` | src/test/java/de/javagil/columbo/api/VisitorContextTest.java:157-169 | a complete visit (enter class, source, method, any lines, leave method, leave class) on a context with no open class succeeds; it leaves class, method, descriptor and line absent, the resource unchanged, and the visited file as current source |
| `Traversal.NextClassAfterVisit` | src/test/java/de/javagil/columbo/api/VisitorContextTest.java:82-90 | after a complete class visit, entering the next class succeeds |
| `Traversal.NoNestedClass` | src/test/java/de/javagil/columbo/api/VisitorContextTest.java:82-90 | whatever calls came before, entering a class while one is open fails with "multiple calls to enteringClass without leavingClass" |
| `VisitorContextTest.InitialGetterTest` | src/test/java/de/javagil/columbo/api/VisitorContextTest.java:48-55 | a fresh context returns absent class, source, line, method name and descriptor |
| `VisitorContextTest.EnteringResourceTest` | src/test/java/de/javagil/columbo/api/VisitorContextTest.java:57-62 | after `enteringResource(r)`, `getCurrentResource` is the same object `r` |
| `VisitorContextTest.LeavingResourceTest` | src/test/java/de/javagil/columbo/api/VisitorContextTest.java:64-70 | after entering and leaving a resource, `getCurrentResource` is absent |
| `VisitorContextTest.EnteringClassTest` | src/test/java/de/javagil/columbo/api/VisitorContextTest.java:72-80 | `enteringClass` on a fresh context sets the class name and leaves source, method, descriptor and line absent |
| `VisitorContextTest.EnteringClassTwiceTest` | src/test/java/de/javagil/columbo/api/VisitorContextTest.java:82-90 | a second `enteringClass` fails with "multiple calls to enteringClass without leavingClass" |
| `VisitorContextTest.EnteringClassWithInvalidNameFormatTest` | src/test/java/de/javagil/columbo/api/VisitorContextTest.java:92-104 | a dotted name fails with "not a proper internal Java class name ('/' as separator, not '.')" |
| `VisitorContextTest.EnteringSourceTest` | src/test/java/de/javagil/columbo/api/VisitorContextTest.java:108-117 | class and source as entered, method, descriptor and line absent |
| `VisitorContextTest.EnteringMethodTest` | src/test/java/de/javagil/columbo/api/VisitorContextTest.java:119-129 | class, source, method and descriptor as entered, line absent |
| `VisitorContextTest.InspectingLineNumberTest` | src/test/java/de/javagil/columbo/api/VisitorContextTest.java:131-142 | class, source, method, descriptor and line 42 as entered |
| `VisitorContextTest.LeavingMethodTest` | src/test/java/de/javagil/columbo/api/VisitorContextTest.java:144-155 | after `leavingMethod`, class and source remain and method, descriptor and line are absent |
| `VisitorContextTest.LeavingClassTest` | src/test/java/de/javagil/columbo/api/VisitorContextTest.java:157-169 | after `leavingClass`, class, method, descriptor and line are absent and the source is still "TestClass.java" |
| `VisitorContextTest.ToReferrerTest` | src/test/java/de/javagil/columbo/api/VisitorContextTest.java:171-185 | the record holds "de.javagil.mypackage.TestClass", "myMethod", "()", "TestClass.java" and line 42 |
| `Inspection.FromCause` | src/main/java/de/javagil/columbo/InspectionException.java:43-45 | the new exception is a runtime `InspectionException` whose cause is exactly the given exception |
| `Inspection.WithMessage` | src/main/java/de/javagil/columbo/InspectionException.java:52-54 | the new exception is a runtime `InspectionException` carrying the message and no cause |
| `Inspection.WithMessageAndCause` | src/main/java/de/javagil/columbo/InspectionException.java:62-64 | the new exception is a runtime `InspectionException` keeping both the message and the given `ClassNotFoundException` as cause |
| `Inspection.AsRuntimeException` | src/main/java/de/javagil/columbo/InspectionException.java:34-79 | the result is always a runtime exception; every runtime argument (any `RuntimeException`, not only an `InspectionException`) is returned itself; a checked argument becomes the cause of a new `InspectionException` |
| `Inspection.AsRuntimeExceptionIdempotent` | src/main/java/de/javagil/columbo/InspectionException.java:73-79 | applying it twice gives the same as applying it once: it never double-wraps |
| `Inspection.AsRuntimeExceptionKeepsOriginal` | src/main/java/de/javagil/columbo/InspectionException.java:73-79 | the argument is the result itself, or the cause of the result and then a checked exception |
| `Inspection.AsRuntimeExceptionWrapsOnlyChecked` | src/main/java/de/javagil/columbo/InspectionException.java:73-79 | a new exception is made if and only if the argument is not a runtime exception, and the wrapper's cause is then a checked exception |

## Left out

- The `VisitorContext`, `Referrer` and `JavaElement` implementations are not modelled; their behaviour is taken from the unit test, and the choices the test does not force are listed below. No ordering guards beyond the two of `enteringClass` are modelled, for example none on `enteringMethod` or `enteringSource`.
- The following behaviours are the model's own choices; the unit test does not observe them:
  - `Api.VisitorContext.LeavingClass` clears the method name, descriptor and line; in the test they are already cleared by `leavingMethod` (VisitorContextTest.java:162-163).
  - `Api.VisitorContext.LeavingMethod` clears the line number; the test never sets a line before leaving a method (VisitorContextTest.java:144-155).
  - `Api.VisitorContext.EnteringMethod` keeps the line number, and `Api.VisitorContext.EnteringClass` and `Api.VisitorContext.EnteringSource` keep the method and line fields; the test calls them only while those fields are absent.
  - `Api.VisitorContext.ToReferrer` gives an absent class name when no class is open; the test calls `toReferrer` only inside a class.
  - `VisitorContextTest.LeavingClassTest` states that the source file name is kept; the test leaves that check as a comment (VisitorContextTest.java:165) and asserts nothing about the source.
  - `VisitorContextTest.EnteringClassTwiceTest` states that the second call fails; the Java test also passes when no `AssertionError` is thrown, as it has no `fail()` after the call (VisitorContextTest.java:85-89).
  - `Api.VisitorContext.EnteringClass` keeps the source file name; the test enters a class only while the source is absent.
  - `Api.VisitorContext.EnteringResource` and `Api.VisitorContext.LeavingResource` keep every other field; the tests read only the resource (VisitorContextTest.java:57-70).
- `Inspection.WithMessageAndCause` accepts `ClassNotFoundException` itself as the cause and not its subclasses, which the Java constructor (InspectionException.java:62-64) also accepts: the `ClassNotFoundException` subset type is keyed on the exact type name.
- The exact test for a dotted class name is not visible. The model uses "contains a '.'" (`ClassNames.IsDotted`).
- When `enteringClass` fails, the model leaves every field unchanged. The test does not observe the state after the failure.
- When both `enteringClass` guards fail, the model reports "multiple calls to enteringClass without leavingClass". The test never makes both fail at once, so this order is not evidenced.
- Java assertions (`AssertionError`) become the `Fail` outcome of `EnteringClass` and the `Violation` result of `Step`. Whether the guards depend on Java assertions being enabled is not visible; the model's guards always fire.
- The resource is an opaque object (`Traversal.Resource`). Building the `URL` and its `MalformedURLException` are not modelled.
- Line numbers are unbounded integers. `Integer` boxing and the 32-bit range are not modelled.
- Java `null` arguments are not modelled, for example `asRuntimeException(null)` or a `null` class name.
- Exceptions are values, so "the same instance" is value equality. Allocating a fresh wrapper object, as `new InspectionException(exc)` does, is not distinguished from reusing an equal one.
- `Inspection.FromCause`: Java derives this exception's message from the cause's `toString`. The model records no explicit message (`None`), because `Throwable`'s message derivation is not part of this model. Stack traces and `serialVersionUID` are left out for the same reason.
- The `getCurrent*` accessors are plain field reads (`CurrentResource` … `CurrentLineNumber`) and carry no contract of their own. The methods' postconditions state every field.
- The JUnit harness and the `AssertionContext` test helper are not modelled. Each test becomes a method whose postcondition states at least what the test asserts.
- The bytecode decoder and the visitor dispatch that drive the context are outside this model. Its calls are the `Traversal.Event` values.
