# EclipseLink: type-table DDL and lazy descriptor loading

This project models two small parts of the EclipseLink persistence framework and proves
properties about them.

- **`TypeTableDefinition`**, in `type_table_definition.dfy` (module `SchemaFramework`).
  It renders the object-relational statement
  `CREATE TABLE <full name> OF <type> ([PRIMARY KEY (k1, k2, ...)])<additional>`
  onto a character writer.
  - The writer is a class. Its contents are only ever appended to.
  - A write budget decides which `write` call throws an `IOException`.
  - `BuildCreationWriter` is proved against two specifications:
    - `CreationWrites`: the exact sequence of `write` calls.
    - `CreationStatement`: the declarative text.
  - The model proves that the text reaching the writer is the concatenation of the writes that succeeded.
  - It proves that the statement has the promised shape.
  - It proves that a non-empty list of key names, none of which contains a comma, can be recovered from its `", "`-separated rendering.
- **`MissingDescriptorListener`**, in `missing_descriptor_listener.dfy` (module `SessionFactories`).
  When a session finds no descriptor for a class, the listener acts on the root session:
  - it calls the XDB helper, for every name;
  - it registers the EIS interaction indicator and adds the EIS project, for the EIS triad;
  - it adds the binary-XML runtime project, for the binary-XML pair.
  - Sessions are a class whose state is the project and a trace of the calls made on it. A root session has no root of its own.
  - Loading the interaction class and registering its indicator either succeed or throw. Which one happens is a parameter.
  - `MissingDescriptor` is proved against the function `Respond`. The contract of `Respond` states the protocol:
    - which calls happen, and that no others do;
    - in which order;
    - with which resolver;
    - how failures are reported.

`wrappers.dfy` holds `Option`, `Result` and `Outcome`. `exceptions.dfy` holds the exceptions that are raised or wrapped.

Two points where the documented intent and the code differ; the model follows the code:

- The documented intent is that the XDB helper is called only when the missing name is the structured-type marker `XML_TYPE_CLASS`. The code at lines 71-72 of `MissingDescriptorListener.java` calls the XDB helper for every missing class name. `XML_TYPE_CLASS` is declared at line 41 and never used in that file. The model declares the constant and does not use it either.
- The documented intent is that "class not found" is told apart from other load failures. The code at line 91 catches every `Exception`, including `ClassNotFoundException`, and line 92 wraps it as `fatalErrorOccurred`. The model does the same.

## Model

Source paths are abbreviated in the table below:

- `T` stands for `foundation/org.eclipse.persistence.core/src/main/java/org/eclipse/persistence/tools/schemaframework/TypeTableDefinition.java`.
- `M` stands for `foundation/org.eclipse.persistence.core/src/main/java/org/eclipse/persistence/internal/sessions/factories/MissingDescriptorListener.java`.

| member | source | states |
|---|---|---|
| SchemaFramework.TypeTableDefinition.constructor | foundation/org.eclipse.persistence.core/src/main/java/org/eclipse/persistence/tools/schemaframework/TypeTableDefinition.java:33-39 | A fresh definition has `typeName == ""` and `additional == ""`. |
| SchemaFramework.TypeTableDefinition.GetAdditional | foundation/org.eclipse.persistence.core/src/main/java/org/eclipse/persistence/tools/schemaframework/TypeTableDefinition.java:72-74 | Returns the current `additional`. After `SetAdditional(x)` this is `x`. |
| SchemaFramework.TypeTableDefinition.GetTypeName | foundation/org.eclipse.persistence.core/src/main/java/org/eclipse/persistence/tools/schemaframework/TypeTableDefinition.java:80-82 | Returns the current `typeName`. After `SetTypeName(x)` this is `x`. |
| SchemaFramework.TypeTableDefinition.SetAdditional | foundation/org.eclipse.persistence.core/src/main/java/org/eclipse/persistence/tools/schemaframework/TypeTableDefinition.java:88-90 | Sets `additional` and leaves `typeName` unchanged. |
| SchemaFramework.TypeTableDefinition.SetTypeName | foundation/org.eclipse.persistence.core/src/main/java/org/eclipse/persistence/tools/schemaframework/TypeTableDefinition.java:96-98 | Sets `typeName` and leaves `additional` unchanged. |
| SchemaFramework.TypeTableDefinition.BuildCreationWriter | foundation/org.eclipse.persistence.core/src/main/java/org/eclipse/persistence/tools/schemaframework/TypeTableDefinition.java:46-65 | The writer receives exactly the planned writes that succeed, in order, and nothing else. Its prior contents stay a prefix. It returns the same writer if and only if every write succeeds. Otherwise it reports `FileError` carrying the `IOException` of the first write that failed. On success the writer holds its old contents followed by `CreationStatement`. |
| SchemaFramework.CreationWritesConcat | foundation/org.eclipse.persistence.core/src/main/java/org/eclipse/persistence/tools/schemaframework/TypeTableDefinition.java:47-61 | Issuing every write in order produces exactly the declarative statement. |
| SchemaFramework.StatementShape | foundation/org.eclipse.persistence.core/src/main/java/org/eclipse/persistence/tools/schemaframework/TypeTableDefinition.java:48-61 | The statement starts with the header `CREATE TABLE <full name> OF <type> (`. After the header comes `PRIMARY KEY (` if and only if the key list is non-empty and the platform supports the constraint. In that case the rest is `PRIMARY KEY (<joined keys>))<additional>`. Otherwise it is `)<additional>`, an empty body. The statement always ends with `)` followed by `additional` verbatim. |
| SchemaFramework.ExampleWithKey | foundation/org.eclipse.persistence.core/src/main/java/org/eclipse/persistence/tools/schemaframework/TypeTableDefinition.java:48-61 | Key `ID` on a supporting platform gives `CREATE TABLE T OF T_TYPE (PRIMARY KEY (ID))`. |
| SchemaFramework.ExampleWithoutSupport | foundation/org.eclipse.persistence.core/src/main/java/org/eclipse/persistence/tools/schemaframework/TypeTableDefinition.java:50 | Without platform support the body is empty: `... ()`. |
| SchemaFramework.ExampleWithoutKeys | foundation/org.eclipse.persistence.core/src/main/java/org/eclipse/persistence/tools/schemaframework/TypeTableDefinition.java:50 | With no key fields the body is empty, whatever the platform supports. |
| SchemaFramework.ExampleWithAdditional | foundation/org.eclipse.persistence.core/src/main/java/org/eclipse/persistence/tools/schemaframework/TypeTableDefinition.java:60-61 | The trailing fragment follows the closing parenthesis verbatim. |
| SchemaFramework.KeyWritesJoin | foundation/org.eclipse.persistence.core/src/main/java/org/eclipse/persistence/tools/schemaframework/TypeTableDefinition.java:52-57 | After `i` turns of the key loop, the text written is the first `i` keys joined by `", "`. It is followed by one separator while keys remain, and by none after the last key. |
| SchemaFramework.JoinSnoc | foundation/org.eclipse.persistence.core/src/main/java/org/eclipse/persistence/tools/schemaframework/TypeTableDefinition.java:52-57 | Each further key adds exactly one separator and then the key. There is no leading or trailing separator. |
| SchemaFramework.SplitJoin | foundation/org.eclipse.persistence.core/src/main/java/org/eclipse/persistence/tools/schemaframework/TypeTableDefinition.java:52-57 | A non-empty list of comma-free key names is recovered from its rendering, in order. |
| SchemaFramework.WriteKeyField | foundation/org.eclipse.persistence.core/src/main/java/org/eclipse/persistence/tools/schemaframework/TypeTableDefinition.java:53-56 | One loop turn writes key `i`, then `", "` only if another key follows. A failed write stops the turn at that write. |
| SchemaFramework.WriteKeyFields | foundation/org.eclipse.persistence.core/src/main/java/org/eclipse/persistence/tools/schemaframework/TypeTableDefinition.java:52-57 | The key loop issues exactly the planned key writes, or stops at the first one that fails. |
| SchemaFramework.WritePrimaryKeyClause | foundation/org.eclipse.persistence.core/src/main/java/org/eclipse/persistence/tools/schemaframework/TypeTableDefinition.java:51-58 | Writes `PRIMARY KEY (`, then the key loop, then `)`, or stops at the first write that fails. |
| SessionFactories.MarkerSetsDisjoint | foundation/org.eclipse.persistence.core/src/main/java/org/eclipse/persistence/internal/sessions/factories/MissingDescriptorListener.java:41-46 | No class name is both in the EIS triad and in the binary-XML pair. |
| SessionFactories.NamespaceResolverWithPrefixes.constructor | foundation/org.eclipse.persistence.core/src/main/java/org/eclipse/persistence/internal/sessions/factories/MissingDescriptorListener.java:68-69 | The fallback resolver starts with no prefixes. |
| SessionFactories.AddXDBDescriptors | foundation/org.eclipse.persistence.core/src/main/java/org/eclipse/persistence/internal/sessions/factories/MissingDescriptorListener.java:71-72 | Records one XDB helper call with the name and resolver. It changes only the given session. What the helper itself registers is not modelled. |
| SessionFactories.Session.AddCallClassIndicator | foundation/org.eclipse.persistence.core/src/main/java/org/eclipse/persistence/internal/sessions/factories/MissingDescriptorListener.java:89-90 | Either records the indicator on `Call`'s descriptor, or throws and records nothing. |
| SessionFactories.Session.AddDescriptors | foundation/org.eclipse.persistence.core/src/main/java/org/eclipse/persistence/internal/sessions/factories/MissingDescriptorListener.java:94-97 | Records one bulk addition of a project's descriptors. |
| SessionFactories.Respond | foundation/org.eclipse.persistence.core/src/main/java/org/eclipse/persistence/internal/sessions/factories/MissingDescriptorListener.java:71-98 | The XDB helper is always called first. The trace has exactly three calls (helper, indicator, EIS project) when an EIS name succeeds, two (helper, OXM project) for a binary-XML name, and one otherwise. The call fails if and only if the name is in the EIS triad and loading or registration throws. It then fails with `FatalErrorOccurred` wrapping that cause, and nothing after the XDB call happens. An indicator is registered, and the EIS project added, if and only if the name is in the EIS triad and the call succeeds. The OXM runtime project is added if and only if the name is in the binary-XML pair. At most one bulk addition happens. Every indicator maps `xpath + "xml-interaction"` to `XML_INTERACTION_CLASS` on `Call`. The EIS project comes after its indicator. Every registration uses the chosen resolver. Any other name only triggers the XDB call. |
| SessionFactories.MissingDescriptor | foundation/org.eclipse.persistence.core/src/main/java/org/eclipse/persistence/internal/sessions/factories/MissingDescriptorListener.java:54-99 | Every effect lands on the root session. The event's session, if it is not the root, is unchanged. The project is unchanged, and earlier registrations are kept. The path and resolver come from a namespace-resolvable project. Otherwise they are `""` and a fresh empty resolver. The outcome and the registrations appended are exactly those of `Respond`. |

## Left out

- `PersistenceEntityCopyPolicy` is not part of this model. It only delegates to a woven clone method that is not visible.
- `TableDefinition` is represented only by its results. `getFullName()`, `getPrimaryKeyFieldNames()` and the platform's `supportsPrimaryKeyConstraint()` are plain parameters of `BuildCreationWriter`. They replace its `session` argument.
- `Writer.Write`: a `java.io.Writer` either appends all of one `write` call's text or throws. Partial writes within one call and buffering are not modelled.
- Java `null` strings are not modelled. For example, `setTypeName(null)` would render as `null`.
- Reflection and privileged class loading are not modelled (`AccessController.doPrivileged`, `PrivilegedClassForName`, `PrivilegedAccessHelper`, lines 77-88). Instead, `loadFailure` gives the exception that loading throws, or none. The cast at line 84 may itself fail. That gives a different cause, but it is still wrapped as `fatalErrorOccurred`, so the model does not tell the cases apart.
- The internals of `DirectToXMLTypeMappingHelper.addXDBDescriptors` are not modelled: which descriptors it registers, if any, and any exception it throws. The model records only that it was called, with which name and resolver. Nor are the internals of the two descriptor projects, or of `getDescriptor` and `addDescriptors`. All of these are recorded as effects on the root session.
- The casts of the event's result to `Class` and of the session to `DatabaseSession` are not modelled. The event carries the class name directly.
- `Error` throwables, which the `catch (Exception ...)` at line 91 does not catch, are not modelled.
- Idempotence of repeated registrations in the session's descriptor catalog is not modelled. It is not implemented in these files.
- Concurrency is not modelled. The code takes no locks.
- `SchemaFramework.TypeTableDefinition.GetAdditional` models the getter spelled `getAdditonal` in the source.
