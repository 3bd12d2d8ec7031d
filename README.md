# Variable binding of a compiled Java script

This project models how `JavaCompiledScript.eval` exchanges variables between
a `ScriptContext` and the instance of a class compiled at run time, and proves
properties of that model in Dafny.

A context offers two scopes of named values: the global scope, which may be
null and can be shared by several compiled scripts, and the engine scope,
which is never null. One evaluation runs four steps:

1. **Merge.** Both scopes are copied into one map, global first and engine
   second, so an engine entry overwrites a global one. A null scope is
   skipped.
2. **Push.** Every merged entry is written into the instance's public field of
   the same name. A name with no such field ends the evaluation with a
   `ScriptException` before the strategy runs.
3. **Execute.** The execution strategy runs on the instance and yields the
   result.
4. **Pull.** Every public field is written back, in field order. A value goes
   to the global scope only if the engine scope lacks the name and the global
   scope holds it. Otherwise it goes to the engine scope.

Layout:

- `environment.dfy`, module `Environment`: the `Bindings` objects and the
  contents of both scopes as a `Tiers` value. It defines the merge
  (`MergeAll`, `Merged`) and the scope rule (`WritesGlobal`, `SetBinding`).
  It also defines the pull as a fold in field order (`PullAll`) and an
  order-free reference for it (`PullReference`), with the lemmas that relate
  them.
- `compiled_script.dfy`, module `CompiledScripts`: the class `CompiledScript`.
  Its fields are `instanceClass` and `instance`, both `const`, and
  `executionStrategy`, which is mutable. Its methods `Eval`, `PushVariables`,
  `PullVariables`, `SetBindingsValue`, `MergeBindings` and
  `SetExecutionStrategy` follow the Java methods of the same names. Each one
  is proved against the functions of `Environment` and against `Evaluate`, a
  function giving one whole evaluation on values. The lemmas about `Evaluate`
  cover failure on an unknown name, the pushed values, the round trip and the
  shared global scope.
- `null_global_scope.dfy`, module `NullGlobalScope`: `setBindingsValue` as
  written, and the inputs on which it differs from the model (see
  "## Findings").

The getters `getInstanceClass` and `getInstance` are the `const` fields
`CompiledScript.instanceClass` and `CompiledScript.instance`. Being `const`,
they cannot change after construction, and `SetExecutionStrategy` changes
only `executionStrategy`.

The model uses these abstractions:

- Reflection on the compiled class becomes `ScriptClass.publicFields`, the
  sequence of public field names that `getFields` lists. `getField(name)`
  succeeds exactly when `name` is in that sequence.
- The instance is a `ScriptInstance` whose `fields` map always has exactly
  those names as keys (`CompiledScript.Valid`).
- Field and binding values have a type parameter `V`, which stands for Java's
  `Object`.
- The execution strategy is a total function from the public field values to
  an `Execution`. An execution either returns a value or raises an exception,
  and it names the fields it wrote. A written name that is not a field is
  ignored (`Assign`).
- The global and engine scopes may be the same `Bindings` object. The
  contracts of `Eval`, `PullVariables` and `SetBindingsValue` cover that case:
  the engine scope's contents are always stated, and the global scope's
  contents are stated when it is a separate object.

## Model

| member | source | states |
|---|---|---|
| `Environment.MergeAllKeys` | ch.obermuhlner.scriptengine.java/src/main/java/ch/obermuhlner/scriptengine/java/JavaCompiledScript.java:118-130 | a name is in the merged map exactly when some non-null tier holds it; a null tier contributes no names |
| `Environment.MergeAllLastWins` | ch.obermuhlner.scriptengine.java/src/main/java/ch/obermuhlner/scriptengine/java/JavaCompiledScript.java:121-126 | the merged value of a name is the value in the last tier that holds it, because later tiers overwrite earlier ones |
| `Environment.MergedTiers` | ch.obermuhlner.scriptengine.java/src/main/java/ch/obermuhlner/scriptengine/java/JavaCompiledScript.java:82-83 | for the call order (global, engine): the merged names are the union of both scopes' names, the engine value wins on a collision, and a name held only globally keeps its global value |
| `Environment.PullAllIsReference` | ch.obermuhlner.scriptengine.java/src/main/java/ch/obermuhlner/scriptengine/java/JavaCompiledScript.java:98-116 | with distinct field names, the field-by-field pull equals placing every field by the scope rule applied to the scopes as they were before the pull, so the field order does not matter |
| `Environment.PullPlacement` | ch.obermuhlner.scriptengine.java/src/main/java/ch/obermuhlner/scriptengine/java/JavaCompiledScript.java:110-116 | after the pull a field lands in the global scope if the engine scope lacked its name and the global scope held it, and then the engine scope still lacks it; otherwise it lands in the engine scope and the global entry for that name, if any, is unchanged |
| `Environment.PullFrame` | ch.obermuhlner.scriptengine.java/src/main/java/ch/obermuhlner/scriptengine/java/JavaCompiledScript.java:98-116 | the pull changes no entry under a name that is not a public field, in either scope; it never adds a name to the global scope and never creates a global scope that was null |
| `Environment.PullAllKeeps` | ch.obermuhlner.scriptengine.java/src/main/java/ch/obermuhlner/scriptengine/java/JavaCompiledScript.java:98-116 | an engine entry under a name that is not a public field keeps its value through the pull |
| `Environment.PullWithoutGlobal` | ch.obermuhlner.scriptengine.java/src/main/java/ch/obermuhlner/scriptengine/java/JavaCompiledScript.java:110-116 | (corrected behaviour) with a null global scope every public field lands in the engine scope holding its field value, every other engine entry keeps its value, the engine names grow by exactly the field names, and the global scope stays null |
| `CompiledScripts.UnknownNameFailsBeforeExecution` | ch.obermuhlner.scriptengine.java/src/main/java/ch/obermuhlner/scriptengine/java/JavaCompiledScript.java:75-94 | an evaluation fails at the push exactly when either scope holds a name that is not a public field; the outcome is then the same for every strategy, so the strategy is not run |
| `CompiledScripts.PushedValues` | ch.obermuhlner.scriptengine.java/src/main/java/ch/obermuhlner/scriptengine/java/JavaCompiledScript.java:82-96 | after a successful push every field named in a scope holds that scope's value (the engine scope's on a collision), every other field keeps its value, and no field is added |
| `CompiledScripts.RoundTrip` | ch.obermuhlner.scriptengine.java/src/main/java/ch/obermuhlner/scriptengine/java/JavaCompiledScript.java:75-116 | push, then a strategy that leaves the fields alone, then pull: the global scope is unchanged, every engine entry keeps its value, and the only new engine entries are fields named in neither scope, holding their values from before |
| `CompiledScripts.SharedGlobalScope` | ch.obermuhlner.scriptengine.java/src/main/java/ch/obermuhlner/scriptengine/java/JavaCompiledScript.java:98-130 | for two evaluations that share a global scope and each start with an empty engine scope: a field the first wrote back to the global scope reaches the second with that value, and a field written only to the first's engine scope is not seen by the second |
| `CompiledScripts.CompiledScript.constructor` | ch.obermuhlner.scriptengine.java/src/main/java/ch/obermuhlner/scriptengine/java/JavaCompiledScript.java:29-34 | stores the compiled class, the instance and the strategy, and leaves the instance's fields as they are |
| `CompiledScripts.CompiledScript.SetExecutionStrategy` | ch.obermuhlner.scriptengine.java/src/main/java/ch/obermuhlner/scriptengine/java/JavaCompiledScript.java:61-63 | later evaluations use the new strategy; only the strategy field may change, so class and instance stay fixed |
| `CompiledScripts.CompiledScript.Eval` | ch.obermuhlner.scriptengine.java/src/main/java/ch/obermuhlner/scriptengine/java/JavaCompiledScript.java:71-80 | one evaluation, tied case by case to `Evaluate`. Push failure: a `NoSuchField` error naming a merged non-field, each field holding its old or its merged value, both scopes unchanged. Strategy exception: it is returned as an error, the fields as the strategy left them, scopes unchanged. Otherwise: exactly the strategy's value, and the fields and scopes as `Evaluate` gives them |
| `CompiledScripts.CompiledScript.PushVariables` | ch.obermuhlner.scriptengine.java/src/main/java/ch/obermuhlner/scriptengine/java/JavaCompiledScript.java:82-96 | succeeds exactly when every merged name is a public field; on success the fields are the old ones overwritten by the merged map; on failure it names a merged name with no field, and every field holds its old or its merged value |
| `CompiledScripts.CompiledScript.MergeBindings` | ch.obermuhlner.scriptengine.java/src/main/java/ch/obermuhlner/scriptengine/java/JavaCompiledScript.java:118-130 | the nested loops build exactly `MergeAll` of the tiers, whatever order each tier's entries are visited in |
| `CompiledScripts.CompiledScript.PullVariables` | ch.obermuhlner.scriptengine.java/src/main/java/ch/obermuhlner/scriptengine/java/JavaCompiledScript.java:98-108 | the scopes end as `PullAll` of the instance's public fields, in field order; this also holds when both scopes are one object |
| `CompiledScripts.CompiledScript.SetBindingsValue` | ch.obermuhlner.scriptengine.java/src/main/java/ch/obermuhlner/scriptengine/java/JavaCompiledScript.java:110-116 | the scopes end as `SetBinding` gives them: the global scope is written only if the engine scope lacks the name and the global scope holds it, otherwise the engine scope |
| `NullGlobalScope.AsWrittenAgreesWithGlobalScope` | ch.obermuhlner.scriptengine.java/src/main/java/ch/obermuhlner/scriptengine/java/JavaCompiledScript.java:110-116 | when a global scope exists, the pull as written never throws and equals the modelled pull |
| `NullGlobalScope.AsWrittenFailsIff` | ch.obermuhlner.scriptengine.java/src/main/java/ch/obermuhlner/scriptengine/java/JavaCompiledScript.java:110-116 | the pull as written throws exactly when the global scope is null and some public field is missing from the engine scope |
| `NullGlobalScope.NullGlobalScopeCounterexample` | ch.obermuhlner.scriptengine.java/src/main/java/ch/obermuhlner/scriptengine/java/JavaCompiledScript.java:110-116 | with a null global scope, an empty engine scope and one public field `counter`, the merge is empty so the push succeeds; the pull as written throws, while the model writes `counter` to the engine scope |

## Left out

- Compiling, diagnostics and class loading (`JavaScriptEngine.compile`, `DynamicClassLoader`): they call the Java compiler and class loader, which are outside this model.
- `getEngine` and the `engine` field: `JavaScriptEngine` is not part of this model.
- Push and pull failures from `IllegalAccessException`: `Field.set` on a `public final` field, and `Field.get` or `Field.set` on a field of a non-public class, throw it. The model treats every listed public field as readable and writable. `IllegalArgumentException` from `Field.set` with a value of the wrong Java type is not modelled either, because values are untyped here.
- A null instance (static-only scripts): the model always has an instance object, and static fields are treated as fields of it.
- A public field hiding an inherited public field of the same name, so that `getFields` lists one name twice: the fields map holds one value per name. `PullAll` still follows the listed order, but the order-free lemmas require distinct names.
- Private state of the instance, such as a private counter: the model's strategy sees only the public fields, which are the only ones push and pull touch.
- The execution strategies, constructor strategies and signature matching: they are not part of this model. The strategy is an arbitrary total function.
- The key rules of `javax.script` `Bindings` (keys must be non-null and non-empty): names are plain strings here.
- Thread safety of shared scopes and instances: evaluation is sequential in the model.
- `CompiledScripts.CompiledScript.PushVariables`: when a name has no field, it states only that each field holds its old or its merged value, because `HashMap` iteration order decides which fields were written before the failure.
- `CompiledScripts.CompiledScript.Eval`: when the global and engine scopes are the same object, it states only the engine scope's contents, which are then the contents of both.

## Findings

| source | as written | input that shows it | evidently intended | confidence | as-written member | corrected member |
|---|---|---|---|---|---|---|
| ch.obermuhlner.scriptengine.java/src/main/java/ch/obermuhlner/scriptengine/java/JavaCompiledScript.java:110-116 | `setBindingsValue` calls `globalBindings.containsKey(name)` without checking for null, although `mergeBindings` (lines 121-122) skips a null global scope | the global scope is null (the global scope of a fresh `SimpleScriptContext`, JavaScriptEngine.java:24, is null until a manager sets one), the engine scope is empty, and the class has a public field `counter`: the push succeeds and the strategy runs, then the pull throws `NullPointerException` | a null global scope holds nothing, so the field is written to the engine scope, as it would be for a global scope without that name | medium, not executed | `NullGlobalScope.NullGlobalScopeCounterexample` | `Environment.PullWithoutGlobal` |

The model uses the corrected rule everywhere: `Environment.SetBinding` writes
to the engine scope when the global scope is null. The code's merge step
skips a null global scope, and the model follows the code.
