/**
 * A compiled Java script: the compiled class, its single instance and the
 * execution strategy. Evaluating it against a script context pushes the
 * merged variables into the instance's public fields, runs the strategy, and
 * pulls every public field back into the context.
 */
module CompiledScripts {
  import opened Environment

  /**
   * The compiled class, as far as push and pull see it: the names of its
   * public fields, in the order in which getFields lists them.
   */
  datatype ScriptClass = ScriptClass(publicFields: seq<Name>)

  /** The instance of the compiled class: the current values of its public fields. */
  class ScriptInstance<V> {
    var fields: map<Name, V>

    constructor (fields: map<Name, V>)
      ensures this.fields == fields
    {
      this.fields := fields;
    }
  }

  /**
   * What one run of the execution strategy does to the instance: the public
   * fields it wrote, and the value it returned or the exception it raised.
   */
  datatype Execution<V> =
    | Returned(value: V, written: map<Name, V>)
    | Raised(message: string, written: map<Name, V>)

  /** An execution strategy, as a function of the instance's public fields. */
  type ExecutionStrategy<!V> = map<Name, V> -> Execution<V>

  /** The causes of the ScriptException that eval throws. */
  datatype ScriptError =
    | NoSuchField(name: Name)
    | ExecutionFailed(message: string)

  datatype EvalResult<V> = Success(value: V) | Failure(error: ScriptError)

  /** The two scopes a ScriptContext hands to eval; the global scope may be null. */
  datatype ScriptContext<V> = ScriptContext(global: Bindings?<V>, engine: Bindings<V>)

  /** The current contents of a context's two scopes. */
  function Snapshot<V>(context: ScriptContext<V>): Tiers<V>
    reads context.global, context.engine
  {
    Tiers(if context.global == null then None else Some(context.global.entries), context.engine.entries)
  }

  /**
   * The public fields after the strategy wrote `written`; a name that is
   * not a field of the instance cannot be written.
   */
  function Assign<V>(fields: map<Name, V>, written: map<Name, V>): map<Name, V>
  {
    map n | n in fields :: if n in written then written[n] else fields[n]
  }

  /** A run that leaves every public field as it found it. */
  ghost predicate LeavesFieldsUnchanged<V>(execution: Execution<V>, fields: map<Name, V>)
  {
    forall n :: n in fields && n in execution.written ==> execution.written[n] == fields[n]
  }

  /**
   * How one eval ends: the push found a name without a public field (which
   * fields were written by then is left open), the strategy raised, or the
   * strategy returned and the fields were pulled back.
   */
  datatype Outcome<V> =
    | PushFailed
    | Threw(message: string, fields: map<Name, V>)
    | Evaluated(value: V, fields: map<Name, V>, tiers: Tiers<V>)

  /** One eval on values: merge, push, execute, pull. */
  function Evaluate<V>(cls: ScriptClass, fields: map<Name, V>, strategy: ExecutionStrategy<V>, t: Tiers<V>): Outcome<V>
    requires fields.Keys == NameSet(cls.publicFields)
  {
    var merged := Merged(t);
    if !(merged.Keys <= fields.Keys) then PushFailed
    else
      var pushed := fields + merged;
      var execution := strategy(pushed);
      var after := Assign(pushed, execution.written);
      if execution.Raised? then Threw(execution.message, after)
      else Evaluated(execution.value, after, PullAll(t, cls.publicFields, after))
  }

  /**
   * The push fails exactly when one of the two scopes holds a name that is
   * no public field, and then the outcome does not depend on the strategy:
   * the strategy is never run.
   */
  lemma UnknownNameFailsBeforeExecution<V>(cls: ScriptClass, fields: map<Name, V>,
                                           strategy: ExecutionStrategy<V>, other: ExecutionStrategy<V>, t: Tiers<V>)
    requires fields.Keys == NameSet(cls.publicFields)
    ensures Evaluate(cls, fields, strategy, t).PushFailed? <==>
      (exists n :: n in t.engine && n !in fields) || (exists n :: n in Entries(t.global) && n !in fields)
    ensures Evaluate(cls, fields, strategy, t).PushFailed? ==> Evaluate(cls, fields, other, t).PushFailed?
  {
    MergedTiers(t);
  }

  /**
   * After a successful push every public field named in either scope holds
   * that scope's value, the engine scope's on a collision, and every other
   * field keeps its value.
   */
  lemma PushedValues<V>(fields: map<Name, V>, t: Tiers<V>)
    requires Merged(t).Keys <= fields.Keys
    ensures (fields + Merged(t)).Keys == fields.Keys
    ensures forall n :: n in fields ==>
      (fields + Merged(t))[n] ==
        if n in t.engine then t.engine[n]
        else if n in Entries(t.global) then Entries(t.global)[n]
        else fields[n]
  {
    MergedTiers(t);
  }

  /**
   * Push, then a strategy that leaves every field alone, then pull: both
   * scopes keep every entry they had, the global scope gains nothing, and
   * the only new entries are engine-scope entries for the fields named in
   * neither scope, holding the values those fields had before.
   */
  lemma RoundTrip<V>(cls: ScriptClass, fields: map<Name, V>, strategy: ExecutionStrategy<V>, t: Tiers<V>)
    requires fields.Keys == NameSet(cls.publicFields) && Distinct(cls.publicFields)
    requires Merged(t).Keys <= fields.Keys
    requires strategy(fields + Merged(t)).Returned?
    requires LeavesFieldsUnchanged(strategy(fields + Merged(t)), fields + Merged(t))
    ensures var out := Evaluate(cls, fields, strategy, t);
      && out.Evaluated?
      && out.tiers.global == t.global
      && (forall k :: k in t.engine ==> k in out.tiers.engine && out.tiers.engine[k] == t.engine[k])
      && (forall k :: k in out.tiers.engine && k !in t.engine ==>
            k in fields && k !in Entries(t.global) && out.tiers.engine[k] == fields[k])
  {
    var pushed := fields + Merged(t);
    var after := Assign(pushed, strategy(pushed).written);
    PushedValues(fields, t);
    assert after == pushed;
    var names := cls.publicFields;
    assert forall i :: 0 <= i < |names| ==> names[i] in after;
    var r := PullAll(t, names, after);
    PullPlacement(t, names, after);
    PullFrame(t, names, after);
    assert forall k :: k in fields <==> k in names;
    if t.global.Some? {
      forall k | k in t.global.value
        ensures k in r.global.value && r.global.value[k] == t.global.value[k]
      {
        if k in names {
          var i :| 0 <= i < |names| && names[i] == k;
        }
      }
      assert r.global.value == t.global.value;
    }
    forall k | k in t.engine
      ensures k in r.engine && r.engine[k] == t.engine[k]
    {
      if k in names {
        var i :| 0 <= i < |names| && names[i] == k;
      }
    }
    forall k | k in r.engine && k !in t.engine
      ensures k in fields && k !in Entries(t.global) && r.engine[k] == fields[k]
    {
      var i :| 0 <= i < |names| && names[i] == k;
    }
  }

  /**
   * Two evaluations sharing one global scope, each with a fresh, empty
   * engine scope: a field that the first one wrote back to the global scope
   * is pushed with that value by the second, and a field that the first one
   * could only write to its own engine scope is not seen by the second.
   */
  lemma SharedGlobalScope<V>(cls: ScriptClass, fields: map<Name, V>, strategy: ExecutionStrategy<V>,
                             global: map<Name, V>, n: Name)
    requires fields.Keys == NameSet(cls.publicFields) && Distinct(cls.publicFields)
    requires Evaluate(cls, fields, strategy, Tiers(Some(global), map[])).Evaluated?
    requires n in fields
    ensures var out := Evaluate(cls, fields, strategy, Tiers(Some(global), map[]));
      var next := Merged(Tiers(out.tiers.global, map[]));
      && (n in global ==> n in next && next[n] == out.fields[n])
      && (n !in global ==> n !in next)
  {
    var t := Tiers(Some(global), map[]);
    var out := Evaluate(cls, fields, strategy, t);
    var names := cls.publicFields;
    assert forall i :: 0 <= i < |names| ==> names[i] in out.fields;
    PullPlacement(t, names, out.fields);
    PullFrame(t, names, out.fields);
    MergedTiers(Tiers(out.tiers.global, map[]));
    var i :| 0 <= i < |names| && names[i] == n;
  }

  class CompiledScript<V> {
    const instanceClass: ScriptClass
    const instance: ScriptInstance<V>
    var executionStrategy: ExecutionStrategy<V>

    /** The instance holds exactly the public fields its class declares. */
    ghost predicate Valid()
      reads this, instance
    {
      instance.fields.Keys == NameSet(instanceClass.publicFields)
    }

    constructor (instanceClass: ScriptClass, instance: ScriptInstance<V>, executionStrategy: ExecutionStrategy<V>)
      requires instance.fields.Keys == NameSet(instanceClass.publicFields)
      ensures Valid()
      ensures this.instanceClass == instanceClass && this.instance == instance
      ensures this.executionStrategy == executionStrategy
      ensures instance.fields == old(instance.fields)
    {
      this.instanceClass := instanceClass;
      this.instance := instance;
      this.executionStrategy := executionStrategy;
    }

    /** Later evals run `executionStrategy`; class and instance stay as they are. */
    method SetExecutionStrategy(executionStrategy: ExecutionStrategy<V>)
      modifies this`executionStrategy
      ensures this.executionStrategy == executionStrategy
    {
      this.executionStrategy := executionStrategy;
    }

    /**
     * Evaluates the script against `context`. Fails without running the
     * strategy when a variable has no public field; otherwise returns
     * exactly what the strategy returns, after pulling every public field
     * back into the scope the scope rule picks.
     */
    method Eval(context: ScriptContext<V>) returns (r: EvalResult<V>)
      requires Valid()
      modifies instance, context.global, context.engine
      ensures Valid()
      ensures var t0 := old(Snapshot(context));
        var out := Evaluate(instanceClass, old(instance.fields), executionStrategy, t0);
        out.PushFailed? ==>
          && r.Failure? && r.error.NoSuchField?
          && r.error.name in Merged(t0) && r.error.name !in instance.fields
          && (forall n :: n in instance.fields ==>
                instance.fields[n] == old(instance.fields)[n] || (n in Merged(t0) && instance.fields[n] == Merged(t0)[n]))
          && Snapshot(context) == t0
      ensures var t0 := old(Snapshot(context));
        var out := Evaluate(instanceClass, old(instance.fields), executionStrategy, t0);
        out.Threw? ==>
          && r == Failure(ExecutionFailed(out.message))
          && instance.fields == out.fields
          && Snapshot(context) == t0
      ensures var t0 := old(Snapshot(context));
        var out := Evaluate(instanceClass, old(instance.fields), executionStrategy, t0);
        out.Evaluated? ==>
          && r == Success(out.value)
          && instance.fields == out.fields
          && context.engine.entries == out.tiers.engine
          && (context.global != context.engine ==> Snapshot(context) == out.tiers)
    {
      var missing := PushVariables(context);
      if missing.Some? {
        return Failure(NoSuchField(missing.value));
      }
      var execution := executionStrategy(instance.fields);
      instance.fields := Assign(instance.fields, execution.written);
      if execution.Raised? {
        return Failure(ExecutionFailed(execution.message));
      }
      PullVariables(context);
      r := Success(execution.value);
    }

    /**
     * Writes every merged variable into the public field of the same name,
     * in no particular order, and stops at the first name that has no such
     * field.
     */
    method PushVariables(context: ScriptContext<V>) returns (missing: Option<Name>)
      requires Valid()
      modifies instance
      ensures Valid()
      ensures var merged := Merged(Snapshot(context));
        && (missing.None? <==> merged.Keys <= old(instance.fields).Keys)
        && (missing.Some? ==> missing.value in merged && missing.value !in instance.fields)
        && (missing.None? ==> instance.fields == old(instance.fields) + merged)
        && (forall n :: n in instance.fields ==>
              instance.fields[n] == old(instance.fields)[n] || (n in merged && instance.fields[n] == merged[n]))
    {
      var merged := MergeBindings([if context.global == null then None else Some(context.global.entries),
                                   Some(context.engine.entries)]);
      var remaining := merged.Keys;
      while remaining != {}
        invariant remaining <= merged.Keys
        invariant instance.fields.Keys == old(instance.fields).Keys
        invariant forall n :: n in merged && n !in remaining ==> n in instance.fields
        invariant forall n :: n in instance.fields ==>
          instance.fields[n] == if n in merged && n !in remaining then merged[n] else old(instance.fields)[n]
        decreases remaining
      {
        var name :| name in remaining;
        if name !in instanceClass.publicFields {
          return Some(name);
        }
        instance.fields := instance.fields[name := merged[name]];
        remaining := remaining - {name};
      }
      missing := None;
    }

    /**
     * Copies the tiers into one map in the order given; a later tier
     * overwrites an earlier one and a null tier is skipped.
     */
    static method MergeBindings(bindingsToMerge: seq<Option<map<Name, V>>>) returns (variables: map<Name, V>)
      ensures variables == MergeAll(bindingsToMerge)
    {
      variables := map[];
      var i := 0;
      while i < |bindingsToMerge|
        invariant 0 <= i <= |bindingsToMerge|
        invariant variables == MergeAll(bindingsToMerge[..i])
      {
        if bindingsToMerge[i].Some? {
          var bindings := bindingsToMerge[i].value;
          ghost var before := variables;
          var remaining := bindings.Keys;
          while remaining != {}
            invariant remaining <= bindings.Keys
            invariant variables == before + map k | k in bindings.Keys - remaining :: bindings[k]
            decreases remaining
          {
            var key :| key in remaining;
            variables := variables[key := bindings[key]];
            remaining := remaining - {key};
          }
          assert variables == before + bindings;
        }
        assert bindingsToMerge[..i + 1][..i] == bindingsToMerge[..i];
        i := i + 1;
      }
      assert bindingsToMerge[..i] == bindingsToMerge;
    }

    /** Writes every public field, in field order, back into the context. */
    method PullVariables(context: ScriptContext<V>)
      requires Valid()
      modifies context.global, context.engine
      ensures Valid()
      ensures var pulled := PullAll(old(Snapshot(context)), instanceClass.publicFields, instance.fields);
        && context.engine.entries == pulled.engine
        && (context.global != context.engine ==> Snapshot(context) == pulled)
    {
      ghost var t0 := Snapshot(context);
      ghost var model := t0;
      var fields := instanceClass.publicFields;
      var i := 0;
      while i < |fields|
        invariant 0 <= i <= |fields|
        invariant PullAll(model, fields[i..], instance.fields) == PullAll(t0, fields, instance.fields)
        invariant context.engine.entries == model.engine
        invariant context.global != context.engine ==> Snapshot(context) == model
        invariant context.global == context.engine ==>
          model.global == t0.global == Some(t0.engine) && t0.engine.Keys <= model.engine.Keys
      {
        var name := fields[i];
        var value := instance.fields[name];
        assert fields[i..][1..] == fields[i + 1..];
        SetBindingsValue(context, name, value);
        model := SetBinding(model, name, value);
        i := i + 1;
      }
    }

    /**
     * The scope rule for one pulled field: the global scope if the engine
     * scope lacks the name and the global scope holds it, else the engine
     * scope.
     */
    static method SetBindingsValue(context: ScriptContext<V>, name: Name, value: V)
      modifies context.global, context.engine
      ensures context.engine.entries == SetBinding(old(Snapshot(context)), name, value).engine
      ensures context.global != context.engine ==> Snapshot(context) == SetBinding(old(Snapshot(context)), name, value)
    {
      if name !in context.engine.entries && context.global != null && name in context.global.entries {
        context.global.entries := context.global.entries[name := value];
      } else {
        context.engine.entries := context.engine.entries[name := value];
      }
    }
  }
}
