/**
 * setBindingsValue as written: it asks the global scope whether it holds a
 * name without checking that the global scope exists, although
 * mergeBindings skips a null scope. With no global scope, pulling a public
 * field that the engine scope does not hold throws a NullPointerException,
 * after the strategy has already run. The rest of the model uses
 * Environment.SetBinding, which treats a missing global scope as empty.
 */
module NullGlobalScope {
  import opened Environment

  /** One setBindingsValue call as written; None stands for the NullPointerException. */
  function SetBindingAsWritten<V>(t: Tiers<V>, name: Name, value: V): Option<Tiers<V>>
  {
    if name in t.engine then Some(Tiers(t.global, t.engine[name := value]))
    else if t.global.None? then None
    else if name in t.global.value then Some(Tiers(Some(t.global.value[name := value]), t.engine))
    else Some(Tiers(t.global, t.engine[name := value]))
  }

  /** pullVariables as written: the first exception ends the pull. */
  function PullAllAsWritten<V>(t: Tiers<V>, names: seq<Name>, fields: map<Name, V>): Option<Tiers<V>>
    requires forall i :: 0 <= i < |names| ==> names[i] in fields
    decreases |names|
  {
    if names == [] then Some(t)
    else match SetBindingAsWritten(t, names[0], fields[names[0]])
      case None => None
      case Some(t1) => PullAllAsWritten(t1, names[1..], fields)
  }

  /** With a global scope present, the code as written and the model agree. */
  lemma {:induction false} AsWrittenAgreesWithGlobalScope<V>(t: Tiers<V>, names: seq<Name>, fields: map<Name, V>)
    requires forall i :: 0 <= i < |names| ==> names[i] in fields
    requires t.global.Some?
    ensures PullAllAsWritten(t, names, fields) == Some(PullAll(t, names, fields))
    decreases |names|
  {
    if names != [] {
      var t1 := SetBinding(t, names[0], fields[names[0]]);
      assert SetBindingAsWritten(t, names[0], fields[names[0]]) == Some(t1);
      AsWrittenAgreesWithGlobalScope(t1, names[1..], fields);
    }
  }

  /**
   * The pull as written fails exactly when there is no global scope and
   * some public field is missing from the engine scope.
   */
  lemma {:induction false} AsWrittenFailsIff<V>(t: Tiers<V>, names: seq<Name>, fields: map<Name, V>)
    requires forall i :: 0 <= i < |names| ==> names[i] in fields
    ensures PullAllAsWritten(t, names, fields).None? <==>
      t.global.None? && exists i :: 0 <= i < |names| && names[i] !in t.engine
    decreases |names|
  {
    if names != [] {
      if t.global.Some? {
        AsWrittenAgreesWithGlobalScope(t, names, fields);
      } else if names[0] in t.engine {
        var t1 := Tiers(t.global, t.engine[names[0] := fields[names[0]]]);
        AsWrittenFailsIff(t1, names[1..], fields);
        assert t1.engine.Keys == t.engine.Keys;
        if exists i :: 0 <= i < |names| && names[i] !in t.engine {
          var i :| 0 <= i < |names| && names[i] !in t.engine;
          assert names[1..][i - 1] == names[i];
        }
        if exists j :: 0 <= j < |names[1..]| && names[1..][j] !in t1.engine {
          var j :| 0 <= j < |names[1..]| && names[1..][j] !in t1.engine;
          assert names[j + 1] == names[1..][j];
        }
      }
    }
  }

  /**
   * The input that shows it: no global scope, an empty engine scope and a
   * class with one public field. Merging and pushing succeed, the pull as
   * written throws, and the model writes the field to the engine scope.
   */
  lemma NullGlobalScopeCounterexample<V>(value: V)
    ensures var t := Tiers(None, map[]);
      && Merged(t) == map[]
      && PullAllAsWritten(t, ["counter"], map["counter" := value]).None?
      && PullAll(t, ["counter"], map["counter" := value]) == Tiers(None, map["counter" := value])
  {
    var t: Tiers<V> := Tiers(None, map[]);
    MergedTiers(t);
  }
}
