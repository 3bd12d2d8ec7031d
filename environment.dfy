/**
 * The two-tier variable environment that a compiled script exchanges with its
 * host: the global scope and the engine scope of a ScriptContext, how the two
 * are merged before a push, and the scope rule that decides where a pulled
 * field value is written back.
 */
module Environment {

  /** A variable name, which is also the name of a public field. */
  type Name = string

  datatype Option<T> = None | Some(value: T)

  /** A mutable Bindings object: the engine scope or the global scope. */
  class Bindings<V> {
    var entries: map<Name, V>

    constructor (entries: map<Name, V>)
      ensures this.entries == entries
    {
      this.entries := entries;
    }
  }

  /** The entries of a tier that may be null; a null tier holds nothing. */
  function Entries<V>(tier: Option<map<Name, V>>): map<Name, V>
  {
    if tier.Some? then tier.value else map[]
  }

  /**
   * The contents of both scopes at one moment. The global scope may be null;
   * the engine scope of a script context never is.
   */
  datatype Tiers<V> = Tiers(global: Option<map<Name, V>>, engine: map<Name, V>)

  // ---------------------------------------------------------------------------
  // Merge
  // ---------------------------------------------------------------------------

  /**
   * What mergeBindings computes: the tiers are copied into one map in the
   * order given, so a later tier overwrites an earlier one, and a null tier
   * is skipped.
   */
  function MergeAll<V>(tiers: seq<Option<map<Name, V>>>): map<Name, V>
  {
    if tiers == [] then map[]
    else MergeAll(tiers[..|tiers| - 1]) + Entries(tiers[|tiers| - 1])
  }

  /** A name is merged exactly when some non-null tier holds it. */
  lemma {:induction false} MergeAllKeys<V>(tiers: seq<Option<map<Name, V>>>, k: Name)
    ensures k in MergeAll(tiers) <==> exists i :: 0 <= i < |tiers| && k in Entries(tiers[i])
  {
    if tiers != [] {
      var init := tiers[..|tiers| - 1];
      MergeAllKeys(init, k);
      if k in MergeAll(tiers) && k !in Entries(tiers[|tiers| - 1]) {
        var i :| 0 <= i < |init| && k in Entries(init[i]);
        assert tiers[i] == init[i];
      }
      if exists i :: 0 <= i < |tiers| && k in Entries(tiers[i]) {
        var i :| 0 <= i < |tiers| && k in Entries(tiers[i]);
        if i < |init| {
          assert init[i] == tiers[i];
        }
      }
    }
  }

  /** The merged value of a name is the one in the last tier that holds it. */
  lemma {:induction false} MergeAllLastWins<V>(tiers: seq<Option<map<Name, V>>>, i: nat, k: Name)
    requires i < |tiers| && k in Entries(tiers[i])
    requires forall j :: i < j < |tiers| ==> k !in Entries(tiers[j])
    ensures k in MergeAll(tiers) && MergeAll(tiers)[k] == Entries(tiers[i])[k]
  {
    var init := tiers[..|tiers| - 1];
    if i < |tiers| - 1 {
      assert init[i] == tiers[i];
      forall j | i < j < |init|
        ensures k !in Entries(init[j])
      {
        assert init[j] == tiers[j];
      }
      MergeAllLastWins(init, i, k);
    }
  }

  /** The map that pushVariables pushes: global scope first, engine scope second. */
  function Merged<V>(t: Tiers<V>): map<Name, V>
  {
    MergeAll([t.global, Some(t.engine)])
  }

  /**
   * The merged names are exactly the names of both scopes; on a collision the
   * engine scope wins; a name only in the global scope keeps its global value.
   */
  lemma MergedTiers<V>(t: Tiers<V>)
    ensures Merged(t).Keys == Entries(t.global).Keys + t.engine.Keys
    ensures forall k :: k in t.engine ==> Merged(t)[k] == t.engine[k]
    ensures forall k :: k in Entries(t.global) && k !in t.engine ==> Merged(t)[k] == Entries(t.global)[k]
  {
    var tiers := [t.global, Some(t.engine)];
    forall k
      ensures k in Merged(t) <==> k in Entries(t.global) || k in t.engine
    {
      MergeAllKeys(tiers, k);
      assert Entries(tiers[0]) == Entries(t.global);
      assert Entries(tiers[1]) == t.engine;
    }
    forall k | k in t.engine
      ensures Merged(t)[k] == t.engine[k]
    {
      MergeAllLastWins(tiers, 1, k);
    }
    forall k | k in Entries(t.global) && k !in t.engine
      ensures Merged(t)[k] == Entries(t.global)[k]
    {
      MergeAllLastWins(tiers, 0, k);
    }
  }

  // ---------------------------------------------------------------------------
  // Pull
  // ---------------------------------------------------------------------------

  /**
   * The scope rule of setBindingsValue: a value goes to the global scope only
   * when the engine scope lacks the name and the global scope holds it.
   */
  predicate WritesGlobal<V>(t: Tiers<V>, name: Name)
  {
    name !in t.engine && t.global.Some? && name in t.global.value
  }

  /** One setBindingsValue call on the tiers' contents. */
  function SetBinding<V>(t: Tiers<V>, name: Name, value: V): Tiers<V>
  {
    if WritesGlobal(t, name) then Tiers(Some(t.global.value[name := value]), t.engine)
    else Tiers(t.global, t.engine[name := value])
  }

  /** pullVariables: one setBindingsValue per public field, in field order. */
  function PullAll<V>(t: Tiers<V>, names: seq<Name>, fields: map<Name, V>): Tiers<V>
    requires forall i :: 0 <= i < |names| ==> names[i] in fields
    decreases |names|
  {
    if names == [] then t
    else PullAll(SetBinding(t, names[0], fields[names[0]]), names[1..], fields)
  }

  /** The names listed in a sequence of fields. */
  function NameSet(names: seq<Name>): set<Name>
  {
    set n | n in names
  }

  predicate Distinct(names: seq<Name>)
  {
    forall i, j :: 0 <= i < j < |names| ==> names[i] != names[j]
  }

  /** The values the reference pull writes to the global scope. */
  function GlobalWrites<V>(t: Tiers<V>, names: set<Name>, fields: map<Name, V>): map<Name, V>
    requires names <= fields.Keys
  {
    map n | n in names && WritesGlobal(t, n) :: fields[n]
  }

  /** The values the reference pull writes to the engine scope. */
  function EngineWrites<V>(t: Tiers<V>, names: set<Name>, fields: map<Name, V>): map<Name, V>
    requires names <= fields.Keys
  {
    map n | n in names && !WritesGlobal(t, n) :: fields[n]
  }

  /**
   * An order-free reference for pull: every name of `names` is placed by the
   * scope rule applied to the tiers as they were before the pull.
   */
  function PullReference<V>(t: Tiers<V>, names: set<Name>, fields: map<Name, V>): Tiers<V>
    requires names <= fields.Keys
  {
    Tiers(
      if t.global.None? then None else Some(t.global.value + GlobalWrites(t, names, fields)),
      t.engine + EngineWrites(t, names, fields))
  }

  /** Writing one name leaves the scope rule unchanged for every other name. */
  lemma SetBindingKeepsRule<V>(t: Tiers<V>, n: Name, value: V, rest: set<Name>, fields: map<Name, V>)
    requires rest <= fields.Keys && n !in rest
    ensures GlobalWrites(SetBinding(t, n, value), rest, fields) == GlobalWrites(t, rest, fields)
    ensures EngineWrites(SetBinding(t, n, value), rest, fields) == EngineWrites(t, rest, fields)
  {
  }

  /** One step of the fold agrees with the reference on the remaining names. */
  lemma SetBindingThenReference<V>(t: Tiers<V>, n: Name, rest: set<Name>, fields: map<Name, V>)
    requires n in fields && rest <= fields.Keys && n !in rest
    ensures PullReference(SetBinding(t, n, fields[n]), rest, fields) == PullReference(t, rest + {n}, fields)
  {
    var v := fields[n];
    var t1 := SetBinding(t, n, v);
    SetBindingKeepsRule(t, n, v, rest, fields);
    var gw, ew := GlobalWrites(t, rest, fields), EngineWrites(t, rest, fields);
    if WritesGlobal(t, n) {
      assert GlobalWrites(t, rest + {n}, fields) == gw[n := v];
      assert EngineWrites(t, rest + {n}, fields) == ew;
      assert t1.global.value + gw == t.global.value + gw[n := v];
    } else {
      assert GlobalWrites(t, rest + {n}, fields) == gw;
      assert EngineWrites(t, rest + {n}, fields) == ew[n := v];
      assert t1.engine + ew == t.engine + ew[n := v];
    }
  }

  /** With distinct field names the order of the pull does not matter. */
  lemma {:induction false} PullAllIsReference<V>(t: Tiers<V>, names: seq<Name>, fields: map<Name, V>)
    requires forall i :: 0 <= i < |names| ==> names[i] in fields
    requires Distinct(names)
    ensures PullAll(t, names, fields) == PullReference(t, NameSet(names), fields)
    decreases |names|
  {
    if names == [] {
      assert PullReference(t, {}, fields).engine == t.engine;
      if t.global.Some? {
        assert PullReference(t, {}, fields).global.value == t.global.value;
      }
    } else {
      var rest := names[1..];
      var t1 := SetBinding(t, names[0], fields[names[0]]);
      assert Distinct(rest);
      PullAllIsReference(t1, rest, fields);
      var restSet := NameSet(rest);
      assert names[0] !in restSet;
      assert NameSet(names) == restSet + {names[0]};
      SetBindingThenReference(t, names[0], restSet, fields);
    }
  }

  /**
   * Where each public field lands: in the global scope if the engine scope
   * lacked it and the global scope held it, otherwise in the engine scope;
   * the other scope keeps its entry for that name.
   */
  lemma PullPlacement<V>(t: Tiers<V>, names: seq<Name>, fields: map<Name, V>)
    requires forall i :: 0 <= i < |names| ==> names[i] in fields
    requires Distinct(names)
    ensures var r := PullAll(t, names, fields);
      forall i :: 0 <= i < |names| && WritesGlobal(t, names[i]) ==>
        names[i] in Entries(r.global) && Entries(r.global)[names[i]] == fields[names[i]] && names[i] !in r.engine
    ensures var r := PullAll(t, names, fields);
      forall i :: 0 <= i < |names| && !WritesGlobal(t, names[i]) ==>
        names[i] in r.engine && r.engine[names[i]] == fields[names[i]] &&
        (names[i] in Entries(r.global) <==> names[i] in Entries(t.global)) &&
        (names[i] in Entries(t.global) ==> Entries(r.global)[names[i]] == Entries(t.global)[names[i]])
  {
    PullAllIsReference(t, names, fields);
  }

  /**
   * Pull touches only names of public fields, never adds a name to the
   * global scope, and never makes a null global scope non-null.
   */
  lemma PullFrame<V>(t: Tiers<V>, names: seq<Name>, fields: map<Name, V>)
    requires forall i :: 0 <= i < |names| ==> names[i] in fields
    requires Distinct(names)
    ensures var r := PullAll(t, names, fields);
      r.global.Some? == t.global.Some? && Entries(r.global).Keys == Entries(t.global).Keys
    ensures var r := PullAll(t, names, fields);
      forall k :: k !in names ==>
        (k in r.engine <==> k in t.engine) && (k in t.engine ==> r.engine[k] == t.engine[k]) &&
        (k in Entries(t.global) ==> Entries(r.global)[k] == Entries(t.global)[k])
  {
    PullAllIsReference(t, names, fields);
  }

  /** An engine entry under a name the pull does not list keeps its value. */
  lemma {:induction false} PullAllKeeps<V>(t: Tiers<V>, names: seq<Name>, fields: map<Name, V>, k: Name)
    requires forall i :: 0 <= i < |names| ==> names[i] in fields
    requires k in t.engine && k !in names
    ensures k in PullAll(t, names, fields).engine && PullAll(t, names, fields).engine[k] == t.engine[k]
    decreases |names|
  {
    if names != [] {
      PullAllKeeps(SetBinding(t, names[0], fields[names[0]]), names[1..], fields, k);
    }
  }

  /**
   * Without a global scope every public field lands in the engine scope with
   * its value, every other engine entry keeps its value, and the global scope
   * stays null.
   */
  lemma {:induction false} PullWithoutGlobal<V>(t: Tiers<V>, names: seq<Name>, fields: map<Name, V>)
    requires forall i :: 0 <= i < |names| ==> names[i] in fields
    requires t.global.None?
    ensures PullAll(t, names, fields).global.None?
    ensures PullAll(t, names, fields).engine.Keys == t.engine.Keys + NameSet(names)
    ensures forall n :: n in names ==>
      n in PullAll(t, names, fields).engine && PullAll(t, names, fields).engine[n] == fields[n]
    ensures forall k :: k in t.engine && k !in names ==>
      k in PullAll(t, names, fields).engine && PullAll(t, names, fields).engine[k] == t.engine[k]
    decreases |names|
  {
    if names != [] {
      var t1 := SetBinding(t, names[0], fields[names[0]]);
      var rest := names[1..];
      PullWithoutGlobal(t1, rest, fields);
      assert NameSet(names) == {names[0]} + NameSet(rest);
      if names[0] !in rest {
        PullAllKeeps(t1, rest, fields, names[0]);
      }
      forall n | n in names
        ensures n in PullAll(t, names, fields).engine && PullAll(t, names, fields).engine[n] == fields[n]
      {
        if n != names[0] {
          assert n in rest;
        }
      }
    }
  }
}
