/** The scope chain of crates/moye/src/env.rs. `Scope` is the value a chain of scopes denotes,
    innermost scope first; `Env` is the mutable scope object the evaluator works on, whose
    `Model()` is a `Scope`. */
module Environment {
  import opened Results
  import opened Syntax

  /** What a name stands for: a value, or a function's parameter names and body. */
  datatype NamedInfo = Binding(value: Val) | Func(params: seq<string>, body: Statement)

  function BindingMissing(name: string): string {
    "binding with name ‘" + name + "’ does not exist"
  }

  function FuncMissing(name: string): string {
    "function with name ‘" + name + "’ does not exist"
  }

  /** `get_binding` once the entry is found: `into_binding`, then `ok_or_else`. */
  function BindingOf(info: Option<NamedInfo>, name: string): (r: Result<Val>)
    ensures r.Ok? || r.Err?
    ensures r.Ok? <==> info.Some? && info.value.Binding?
    ensures r.Ok? ==> info == Some(Binding(r.value))
    ensures r.Err? ==> r.msg == BindingMissing(name)
  {
    match info
    case Some(Binding(v)) => Ok(v)
    case _ => Err(BindingMissing(name))
  }

  /** `get_func` once the entry is found: `into_func`, then `ok_or_else`. */
  function FuncOf(info: Option<NamedInfo>, name: string): (r: Result<(seq<string>, Statement)>)
    ensures r.Ok? || r.Err?
    ensures r.Ok? <==> info.Some? && info.value.Func?
    ensures r.Ok? ==> info == Some(Func(r.value.0, r.value.1))
    ensures r.Err? ==> r.msg == FuncMissing(name)
  {
    match info
    case Some(Func(params, body)) => Ok((params, body))
    case _ => Err(FuncMissing(name))
  }

  /** A scope's own entries and, unless it is the outermost scope, its parent. */
  datatype Scope = Scope(named: map<string, NamedInfo>, parent: Option<Scope>)

  /** `Env::default()`: no entries and no parent. */
  const EmptyScope := Scope(map[], None)

  /** The entry maps of the chain, innermost first. */
  function Maps(sc: Scope): (r: seq<map<string, NamedInfo>>)
    ensures |r| >= 1 && r[0] == sc.named
  {
    match sc.parent
    case None => [sc.named]
    case Some(p) => [sc.named] + Maps(p)
  }

  /** Every name that some scope of the chain holds. */
  function Names(sc: Scope): set<string> {
    sc.named.Keys + match sc.parent case None => {} case Some(p) => Names(p)
  }

  /** `get_named_info`: the entry of the current scope, or else the parent's answer. It
      finds an entry exactly when some scope of the chain holds the name, and the current
      scope's own entry wins. */
  function Lookup(sc: Scope, name: string): (r: Option<NamedInfo>)
    ensures r.Some? <==> name in Names(sc)
    ensures name in sc.named ==> r == Some(sc.named[name])
  {
    if name in sc.named then Some(sc.named[name])
    else match sc.parent
      case None => None
      case Some(p) => Lookup(p, name)
  }

  /** The `i`-th map of the chain holds `name` as `info`, and no nearer map holds `name`. */
  ghost predicate NearestAt(ms: seq<map<string, NamedInfo>>, name: string, info: NamedInfo, i: int) {
    0 <= i < |ms| && name in ms[i] && ms[i][name] == info &&
    forall j :: 0 <= j < i ==> name !in ms[j]
  }

  lemma {:induction false} LookupGivesNearest(sc: Scope, name: string, info: NamedInfo)
    requires Lookup(sc, name) == Some(info)
    ensures exists i :: NearestAt(Maps(sc), name, info, i)
  {
    if name in sc.named {
      assert NearestAt(Maps(sc), name, info, 0);
    } else {
      var p := sc.parent.value;
      LookupGivesNearest(p, name, info);
      var i :| NearestAt(Maps(p), name, info, i);
      var ms := Maps(sc);
      assert ms == [sc.named] + Maps(p);
      forall j | 0 <= j < i + 1 ensures name !in ms[j] {
        if j > 0 { assert ms[j] == Maps(p)[j - 1]; }
      }
      assert NearestAt(ms, name, info, i + 1);
    }
  }

  lemma {:induction false} NearestGivesLookup(sc: Scope, name: string, info: NamedInfo, i: int)
    requires NearestAt(Maps(sc), name, info, i)
    ensures Lookup(sc, name) == Some(info)
    decreases i
  {
    if i > 0 {
      var ms := Maps(sc);
      assert name !in sc.named;
      var p := sc.parent.value;
      assert ms == [sc.named] + Maps(p);
      forall j | 0 <= j < i - 1 ensures name !in Maps(p)[j] {
        assert Maps(p)[j] == ms[j + 1];
      }
      assert NearestAt(Maps(p), name, info, i - 1);
      NearestGivesLookup(p, name, info, i - 1);
    }
  }

  /** Lookup answers with the entry of the nearest scope that holds the name. */
  lemma LookupFindsNearest(sc: Scope, name: string, info: NamedInfo)
    ensures Lookup(sc, name) == Some(info) <==>
      exists i :: 0 <= i < |Maps(sc)| && name in Maps(sc)[i] && Maps(sc)[i][name] == info &&
                  forall j :: 0 <= j < i ==> name !in Maps(sc)[j]
  {
    if Lookup(sc, name) == Some(info) {
      LookupGivesNearest(sc, name, info);
    }
    var ms := Maps(sc);
    if exists i :: 0 <= i < |ms| && name in ms[i] && ms[i][name] == info &&
                   forall j :: 0 <= j < i ==> name !in ms[j] {
      var i :| 0 <= i < |ms| && name in ms[i] && ms[i][name] == info &&
               forall j :: 0 <= j < i ==> name !in ms[j];
      assert NearestAt(ms, name, info, i);
      NearestGivesLookup(sc, name, info, i);
    }
  }

  /** Lookup fails exactly when no scope of the chain holds the name. */
  lemma {:induction false} LookupFailsOnlyWhenAbsent(sc: Scope, name: string)
    ensures Lookup(sc, name).None? <==> forall i :: 0 <= i < |Maps(sc)| ==> name !in Maps(sc)[i]
  {
    var ms := Maps(sc);
    if name in sc.named {
      assert name in ms[0];
    } else {
      match sc.parent
      case None =>
      case Some(p) =>
        LookupFailsOnlyWhenAbsent(p, name);
        var ps := Maps(p);
        assert ms == [sc.named] + ps;
        assert Lookup(sc, name) == Lookup(p, name);
        if Lookup(sc, name).None? {
          forall i | 0 <= i < |ms| ensures name !in ms[i] {
            if i > 0 {
              assert ms[i] == ps[i - 1];
              assert Lookup(p, name).None?;
              assert forall k :: 0 <= k < |Maps(p)| ==> name !in Maps(p)[k];
              assert 0 <= i - 1 < |ps|;
              assert name !in ps[i - 1];
            }
          }
        } else {
          var i :| 0 <= i < |ps| && name in ps[i];
          assert ms[i + 1] == ps[i];
        }
    }
  }

  /** `get_binding`: the value of the nearest entry, when that entry is a binding. */
  function GetBinding(sc: Scope, name: string): (r: Result<Val>)
    ensures r.Ok? || r.Err?
    ensures r.Ok? <==> Lookup(sc, name).Some? && Lookup(sc, name).value.Binding?
    ensures r.Ok? ==> Lookup(sc, name) == Some(Binding(r.value))
    ensures r.Err? ==> r.msg == BindingMissing(name)
  {
    BindingOf(Lookup(sc, name), name)
  }

  /** `get_func`: the parameters and body of the nearest entry, when that entry is a
      function. */
  function GetFunc(sc: Scope, name: string): (r: Result<(seq<string>, Statement)>)
    ensures r.Ok? || r.Err?
    ensures r.Ok? <==> Lookup(sc, name).Some? && Lookup(sc, name).value.Func?
    ensures r.Ok? ==> Lookup(sc, name) == Some(Func(r.value.0, r.value.1))
    ensures r.Err? ==> r.msg == FuncMissing(name)
  {
    FuncOf(Lookup(sc, name), name)
  }

  /** `store_binding` / `store_func` on a scope value: the entry replaces whatever the
      current scope held under that name, and only the current scope changes. */
  function Store(sc: Scope, name: string, info: NamedInfo): (r: Scope)
    ensures r.parent == sc.parent
    ensures Lookup(r, name) == Some(info)
    ensures forall other :: other != name ==> Lookup(r, other) == Lookup(sc, other)
  {
    Scope(sc.named[name := info], sc.parent)
  }

  /** `create_child`: an empty scope under `sc`, which answers every lookup as `sc` does. */
  function Child(sc: Scope): (r: Scope)
    ensures Maps(r) == [map[]] + Maps(sc)
    ensures forall name :: Lookup(r, name) == Lookup(sc, name)
  {
    Scope(map[], Some(sc))
  }

  /** In a default environment every lookup fails. */
  lemma DefaultLookupFails(name: string)
    ensures GetBinding(EmptyScope, name) == Err(BindingMissing(name))
    ensures GetFunc(EmptyScope, name) == Err(FuncMissing(name))
  {
  }

  /** A function entry nearer than a binding hides it from `get_binding`, and vice versa. */
  lemma NearerEntryHides(sc: Scope, name: string, v: Val, params: seq<string>, body: Statement)
    ensures GetBinding(Child(Store(sc, name, Binding(v))).(named := map[name := Func(params, body)]), name)
            == Err(BindingMissing(name))
    ensures GetFunc(Store(Child(Store(sc, name, Func(params, body))), name, Binding(v)), name)
            == Err(FuncMissing(name))
  {
  }

  /** The mutable scope object. `named` is updated in place; `parent` never changes. */
  class Env {
    var named: map<string, NamedInfo>
    const parent: Env?
    ghost const Repr: set<object>

    /** The parent chain is finite and acyclic, and `Repr` is the set of its scopes. */
    ghost predicate Valid()
      decreases Repr
    {
      this in Repr &&
      (parent == null ==> Repr == {this}) &&
      (parent != null ==>
        parent in Repr && this !in parent.Repr && Repr == {this} + parent.Repr && parent.Valid())
    }

    /** The scope value that this object and its ancestors denote. */
    ghost function Model(): Scope
      requires Valid()
      reads Repr
      decreases Repr
    {
      Scope(named, if parent == null then None else Some(parent.Model()))
    }

    /** `Env::default()`. */
    constructor ()
      ensures Valid() && fresh(Repr)
      ensures Model() == EmptyScope
    {
      named := map[];
      parent := null;
      Repr := {this};
    }

    /** `create_child`: an empty scope whose parent is `p`. */
    constructor CreateChild(p: Env)
      requires p.Valid()
      ensures Valid() && fresh(Repr - p.Repr) && parent == p
      ensures Model() == Child(p.Model())
    {
      named := map[];
      parent := p;
      Repr := {this} + p.Repr;
    }

    /** `get_named_info`, walking up the parent chain. */
    function GetNamedInfo(name: string): (r: Option<NamedInfo>)
      requires Valid()
      reads Repr
      decreases Repr
      ensures r == Lookup(Model(), name)
    {
      if name in named then Some(named[name])
      else if parent == null then None
      else parent.GetNamedInfo(name)
    }

    method StoreBinding(name: string, value: Val)
      requires Valid()
      modifies this
      ensures Valid()
      ensures Model() == Store(old(Model()), name, Binding(value))
    {
      named := named[name := Binding(value)];
    }

    method StoreFunc(name: string, params: seq<string>, body: Statement)
      requires Valid()
      modifies this
      ensures Valid()
      ensures Model() == Store(old(Model()), name, Func(params, body))
    {
      named := named[name := Func(params, body)];
    }
  }

  /** Storing into a child object leaves the scope of its parent object as it was, although
      the child reaches the parent through a shared reference: the child answers the new
      name with the stored binding and every other name as the parent does. */
  method StoreInChildLeavesParent(p: Env, name: string, v: Val) returns (c: Env)
    requires p.Valid()
    ensures fresh(c) && c.Valid() && c.parent == p
    ensures p.Valid() && p.Model() == old(p.Model())
    ensures c.GetNamedInfo(name) == Some(Binding(v))
    ensures forall other :: other != name ==> c.GetNamedInfo(other) == p.GetNamedInfo(other)
  {
    c := new Env.CreateChild(p);
    c.StoreBinding(name, v);
  }
}
