/** Command handlers and their registration (`register`, `validateSagaDispatches`). */
module Handlers {
  import opened Basics
  import opened CommandBus

  datatype Via = ViaContext | ViaCapturedBus

  /** A handler body as the tree of what it does next. `Act` is a read or a write through
      the repos or a call to the outside; `Call` sends a command, through the saga context or through a
      bus object the handler got hold of some other way, and COMMIT of its attempt k ends as
      `commit(k)` says; what comes next may depend on how each of them ended. */
  datatype Prog =
    | Done(outcome: Outcome)
    | Act(act: Store -> (Outcome, Store), next: Outcome -> Prog)
    | Call(via: Via, command: string, commit: nat -> Option<Error>, next: Outcome -> Prog)
    | OnCompensate(comp: Compensation, rest: Prog)

  /** A compensation: its serialisable description and the closure that undoes the step, which
      may do whatever a handler body may, `ctx.dispatch` included. */
  datatype Compensation = Compensation(action: int, undo: Prog)

  datatype Handler =
    | Transactional(body: nat -> Prog)
    | Saga(dispatches: seq<string>, flow: Prog)
    | Unknown(kind: string)

  /** A JavaScript Map: entries in the order their names were first set. */
  type Registry = seq<(string, Handler)>

  function Lookup(reg: Registry, name: string): (r: Option<Handler>)
    ensures r.Some? <==> name in Names(reg)
    ensures r.Some? ==> (name, r.value) in reg
  {
    if reg == [] then None
    else if reg[0].0 == name then Some(reg[0].1)
    else Lookup(reg[1..], name)
  }

  ghost function Names(reg: Registry): set<string> {
    set e <- reg :: e.0
  }

  predicate IsSaga(reg: Registry, name: string) {
    Lookup(reg, name).Some? && Lookup(reg, name).value.Saga?
  }

  predicate IsHandler(reg: Registry, name: string) {
    Lookup(reg, name).Some? && Lookup(reg, name).value.Transactional?
  }

  predicate Distinct(reg: Registry) {
    forall i, j :: 0 <= i < j < |reg| ==> reg[i].0 != reg[j].0
  }

  ghost predicate KnownKinds(reg: Registry) {
    forall e <- reg :: !e.1.Unknown?
  }

  /** No registered saga declares that it dispatches a registered saga. */
  ghost predicate FlatSagas(reg: Registry) {
    forall e <- reg, inner :: e.1.Saga? && inner in e.1.dispatches ==> !IsSaga(reg, inner)
  }

  class Bus {
    var handlers: Registry

    constructor ()
      ensures handlers == []
    {
      handlers := [];
    }

    /** The first violation in registration order, if there is one. */
    method ValidateSagaDispatches() returns (error: Option<Error>)
      ensures error.None? <==> FlatSagas(handlers)
      ensures error.Some? ==> error.value.NestedSaga? && IsSaga(handlers, error.value.inner)
    {
      for i := 0 to |handlers|
        invariant forall k, inner :: 0 <= k < i && handlers[k].1.Saga? && inner in handlers[k].1.dispatches ==> !IsSaga(handlers, inner)
      {
        var (outerName, outer) := handlers[i];
        if !outer.Saga? {
          continue;
        }
        for j := 0 to |outer.dispatches|
          invariant forall k :: 0 <= k < j ==> !IsSaga(handlers, outer.dispatches[k])
        {
          var innerName := outer.dispatches[j];
          if IsSaga(handlers, innerName) {
            assert handlers[i] in handlers && innerName in outer.dispatches;
            return Some(NestedSaga(outerName, innerName));
          }
        }
      }
      return None;
    }

    /** Success is reported exactly when the name is new, the kind is known and the enlarged
        registry is flat. The handler is inserted before the sagas are checked, so a bus whose
        registration failed that last check still holds the offending handler. */
    method Register(name: string, handler: Handler) returns (error: Option<Error>)
      modifies this
      ensures error == None <==> name !in Names(old(handlers)) && !handler.Unknown? && FlatSagas(old(handlers) + [(name, handler)])
      ensures handlers == if name in Names(old(handlers)) || handler.Unknown? then old(handlers) else old(handlers) + [(name, handler)]
      ensures name in Names(old(handlers)) ==> error == Some(DuplicateHandler(name))
      ensures name !in Names(old(handlers)) && handler.Unknown? ==> error == Some(UnknownKind(name))
      ensures name !in Names(old(handlers)) && !handler.Unknown? && error != None ==> error.value.NestedSaga? && !FlatSagas(handlers)
    {
      if Lookup(handlers, name).Some? {
        return Some(DuplicateHandler(name));
      }
      if handler.Unknown? {
        return Some(UnknownKind(name));
      }
      handlers := handlers + [(name, handler)];
      error := ValidateSagaDispatches();
    }

    /** Registers a whole composition root, stopping at the first throw. */
    method RegisterAll(list: Registry) returns (ok: bool)
      requires handlers == []
      modifies this
      ensures ok <==> Distinct(list) && KnownKinds(list) && FlatSagas(list)
      ensures ok ==> handlers == list
    {
      for i := 0 to |list|
        invariant handlers == list[..i]
        invariant Distinct(list[..i]) && KnownKinds(list[..i]) && FlatSagas(list[..i])
      {
        var error := Register(list[i].0, list[i].1);
        assert list[..i + 1] == list[..i] + [list[i]];
        RegisterIsIncremental(list[..i], list[i].0, list[i].1);
        if error.Some? {
          PrefixOfGoodIsGood(list, i + 1);
          return false;
        }
      }
      assert list[..|list|] == list;
      return true;
    }
  }

  lemma RegisterIsIncremental(reg: Registry, name: string, handler: Handler)
    requires Distinct(reg) && KnownKinds(reg)
    ensures Distinct(reg + [(name, handler)]) <==> name !in Names(reg)
    ensures KnownKinds(reg + [(name, handler)]) <==> !handler.Unknown?
  {
    var more := reg + [(name, handler)];
    assert more[|reg|] == (name, handler);
    forall i | 0 <= i < |reg|
      ensures more[i] == reg[i] && reg[i].0 in Names(reg)
    {
      assert reg[i] in reg;
    }
    if name in Names(reg) {
      var e :| e in reg && e.0 == name;
      var i :| 0 <= i < |reg| && reg[i] == e;
      assert more[i].0 == more[|reg|].0;
    }
    forall e | e in more
      ensures e in reg || e == (name, handler)
    {
    }
    assert forall e <- reg :: e in more;
    assert (name, handler) in more;
  }

  lemma {:induction false} LookupInPrefix(reg: Registry, n: nat, name: string)
    requires n <= |reg| && name in Names(reg[..n])
    ensures Lookup(reg, name) == Lookup(reg[..n], name)
  {
    if n > 0 && reg[0].0 != name {
      assert reg[..n][1..] == reg[1..][..n - 1];
      var e :| e in reg[..n] && e.0 == name;
      assert e in reg[1..][..n - 1];
      LookupInPrefix(reg[1..], n - 1, name);
    }
  }

  lemma PrefixOfGoodIsGood(reg: Registry, n: nat)
    requires n <= |reg|
    ensures Distinct(reg) ==> Distinct(reg[..n])
    ensures KnownKinds(reg) ==> KnownKinds(reg[..n])
    ensures FlatSagas(reg) ==> FlatSagas(reg[..n])
  {
    if FlatSagas(reg) {
      forall e, inner | e in reg[..n] && e.1.Saga? && inner in e.1.dispatches
        ensures !IsSaga(reg[..n], inner)
      {
        assert e in reg && !IsSaga(reg, inner);
        if Lookup(reg[..n], inner).Some? {
          LookupInPrefix(reg, n, inner);
        }
      }
    }
  }

  lemma {:induction false} LookupFinds(reg: Registry, name: string, handler: Handler)
    requires Distinct(reg) && (name, handler) in reg
    ensures Lookup(reg, name) == Some(handler)
  {
    if reg[0] != (name, handler) {
      var i :| 0 <= i < |reg| && reg[i] == (name, handler);
      assert reg[0].0 != reg[i].0;
      assert reg[1..][i - 1] == (name, handler);
      LookupFinds(reg[1..], name, handler);
    }
  }

  /** Registration order does not matter: whether a set of handlers can be registered without
      a throw, and what the sagas may then do, is the same for every order of the list. */
  lemma AnyOrder(a: Registry, b: Registry)
    requires multiset(a) == multiset(b)
    ensures Distinct(a) && KnownKinds(a) && FlatSagas(a) <==> Distinct(b) && KnownKinds(b) && FlatSagas(b)
  {
    if Distinct(a) && KnownKinds(a) && FlatSagas(a) { OneOrder(a, b); }
    if Distinct(b) && KnownKinds(b) && FlatSagas(b) { OneOrder(b, a); }
  }

  lemma OneOrder(a: Registry, b: Registry)
    requires multiset(a) == multiset(b)
    requires Distinct(a) && KnownKinds(a) && FlatSagas(a)
    ensures Distinct(b) && KnownKinds(b) && FlatSagas(b)
  {
    forall e
      ensures e in a <==> e in b
    {
      assert e in multiset(a) <==> e in multiset(b);
    }
    DistinctPermutes(a, b);
    forall e, inner | e in b && e.1.Saga? && inner in e.1.dispatches
      ensures !IsSaga(b, inner)
    {
      assert e in a && !IsSaga(a, inner);
      if Lookup(b, inner).Some? {
        LookupFinds(a, inner, Lookup(b, inner).value);
      }
    }
  }

  lemma DistinctPermutes(a: Registry, b: Registry)
    requires multiset(a) == multiset(b) && Distinct(a)
    ensures Distinct(b)
  {
    forall e
      ensures e in a <==> e in b
    {
      assert e in multiset(a) <==> e in multiset(b);
    }
    assert Names(a) == Names(b);
    assert |a| == |multiset(a)| && |b| == |multiset(b)|;
    DistinctIsCount(a);
    DistinctIsCount(b);
  }

  lemma DistinctFirst(e: (string, Handler), rest: Registry)
    ensures Distinct([e] + rest) <==> Distinct(rest) && e.0 !in Names(rest)
    ensures Names([e] + rest) == {e.0} + Names(rest)
  {
    var reg := [e] + rest;
    assert rest == reg[1..];
    forall x
      ensures x in reg <==> x == e || x in rest
    {
    }
    if Distinct(reg) {
      forall i, j | 0 <= i < j < |rest|
        ensures rest[i].0 != rest[j].0
      {
        assert reg[i + 1].0 != reg[j + 1].0;
      }
      forall x | x in rest
        ensures x.0 != reg[0].0
      {
        var i :| 0 <= i < |rest| && rest[i] == x;
        assert reg[i + 1] == x;
      }
    }
    if Distinct(rest) && e.0 !in Names(rest) {
      forall i, j | 0 <= i < j < |reg|
        ensures reg[i].0 != reg[j].0
      {
        assert reg[j] == rest[j - 1] && rest[j - 1] in rest;
        assert i > 0 ==> reg[i] == rest[i - 1];
      }
    }
  }

  lemma {:induction false} DistinctIsCount(reg: Registry)
    ensures |Names(reg)| <= |reg|
    ensures Distinct(reg) <==> |Names(reg)| == |reg|
  {
    if reg != [] {
      DistinctIsCount(reg[1..]);
      DistinctFirst(reg[0], reg[1..]);
      assert reg == [reg[0]] + reg[1..];
      if reg[0].0 in Names(reg[1..]) {
        assert {reg[0].0} + Names(reg[1..]) == Names(reg[1..]);
      }
    }
  }
}
