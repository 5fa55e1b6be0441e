/** `deepRedact` of `logger/index.ts`: secrets are blanked over a graph of objects, with a set
    of the objects already entered. */
module Redact {
  import opened Basics

  /** What a variable holds: something that is no object, or a reference to one. */
  datatype Value = Prim(text: string) | Ref(id: nat)

  datatype Field = Field(key: string, value: Value)

  /** An object's entries in order; those of an array have no names that matter. */
  datatype Object = Object(isArray: bool, fields: seq<Field>)

  type Heap = map<nat, Object>

  const SENSITIVE: set<string> := {
    "password", "newPassword", "currentPassword", "token", "accessToken", "refreshToken",
    "secret", "authorization", "cookie", "email", "username"}

  /** What comes out: new objects, censored entries, and originals passed through as they are. */
  datatype Out = Plain(text: string) | Fresh(isArray: bool, entries: seq<Entry>) | Censored | Original(id: nat)

  datatype Entry = Entry(key: string, out: Out)

  predicate Fits(heap: Heap, v: Value) {
    v.Ref? ==> v.id in heap
  }

  predicate Closed(heap: Heap) {
    forall r <- heap :: forall i :: 0 <= i < |heap[r].fields| ==> Fits(heap, heap[r].fields[i].value)
  }

  predicate Hidden(o: Object, i: nat)
    requires i < |o.fields|
  {
    !o.isArray && o.fields[i].key in SENSITIVE
  }

  /** An entry that does not arrive: what is assigned to this key of the copy becomes its
      prototype, or is dropped, instead of becoming an entry. */
  predicate Lost(o: Object, i: nat)
    requires i < |o.fields|
  {
    !o.isArray && o.fields[i].key == PROTO
  }

  predicate Holds(heap: Heap, o: Object) {
    forall i :: 0 <= i < |o.fields| ==> Fits(heap, o.fields[i].value)
  }

  // ---------------------------------------------------------------- the walk

  datatype Walk<T> = Walk(out: T, seen: set<nat>)

  lemma NoMoreLeft(heap: Heap, seen: set<nat>, more: set<nat>)
    requires seen <= more
    ensures |heap.Keys - more| <= |heap.Keys - seen|
  {
    SubsetSmaller(heap.Keys - more, heap.Keys - seen);
  }

  lemma FewerLeft(heap: Heap, seen: set<nat>, r: nat)
    requires r in heap && r !in seen
    ensures |heap.Keys - (seen + {r})| < |heap.Keys - seen|
  {
    SubsetSmaller(heap.Keys - (seen + {r}), heap.Keys - seen - {r});
  }

  lemma SubsetSmaller(a: set<nat>, b: set<nat>)
    requires a <= b
    ensures |a| <= |b|
  {
    assert b == a + (b - a);
  }

  /** The result, and the objects entered by then. It ends on every heap, cycles included. */
  function Walked(heap: Heap, v: Value, seen: set<nat>): (w: Walk<Out>)
    requires Closed(heap) && Fits(heap, v)
    ensures seen <= w.seen
    decreases |heap.Keys - seen|, 0
  {
    match v
    case Prim(text) => Walk(Plain(text), seen)
    case Ref(r) =>
      if r in seen then Walk(Original(r), seen)
      else
        FewerLeft(heap, seen, r);
        var w := WalkedFrom(heap, heap[r], 0, seen + {r});
        Walk(Fresh(heap[r].isArray, w.out), w.seen)
  }

  function WalkedFrom(heap: Heap, o: Object, k: nat, seen: set<nat>): (w: Walk<seq<Entry>>)
    requires Closed(heap) && Holds(heap, o) && k <= |o.fields|
    ensures seen <= w.seen
    decreases |heap.Keys - seen|, |o.fields| + 1 - k
  {
    if k == |o.fields| then Walk([], seen)
    else
      var w := WalkedEntry(heap, o, k, seen);
      NoMoreLeft(heap, seen, w.seen);
      var rest := WalkedFrom(heap, o, k + 1, w.seen);
      Walk(Assigned(o, k, w.out) + rest.out, rest.seen)
  }

  /** What the assignment of entry k leaves among the copy's own entries. */
  function Assigned(o: Object, k: nat, out: Out): seq<Entry>
    requires k < |o.fields|
  {
    if Lost(o, k) then [] else [Entry(o.fields[k].key, out)]
  }

  function WalkedEntry(heap: Heap, o: Object, k: nat, seen: set<nat>): (w: Walk<Out>)
    requires Closed(heap) && Holds(heap, o) && k < |o.fields|
    ensures seen <= w.seen
    decreases |heap.Keys - seen|, 1
  {
    if Hidden(o, k) then Walk(Censored, seen) else Walked(heap, o.fields[k].value, seen)
  }

  /** The walk of the entries, with those before the k-th done. */
  predicate Ahead(heap: Heap, o: Object, whole: Walk<seq<Entry>>, entries: seq<Entry>, k: nat, seen: set<nat>)
    requires Closed(heap) && Holds(heap, o) && k <= |o.fields|
  {
    whole.out == entries + WalkedFrom(heap, o, k, seen).out && whole.seen == WalkedFrom(heap, o, k, seen).seen
  }

  lemma WalkStep(heap: Heap, o: Object, whole: Walk<seq<Entry>>, entries: seq<Entry>, k: nat, seen: set<nat>)
    requires Closed(heap) && Holds(heap, o) && k < |o.fields| && Ahead(heap, o, whole, entries, k, seen)
    ensures var w := WalkedEntry(heap, o, k, seen); Ahead(heap, o, whole, entries + Assigned(o, k, w.out), k + 1, w.seen)
  {
    var w := WalkedEntry(heap, o, k, seen);
    var rest := WalkedFrom(heap, o, k + 1, w.seen).out;
    assert entries + (Assigned(o, k, w.out) + rest) == entries + Assigned(o, k, w.out) + rest;
  }

  lemma WalkEnds(heap: Heap, o: Object, whole: Walk<seq<Entry>>, entries: seq<Entry>, seen: set<nat>)
    requires Closed(heap) && Holds(heap, o) && Ahead(heap, o, whole, entries, |o.fields|, seen)
    ensures whole == Walk(entries, seen)
  {
    assert entries + [] == entries;
  }

  class Redactor {
    const heap: Heap
    var seen: set<nat>

    constructor (heap: Heap)
      ensures this.heap == heap && seen == {}
    {
      this.heap, seen := heap, {};
    }

    method DeepRedact(value: Value) returns (out: Out)
      requires Closed(heap) && Fits(heap, value)
      modifies this
      ensures out == Walked(heap, value, old(seen)).out && seen == Walked(heap, value, old(seen)).seen
      decreases |heap.Keys - seen|, 0
    {
      if value.Prim? {
        return Plain(value.text);
      }
      if value.id in seen {
        return Original(value.id);
      }
      FewerLeft(heap, seen, value.id);
      seen := seen + {value.id};
      var o := heap[value.id];
      var entries := RedactFields(o);
      return Fresh(o.isArray, entries);
    }

    method RedactFields(o: Object) returns (entries: seq<Entry>)
      requires Closed(heap) && Holds(heap, o)
      modifies this
      ensures entries == WalkedFrom(heap, o, 0, old(seen)).out && seen == WalkedFrom(heap, o, 0, old(seen)).seen
      decreases |heap.Keys - seen|, 3
    {
      entries := [];
      ghost var whole := WalkedFrom(heap, o, 0, seen);
      assert [] + whole.out == whole.out;
      for k := 0 to |o.fields|
        invariant old(seen) <= seen && Ahead(heap, o, whole, entries, k, seen)
      {
        assert |heap.Keys - seen| <= |heap.Keys - old(seen)| by { NoMoreLeft(heap, old(seen), seen); }
        entries := RedactNext(o, k, entries, whole);
      }
      assert whole == Walk(entries, seen) by { WalkEnds(heap, o, whole, entries, seen); }
    }

    method RedactNext(o: Object, k: nat, entries: seq<Entry>, ghost whole: Walk<seq<Entry>>) returns (more: seq<Entry>)
      requires Closed(heap) && Holds(heap, o) && k < |o.fields| && Ahead(heap, o, whole, entries, k, seen)
      modifies this
      ensures old(seen) <= seen && Ahead(heap, o, whole, more, k + 1, seen)
      decreases |heap.Keys - seen|, 2
    {
      WalkStep(heap, o, whole, entries, k, seen);
      var out := RedactField(o, k);
      more := entries + Assigned(o, k, out);
    }

    method RedactField(o: Object, k: nat) returns (out: Out)
      requires Closed(heap) && Holds(heap, o) && k < |o.fields|
      modifies this
      ensures out == WalkedEntry(heap, o, k, old(seen)).out && seen == WalkedEntry(heap, o, k, old(seen)).seen
      decreases |heap.Keys - seen|, 1
    {
      if Hidden(o, k) {
        return Censored;
      }
      out := DeepRedact(o.fields[k].value);
    }
  }

  // ---------------------------------------------------------------- what it is for

  /** The same shape, with exactly the sensitive keys censored, at every depth; `partly` lets
      originals stand in for redacted objects, and lost entries be missing. */
  predicate Redacted(heap: Heap, v: Value, out: Out, partly: bool)
    decreases out, 0
  {
    match out
    case Plain(text) => v == Prim(text)
    case Fresh(isArray, entries) =>
      && v.Ref? && v.id in heap && heap[v.id].isArray == isArray
      && RedactedFrom(heap, heap[v.id], 0, entries, partly)
    case Censored => false
    case Original(r) => partly && v == Ref(r)
  }

  /** The entries are those of the object from the k-th on, in order. */
  predicate RedactedFrom(heap: Heap, o: Object, k: nat, entries: seq<Entry>, partly: bool)
    requires k <= |o.fields|
    decreases entries, |o.fields| - k
  {
    if k == |o.fields| then entries == []
    else if partly && Lost(o, k) then RedactedFrom(heap, o, k + 1, entries, partly)
    else entries != [] && EntryOk(heap, o, k, entries[0], partly) && RedactedFrom(heap, o, k + 1, entries[1..], partly)
  }

  predicate EntryOk(heap: Heap, o: Object, k: nat, e: Entry, partly: bool)
    requires k < |o.fields|
    decreases e, 1
  {
    e.key == o.fields[k].key && if Hidden(o, k) then e.out == Censored else Redacted(heap, o.fields[k].value, e.out, partly)
  }

  /** The object that a path of entry numbers leads to, censored entries apart. */
  function Target(heap: Heap, v: Value, path: seq<nat>): Option<nat>
    requires Closed(heap) && Fits(heap, v)
    decreases |path|
  {
    if v.Prim? then None
    else if path == [] then Some(v.id)
    else if path[0] < |heap[v.id].fields| && !Hidden(heap[v.id], path[0]) then Target(heap, heap[v.id].fields[path[0]].value, path[1..])
    else None
  }

  /** No object is reached by two paths. */
  ghost predicate NoSharing(heap: Heap, v: Value)
    requires Closed(heap) && Fits(heap, v)
  {
    forall p, q :: Target(heap, v, p).Some? && Target(heap, v, p) == Target(heap, v, q) ==> p == q
  }

  ghost predicate Reaches(heap: Heap, v: Value, r: nat)
    requires Closed(heap) && Fits(heap, v)
  {
    exists p :: Target(heap, v, p) == Some(r)
  }

  /** No object that is reached has an entry to lose. */
  ghost predicate NoneLost(heap: Heap, v: Value)
    requires Closed(heap) && Fits(heap, v)
  {
    forall r <- heap :: Reaches(heap, v, r) ==> AllArrive(heap[r])
  }

  predicate AllArrive(o: Object) {
    forall i :: 0 <= i < |o.fields| ==> !Lost(o, i)
  }

  // ---------------------------------------------------------------- a value and its parts

  ghost predicate Visible(heap: Heap, o: Object, i: nat, r: nat)
    requires Closed(heap) && Holds(heap, o)
  {
    i < |o.fields| && !Hidden(o, i) && Reaches(heap, o.fields[i].value, r)
  }

  /** From entry k on, nothing is reached twice. */
  ghost predicate NoSharingFrom(heap: Heap, o: Object, k: nat)
    requires Closed(heap) && Holds(heap, o)
  {
    && (forall i: nat :: k <= i < |o.fields| && !Hidden(o, i) ==> NoSharing(heap, o.fields[i].value))
    && (forall i: nat, l: nat, r: nat :: k <= i < l && Visible(heap, o, i, r) ==> !Visible(heap, o, l, r))
  }

  lemma Longer(heap: Heap, o: Object, v: Value, i: nat, p: seq<nat>)
    requires Closed(heap) && Fits(heap, v) && v.Ref? && o == heap[v.id] && i < |o.fields| && !Hidden(o, i)
    ensures Target(heap, v, [i] + p) == Target(heap, o.fields[i].value, p)
  {
    assert ([i] + p)[1..] == p;
  }

  /** A path is empty, or goes on from one of the entries. */
  lemma SharingSplits(heap: Heap, v: Value)
    requires Closed(heap) && Fits(heap, v) && v.Ref?
    ensures Reaches(heap, v, v.id)
    ensures NoSharing(heap, v) <==> NoSharingFrom(heap, heap[v.id], 0) && forall i: nat :: !Visible(heap, heap[v.id], i, v.id)
  {
    var o := heap[v.id];
    assert Target(heap, v, []) == Some(v.id);
    if NoSharing(heap, v) { NoSharingInParts(heap, v); }
    if NoSharingFrom(heap, o, 0) && forall i: nat :: !Visible(heap, o, i, v.id) { NoSharingOfWhole(heap, v); }
  }

  lemma NoSharingInParts(heap: Heap, v: Value)
    requires Closed(heap) && Fits(heap, v) && v.Ref? && NoSharing(heap, v)
    ensures NoSharingFrom(heap, heap[v.id], 0) && forall i: nat :: !Visible(heap, heap[v.id], i, v.id)
  {
    var o := heap[v.id];
    forall i: nat | i < |o.fields| && !Hidden(o, i)
      ensures NoSharing(heap, o.fields[i].value)
    {
      forall p, q | Target(heap, o.fields[i].value, p).Some? && Target(heap, o.fields[i].value, p) == Target(heap, o.fields[i].value, q)
        ensures p == q
      {
        Longer(heap, o, v, i, p);
        Longer(heap, o, v, i, q);
        assert ([i] + p)[1..] == p && ([i] + q)[1..] == q;
      }
    }
    forall i: nat, l: nat, r: nat | i < l && Visible(heap, o, i, r)
      ensures !Visible(heap, o, l, r)
    {
      ApartFrom(heap, v, i, l, r);
    }
    forall i: nat
      ensures !Visible(heap, o, i, v.id)
    {
      NotItself(heap, v, i);
    }
  }

  lemma ApartFrom(heap: Heap, v: Value, i: nat, l: nat, r: nat)
    requires Closed(heap) && Fits(heap, v) && v.Ref? && NoSharing(heap, v) && i != l && Visible(heap, heap[v.id], i, r)
    ensures !Visible(heap, heap[v.id], l, r)
  {
    var o := heap[v.id];
    var p :| Target(heap, o.fields[i].value, p) == Some(r);
    Longer(heap, o, v, i, p);
    if l < |o.fields| && !Hidden(o, l) {
      forall q
        ensures Target(heap, o.fields[l].value, q) != Some(r)
      {
        Longer(heap, o, v, l, q);
        assert ([i] + p)[0] != ([l] + q)[0];
      }
    }
  }

  lemma NotItself(heap: Heap, v: Value, i: nat)
    requires Closed(heap) && Fits(heap, v) && v.Ref? && NoSharing(heap, v)
    ensures !Visible(heap, heap[v.id], i, v.id)
  {
    var o := heap[v.id];
    if i < |o.fields| && !Hidden(o, i) {
      forall q
        ensures Target(heap, o.fields[i].value, q) != Some(v.id)
      {
        Longer(heap, o, v, i, q);
        assert Target(heap, v, []) == Some(v.id) && |[i] + q| > 0;
      }
    }
  }

  lemma NoSharingOfWhole(heap: Heap, v: Value)
    requires Closed(heap) && Fits(heap, v) && v.Ref?
    requires NoSharingFrom(heap, heap[v.id], 0) && forall i: nat :: !Visible(heap, heap[v.id], i, v.id)
    ensures NoSharing(heap, v)
  {
    var o := heap[v.id];
    forall p, q | Target(heap, v, p).Some? && Target(heap, v, p) == Target(heap, v, q)
      ensures p == q
    {
      SamePath(heap, v, p, q);
    }
  }

  lemma SamePath(heap: Heap, v: Value, p: seq<nat>, q: seq<nat>)
    requires Closed(heap) && Fits(heap, v) && v.Ref?
    requires NoSharingFrom(heap, heap[v.id], 0) && forall i: nat :: !Visible(heap, heap[v.id], i, v.id)
    requires Target(heap, v, p).Some? && Target(heap, v, p) == Target(heap, v, q)
    ensures p == q
  {
    var o := heap[v.id];
    var r := Target(heap, v, p).value;
    assert p != [] ==> Visible(heap, o, p[0], r);
    assert q != [] ==> Visible(heap, o, q[0], r);
    if p != [] && q != [] {
      assert p[0] == q[0];
      assert p[1..] == q[1..];
      assert p == [p[0]] + p[1..] && q == [q[0]] + q[1..];
    }
  }

  // ---------------------------------------------------------------- exactly when it works

  /** What is reached from entry k on. */
  ghost predicate VisibleFrom(heap: Heap, o: Object, k: nat, r: nat)
    requires Closed(heap) && Holds(heap, o)
  {
    exists i: nat :: k <= i && Visible(heap, o, i, r)
  }

  ghost predicate Avoids(heap: Heap, v: Value, seen: set<nat>)
    requires Closed(heap) && Fits(heap, v)
  {
    forall r <- seen :: !Reaches(heap, v, r)
  }

  ghost predicate AvoidsFrom(heap: Heap, o: Object, k: nat, seen: set<nat>)
    requires Closed(heap) && Holds(heap, o)
  {
    forall r <- seen :: !VisibleFrom(heap, o, k, r)
  }

  /** What has been entered is what had been, and everything there is to reach. */
  ghost predicate Covers(heap: Heap, v: Value, before: set<nat>, after: set<nat>)
    requires Closed(heap) && Fits(heap, v)
  {
    forall r: nat :: r in after <==> r in before || Reaches(heap, v, r)
  }

  ghost predicate CoversFrom(heap: Heap, o: Object, k: nat, before: set<nat>, after: set<nat>)
    requires Closed(heap) && Holds(heap, o)
  {
    forall r: nat :: r in after <==> r in before || VisibleFrom(heap, o, k, r)
  }

  lemma ReachesSplits(heap: Heap, v: Value, r: nat)
    requires Closed(heap) && Fits(heap, v) && v.Ref?
    ensures Reaches(heap, v, r) <==> r == v.id || VisibleFrom(heap, heap[v.id], 0, r)
  {
    var o := heap[v.id];
    assert Target(heap, v, []) == Some(v.id);
    if p :| Target(heap, v, p) == Some(r) {
      if p != [] {
        assert Target(heap, o.fields[p[0]].value, p[1..]) == Some(r);
        assert Visible(heap, o, p[0], r);
      }
    }
    if i: nat :| Visible(heap, o, i, r) {
      var p :| Target(heap, o.fields[i].value, p) == Some(r);
      Longer(heap, o, v, i, p);
    }
  }

  lemma EntrySplits(heap: Heap, o: Object, k: nat, r: nat)
    requires Closed(heap) && Holds(heap, o) && k < |o.fields|
    ensures VisibleFrom(heap, o, k, r) <==> Visible(heap, o, k, r) || VisibleFrom(heap, o, k + 1, r)
  {
  }

  lemma RedactedSplits(heap: Heap, o: Object, k: nat, e: Entry, rest: seq<Entry>, partly: bool)
    requires k < |o.fields| && !(partly && Lost(o, k))
    ensures RedactedFrom(heap, o, k, [e] + rest, partly) <==> EntryOk(heap, o, k, e, partly) && RedactedFrom(heap, o, k + 1, rest, partly)
  {
    assert ([e] + rest)[1..] == rest;
  }

  // A lost entry is missed: there are too few of them.

  lemma {:induction false} AtMostOneEach(heap: Heap, o: Object, k: nat, seen: set<nat>)
    requires Closed(heap) && Holds(heap, o) && k <= |o.fields|
    ensures |WalkedFrom(heap, o, k, seen).out| <= |o.fields| - k
    decreases |o.fields| - k
  {
    if k < |o.fields| {
      AtMostOneEach(heap, o, k + 1, WalkedEntry(heap, o, k, seen).seen);
    }
  }

  lemma {:induction false} OneEach(heap: Heap, o: Object, k: nat, entries: seq<Entry>)
    requires k <= |o.fields| && RedactedFrom(heap, o, k, entries, false)
    ensures |entries| == |o.fields| - k
    decreases |o.fields| - k
  {
    if k < |o.fields| {
      OneEach(heap, o, k + 1, entries[1..]);
    }
  }

  lemma LostIsMissed(heap: Heap, o: Object, k: nat, seen: set<nat>)
    requires Closed(heap) && Holds(heap, o) && k < |o.fields| && Lost(o, k)
    ensures !RedactedFrom(heap, o, k, WalkedFrom(heap, o, k, seen).out, false)
  {
    var w := WalkedEntry(heap, o, k, seen);
    AtMostOneEach(heap, o, k + 1, w.seen);
    assert WalkedFrom(heap, o, k, seen).out == WalkedFrom(heap, o, k + 1, w.seen).out;
    if RedactedFrom(heap, o, k, WalkedFrom(heap, o, k, seen).out, false) {
      OneEach(heap, o, k, WalkedFrom(heap, o, k, seen).out);
    }
  }

  // Where nothing is lost.

  ghost predicate NoneLostFrom(heap: Heap, o: Object, k: nat)
    requires Closed(heap) && Holds(heap, o)
  {
    && (forall i :: k <= i < |o.fields| ==> !Lost(o, i))
    && (forall r <- heap :: VisibleFrom(heap, o, k, r) ==> AllArrive(heap[r]))
  }

  lemma NoneLostSplits(heap: Heap, v: Value)
    requires Closed(heap) && Fits(heap, v) && v.Ref?
    ensures NoneLost(heap, v) <==> NoneLostFrom(heap, heap[v.id], 0)
  {
    forall r <- heap
      ensures Reaches(heap, v, r) <==> r == v.id || VisibleFrom(heap, heap[v.id], 0, r)
    {
      ReachesSplits(heap, v, r);
    }
  }

  lemma NoneLostFromSplits(heap: Heap, o: Object, k: nat)
    requires Closed(heap) && Holds(heap, o) && k < |o.fields|
    ensures NoneLostFrom(heap, o, k) <==>
            !Lost(o, k) && (!Hidden(o, k) ==> NoneLost(heap, o.fields[k].value)) && NoneLostFrom(heap, o, k + 1)
  {
    forall r <- heap
      ensures VisibleFrom(heap, o, k, r) <==> (!Hidden(o, k) && Reaches(heap, o.fields[k].value, r)) || VisibleFrom(heap, o, k + 1, r)
    {
      EntrySplits(heap, o, k, r);
    }
  }

  /** Entry k shares nothing with the later ones, nor they with each other. */
  lemma SharingFromSplits(heap: Heap, o: Object, k: nat)
    requires Closed(heap) && Holds(heap, o) && k < |o.fields|
    ensures NoSharingFrom(heap, o, k) <==>
            && NoSharingFrom(heap, o, k + 1)
            && (!Hidden(o, k) ==> NoSharing(heap, o.fields[k].value))
            && forall r: nat :: Visible(heap, o, k, r) ==> !VisibleFrom(heap, o, k + 1, r)
  {
    if NoSharingFrom(heap, o, k) {
      assert NoSharingFrom(heap, o, k + 1);
      forall r: nat | Visible(heap, o, k, r)
        ensures !VisibleFrom(heap, o, k + 1, r)
      {
      }
    }
  }

  ghost predicate WalkOk(heap: Heap, v: Value, seen: set<nat>)
    requires Closed(heap) && Fits(heap, v)
  {
    var w := Walked(heap, v, seen);
    && (Redacted(heap, v, w.out, false) <==> NoSharing(heap, v) && NoneLost(heap, v) && Avoids(heap, v, seen))
    && (Redacted(heap, v, w.out, false) ==> Covers(heap, v, seen, w.seen))
  }

  ghost predicate WalkFromOk(heap: Heap, o: Object, k: nat, seen: set<nat>)
    requires Closed(heap) && Holds(heap, o) && k <= |o.fields|
  {
    var w := WalkedFrom(heap, o, k, seen);
    && (RedactedFrom(heap, o, k, w.out, false) <==> NoSharingFrom(heap, o, k) && NoneLostFrom(heap, o, k) && AvoidsFrom(heap, o, k, seen))
    && (RedactedFrom(heap, o, k, w.out, false) ==> CoversFrom(heap, o, k, seen, w.seen))
  }

  lemma {:induction false} WalkIsOk(heap: Heap, v: Value, seen: set<nat>)
    requires Closed(heap) && Fits(heap, v)
    ensures WalkOk(heap, v, seen)
    decreases |heap.Keys - seen|, 0
  {
    if v.Ref? {
      ReachesSplits(heap, v, v.id);
      if v.id !in seen {
        FewerLeft(heap, seen, v.id);
        WalkFromIsOk(heap, heap[v.id], 0, seen + {v.id});
        EnterOk(heap, v, seen);
      }
    }
  }

  lemma NoneVisible(heap: Heap, o: Object, r: nat)
    requires Closed(heap) && Holds(heap, o)
    ensures (forall i: nat :: !Visible(heap, o, i, r)) <==> !VisibleFrom(heap, o, 0, r)
  {
    if !VisibleFrom(heap, o, 0, r) {
      forall i: nat
        ensures !Visible(heap, o, i, r)
      {
        assert 0 <= i && Visible(heap, o, i, r) ==> VisibleFrom(heap, o, 0, r);
      }
    }
  }

  lemma EnterOk(heap: Heap, v: Value, seen: set<nat>)
    requires Closed(heap) && Fits(heap, v) && v.Ref? && v.id !in seen && WalkFromOk(heap, heap[v.id], 0, seen + {v.id})
    ensures WalkOk(heap, v, seen)
  {
    var o := heap[v.id];
    SharingSplits(heap, v);
    NoneLostSplits(heap, v);
    forall r: nat
      ensures Reaches(heap, v, r) <==> r == v.id || VisibleFrom(heap, o, 0, r)
    {
      ReachesSplits(heap, v, r);
    }
    NoneVisible(heap, o, v.id);
  }

  lemma {:induction false} WalkFromIsOk(heap: Heap, o: Object, k: nat, seen: set<nat>)
    requires Closed(heap) && Holds(heap, o) && k <= |o.fields|
    ensures WalkFromOk(heap, o, k, seen)
    decreases |heap.Keys - seen|, |o.fields| + 1 - k
  {
    if k < |o.fields| {
      var w := WalkedEntry(heap, o, k, seen);
      NoMoreLeft(heap, seen, w.seen);
      if !Hidden(o, k) { WalkIsOk(heap, o.fields[k].value, seen); }
      WalkFromIsOk(heap, o, k + 1, w.seen);
      if Lost(o, k) { LostIsMissed(heap, o, k, seen); } else { GoOnOk(heap, o, k, seen); }
    }
  }

  lemma GoOnOk(heap: Heap, o: Object, k: nat, seen: set<nat>)
    requires Closed(heap) && Holds(heap, o) && k < |o.fields| && !Lost(o, k)
    requires !Hidden(o, k) ==> WalkOk(heap, o.fields[k].value, seen)
    requires WalkFromOk(heap, o, k + 1, WalkedEntry(heap, o, k, seen).seen)
    ensures WalkFromOk(heap, o, k, seen)
  {
    var w := WalkedEntry(heap, o, k, seen);
    RedactedSplits(heap, o, k, Entry(o.fields[k].key, w.out), WalkedFrom(heap, o, k + 1, w.seen).out, false);
    SharingFromSplits(heap, o, k);
    NoneLostFromSplits(heap, o, k);
    forall r: nat
      ensures VisibleFrom(heap, o, k, r) <==> Visible(heap, o, k, r) || VisibleFrom(heap, o, k + 1, r)
      ensures !Hidden(o, k) ==> (Visible(heap, o, k, r) <==> Reaches(heap, o.fields[k].value, r))
    {
      EntrySplits(heap, o, k, r);
    }
  }

  /** `deepRedact` blanks exactly the sensitive keys at every depth of the value it is given, and
      nothing else, if and only if no object is reached by two paths and none that is reached
      has an entry named `__proto__`. */
  lemma RedactsIff(heap: Heap, v: Value)
    requires Closed(heap) && Fits(heap, v)
    ensures Redacted(heap, v, Walked(heap, v, {}).out, false) <==> NoSharing(heap, v) && NoneLost(heap, v)
  {
    WalkIsOk(heap, v, {});
  }

  /** On any graph at all, whatever has been copied is redacted: a secret gets through only
      inside an original, and nothing is missing but entries named `__proto__`. */
  lemma {:induction false} CopiesAreRedacted(heap: Heap, v: Value, seen: set<nat>)
    requires Closed(heap) && Fits(heap, v)
    ensures Redacted(heap, v, Walked(heap, v, seen).out, true)
    decreases |heap.Keys - seen|, 0
  {
    if v.Ref? && v.id !in seen {
      FewerLeft(heap, seen, v.id);
      EntriesAreRedacted(heap, heap[v.id], 0, seen + {v.id});
    }
  }

  predicate EntriesOk(heap: Heap, o: Object, k: nat, seen: set<nat>)
    requires Closed(heap) && Holds(heap, o) && k <= |o.fields|
  {
    RedactedFrom(heap, o, k, WalkedFrom(heap, o, k, seen).out, true)
  }

  lemma {:induction false} EntriesAreRedacted(heap: Heap, o: Object, k: nat, seen: set<nat>)
    requires Closed(heap) && Holds(heap, o) && k <= |o.fields|
    ensures EntriesOk(heap, o, k, seen)
    decreases |heap.Keys - seen|, |o.fields| + 1 - k
  {
    if k < |o.fields| {
      var w := WalkedEntry(heap, o, k, seen);
      NoMoreLeft(heap, seen, w.seen);
      if !Hidden(o, k) { CopiesAreRedacted(heap, o.fields[k].value, seen); }
      EntriesAreRedacted(heap, o, k + 1, w.seen);
      OneMoreEntry(heap, o, k, seen);
    }
  }

  lemma OneMoreEntry(heap: Heap, o: Object, k: nat, seen: set<nat>)
    requires Closed(heap) && Holds(heap, o) && k < |o.fields|
    requires !Hidden(o, k) ==> Redacted(heap, o.fields[k].value, Walked(heap, o.fields[k].value, seen).out, true)
    requires EntriesOk(heap, o, k + 1, WalkedEntry(heap, o, k, seen).seen)
    ensures EntriesOk(heap, o, k, seen)
  {
    var w := WalkedEntry(heap, o, k, seen);
    var rest := WalkedFrom(heap, o, k + 1, w.seen).out;
    assert WalkedFrom(heap, o, k, seen).out == Assigned(o, k, w.out) + rest;
    if Lost(o, k) {
      assert [] + rest == rest;
    } else {
      RedactedSplits(heap, o, k, Entry(o.fields[k].key, w.out), rest, true);
    }
  }

  // ---------------------------------------------------------------- which keys those are

  predicate IsSecret(key: string) {
    || key == "password" || key == "newPassword" || key == "currentPassword"
    || key == "token" || key == "accessToken" || key == "refreshToken"
    || key == "secret" || key == "authorization" || key == "cookie" || key == "email" || key == "username"
  }

  /** At every depth: entries of objects are blanked exactly if their key is one of these, and
      items of arrays never. */
  predicate SecretsBlanked(out: Out)
    decreases out
  {
    match out
    case Fresh(isArray, entries) =>
      forall i :: 0 <= i < |entries| ==>
        && (entries[i].out == Censored <==> !isArray && IsSecret(entries[i].key))
        && SecretsBlanked(entries[i].out)
    case _ => true
  }

  /** Whatever the graph, the value under such a key, and what has been entered before: no secret
      is in anything that was copied, and nothing else is missing from it. */
  lemma {:induction false} OnlySecretsAreBlanked(heap: Heap, v: Value, seen: set<nat>)
    requires Closed(heap) && Fits(heap, v)
    ensures SecretsBlanked(Walked(heap, v, seen).out) && Walked(heap, v, seen).out != Censored
    decreases |heap.Keys - seen|, 0
  {
    if v.Ref? && v.id !in seen {
      FewerLeft(heap, seen, v.id);
      EntriesBlanked(heap, heap[v.id], 0, seen + {v.id});
      var entries := Walked(heap, v, seen).out.entries;
      assert forall i :: 0 <= i < |entries| ==> entries[i] in entries && EntryBlanked(heap[v.id].isArray, entries[i]);
    }
  }

  ghost predicate EntryBlanked(isArray: bool, e: Entry) {
    (e.out == Censored <==> !isArray && IsSecret(e.key)) && SecretsBlanked(e.out)
  }

  lemma {:induction false} EntriesBlanked(heap: Heap, o: Object, k: nat, seen: set<nat>)
    requires Closed(heap) && Holds(heap, o) && k <= |o.fields|
    ensures forall e <- WalkedFrom(heap, o, k, seen).out :: EntryBlanked(o.isArray, e)
    decreases |heap.Keys - seen|, |o.fields| + 1 - k
  {
    if k < |o.fields| {
      var w := WalkedEntry(heap, o, k, seen);
      NoMoreLeft(heap, seen, w.seen);
      if !Hidden(o, k) { OnlySecretsAreBlanked(heap, o.fields[k].value, seen); }
      EntriesBlanked(heap, o, k + 1, w.seen);
      assert EntryBlanked(o.isArray, Entry(o.fields[k].key, w.out)) by { HiddenIff(o, k); }
    }
  }

  lemma HiddenIff(o: Object, k: nat)
    requires k < |o.fields|
    ensures Hidden(o, k) <==> !o.isArray && IsSecret(o.fields[k].key)
  {
  }

  // ---------------------------------------------------------------- and when it does not

  /** `{ a: user, b: user }` with `user = { password: "hunter2" }`. */
  const TWICE: Heap := map[0 := Object(false, [Field("a", Ref(1)), Field("b", Ref(1))]), 1 := Object(false, [Field("password", Prim("hunter2"))])]

  lemma UserWalked()
    ensures Closed(TWICE)
    ensures Walked(TWICE, Ref(1), {0}) == Walk(Fresh(false, [Entry("password", Censored)]), {0, 1})
  {
    var user := TWICE[1];
    assert Hidden(user, 0);
    assert WalkedFrom(TWICE, user, 1, {0, 1}) == Walk([], {0, 1});
    assert WalkedEntry(TWICE, user, 0, {0, 1}) == Walk(Censored, {0, 1});
    assert WalkedFrom(TWICE, user, 0, {0, 1}) == Walk([Entry("password", Censored)] + [], {0, 1});
    assert [Entry("password", Censored)] + [] == [Entry("password", Censored)];
    assert {0} + {1} == {0, 1} && 1 !in {0};
    assert Walked(TWICE, Ref(1), {0}) == Walk(Fresh(user.isArray, WalkedFrom(TWICE, user, 0, {0, 1}).out), WalkedFrom(TWICE, user, 0, {0, 1}).seen);
  }

  lemma TwiceIsShared()
    ensures Closed(TWICE) && !NoSharing(TWICE, Ref(0))
  {
    var root := TWICE[0];
    assert !Hidden(root, 0) && !Hidden(root, 1);
    Longer(TWICE, root, Ref(0), 0, []);
    Longer(TWICE, root, Ref(0), 1, []);
    assert Target(TWICE, Ref(0), [0] + []) == Target(TWICE, Ref(0), [1] + []) && ([0] + [])[0] != ([1] + [])[0];
  }

  /** The second mention of an object comes out as the object itself, its password unmasked. */
  lemma SharedObjectPassesThrough()
    ensures Closed(TWICE) && !NoSharing(TWICE, Ref(0))
    ensures Walked(TWICE, Ref(0), {}).out
         == Fresh(false, [Entry("a", Fresh(false, [Entry("password", Censored)])), Entry("b", Original(1))])
    ensures TWICE[1].fields[0] == Field("password", Prim("hunter2"))
  {
    var root := TWICE[0];
    UserWalked();
    TwiceIsShared();
    assert !Hidden(root, 0) && !Hidden(root, 1);
    assert WalkedFrom(TWICE, root, 2, {0, 1}) == Walk([], {0, 1});
    assert WalkedEntry(TWICE, root, 1, {0, 1}) == Walk(Original(1), {0, 1});
    assert WalkedFrom(TWICE, root, 1, {0, 1}) == Walk([Entry("b", Original(1))] + [], {0, 1});
    assert WalkedEntry(TWICE, root, 0, {0}).seen == {0, 1};
    assert WalkedFrom(TWICE, root, 0, {0}).out == [Entry("a", Fresh(false, [Entry("password", Censored)]))] + [Entry("b", Original(1))];
    assert {} + {0} == {0};
  }

  /** `JSON.parse('{"__proto__":{"a":1}}')` */
  const OWN_PROTO: Heap := map[0 := Object(false, [Field(PROTO, Ref(1))]), 1 := Object(false, [Field("a", Prim("1"))])]

  /** An entry of that name is gone, although nothing is reached twice. */
  lemma ProtoEntryIsLost()
    ensures Closed(OWN_PROTO) && NoSharing(OWN_PROTO, Ref(0))
    ensures Walked(OWN_PROTO, Ref(0), {}).out == Fresh(false, [])
  {
    var root, inner := OWN_PROTO[0], OWN_PROTO[1];
    assert WalkedFrom(OWN_PROTO, root, 0, {0}).out == [];
    forall p, q | Target(OWN_PROTO, Ref(0), p).Some? && Target(OWN_PROTO, Ref(0), p) == Target(OWN_PROTO, Ref(0), q)
      ensures p == q
    {
      ProtoPaths(p);
      ProtoPaths(q);
    }
    assert {} + {0} == {0};
  }

  lemma ProtoPaths(p: seq<nat>)
    requires Closed(OWN_PROTO)
    ensures Target(OWN_PROTO, Ref(0), p) == if p == [] then Some(0) else if p == [0] then Some(1) else None
  {
    if p != [] && p[0] == 0 && |p| > 1 {
      assert p[1..] != [] && Target(OWN_PROTO, Ref(1), p[1..]) == None;
    }
  }
}
