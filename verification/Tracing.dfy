/** What `startTraceContext` of `tracing/trace-context.ts` makes of the `traceparent` an event
    carries: whether it throws. */
module Tracing {
  import opened Basics

  /** A value as `JSON.parse` makes it; of an object only its keys matter here. */
  datatype Json = Null | Bool(b: bool) | Number(x: real) | String(text: string) | Array(items: seq<Json>) | Object(keys: set<string>)

  /** `String(j)` throws: an object with a `toString` of its own has none that can be called,
      and what it inherits as `valueOf` gives the object back; an array turns its items into
      strings, except for nulls. */
  predicate NoString(j: Json) {
    match j
    case Object(keys) => "toString" in keys
    case Array(items) => exists i :: 0 <= i < |items| && NoString(items[i])
    case _ => false
  }

  /** `!header` */
  predicate Falsy(j: Json) {
    match j
    case Null => true
    case Bool(b) => !b
    case Number(x) => x == 0.0
    case String(text) => text == ""
    case _ => false
  }

  /** A header that is there is matched against a pattern, and turned into a string for that. */
  predicate TraceThrows(header: Option<Json>) {
    header.Some? && !Falsy(header.value) && NoString(header.value)
  }

  /** The value that a path of array indices leads to. */
  function At(j: Json, path: seq<nat>): Option<Json>
    decreases |path|
  {
    if path == [] then Some(j)
    else if j.Array? && path[0] < |j.items| then At(j.items[path[0]], path[1..])
    else None
  }

  ghost predicate HoldsObstacle(j: Json) {
    exists path :: IsObstacle(At(j, path))
  }

  predicate IsObstacle(j: Option<Json>) {
    j.Some? && j.value.Object? && "toString" in j.value.keys
  }

  lemma {:induction false} NoStringIff(j: Json)
    ensures NoString(j) <==> HoldsObstacle(j)
  {
    if j.Array? {
      forall i | 0 <= i < |j.items|
        ensures NoString(j.items[i]) <==> HoldsObstacle(j.items[i])
      {
        NoStringIff(j.items[i]);
      }
      OneDown(j);
    } else {
      assert At(j, []) == Some(j);
    }
  }

  lemma OneDown(j: Json)
    requires j.Array?
    ensures HoldsObstacle(j) <==> exists i :: 0 <= i < |j.items| && HoldsObstacle(j.items[i])
  {
    if path :| IsObstacle(At(j, path)) {
      assert path != [] && IsObstacle(At(j.items[path[0]], path[1..]));
    }
    if i :| 0 <= i < |j.items| && HoldsObstacle(j.items[i]) {
      var path :| IsObstacle(At(j.items[i], path));
      assert ([i] + path)[1..] == path;
      assert IsObstacle(At(j, [i] + path));
    }
  }

  /** It throws for exactly those headers in which, through arrays alone, there is an object
      that has a `toString` of its own. */
  lemma TraceThrowsIff(header: Option<Json>)
    ensures TraceThrows(header) <==> header.Some? && HoldsObstacle(header.value)
  {
    if header.Some? { NoStringIff(header.value); }
  }
}
