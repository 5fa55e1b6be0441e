/** The replay loop of `messaging/dlq-replay-consumer.ts` as it runs, with its headers and its
    delays. Like the consumer it takes the steps of the pipeline that its calls stand for. */
module DlqReplay {
  import opened Basics
  import opened Outbox
  import opened Pipeline

  // ---------------------------------------------------------------- headers

  datatype Content = Text(text: string) | Buffer(bytes: string)

  datatype HeaderValue = Undefined | One(content: Content) | Many(contents: seq<Content>)

  datatype Header = Header(name: string, value: HeaderValue)

  const ORIGINAL_TOPIC := "x-original-topic"
  const REPLAY_COUNT := "x-dlq-replay-count"

  function ContentString(c: Content): string {
    match c
    case Text(t) => t
    case Buffer(b) => b
  }

  function HeaderToString(v: HeaderValue): Option<string> {
    match v
    case Undefined => None
    case One(c) => Some(ContentString(c))
    case Many(cs) => if cs == [] then None else Some(ContentString(cs[0]))
  }

  /** The entries of an object: no name twice. */
  predicate NoNameTwice(headers: seq<Header>) {
    forall i, k :: 0 <= i < k < |headers| ==> headers[i].name != headers[k].name
  }

  /** What one of the first n headers says. */
  function Lookup(headers: seq<Header>, n: nat, name: string): Option<string>
    requires n <= |headers|
  {
    if n == 0 then None
    else if headers[n - 1].name == name then HeaderToString(headers[n - 1].value)
    else Lookup(headers, n - 1, name)
  }

  lemma {:induction false} Missing(headers: seq<Header>, n: nat, name: string)
    requires n <= |headers| && forall i :: 0 <= i < n ==> headers[i].name != name
    ensures Lookup(headers, n, name) == None
  {
    if n > 0 {
      Missing(headers, n - 1, name);
    }
  }

  /** The header's value is this text: as a string, as a buffer, or first in a list of them. */
  predicate Says(v: HeaderValue, text: string) {
    match v
    case Undefined => false
    case One(c) => c == Text(text) || c == Buffer(text)
    case Many(cs) => cs != [] && (cs[0] == Text(text) || cs[0] == Buffer(text))
  }

  lemma SaysOneMore(headers: seq<Header>, n: nat, name: string, text: string)
    requires n < |headers|
    ensures HeaderSays(headers[..n + 1], name, text) <==> HeaderSays(headers[..n], name, text) || (headers[n].name == name && Says(headers[n].value, text))
  {
    var fewer, more := headers[..n], headers[..n + 1];
    assert more[n] == headers[n];
    if i :| 0 <= i < |fewer| && fewer[i].name == name && Says(fewer[i].value, text) {
      assert more[i] == fewer[i];
    }
    if i :| 0 <= i < |more| && more[i].name == name && Says(more[i].value, text) {
      assert i < n ==> fewer[i] == more[i];
    }
  }

  /** What is looked up is what the one header of that name says; nothing if there is none, or
      if it says nothing. */
  lemma {:induction false} LookupIff(headers: seq<Header>, n: nat, name: string, text: string)
    requires NoNameTwice(headers) && n <= |headers|
    ensures Lookup(headers, n, name) == Some(text) <==> HeaderSays(headers[..n], name, text)
  {
    if n > 0 {
      LookupIff(headers, n - 1, name, text);
      SaysOneMore(headers, n - 1, name, text);
    }
  }

  ghost predicate HeaderSays(headers: seq<Header>, name: string, text: string) {
    exists i :: 0 <= i < |headers| && headers[i].name == name && Says(headers[i].value, text)
  }

  lemma LookupAll(headers: seq<Header>, name: string, text: string)
    requires NoNameTwice(headers)
    ensures Lookup(headers, |headers|, name) == Some(text) <==> HeaderSays(headers, name, text)
  {
    assert headers[..|headers|] == headers;
    LookupIff(headers, |headers|, name, text);
  }

  ghost predicate Mirrors(m: map<string, string>, headers: seq<Header>, n: nat)
    requires n <= |headers|
  {
    forall name :: (if name in m then Some(m[name]) else None) == if name == PROTO then None else Lookup(headers, n, name)
  }

  // ---------------------------------------------------------------- numbers

  function Digit(d: nat): char
    requires d < 10
  {
    ('0' as int + d) as char
  }

  function Numeral(n: nat): string {
    if n < 10 then [Digit(n)] else Numeral(n / 10) + [Digit(n % 10)]
  }

  /** What a string of digits stands for; the empty string is 0, and None is any other string. */
  function Decimal(s: string): Option<nat> {
    if s == "" then Some(0)
    else
      var d := s[|s| - 1] as int - '0' as int;
      var front := Decimal(s[..|s| - 1]);
      if front.Some? && 0 <= d < 10 then Some(10 * front.value + d) else None
  }

  lemma {:induction false} DecimalOfNumeral(n: nat)
    ensures Decimal(Numeral(n)) == Some(n)
  {
    var s := Numeral(n);
    if n < 10 {
      assert s[..0] == "";
    } else {
      DecimalOfNumeral(n / 10);
      assert s[..|s| - 1] == Numeral(n / 10);
    }
  }

  datatype Num = NaN | Finite(x: real) | Infinite(positive: bool)

  function Whole(k: int): real {
    k as real
  }

  function Natural(n: nat): Num {
    Finite(Whole(n))
  }

  /** The runtime's `Number(s)`, `String(n)`, `x + 1` and `2 ** x`, whatever they make of odd
      cases. */
  datatype Js = Js(number: string -> Num, text: Num -> string, plusOne: real -> real, pow2: real -> real)

  /** Up to here, up and down, every whole number is a double. */
  const TWO_53: int := 0x20_0000_0000_0000

  /** What is relied on: decimals are read as such and naturals written as such, what is written
      reads back, and powers of two are right for naturals and never negative. Addition rounds
      to the nearest double, and to the even one of two: sums of whole numbers are exact as far
      as `TWO_53`, and below that only every second number is a double. */
  ghost predicate Sound(js: Js) {
    Reads(js) && Writes(js) && Powers(js) && Rounds(js)
  }

  ghost predicate Reads(js: Js) {
    forall s {:trigger js.number(s)} :: Decimal(s).Some? && Decimal(s).value <= TWO_53 ==> js.number(s) == Natural(Decimal(s).value)
  }

  ghost predicate Writes(js: Js) {
    && (forall n: nat {:trigger js.text(Natural(n))} :: n <= TWO_53 ==> js.text(Natural(n)) == Numeral(n))
    && (forall s :: ReadsBack(js, s))
  }

  ghost predicate Powers(js: Js) {
    && (forall n: nat {:trigger js.pow2(Whole(n))} :: js.pow2(Whole(n)) == Pow2(n) as real)
    && (forall x :: js.pow2(x) >= 0.0)
  }

  /** The next count after the one that `s` says is what is read from its own text. */
  predicate ReadsBack(js: Js, s: string) {
    js.number(js.text(PlusOne(js, js.number(s)))) == PlusOne(js, js.number(s))
  }

  ghost predicate Rounds(js: Js) {
    && (forall x, y {:trigger js.plusOne(x), js.plusOne(y)} :: x <= y ==> js.plusOne(x) <= js.plusOne(y))
    && (forall k {:trigger js.plusOne(Whole(k))} :: -TWO_53 <= k < TWO_53 ==> js.plusOne(Whole(k)) == Whole(k + 1))
    && js.plusOne(Whole(-TWO_53 - 2)) == Whole(-TWO_53)
    && js.plusOne(Whole(-TWO_53 - 4)) == Whole(-TWO_53 - 4)
    && (forall s :: js.number(s).Finite? ==> js.number(s).x <= Whole(-TWO_53 - 4) || Whole(-TWO_53 - 2) <= js.number(s).x)
  }

  function PlusOne(js: Js, n: Num): Num {
    if n.Finite? then Finite(js.plusOne(n.x)) else n
  }

  // There are such runtimes: the plainest knows the naturals and NaN.

  function PlainNumber(s: string): Num {
    if Decimal(s).Some? && Decimal(s).value <= TWO_53 then Natural(Decimal(s).value) else NaN
  }

  function PlainText(n: Num): string {
    if n.Finite? && 0 <= n.x.Floor <= TWO_53 && n.x == Whole(n.x.Floor) then Numeral(n.x.Floor) else "NaN"
  }

  function PlainPlusOne(x: real): real {
    if x >= Whole(TWO_53) then Whole(TWO_53)
    else if x >= Whole(-TWO_53) then Whole(x.Floor + 1)
    else if x >= Whole(-TWO_53 - 2) then Whole(-TWO_53)
    else Whole(-TWO_53 - 4)
  }

  function PlainPow2(x: real): real {
    if x.Floor >= 0 && x == Whole(x.Floor) then Pow2(x.Floor) as real else 0.0
  }

  const PLAIN := Js(PlainNumber, PlainText, PlainPlusOne, PlainPow2)

  lemma FloorGrows(x: real, y: real)
    requires x <= y
    ensures x.Floor <= y.Floor
  {
    assert x.Floor as real <= x && y < y.Floor as real + 1.0;
  }

  lemma PlainGrows(x: real, y: real)
    requires x <= y
    ensures PlainPlusOne(x) <= PlainPlusOne(y)
  {
    FloorGrows(x, y);
    if x >= Whole(-TWO_53) { FloorGrows(Whole(-TWO_53), x); }
    if y >= Whole(-TWO_53) { FloorGrows(Whole(-TWO_53), y); }
    if x < Whole(TWO_53) { assert x.Floor < TWO_53 by { FloorBelow(x, TWO_53); } }
  }

  lemma FloorBelow(x: real, k: int)
    requires x < Whole(k)
    ensures x.Floor < k
  {
    assert x.Floor as real <= x;
  }

  lemma PlainRounds()
    ensures Rounds(PLAIN)
  {
    forall x, y | x <= y
      ensures PLAIN.plusOne(x) <= PLAIN.plusOne(y)
    {
      PlainGrows(x, y);
    }
    assert forall s :: PLAIN.number(s).Finite? ==> PLAIN.number(s).x >= Whole(0);
  }

  lemma PlainPowers()
    ensures Powers(PLAIN)
  {
    forall n: nat
      ensures PLAIN.pow2(Whole(n)) == Pow2(n) as real
    {
      assert Whole(n).Floor == n;
    }
  }

  lemma PlainWrites()
    ensures Writes(PLAIN)
  {
    forall n: nat | n <= TWO_53
      ensures PLAIN.text(Natural(n)) == Numeral(n)
    {
      assert Whole(n).Floor == n;
    }
    forall s
      ensures ReadsBack(PLAIN, s)
    {
      PlainReadsBack(s);
    }
  }

  lemma PlainRuntimeIsSound()
    ensures Sound(PLAIN)
  {
    PlainPowers();
    PlainWrites();
    PlainRounds();
  }

  lemma PlainReadsBack(s: string)
    ensures ReadsBack(PLAIN, s)
  {
    var n := PlainNumber(s);
    if n.Finite? {
      var k: nat := if n.x.Floor < TWO_53 then n.x.Floor + 1 else TWO_53;
      assert PlusOne(PLAIN, n) == Natural(k);
      DecimalOfNumeral(k);
    } else {
      assert Decimal("NaN") == None;
    }
  }

  /** `n >= max`, which is false for NaN. */
  predicate AtLeast(n: Num, max: int) {
    match n
    case NaN => false
    case Finite(x) => x >= max as real
    case Infinite(positive) => positive
  }

  /** The header's value, whatever it says; "0" if there is none. */
  function ReplayCount(js: Js, headers: seq<Header>): Num {
    js.number(CountText(headers))
  }

  function CountText(headers: seq<Header>): string {
    var h := Lookup(headers, |headers|, REPLAY_COUNT);
    if h.Some? then h.value else "0"
  }

  // ---------------------------------------------------------------- delays

  function LeastReal(a: real, b: real): real {
    if a <= b then a else b
  }

  function Exponential(js: Js, base: int, x: real): real {
    base as real * js.pow2(x)
  }

  /** `min(base * 2 ** count, cap)`; None is NaN, or a count that is given up before. */
  function DelayCeiling(js: Js, base: int, cap: int, count: Num): Option<real> {
    match count
    case NaN => None
    case Finite(x) => Some(LeastReal(Exponential(js, base, x), cap as real))
    case Infinite(positive) => if positive then None else Some(LeastReal(0.0, cap as real))
  }

  /** Full jitter: that share of the ceiling, rounded down; so below the ceiling, and never
      negative unless the ceiling is. A delay of NaN is no delay. */
  function ComputeDelayMs(js: Js, base: int, cap: int, random: real, count: Num): (ms: int)
    requires 0.0 <= random < 1.0
    ensures var c := DelayCeiling(js, base, cap, count);
            if c == None then ms == 0
            else ms as real <= Product(random, c.value) < ms as real + 1.0
    ensures var c := DelayCeiling(js, base, cap, count);
            c.Some? ==> (c.value > 0.0 ==> 0 <= ms && ms as real < c.value) && (c.value <= 0.0 ==> ms as real > c.value - 1.0 && ms <= 0)
  {
    var c := DelayCeiling(js, base, cap, count);
    if c == None then 0
    else
      FloorOf(Share(random, c.value), c.value);
      Share(random, c.value).Floor
  }

  lemma FloorOf(x: real, c: real)
    requires (c > 0.0 ==> 0.0 <= x < c) && (c <= 0.0 ==> c <= x <= 0.0)
    ensures (c > 0.0 ==> 0 <= x.Floor && x.Floor as real < c) && (c <= 0.0 ==> x.Floor as real > c - 1.0 && x.Floor <= 0)
  {
    assert x.Floor as real <= x < x.Floor as real + 1.0;
  }

  lemma {:induction false} ProductAsReal(a: int, b: nat)
    ensures a as real * b as real == (a * b) as real
  {
    if b > 0 {
      ProductAsReal(a, b - 1);
      OneMore(b - 1, a);
      assert a as real * b as real == a as real * (b - 1) as real + a as real;
    }
  }

  lemma LeastAsReal(a: int, b: int)
    ensures LeastReal(a as real, b as real) == Min(a, b) as real
  {
  }

  lemma CeilingOfNatural(js: Js, base: int, cap: int, n: nat)
    requires Sound(js)
    ensures DelayCeiling(js, base, cap, Natural(n)) == Some(Min(base * Pow2(n), cap) as real)
  {
    ExponentialOfNatural(js, base, n);
    LeastAsReal(base * Pow2(n), cap);
  }

  lemma ExponentialOfNatural(js: Js, base: int, n: nat)
    requires Sound(js)
    ensures Exponential(js, base, Whole(n)) == (base * Pow2(n)) as real
  {
    assert js.pow2(Whole(n)) == Pow2(n) as real;
    ExponentialAsProduct(js, base, Whole(n), Pow2(n));
  }

  lemma ExponentialAsProduct(js: Js, base: int, x: real, p: nat)
    requires js.pow2(x) == p as real
    ensures Exponential(js, base, x) == (base * p) as real
  {
    ProductAsReal(base, p);
  }

  /** For the counts this service itself writes, the wait is that share of min(cap, base * 2^count),
      rounded down. */
  lemma DelayOfNatural(js: Js, base: int, cap: int, random: real, n: nat)
    requires Sound(js) && 0.0 <= random < 1.0
    ensures var c, ms := Min(base * Pow2(n), cap), ComputeDelayMs(js, base, cap, random, Natural(n));
            ms as real <= Product(random, c as real) < ms as real + 1.0 && (c > 0 ==> 0 <= ms < c)
  {
    CeilingOfNatural(js, base, cap, n);
  }

  // ---------------------------------------------------------------- one dead letter

  datatype Course = Skip | GiveUp | Replay(topic: string, count: Num)

  function OriginalTopic(headers: seq<Header>): Option<string> {
    Lookup(headers, |headers|, ORIGINAL_TOPIC)
  }

  /** What is to become of a dead letter with these headers. */
  function CourseFor(js: Js, headers: seq<Header>, maxReplays: int): Course {
    CourseOf(js, OriginalTopic(headers), ReplayCount(js, headers), maxReplays)
  }

  function CourseOf(js: Js, original: Option<string>, count: Num, maxReplays: int): Course {
    if original == None || original.value == "" then Skip
    else if AtLeast(count, maxReplays) then GiveUp
    else Replay(original.value, PlusOne(js, count))
  }

  datatype Produced = Produced(topic: string, value: Value, headers: map<string, string>)

  /** The same headers as strings, with the new count in place of the old one. */
  ghost predicate CarriesOn(m: map<string, string>, headers: seq<Header>, count: string) {
    forall name :: (if name in m then Some(m[name]) else None) == Carried(headers, count, name)
  }

  /** In other words: it has just the texts that the headers have, the count apart. */
  ghost predicate SaysTheSame(m: map<string, string>, headers: seq<Header>, count: string) {
    forall name, text :: (name in m && m[name] == text) <==>
      if name == "x-dlq-replay-count" then text == count else name != "__proto__" && HeaderSays(headers, name, text)
  }

  lemma CarryingSaysTheSame(m: map<string, string>, headers: seq<Header>, count: string)
    requires NoNameTwice(headers) && CarriesOn(m, headers, count)
    ensures SaysTheSame(m, headers, count)
  {
    forall name, text
      ensures (name in m && m[name] == text) <==>
              if name == "x-dlq-replay-count" then text == count else name != "__proto__" && HeaderSays(headers, name, text)
    {
      LookupAll(headers, name, text);
      assert (if name in m then Some(m[name]) else None) == Carried(headers, count, name);
    }
  }

  /** The headers' replay count: a decimal numeral, or none for 0. */
  ghost predicate CountSays(headers: seq<Header>, n: nat) {
    || (exists text :: HeaderSays(headers, "x-dlq-replay-count", text) && Decimal(text) == Some(n))
    || (n == 0 && forall text :: !HeaderSays(headers, "x-dlq-replay-count", text))
  }

  /** What the headers ask for, in their own words. */
  lemma CourseIff(js: Js, headers: seq<Header>, maxReplays: int, topic: string, n: nat)
    requires NoNameTwice(headers) && Sound(js) && n < TWO_53
    requires HeaderSays(headers, "x-original-topic", topic) && topic != "" && CountSays(headers, n)
    ensures CourseFor(js, headers, maxReplays) == if n >= maxReplays then GiveUp else Replay(topic, Natural(n + 1))
    ensures OriginalTopic(headers) == Some(topic) && ReplayCount(js, headers) == Natural(n)
  {
    LookupAll(headers, "x-original-topic", topic);
    CountIff(headers, n);
    NumeralCounts(js, headers, n);
    OneUp(js, n);
  }

  lemma SkipIff(js: Js, headers: seq<Header>, maxReplays: int)
    requires NoNameTwice(headers)
    ensures CourseFor(js, headers, maxReplays) == Skip <==> forall topic :: HeaderSays(headers, "x-original-topic", topic) ==> topic == ""
  {
    var h := OriginalTopic(headers);
    if h.Some? { LookupAll(headers, "x-original-topic", h.value); }
    forall topic
      ensures HeaderSays(headers, "x-original-topic", topic) <==> h == Some(topic)
    {
      LookupAll(headers, "x-original-topic", topic);
    }
  }

  lemma CountIff(headers: seq<Header>, n: nat)
    requires NoNameTwice(headers) && CountSays(headers, n)
    ensures Counts(headers, n)
  {
    var h := Lookup(headers, |headers|, "x-dlq-replay-count");
    if h.Some? { LookupAll(headers, "x-dlq-replay-count", h.value); }
    if text :| HeaderSays(headers, "x-dlq-replay-count", text) && Decimal(text) == Some(n) {
      LookupAll(headers, "x-dlq-replay-count", text);
    }
  }

  function Carried(headers: seq<Header>, count: string, name: string): Option<string> {
    if name == REPLAY_COUNT then Some(count) else if name == PROTO then None else Lookup(headers, |headers|, name)
  }

  /** How the send ends, whether the hook of the course taken throws, and how the commit ends. */
  datatype Ends = Ends(send: Io, hookThrows: bool, commit: Io)

  predicate Commits(course: Course, e: Ends) {
    (course.Replay? ==> e.send == Done) && (course.Skip? || !e.hookThrows)
  }

  function ReplaySteps(c: Id, j: nat, home: Part, course: Course, e: Ends): seq<Step> {
    [Rep(DeliverDead(c, j))] + (if course.Replay? then [Rep(Resend(c, home, e.send))] else []) + LastSteps(c, course, e)
  }

  function LastSteps(c: Id, course: Course, e: Ends): seq<Step> {
    if course.Replay? && e.send != Done then []
    else if Commits(course, e) then [Rep(CommitDead(c, e.commit))]
    else [Rep(CrashReplay(c))]
  }

  class DlqReplayConsumer {
    const id: Id
    const js: Js
    const maxReplays: int
    const baseReplayDelayMs: int
    const maxReplayDelayMs: int
    var slept: int
    var produced: seq<Produced>
    var committed: Option<nat>
    var givenUp: nat
    var replayed: nat
    ghost var trail: seq<Step>

    constructor (id: Id, js: Js, maxReplays: int, baseReplayDelayMs: int, maxReplayDelayMs: int)
      ensures this.id == id && this.js == js && this.maxReplays == maxReplays
      ensures this.baseReplayDelayMs == baseReplayDelayMs && this.maxReplayDelayMs == maxReplayDelayMs
      ensures slept == 0 && produced == [] && committed == None && givenUp == 0 && replayed == 0 && trail == []
    {
      this.id, this.js, this.maxReplays, this.baseReplayDelayMs, this.maxReplayDelayMs := id, js, maxReplays, baseReplayDelayMs, maxReplayDelayMs;
      slept, produced, committed, givenUp, replayed, trail := 0, [], None, 0, 0, [];
    }

    /** The headers of the republished message. */
    method StringHeaders(headers: seq<Header>, count: string) returns (m: map<string, string>)
      requires NoNameTwice(headers)
      ensures CarriesOn(m, headers, count) && SaysTheSame(m, headers, count)
    {
      m := map[];
      for k := 0 to |headers|
        invariant Mirrors(m, headers, k)
      {
        Missing(headers, k, headers[k].name);
        var v := HeaderToString(headers[k].value);
        if v.Some? && headers[k].name != PROTO {
          m := m[headers[k].name := v.value];
        }
      }
      m := m[REPLAY_COUNT := count];
      CarryingSaysTheSame(m, headers, count);
    }

    method CommitOffset(j: nat, io: Io) returns (threw: bool)
      modifies `committed, `trail
      ensures threw <==> io != Done
      ensures committed == if io == FailedClean then old(committed) else Some(j + 1)
      ensures trail == old(trail) + [Rep(CommitDead(id, io))]
    {
      trail := trail + [Rep(CommitDead(id, io))];
      if io != FailedClean {
        committed := Some(j + 1);
      }
      return io != Done;
    }

    /** The wait and the republication. */
    method Republish(headers: seq<Header>, value: Value, home: Part, count: Num, random: real, io: Io) returns (threw: bool)
      requires NoNameTwice(headers) && 0.0 <= random < 1.0
      modifies `slept, `produced, `trail
      ensures threw <==> io != Done
      ensures slept == old(slept) + ComputeDelayMs(js, baseReplayDelayMs, maxReplayDelayMs, random, count)
      ensures Adds(old(produced), io != FailedClean, home.topic, value, headers, PlusOne(js, count))
      ensures trail == old(trail) + [Rep(Resend(id, home, io))]
    {
      slept := slept + ComputeDelayMs(js, baseReplayDelayMs, maxReplayDelayMs, random, count);
      var m := StringHeaders(headers, js.text(PlusOne(js, count)));
      trail := trail + [Rep(Resend(id, home, io))];
      if io != FailedClean {
        produced := produced + [Produced(home.topic, value, m)];
      }
      return io != Done;
    }

    /** One message more, the dead letter's with the new count, or none. */
    ghost predicate Adds(before: seq<Produced>, sent: bool, topic: string, value: Value, headers: seq<Header>, count: Num)
      reads this
    {
      if sent then
        && |produced| == |before| + 1 && produced[..|before|] == before
        && produced[|before|].topic == topic && produced[|before|].value == value
        && CarriesOn(produced[|before|].headers, headers, js.text(count))
      else produced == before
    }

    /** A metrics hook: true if it throws. */
    method Hook(course: Course, throws: bool) returns (threw: bool)
      modifies `givenUp, `replayed
      ensures threw == throws
      ensures givenUp == old(givenUp) + (if course.GiveUp? then 1 else 0) && replayed == old(replayed) + (if course.Replay? then 1 else 0)
    {
      if course.GiveUp? {
        givenUp := givenUp + 1;
      } else if course.Replay? {
        replayed := replayed + 1;
      }
      return throws;
    }

    /** The end of every course but a failed send: the hook of that course, and the commit. */
    method Finish(j: nat, course: Course, e: Ends) returns (threw: bool)
      requires course.Replay? ==> e.send == Done
      modifies `givenUp, `replayed, `committed, `trail
      ensures threw <==> !Commits(course, e) || e.commit != Done
      ensures committed == if !Commits(course, e) || e.commit == FailedClean then old(committed) else Some(j + 1)
      ensures givenUp == old(givenUp) + (if course.GiveUp? then 1 else 0) && replayed == old(replayed) + (if course.Replay? then 1 else 0)
      ensures trail == old(trail) + LastSteps(id, course, e)
    {
      if !course.Skip? {
        threw := Hook(course, e.hookThrows);
        if threw {
          trail := trail + [Rep(CrashReplay(id))];
          return;
        }
      }
      threw := CommitOffset(j, e.commit);
    }

    /** A dead letter without the original topic is passed over, one that is out of replays
        is given up, and any other goes back to its topic after a wait, with one more replay to
        its name; its offset is committed only once all that has worked. The broker picks the
        partition. */
    method Attend(headers: seq<Header>, value: Value, j: nat, index: nat, random: real, e: Ends) returns (threw: bool)
      requires NoNameTwice(headers) && 0.0 <= random < 1.0
      modifies this
      ensures var course := CourseFor(js, headers, maxReplays);
              && (threw <==> !Commits(course, e) || e.commit != Done)
              && committed == (if !Commits(course, e) || e.commit == FailedClean then old(committed) else Some(j + 1))
              && givenUp == old(givenUp) + (if course.GiveUp? then 1 else 0)
              && replayed == old(replayed) + (if course.Replay? && e.send == Done then 1 else 0)
              && slept == old(slept) +
                 (if course.Replay? then ComputeDelayMs(js, baseReplayDelayMs, maxReplayDelayMs, random, ReplayCount(js, headers)) else 0)
              && Adds(old(produced), course.Replay? && e.send != FailedClean, Home(headers, index).topic, value, headers, PlusOne(js, ReplayCount(js, headers)))
      ensures trail == old(trail) + ReplaySteps(id, j, Home(headers, index), CourseFor(js, headers, maxReplays), e)
    {
      trail := trail + [Rep(DeliverDead(id, j))];
      var originalTopic := OriginalTopic(headers);
      var replayCount := ReplayCount(js, headers);
      if originalTopic == None || originalTopic.value == "" {
        threw := Finish(j, Skip, e);
        return;
      }
      if AtLeast(replayCount, maxReplays) {
        threw := Finish(j, GiveUp, e);
        return;
      }
      threw := Republish(headers, value, Part(originalTopic.value, index), replayCount, random, e.send);
      if threw {
        return;
      }
      threw := Finish(j, Replay(originalTopic.value, PlusOne(js, replayCount)), e);
    }

    /** `eachMessage`. What it comes to is told once more in the headers' own words, however they
        were handed over: as strings, as buffers, or in lists. */
    method EachMessage(headers: seq<Header>, value: Value, j: nat, index: nat, random: real, e: Ends) returns (threw: bool)
      requires NoNameTwice(headers) && 0.0 <= random < 1.0
      modifies this
      ensures var course := CourseFor(js, headers, maxReplays);
              && (threw <==> !Commits(course, e) || e.commit != Done)
              && committed == (if !Commits(course, e) || e.commit == FailedClean then old(committed) else Some(j + 1))
              && givenUp == old(givenUp) + (if course.GiveUp? then 1 else 0)
              && replayed == old(replayed) + (if course.Replay? && e.send == Done then 1 else 0)
              && slept == old(slept) +
                 (if course.Replay? then ComputeDelayMs(js, baseReplayDelayMs, maxReplayDelayMs, random, ReplayCount(js, headers)) else 0)
              && Adds(old(produced), course.Replay? && e.send != FailedClean, Home(headers, index).topic, value, headers, PlusOne(js, ReplayCount(js, headers)))
      ensures trail == old(trail) + ReplaySteps(id, j, Home(headers, index), CourseFor(js, headers, maxReplays), e)
      ensures forall topic, n: nat :: HeaderSays(headers, "x-original-topic", topic) && topic != "" && CountSays(headers, n) && Sound(js) && n < TWO_53 ==>
                && var seen := (n < maxReplays ==> e.send == Done) && !e.hookThrows;
                && (threw <==> !seen || e.commit != Done)
                && committed == (if seen && e.commit != FailedClean then Some(j + 1) else old(committed))
                && givenUp == old(givenUp) + (if n >= maxReplays then 1 else 0)
                && if n < maxReplays && e.send != FailedClean then Returns(old(produced), topic, value, headers, n + 1) else produced == old(produced)
      ensures (forall topic :: HeaderSays(headers, "x-original-topic", topic) ==> topic == "") ==>
                && produced == old(produced) && givenUp == old(givenUp)
                && (threw <==> e.commit != Done) && committed == if e.commit != FailedClean then Some(j + 1) else old(committed)
    {
      SkipIff(js, headers, maxReplays);
      threw := Attend(headers, value, j, index, random, e);
      forall topic, n: nat | HeaderSays(headers, "x-original-topic", topic) && topic != "" && CountSays(headers, n) && Sound(js) && n < TWO_53
        ensures var seen := (n < maxReplays ==> e.send == Done) && !e.hookThrows;
                && (threw <==> !seen || e.commit != Done)
                && committed == (if seen && e.commit != FailedClean then Some(j + 1) else old(committed))
        ensures givenUp == old(givenUp) + if n >= maxReplays then 1 else 0
        ensures if n < maxReplays && e.send != FailedClean then Returns(old(produced), topic, value, headers, n + 1) else produced == old(produced)
      {
        CourseIff(js, headers, maxReplays, topic, n);
        OneUp(js, n);
        if n < maxReplays && e.send != FailedClean {
          CarryingSaysTheSame(produced[|old(produced)|].headers, headers, js.text(Natural(n + 1)));
        }
      }
    }

    /** One message more: the dead letter's value on its topic, with what its headers say and
        this count. */
    ghost predicate Returns(before: seq<Produced>, topic: string, value: Value, headers: seq<Header>, n: nat)
      reads this
    {
      && |produced| == |before| + 1 && produced[..|before|] == before
      && var p := produced[|before|];
         p.topic == topic && p.value == value && SaysTheSame(p.headers, headers, Numeral(n))
    }
  }

  /** Where the dead letter goes back to. */
  function Home(headers: seq<Header>, index: nat): Part {
    Part(if OriginalTopic(headers).Some? then OriginalTopic(headers).value else "", index)
  }

  /** The republished headers as they come back in the next dead letter, if it keeps them. */
  predicate Same(headers: seq<Header>, m: map<string, string>) {
    && NoNameTwice(headers)
    && (forall i :: 0 <= i < |headers| ==> headers[i].name in m && Says(headers[i].value, m[headers[i].name]))
    && (forall name <- m :: exists i :: 0 <= i < |headers| && headers[i].name == name)
  }

  lemma LivesOn(headers: seq<Header>, m: map<string, string>, count: string, again: seq<Header>, name: string)
    requires CarriesOn(m, headers, count) && Same(again, m) && Carried(headers, count, name).Some?
    ensures Lookup(again, |again|, name) == Carried(headers, count, name)
  {
    assert name in m && Carried(headers, count, name) == Some(m[name]);
    ComesBackAs(again, m, name);
  }

  lemma ComesBackAs(again: seq<Header>, m: map<string, string>, name: string)
    requires Same(again, m) && name in m
    ensures Lookup(again, |again|, name) == Some(m[name])
  {
    var i :| 0 <= i < |again| && again[i].name == name;
    assert Says(again[i].value, m[again[i].name]);
    LookupAll(again, name, m[name]);
  }

  lemma HeadersLiveOn(headers: seq<Header>, m: map<string, string>, count: string, again: seq<Header>)
    requires CarriesOn(m, headers, count) && Same(again, m) && OriginalTopic(headers).Some?
    ensures Lookup(again, |again|, REPLAY_COUNT) == Some(count)
    ensures OriginalTopic(again) == OriginalTopic(headers)
  {
    LivesOn(headers, m, count, again, REPLAY_COUNT);
    LivesOn(headers, m, count, again, ORIGINAL_TOPIC);
  }

  /** The count lives on the message: headers that survive a second dead-lettering carry the
      next replay number, whatever kind of number it is, and the same original topic. */
  lemma CountLivesOnTheMessage(js: Js, headers: seq<Header>, m: map<string, string>, again: seq<Header>)
    requires Sound(js) && OriginalTopic(headers).Some?
    requires CarriesOn(m, headers, js.text(PlusOne(js, ReplayCount(js, headers)))) && Same(again, m)
    ensures ReplayCount(js, again) == PlusOne(js, ReplayCount(js, headers))
    ensures OriginalTopic(again) == OriginalTopic(headers)
  {
    HeadersLiveOn(headers, m, js.text(PlusOne(js, ReplayCount(js, headers))), again);
    assert ReadsBack(js, CountText(headers));
  }

  /** A count that is no number stays none: such a dead letter is replayed, and comes back to
      be replayed again. */
  lemma NotANumberIsNeverGivenUp(js: Js, headers: seq<Header>, maxReplays: int, m: map<string, string>, again: seq<Header>)
    requires Sound(js) && ReplayCount(js, headers) == NaN && CourseFor(js, headers, maxReplays) != Skip
    requires CarriesOn(m, headers, js.text(PlusOne(js, NaN))) && Same(again, m)
    ensures CourseFor(js, headers, maxReplays).Replay? && ReplayCount(js, again) == NaN
    ensures CourseFor(js, again, maxReplays) == CourseFor(js, headers, maxReplays)
  {
    CountLivesOnTheMessage(js, headers, m, again);
  }

  // ---------------------------------------------------------------- round after round

  /** A dead letter is replayed, and comes back with the headers it was replayed with. */
  ghost predicate ComesBack(js: Js, maxReplays: int, headers: seq<Header>, again: seq<Header>) {
    && CourseFor(js, headers, maxReplays).Replay?
    && exists m :: CarriesOn(m, headers, js.text(PlusOne(js, ReplayCount(js, headers)))) && Same(again, m)
  }

  /** The headers of one dead letter, round after round. */
  ghost predicate IsChain(js: Js, maxReplays: int, hs: seq<seq<Header>>) {
    hs != [] && forall i :: 0 <= i < |hs| - 1 ==> Round(js, maxReplays, hs, i)
  }

  ghost predicate Round(js: Js, maxReplays: int, hs: seq<seq<Header>>, i: nat)
    requires i < |hs| - 1
  {
    ComesBack(js, maxReplays, hs[i], hs[i + 1])
  }

  ghost predicate ChainFrom(js: Js, maxReplays: int, headers: seq<Header>, hs: seq<seq<Header>>) {
    IsChain(js, maxReplays, hs) && hs[0] == headers
  }

  /** However often it comes back, it does not come back more often than that. */
  ghost predicate GivenUpWithin(js: Js, maxReplays: int, headers: seq<Header>, n: nat) {
    forall hs :: ChainFrom(js, maxReplays, headers, hs) ==> |hs| <= n + 1
  }

  lemma SameTopic(js: Js, original: Option<string>, maxReplays: int, n: Num, m: Num)
    requires CourseOf(js, original, n, maxReplays) != Skip
    ensures CourseOf(js, original, m, maxReplays) != Skip
  {
  }

  lemma NextRound(js: Js, maxReplays: int, headers: seq<Header>, again: seq<Header>)
    requires Sound(js) && ComesBack(js, maxReplays, headers, again)
    ensures ReplayCount(js, again) == PlusOne(js, ReplayCount(js, headers)) && CourseFor(js, again, maxReplays) != Skip
    ensures CountText(again) == js.text(PlusOne(js, ReplayCount(js, headers)))
  {
    var count := js.text(PlusOne(js, ReplayCount(js, headers)));
    var m :| CarriesOn(m, headers, count) && Same(again, m);
    assert Lookup(again, |again|, REPLAY_COUNT) == Some(count) by { HeadersLiveOn(headers, m, count, again); }
    CountLivesOnTheMessage(js, headers, m, again);
    SameTopic(js, OriginalTopic(headers), maxReplays, ReplayCount(js, headers), ReplayCount(js, again));
  }

  // Counts that climb.

  /** Not below the point where adding one changes nothing any more. */
  predicate Climbs(n: Num) {
    match n
    case NaN => false
    case Finite(x) => x >= Whole(-TWO_53 - 2)
    case Infinite(positive) => positive
  }

  lemma {:induction false} CountClimbs(js: Js, maxReplays: int, hs: seq<seq<Header>>, i: nat)
    requires Sound(js) && maxReplays <= TWO_53 && IsChain(js, maxReplays, hs) && 0 < i < |hs| && Climbs(ReplayCount(js, hs[0]))
    ensures ReplayCount(js, hs[i]).Finite? && ReplayCount(js, hs[i]).x >= Whole(i - 1 - TWO_53)
  {
    assert Round(js, maxReplays, hs, i - 1);
    NextRound(js, maxReplays, hs[i - 1], hs[i]);
    var x := ReplayCount(js, hs[i - 1]);
    if i == 1 {
      assert js.plusOne(Whole(-TWO_53 - 2)) <= js.plusOne(x.x);
    } else {
      CountClimbs(js, maxReplays, hs, i - 1);
      assert x.x < maxReplays as real;
      assert js.plusOne(Whole(i - 2 - TWO_53)) <= js.plusOne(x.x);
    }
  }

  lemma ClimbingIsGivenUp(js: Js, maxReplays: int, headers: seq<Header>)
    requires Sound(js) && -TWO_53 <= maxReplays <= TWO_53 && Climbs(ReplayCount(js, headers))
    ensures GivenUpWithin(js, maxReplays, headers, maxReplays + TWO_53 + 1)
  {
    var n := maxReplays + TWO_53 + 1;
    forall hs | ChainFrom(js, maxReplays, headers, hs)
      ensures |hs| <= n + 1
    {
      if |hs| > n + 1 {
        assert Round(js, maxReplays, hs, n);
        CountClimbs(js, maxReplays, hs, n);
        assert false;
      }
    }
  }

  // Counts that do not.

  lemma StaysDown(js: Js, maxReplays: int, headers: seq<Header>)
    requires Sound(js) && maxReplays >= -TWO_53 && !Climbs(ReplayCount(js, headers)) && CourseFor(js, headers, maxReplays) != Skip
    ensures CourseFor(js, headers, maxReplays).Replay? && !Climbs(PlusOne(js, ReplayCount(js, headers)))
  {
    var n := ReplayCount(js, headers);
    if n.Finite? {
      assert n.x <= Whole(-TWO_53 - 4);
      assert js.plusOne(n.x) <= js.plusOne(Whole(-TWO_53 - 4));
    }
  }

  function Names(headers: seq<Header>): set<string> {
    set i | 0 <= i < |headers| :: headers[i].name
  }

  lemma SomeMap(headers: seq<Header>, count: string) returns (m: map<string, string>)
    ensures CarriesOn(m, headers, count)
  {
    m := map name | name in Names(headers) + {REPLAY_COUNT} && Carried(headers, count, name).Some? :: Carried(headers, count, name).value;
    forall name | name !in Names(headers)
      ensures Lookup(headers, |headers|, name) == None
    {
      Missing(headers, |headers|, name);
    }
  }

  lemma {:induction false} SomeHeaders(m: map<string, string>) returns (headers: seq<Header>)
    ensures Same(headers, m)
    decreases |m.Keys|
  {
    if m == map[] {
      headers := [];
    } else {
      var name :| name in m;
      assert (m - {name}).Keys == m.Keys - {name};
      var rest := SomeHeaders(m - {name});
      headers := rest + [Header(name, One(Buffer(m[name])))];
      OneMoreHeader(rest, m, name);
    }
  }

  lemma OneMoreHeader(rest: seq<Header>, m: map<string, string>, name: string)
    requires name in m && Same(rest, m - {name})
    ensures Same(rest + [Header(name, One(Buffer(m[name])))], m)
  {
    var headers := rest + [Header(name, One(Buffer(m[name])))];
    assert headers[|rest|].name == name;
    forall other <- m
      ensures exists i :: 0 <= i < |headers| && headers[i].name == other
    {
      if other != name {
        assert other in m - {name};
        var i :| 0 <= i < |rest| && rest[i].name == other;
        assert headers[i].name == other;
      }
    }
  }

  lemma {:induction false} EndlessChain(js: Js, maxReplays: int, headers: seq<Header>, n: nat) returns (hs: seq<seq<Header>>)
    requires Sound(js) && maxReplays >= -TWO_53 && !Climbs(ReplayCount(js, headers)) && CourseFor(js, headers, maxReplays) != Skip
    ensures ChainFrom(js, maxReplays, headers, hs) && |hs| == n + 1
    decreases n
  {
    if n == 0 {
      hs := [headers];
    } else {
      StaysDown(js, maxReplays, headers);
      var m := SomeMap(headers, js.text(PlusOne(js, ReplayCount(js, headers))));
      var again := SomeHeaders(m);
      assert ComesBack(js, maxReplays, headers, again);
      NextRound(js, maxReplays, headers, again);
      var rest := EndlessChain(js, maxReplays, again, n - 1);
      hs := [headers] + rest;
      forall i | 0 <= i < |hs| - 1
        ensures Round(js, maxReplays, hs, i)
      {
        if i > 0 { assert Round(js, maxReplays, rest, i - 1); }
      }
    }
  }

  /** A dead letter that keeps its headers and keeps failing is given up in the end, if and only
      if its count is neither NaN nor minus infinity nor a number so far below zero that adding
      one to it is lost in rounding; such a dead letter goes round for ever. */
  lemma GivenUpIff(js: Js, headers: seq<Header>, maxReplays: int)
    requires Sound(js) && -TWO_53 <= maxReplays <= TWO_53 && CourseFor(js, headers, maxReplays) != Skip
    ensures (exists n: nat :: GivenUpWithin(js, maxReplays, headers, n)) <==> Climbs(ReplayCount(js, headers))
  {
    if Climbs(ReplayCount(js, headers)) {
      ClimbingIsGivenUp(js, maxReplays, headers);
    } else {
      forall n: nat
        ensures !GivenUpWithin(js, maxReplays, headers, n)
      {
        var hs := EndlessChain(js, maxReplays, headers, n + 1);
      }
    }
  }

  // Counts as this service writes them.

  /** The header is a decimal numeral, or absent. */
  predicate Counts(headers: seq<Header>, n: nat) {
    Decimal(CountText(headers)) == Some(n)
  }

  function Remaining(maxReplays: int, n: nat): nat {
    if n < maxReplays then maxReplays - n else 0
  }

  lemma NumeralCounts(js: Js, headers: seq<Header>, n: nat)
    requires Sound(js) && n <= TWO_53 && Counts(headers, n)
    ensures ReplayCount(js, headers) == Natural(n)
  {
  }

  lemma OneUp(js: Js, n: nat)
    requires Sound(js) && n < TWO_53
    ensures PlusOne(js, Natural(n)) == Natural(n + 1)
  {
    assert js.plusOne(Whole(n)) == Whole(n + 1);
  }

  lemma ReplaysLeft(js: Js, original: Option<string>, maxReplays: int, n: nat)
    requires CourseOf(js, original, Natural(n), maxReplays) != Skip
    ensures CourseOf(js, original, Natural(n), maxReplays).Replay? <==> n < maxReplays
  {
  }

  /** How a dead letter stands whose count is k, if it has come to that by being replayed. */
  predicate StandsAt(js: Js, maxReplays: int, headers: seq<Header>, k: nat, replayed: bool) {
    && k <= TWO_53 && ReplayCount(js, headers) == Natural(k)
    && (replayed ==> k <= maxReplays && CountText(headers) == js.text(Natural(k)) && CourseFor(js, headers, maxReplays) != Skip)
  }

  lemma OneRound(js: Js, maxReplays: int, headers: seq<Header>, again: seq<Header>, k: nat, replayed: bool)
    requires Sound(js) && maxReplays <= TWO_53 && ComesBack(js, maxReplays, headers, again) && StandsAt(js, maxReplays, headers, k, replayed)
    ensures StandsAt(js, maxReplays, again, k + 1, true)
  {
    NextRound(js, maxReplays, headers, again);
    ReplaysLeft(js, OriginalTopic(headers), maxReplays, k);
    OneUp(js, k);
  }

  lemma {:induction false} CountsUp(js: Js, maxReplays: int, hs: seq<seq<Header>>, n: nat, i: nat)
    requires Sound(js) && maxReplays <= TWO_53 && IsChain(js, maxReplays, hs) && StandsAt(js, maxReplays, hs[0], n, false) && i < |hs|
    ensures StandsAt(js, maxReplays, hs[i], n + i, i > 0)
  {
    if i > 0 {
      CountsUp(js, maxReplays, hs, n, i - 1);
      assert Round(js, maxReplays, hs, i - 1);
      OneRound(js, maxReplays, hs[i - 1], hs[i], n + i - 1, i > 1);
    }
  }

  /** From a count of n such a dead letter is replayed exactly maxReplays - n times, counting
      n + 1, n + 2 and so on, and given up the next time it comes; at once if n is not below
      maxReplays. */
  lemma ReplayedExactly(js: Js, maxReplays: int, hs: seq<seq<Header>>, n: nat)
    requires Sound(js) && -TWO_53 <= maxReplays <= TWO_53 && n <= TWO_53
    requires IsChain(js, maxReplays, hs) && Counts(hs[0], n) && CourseFor(js, hs[0], maxReplays) != Skip
    ensures forall i :: 0 < i < |hs| ==> CountText(hs[i]) == Numeral(n + i)
    ensures |hs| - 1 <= Remaining(maxReplays, n)
    ensures CourseFor(js, hs[|hs| - 1], maxReplays).GiveUp? <==> |hs| - 1 == Remaining(maxReplays, n)
  {
    NumeralCounts(js, hs[0], n);
    forall i | 0 < i < |hs|
      ensures CountText(hs[i]) == Numeral(n + i)
    {
      CountsUp(js, maxReplays, hs, n, i);
    }
    LastOfChain(js, maxReplays, hs, n);
  }

  lemma LastOfChain(js: Js, maxReplays: int, hs: seq<seq<Header>>, n: nat)
    requires Sound(js) && maxReplays <= TWO_53 && IsChain(js, maxReplays, hs) && StandsAt(js, maxReplays, hs[0], n, false)
    requires CourseFor(js, hs[0], maxReplays) != Skip
    ensures |hs| - 1 <= Remaining(maxReplays, n)
    ensures CourseFor(js, hs[|hs| - 1], maxReplays).GiveUp? <==> |hs| - 1 == Remaining(maxReplays, n)
  {
    var last := |hs| - 1;
    CountsUp(js, maxReplays, hs, n, last);
    ReplaysLeft(js, OriginalTopic(hs[last]), maxReplays, n + last);
  }

  // ---------------------------------------------------------------- as a run of the pipeline

  /** What the hook and the commit leave. */
  ghost predicate Closed(s: State, t: State, c: Id, j: nat, course: Course, e: Ends) {
    && t.dlq == s.dlq && t.rows == s.rows && t.topic == s.topic
    && t.dlqCommitted == (if !Commits(course, e) || e.commit == FailedClean then s.dlqCommitted else s.dlqCommitted[c.part := j + 1])
    && (if !Commits(course, e) || e.commit != Done then c !in t.replayers
        else c in t.replayers && t.replayers[c] == Replayer(j + 1, Resting))
  }

  /** What is left once a dead letter has been seen to. */
  ghost predicate SeenTo(s: State, t: State, c: Id, home: Part, j: nat, course: Course, e: Ends)
    requires j < |s.dlq|
  {
    var d := s.dlq[j];
    && Closed(s, t.(topic := s.topic), c, j, course, e)
    && t.topic == s.topic + (if course.Replay? && e.send != FailedClean then [Msg(home, d.value, d.replays + 1, Replayed(j), d.root)] else [])
  }

  lemma LastIsARun(cfg: Config, s: State, c: Id, j: nat, course: Course, e: Ends)
    requires c in s.replayers && s.replayers[c].work == Finishing(j) && (course.Replay? ==> e.send == Done)
    ensures var es := LastSteps(c, course, e); IsRun(cfg, s, es) && Closed(s, After(cfg, s, es), c, j, course, e)
  {
    OneStep(cfg, s, if Commits(course, e) then Rep(CommitDead(c, e.commit)) else Rep(CrashReplay(c)));
  }

  lemma ReplayGoesOn(cfg: Config, s: State, c: Id, j: nat, home: Part, course: Course, e: Ends)
    requires c in s.replayers && j < |s.dlq| && s.replayers[c].work == Resending(j) && s.dlq[j].original == Some(home.topic) && course.Replay?
    ensures var es := [Rep(Resend(c, home, e.send))] + LastSteps(c, course, e);
            IsRun(cfg, s, es) && SeenTo(s, After(cfg, s, es), c, home, j, course, e)
  {
    var resend := Rep(Resend(c, home, e.send));
    var t := Next(cfg, s, resend);
    if e.send == Done {
      assert t.replayers[c].work == Finishing(j) && t.dlqCommitted == s.dlqCommitted;
      LastIsARun(cfg, t, c, j, course, e);
    }
    StepThen(cfg, s, resend, LastSteps(c, course, e));
  }

  /** The pipeline replays the same dead letters, and with the same counts. */
  lemma CourseIs(cfg: Config, js: Js, d: Dead)
    ensures CourseOf(js, d.original, Natural(d.replays), cfg.maxReplays).Replay? <==> Pipeline.Replays(cfg, d)
  {
  }

  lemma CountIs(cfg: Config, js: Js, d: Dead)
    requires Sound(js) && cfg.maxReplays <= TWO_53 && Pipeline.Replays(cfg, d)
    ensures CourseOf(js, d.original, Natural(d.replays), cfg.maxReplays) == Replay(d.original.value, Natural(d.replays + 1))
  {
    OneUp(js, d.replays);
  }

  lemma DeliveredDead(cfg: Config, s: State, c: Id, j: nat)
    requires EnabledRep(cfg, s, DeliverDead(c, j))
    ensures var t := NextRep(cfg, s, DeliverDead(c, j));
            && t.topic == s.topic && t.dlq == s.dlq && t.rows == s.rows && t.dlqCommitted == s.dlqCommitted && c in t.replayers
            && t.replayers[c].work == if Pipeline.Replays(cfg, s.dlq[j]) then Resending(j) else Finishing(j)
  {
  }

  lemma SeenToIsARun(cfg: Config, s: State, c: Id, j: nat, home: Part, course: Course, e: Ends)
    requires c in s.replayers && j < |s.dlq|
    requires s.replayers[c].work == if course.Replay? then Resending(j) else Finishing(j)
    requires course.Replay? ==> s.dlq[j].original == Some(home.topic)
    ensures var es := (if course.Replay? then [Rep(Resend(c, home, e.send))] else []) + LastSteps(c, course, e);
            IsRun(cfg, s, es) && SeenTo(s, After(cfg, s, es), c, home, j, course, e)
  {
    if course.Replay? {
      ReplayGoesOn(cfg, s, c, j, home, course, e);
    } else {
      LastIsARun(cfg, s, c, j, course, e);
      assert [] + LastSteps(c, course, e) == LastSteps(c, course, e);
    }
  }

  /** `eachMessage` of the replay consumer is a run of the pipeline too, from any state in
      which the dead letter is the next one of a consumer at rest. */
  lemma EachDeadLetterIsARun(cfg: Config, js: Js, s: State, c: Id, j: nat, headers: seq<Header>, home: Part, e: Ends)
    requires EnabledRep(cfg, s, DeliverDead(c, j)) && ReplayCount(js, headers) == Natural(s.dlq[j].replays)
    requires s.dlq[j].original == OriginalTopic(headers)
    requires s.dlq[j].original.Some? ==> home.topic == s.dlq[j].original.value
    ensures var course := CourseFor(js, headers, cfg.maxReplays);
            var es := ReplaySteps(c, j, home, course, e);
            IsRun(cfg, s, es) && SeenTo(s, After(cfg, s, es), c, home, j, course, e)
  {
    var course := CourseFor(js, headers, cfg.maxReplays);
    var deliver := Rep(DeliverDead(c, j));
    DeliveredDead(cfg, s, c, j);
    CourseIs(cfg, js, s.dlq[j]);
    SeenToIsARun(cfg, Next(cfg, s, deliver), c, j, home, course, e);
    var rest := (if course.Replay? then [Rep(Resend(c, home, e.send))] else []) + LastSteps(c, course, e);
    StepThen(cfg, s, deliver, rest);
    assert ReplaySteps(c, j, home, course, e) == [deliver] + rest;
  }
}
