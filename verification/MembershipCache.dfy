/** `grpc/membership-verifier.ts` over `cache/cached-lookup.ts`: a two-entry read-through cache
    in front of an authoritative membership source. */
module MembershipCache {
  import opened Basics
  import opened CacheKeys

  // ---------------------------------------------------------------- the source

  datatype Source = Source(roles: map<(string, string), string>, permissions: map<(string, string), seq<string>>)

  datatype Rpc = Rpc(isMember: bool, permissions: seq<string>, role: string)

  function PermissionsOf(src: Source, orgId: string, role: string): seq<string> {
    if (orgId, role) in src.permissions then src.permissions[(orgId, role)] else []
  }

  function Ask(src: Source, orgId: string, userId: string): Rpc {
    if (orgId, userId) in src.roles then
      var role := src.roles[(orgId, userId)];
      Rpc(true, PermissionsOf(src, orgId, role), role)
    else Rpc(false, [], "")
  }

  datatype CheckResult = CheckResult(isMember: bool, permissions: seq<string>)

  /** The answer of a verifier that has no cache at all. */
  function Uncached(src: Source, orgId: string, userId: string): CheckResult {
    var a := Ask(src, orgId, userId);
    CheckResult(a.isMember, if a.isMember then a.permissions else [])
  }

  // ---------------------------------------------------------------- the store

  datatype Json = JNull | JBool(b: bool) | JNumber(n: real) | JString(s: string) | JArray(items: seq<Json>) | JObject(fields: map<string, Json>)

  /** The text of an entry, up to what `JSON.parse` makes of it. */
  datatype Raw = Text(json: Json) | Malformed

  datatype Entry = Entry(raw: Raw, expires: int)

  type Store = map<string, Entry>

  function ParseMembership(raw: Raw): Option<(bool, string)> {
    match raw
    case Text(JObject(f)) =>
      if "isMember" in f && f["isMember"].JBool? && "role" in f && f["role"].JString? then
        Some((f["isMember"].b, f["role"].s))
      else None
    case _ => None
  }

  function Strings(items: seq<Json>): seq<string> {
    if items == [] then []
    else (if items[0].JString? then [items[0].s] else []) + Strings(items[1..])
  }

  function ParsePermissions(raw: Raw): Option<seq<string>> {
    match raw
    case Text(JArray(items)) => Some(Strings(items))
    case _ => None
  }

  function MembershipText(isMember: bool, role: string): Raw {
    Text(JObject(map["isMember" := JBool(isMember), "role" := JString(role)]))
  }

  function PermissionsText(ps: seq<string>): Raw {
    Text(JArray(seq(|ps|, i requires 0 <= i < |ps| => JString(ps[i]))))
  }

  lemma {:induction false} StringsOfStrings(ps: seq<string>)
    ensures ParsePermissions(PermissionsText(ps)) == Some(ps)
    decreases |ps|
  {
    var items := PermissionsText(ps).json.items;
    if ps != [] {
      StringsOfStrings(ps[1..]);
      assert items[1..] == PermissionsText(ps[1..]).json.items;
      assert items[0] == JString(ps[0]) && ps == [ps[0]] + ps[1..];
    }
  }

  lemma MembershipOfText(isMember: bool, role: string)
    ensures ParseMembership(MembershipText(isMember, role)) == Some((isMember, role))
    ensures ParsePermissions(MembershipText(isMember, role)) == None
  {
  }

  /** What a `get` hands the parser: nothing for a miss, an expired entry or a failed store. */
  function Read(store: Store, key: string, now: int, fails: bool): Option<Raw> {
    if !fails && key in store && now < store[key].expires then Some(store[key].raw) else None
  }

  function Write(store: Store, key: string, raw: Raw, expires: int, fails: bool): Store {
    if fails then store else store[key := Entry(raw, expires)]
  }

  // ---------------------------------------------------------------- one call

  /** ttlMs and whether a store is wired at all. */
  datatype Config = Config(wired: bool, ttlMs: int)

  predicate CacheOn(cfg: Config) {
    cfg.wired && cfg.ttlMs > 0
  }

  /** Which store operations and RPCs of one call fail. */
  datatype Faults = Faults(getMembership: bool, seed: bool, setMembership: bool, getPermissions: bool, setPermissions: bool, rpc: bool)

  /** None is a call that throws the RPC's error. */
  datatype Call = Call(result: Option<CheckResult>, store: Store, rpcs: nat)

  function Check(cfg: Config, src: Source, now: int, store: Store, orgId: string, userId: string, f: Faults): Call {
    var on, key, expires := CacheOn(cfg), Membership(orgId, userId), now + cfg.ttlMs;
    var raw := if on then Read(store, key, now, f.getMembership) else None;
    var cached := if raw.Some? then ParseMembership(raw.value) else None;
    match cached
    case None =>
      if f.rpc then Call(None, store, 1)
      else
        var a := Ask(src, orgId, userId);
        var seeded := if !on || a.role == "" then store
                      else Write(store, OrgPermissions(orgId, a.role), PermissionsText(a.permissions), expires, f.seed);
        var written := if on then Write(seeded, key, MembershipText(a.isMember, a.role), expires, f.setMembership) else seeded;
        Call(Some(CheckResult(a.isMember, if a.isMember then a.permissions else [])), written, 1)
    case Some((isMember, role)) =>
      if !isMember then Call(Some(CheckResult(false, [])), store, 0)
      else
        var pkey := OrgPermissions(orgId, role);
        var praw := Read(store, pkey, now, f.getPermissions);
        var ps := if praw.Some? then ParsePermissions(praw.value) else None;
        match ps
        case Some(v) => Call(Some(CheckResult(true, v)), store, 0)
        case None =>
          if f.rpc then Call(None, store, 1)
          else
            var a := Ask(src, orgId, userId);
            Call(Some(CheckResult(true, a.permissions)), Write(store, pkey, PermissionsText(a.permissions), expires, f.setPermissions), 1)
  }

  /** The verifier object. */
  class MembershipVerifier {
    const cfg: Config
    var store: Store
    var rpcs: nat

    constructor (cfg: Config, store: Store)
      ensures this.cfg == cfg && this.store == store && rpcs == 0
    {
      this.cfg, this.store, rpcs := cfg, store, 0;
    }

    method FetchMembership(src: Source, orgId: string, userId: string, fails: bool) returns (a: Option<Rpc>)
      modifies this`rpcs
      ensures rpcs == old(rpcs) + 1
      ensures a == if fails then None else Some(Ask(src, orgId, userId))
    {
      rpcs := rpcs + 1;
      a := if fails then None else Some(Ask(src, orgId, userId));
    }

    method SeedPermissions(orgId: string, role: string, ps: seq<string>, now: int, fails: bool)
      modifies this`store
      ensures store == if !CacheOn(cfg) || role == "" then old(store)
                       else Write(old(store), OrgPermissions(orgId, role), PermissionsText(ps), now + cfg.ttlMs, fails)
    {
      if !cfg.wired || cfg.ttlMs <= 0 || role == "" {
        return;
      }
      store := Write(store, OrgPermissions(orgId, role), PermissionsText(ps), now + cfg.ttlMs, fails);
    }

    method CheckMembership(src: Source, now: int, orgId: string, userId: string, f: Faults) returns (r: Option<CheckResult>)
      modifies this
      ensures var c := Check(cfg, src, now, old(store), orgId, userId, f);
              r == c.result && store == c.store && rpcs == old(rpcs) + c.rpcs
      ensures rpcs <= old(rpcs) + 1
    {
      var fetched: Option<Rpc> := None;
      var membership: Option<(bool, string)> := None;
      if CacheOn(cfg) {
        var raw := Read(store, Membership(orgId, userId), now, f.getMembership);
        if raw.Some? {
          membership := ParseMembership(raw.value);
        }
      }
      if membership.None? {
        fetched := FetchMembership(src, orgId, userId, f.rpc);
        if fetched.None? {
          return None;
        }
        var a := fetched.value;
        SeedPermissions(orgId, a.role, a.permissions, now, f.seed);
        membership := Some((a.isMember, a.role));
        if CacheOn(cfg) {
          store := Write(store, Membership(orgId, userId), MembershipText(a.isMember, a.role), now + cfg.ttlMs, f.setMembership);
        }
      }
      var (isMember, role) := membership.value;
      if !isMember {
        return Some(CheckResult(false, []));
      }
      if fetched.Some? {
        return Some(CheckResult(true, fetched.value.permissions));
      }
      var key := OrgPermissions(orgId, role);
      var raw := Read(store, key, now, f.getPermissions);
      if raw.Some? && ParsePermissions(raw.value).Some? {
        return Some(CheckResult(true, ParsePermissions(raw.value).value));
      }
      var a := FetchMembership(src, orgId, userId, f.rpc);
      if a.None? {
        return None;
      }
      store := Write(store, key, PermissionsText(a.value.permissions), now + cfg.ttlMs, f.setPermissions);
      return Some(CheckResult(true, a.value.permissions));
    }
  }

  // ---------------------------------------------------------------- whole runs

  /** `history` holds every state the source has been in and since when. */
  datatype World = World(src: Source, store: Store, now: int, history: seq<(int, Source)>)

  datatype Step =
    | Asked(orgId: string, userId: string, faults: Faults)
    | RoleSet(orgId: string, userId: string, newRole: Option<string>, deletes: bool)
    | PermissionsSet(orgId: string, role: string, permissions: seq<string>, deletes: bool)
    | Corrupted(key: string, entry: Entry)
    | Waited(ms: nat)

  predicate Enabled(s: Step) {
    match s
    case Asked(o, _, _) => HeaderValue(o)
    case RoleSet(o, _, _, _) => HeaderValue(o)
    case PermissionsSet(o, _, _, _) => HeaderValue(o)
    case Corrupted(_, e) => ParseMembership(e.raw) == None && ParsePermissions(e.raw) == None
    case Waited(_) => true
  }

  function Changed(w: World, src: Source, key: string, deletes: bool): World {
    World(src, if deletes then w.store - {key} else w.store, w.now, w.history + [(w.now, src)])
  }

  function Next(cfg: Config, w: World, s: Step): World {
    match s
    case Asked(o, u, f) => w.(store := Check(cfg, w.src, w.now, w.store, o, u, f).store)
    case RoleSet(o, u, role, deletes) =>
      var roles := if role.Some? then w.src.roles[(o, u) := role.value] else w.src.roles - {(o, u)};
      Changed(w, w.src.(roles := roles), Membership(o, u), deletes)
    case PermissionsSet(o, r, ps, deletes) =>
      Changed(w, w.src.(permissions := w.src.permissions[(o, r) := ps]), OrgPermissions(o, r), deletes)
    case Corrupted(key, e) => w.(store := w.store[key := e])
    case Waited(ms) => w.(now := w.now + ms)
  }

  function After(cfg: Config, w: World, steps: seq<Step>): World
    decreases |steps|
  {
    if steps == [] then w else After(cfg, Next(cfg, w, steps[0]), steps[1..])
  }

  predicate Fresh(w: World) {
    w.store == map[] && w.history == [(w.now, w.src)]
  }

  // ---------------------------------------------------------------- with invalidation

  predicate MembershipAgrees(src: Source, store: Store, o: string, u: string) {
    var k := Membership(o, u);
    k in store && ParseMembership(store[k].raw).Some? ==>
      ParseMembership(store[k].raw) == Some((Ask(src, o, u).isMember, Ask(src, o, u).role))
  }

  predicate PermissionsAgree(src: Source, store: Store, o: string, r: string) {
    var k := OrgPermissions(o, r);
    k in store && ParsePermissions(store[k].raw).Some? ==> ParsePermissions(store[k].raw) == Some(PermissionsOf(src, o, r))
  }

  /** Every entry a parser would accept says what the source says now. */
  ghost predicate Coherent(w: World) {
    && (forall o, u | HeaderValue(o) :: MembershipAgrees(w.src, w.store, o, u))
    && (forall o, r | HeaderValue(o) :: PermissionsAgree(w.src, w.store, o, r))
  }

  /** Writing one true fact keeps every entry true. */
  // The two writes a call can do.

  function Seeded(cfg: Config, w: World, o: string, r: string, fails: bool): World {
    w.(store := Write(w.store, OrgPermissions(o, r), PermissionsText(PermissionsOf(w.src, o, r)), w.now + cfg.ttlMs, fails))
  }

  function Noted(cfg: Config, w: World, o: string, u: string, fails: bool): World {
    var a := Ask(w.src, o, u);
    w.(store := Write(w.store, Membership(o, u), MembershipText(a.isMember, a.role), w.now + cfg.ttlMs, fails))
  }

  /** A call leaves the store as it is, or does one or both of the two writes. */
  lemma CheckWrites(cfg: Config, w: World, o: string, u: string, f: Faults)
    requires MembershipAgrees(w.src, w.store, o, u)
    ensures var a, w' := Ask(w.src, o, u), w.(store := Check(cfg, w.src, w.now, w.store, o, u, f).store);
            || w' == w || w' == Seeded(cfg, w, o, a.role, f.setPermissions)
            || w' == Noted(cfg, w, o, u, f.setMembership) || w' == Noted(cfg, Seeded(cfg, w, o, a.role, f.seed), o, u, f.setMembership)
  {
  }

  lemma SeedKeepsCoherent(cfg: Config, w: World, o: string, r: string, fails: bool)
    requires Coherent(w) && HeaderValue(o)
    ensures Coherent(Seeded(cfg, w, o, r, fails))
  {
    var w1 := Seeded(cfg, w, o, r, fails);
    StringsOfStrings(PermissionsOf(w.src, o, r));
    forall o', x | HeaderValue(o')
      ensures MembershipAgrees(w.src, w1.store, o', x) && PermissionsAgree(w.src, w1.store, o', x)
    {
      KeysAreDistinct(o, r, o', x);
      KeysAreDistinct(o', x, o, r);
      assert MembershipAgrees(w.src, w.store, o', x) && PermissionsAgree(w.src, w.store, o', x);
    }
  }

  lemma NoteKeepsCoherent(cfg: Config, w: World, o: string, u: string, fails: bool)
    requires Coherent(w) && HeaderValue(o)
    ensures Coherent(Noted(cfg, w, o, u, fails))
  {
    var a, w1 := Ask(w.src, o, u), Noted(cfg, w, o, u, fails);
    MembershipOfText(a.isMember, a.role);
    forall o', x | HeaderValue(o')
      ensures MembershipAgrees(w.src, w1.store, o', x) && PermissionsAgree(w.src, w1.store, o', x)
    {
      KeysAreDistinct(o, u, o', x);
      KeysAreDistinct(o', x, o, u);
      assert MembershipAgrees(w.src, w.store, o', x) && PermissionsAgree(w.src, w.store, o', x);
    }
  }

  lemma CheckKeepsCoherent(cfg: Config, w: World, o: string, u: string, f: Faults)
    requires Coherent(w) && HeaderValue(o)
    ensures Coherent(w.(store := Check(cfg, w.src, w.now, w.store, o, u, f).store))
  {
    var r := Ask(w.src, o, u).role;
    assert MembershipAgrees(w.src, w.store, o, u);
    CheckWrites(cfg, w, o, u, f);
    SeedKeepsCoherent(cfg, w, o, r, f.setPermissions);
    SeedKeepsCoherent(cfg, w, o, r, f.seed);
    NoteKeepsCoherent(cfg, w, o, u, f.setMembership);
    NoteKeepsCoherent(cfg, Seeded(cfg, w, o, r, f.seed), o, u, f.setMembership);
  }

  /** From coherent entries a call gives the uncached answer whatever the store does, fails
      only if its one RPC fails, and leaves coherent entries. */
  lemma CheckAgrees(cfg: Config, w: World, o: string, u: string, f: Faults)
    requires Coherent(w) && HeaderValue(o)
    ensures var c := Check(cfg, w.src, w.now, w.store, o, u, f);
            && c.rpcs <= 1
            && (c.result.Some? ==> c.result.value == Uncached(w.src, o, u))
            && (c.result.None? <==> f.rpc && c.rpcs == 1)
            && Coherent(w.(store := c.store))
  {
    assert MembershipAgrees(w.src, w.store, o, u);
    assert PermissionsAgree(w.src, w.store, o, Ask(w.src, o, u).role);
    CheckKeepsCoherent(cfg, w, o, u, f);
  }

  // What it is good for, and what it costs when it does not work.

  /** Asked again before the entries expire, it answers as it did, and asks nobody, whatever the
      source has come to say by then. A member whose role has no name is the exception: its
      permissions are not seeded. */
  lemma RepeatIsFree(cfg: Config, src: Source, now: int, store: Store, o: string, u: string, f: Faults, later: Source, t: int, g: Faults)
    requires cfg.wired && now <= t < now + cfg.ttlMs && HeaderValue(o)
    requires !f.rpc && !f.seed && !f.setMembership && !g.getMembership && !g.getPermissions
    requires Membership(o, u) !in store || f.getMembership
    requires (o, u) in src.roles ==> src.roles[(o, u)] != ""
    ensures var c := Check(cfg, src, now, store, o, u, f);
            var d := Check(cfg, later, t, c.store, o, u, g);
            c.rpcs == 1 && d.rpcs == 0 && d.result == c.result == Some(Uncached(src, o, u)) && d.store == c.store
  {
    var a := Ask(src, o, u);
    KeysAreDistinct(o, u, o, a.role);
    MembershipOfText(a.isMember, a.role);
    StringsOfStrings(a.permissions);
  }

  /** A store none of whose writes work stays as it is, and one that is not in use is neither
      read nor written: every call asks the source, once. */
  lemma WithoutStore(cfg: Config, src: Source, now: int, store: Store, o: string, u: string, f: Faults)
    ensures f.seed && f.setMembership && f.setPermissions ==> Check(cfg, src, now, store, o, u, f).store == store
    ensures !(cfg.wired && cfg.ttlMs > 0) ==>
              Check(cfg, src, now, store, o, u, f) == Call(if f.rpc then None else Some(Uncached(src, o, u)), store, 1)
  {
  }

  predicate Deletes(s: Step) {
    (s.RoleSet? || s.PermissionsSet? ==> s.deletes)
  }

  lemma StepKeepsCoherent(cfg: Config, w: World, s: Step)
    requires Coherent(w) && Enabled(s) && Deletes(s)
    ensures Coherent(Next(cfg, w, s))
  {
    var w' := Next(cfg, w, s);
    if s.Asked? {
      CheckAgrees(cfg, w, s.orgId, s.userId, s.faults);
    } else {
      forall o, x | HeaderValue(o)
        ensures MembershipAgrees(w'.src, w'.store, o, x) && PermissionsAgree(w'.src, w'.store, o, x)
      {
        assert MembershipAgrees(w.src, w.store, o, x) && PermissionsAgree(w.src, w.store, o, x);
        if s.RoleSet? { KeysAreDistinct(s.orgId, s.userId, o, x); }
        if s.PermissionsSet? { KeysAreDistinct(s.orgId, s.role, o, x); KeysAreDistinct(o, x, s.orgId, s.role); }
      }
    }
  }

  lemma {:induction false} RunKeepsCoherent(cfg: Config, w: World, steps: seq<Step>)
    requires Coherent(w) && forall s <- steps :: Enabled(s) && Deletes(s)
    ensures Coherent(After(cfg, w, steps))
    decreases |steps|
  {
    if steps != [] {
      StepKeepsCoherent(cfg, w, steps[0]);
      RunKeepsCoherent(cfg, Next(cfg, w, steps[0]), steps[1..]);
    }
  }

  /** Agreement: on every run in which each role or permission write deletes its key, whatever
      entries get corrupted and whichever store operations fail, `checkMembership` gives the
      answer the source gives at that moment, at the cost of at most one RPC. */
  lemma CacheAgreesWithSource(cfg: Config, w: World, steps: seq<Step>, o: string, u: string, f: Faults)
    requires Fresh(w) && HeaderValue(o) && forall s <- steps :: Enabled(s) && Deletes(s)
    ensures var end := After(cfg, w, steps);
            var c := Check(cfg, end.src, end.now, end.store, o, u, f);
            && c.rpcs <= 1
            && (c.result.Some? ==> c.result.value == Uncached(end.src, o, u))
            && (c.result.None? <==> f.rpc && c.rpcs == 1)
  {
    RunKeepsCoherent(cfg, w, steps);
    CheckAgrees(cfg, After(cfg, w, steps), o, u, f);
  }

  // ---------------------------------------------------------------- with expiry only

  /** At the instant `t`, which is not in the future, the source gave `r` these permissions. */
  ghost predicate HeldAt(w: World, t: int, o: string, r: string, ps: seq<string>) {
    exists i :: HeldIn(w, i, t, o, r, ps)
  }

  /** The same, during the i-th state of the source. */
  predicate HeldIn(w: World, i: int, t: int, o: string, r: string, ps: seq<string>) {
    && 0 <= i < |w.history| && w.history[i].0 <= t <= w.now
    && (i + 1 < |w.history| ==> t <= w.history[i + 1].0)
    && PermissionsOf(w.history[i].1, o, r) == ps
  }

  ghost predicate PermissionsStamped(cfg: Config, w: World, store: Store, o: string, r: string) {
    var k := OrgPermissions(o, r);
    k in store && ParsePermissions(store[k].raw).Some? ==>
      HeldAt(w, store[k].expires - cfg.ttlMs, o, r, ParsePermissions(store[k].raw).value)
  }

  /** Every entry carries permissions that were true when it was written, a TTL before it
      expires; memberships, which never change here, are true. */
  ghost predicate Stamped(cfg: Config, w: World) {
    && w.history != [] && w.history[|w.history| - 1].1 == w.src && w.history[|w.history| - 1].0 <= w.now
    && (forall o, u | HeaderValue(o) :: MembershipAgrees(w.src, w.store, o, u))
    && (forall o, r | HeaderValue(o) :: PermissionsStamped(cfg, w, w.store, o, r))
  }

  lemma HeldNow(w: World, o: string, r: string)
    requires w.history != [] && w.history[|w.history| - 1].1 == w.src && w.history[|w.history| - 1].0 <= w.now
    ensures HeldAt(w, w.now, o, r, PermissionsOf(w.src, o, r))
  {
    assert HeldIn(w, |w.history| - 1, w.now, o, r, PermissionsOf(w.src, o, r));
  }

  lemma SeedKeepsStamped(cfg: Config, w: World, o: string, r: string, fails: bool)
    requires Stamped(cfg, w) && HeaderValue(o)
    ensures Stamped(cfg, Seeded(cfg, w, o, r, fails))
  {
    var w1 := Seeded(cfg, w, o, r, fails);
    StringsOfStrings(PermissionsOf(w.src, o, r));
    HeldNow(w, o, r);
    forall o', y | HeaderValue(o')
      ensures MembershipAgrees(w1.src, w1.store, o', y) && PermissionsStamped(cfg, w1, w1.store, o', y)
    {
      KeysAreDistinct(o, r, o', y);
      KeysAreDistinct(o', y, o, r);
      assert MembershipAgrees(w.src, w.store, o', y) && PermissionsStamped(cfg, w, w.store, o', y);
      SameHeld(w, w1, o', y);
    }
  }

  lemma NoteKeepsStamped(cfg: Config, w: World, o: string, u: string, fails: bool)
    requires Stamped(cfg, w) && HeaderValue(o)
    ensures Stamped(cfg, Noted(cfg, w, o, u, fails))
  {
    var a, w1 := Ask(w.src, o, u), Noted(cfg, w, o, u, fails);
    MembershipOfText(a.isMember, a.role);
    forall o', y | HeaderValue(o')
      ensures MembershipAgrees(w1.src, w1.store, o', y) && PermissionsStamped(cfg, w1, w1.store, o', y)
    {
      KeysAreDistinct(o, u, o', y);
      KeysAreDistinct(o', y, o, u);
      assert MembershipAgrees(w.src, w.store, o', y) && PermissionsStamped(cfg, w, w.store, o', y);
      SameHeld(w, w1, o', y);
    }
  }

  lemma SameHeld(w: World, w': World, o: string, r: string)
    requires w'.history == w.history && w'.now == w.now
    ensures forall t, ps :: HeldAt(w, t, o, r, ps) <==> HeldAt(w', t, o, r, ps)
  {
    assert forall i, t, ps :: HeldIn(w, i, t, o, r, ps) <==> HeldIn(w', i, t, o, r, ps);
  }

  lemma HeldLater(w: World, w': World, t: int, o: string, r: string, ps: seq<string>)
    requires HeldAt(w, t, o, r, ps) && w.now <= w'.now
    requires w'.history == w.history || (|w'.history| == |w.history| + 1 && w.history == w'.history[..|w.history|] && w'.history[|w.history|].0 >= w.now)
    ensures HeldAt(w', t, o, r, ps)
  {
    var i :| HeldIn(w, i, t, o, r, ps);
    assert w'.history[i] == w.history[i];
    assert i + 1 < |w.history| ==> w'.history[i + 1] == w.history[i + 1];
    assert HeldIn(w', i, t, o, r, ps);
  }

  lemma CheckKeepsStamped(cfg: Config, w: World, o: string, u: string, f: Faults)
    requires Stamped(cfg, w) && HeaderValue(o)
    ensures Stamped(cfg, w.(store := Check(cfg, w.src, w.now, w.store, o, u, f).store))
  {
    var r := Ask(w.src, o, u).role;
    assert MembershipAgrees(w.src, w.store, o, u);
    CheckWrites(cfg, w, o, u, f);
    SeedKeepsStamped(cfg, w, o, r, f.setPermissions);
    SeedKeepsStamped(cfg, w, o, r, f.seed);
    NoteKeepsStamped(cfg, w, o, u, f.setMembership);
    NoteKeepsStamped(cfg, Seeded(cfg, w, o, r, f.seed), o, u, f.setMembership);
  }

  lemma CheckIsFresh(cfg: Config, w: World, o: string, u: string, f: Faults)
    requires Stamped(cfg, w) && HeaderValue(o)
    ensures var c := Check(cfg, w.src, w.now, w.store, o, u, f);
            && (c.result.Some? ==> c.result.value.isMember == Uncached(w.src, o, u).isMember)
            && (c.result.Some? && c.result.value.isMember ==>
                  exists t :: (t == w.now || w.now - cfg.ttlMs < t < w.now) && HeldAt(w, t, o, Ask(w.src, o, u).role, c.result.value.permissions))
  {
    var a := Ask(w.src, o, u);
    assert MembershipAgrees(w.src, w.store, o, u);
    assert PermissionsStamped(cfg, w, w.store, o, a.role);
    HeldNow(w, o, a.role);
  }

  lemma StepKeepsStamped(cfg: Config, w: World, s: Step)
    requires Stamped(cfg, w) && Enabled(s) && !s.RoleSet?
    ensures Stamped(cfg, Next(cfg, w, s))
  {
    var w' := Next(cfg, w, s);
    if s.Asked? {
      CheckKeepsStamped(cfg, w, s.orgId, s.userId, s.faults);
    } else {
      forall o, x | HeaderValue(o)
        ensures MembershipAgrees(w'.src, w'.store, o, x) && PermissionsStamped(cfg, w', w'.store, o, x)
      {
        assert MembershipAgrees(w.src, w.store, o, x) && PermissionsStamped(cfg, w, w.store, o, x);
        if s.PermissionsSet? { KeysAreDistinct(o, x, s.orgId, s.role); }
        var k := OrgPermissions(o, x);
        if k in w'.store && ParsePermissions(w'.store[k].raw).Some? {
          HeldLater(w, w', w'.store[k].expires - cfg.ttlMs, o, x, ParsePermissions(w'.store[k].raw).value);
        }
      }
    }
  }

  lemma {:induction false} RunKeepsStamped(cfg: Config, w: World, steps: seq<Step>)
    requires Stamped(cfg, w) && forall s <- steps :: Enabled(s) && !s.RoleSet?
    ensures Stamped(cfg, After(cfg, w, steps))
    decreases |steps|
  {
    if steps != [] {
      StepKeepsStamped(cfg, w, steps[0]);
      RunKeepsStamped(cfg, Next(cfg, w, steps[0]), steps[1..]);
    }
  }

  /** Bounded staleness: with fixed roles and no invalidation at all, on every run the
      permissions returned were the source's answer now or at an instant less than ttlMs ago. */
  lemma StaleByLessThanTtl(cfg: Config, w: World, steps: seq<Step>, o: string, u: string, f: Faults)
    requires Fresh(w) && HeaderValue(o) && forall s <- steps :: Enabled(s) && !s.RoleSet?
    ensures var end := After(cfg, w, steps);
            var c := Check(cfg, end.src, end.now, end.store, o, u, f);
            && (c.result.Some? ==> c.result.value.isMember == Uncached(end.src, o, u).isMember)
            && (c.result.Some? && c.result.value.isMember ==>
                  exists t :: (t == end.now || end.now - cfg.ttlMs < t < end.now)
                              && HeldAt(end, t, o, Ask(end.src, o, u).role, c.result.value.permissions))
  {
    RunKeepsStamped(cfg, w, steps);
    CheckIsFresh(cfg, After(cfg, w, steps), o, u, f);
  }

  // ---------------------------------------------------------------- roles must be invalidated too

  const NO_FAULTS := Faults(false, false, false, false, false, false)

  const ANN_DEMOTED := RoleSet("o", "ann", Some("viewer"), false)

  function Plan(annsRole: string): Source {
    Source(map[("o", "ann") := annsRole, ("o", "bob") := "admin"], map[("o", "admin") := ["edit"], ("o", "viewer") := ["view"]])
  }

  /** The store once Ann and Bob have asked; with or without an entry for their role. */
  function Warm(adminEntry: Option<seq<string>>): Store {
    var e := Entry(MembershipText(true, "admin"), 10);
    var members := map[Membership("o", "ann") := e, Membership("o", "bob") := e];
    if adminEntry.None? then members
    else members[OrgPermissions("o", "admin") := Entry(PermissionsText(adminEntry.value), 10)]
  }

  lemma WarmKeys()
    ensures Membership("o", "ann") != Membership("o", "bob")
    ensures OrgPermissions("o", "admin") != Membership("o", "ann") && OrgPermissions("o", "admin") != Membership("o", "bob")
  {
    KeysAreDistinct("o", "ann", "o", "bob");
    KeysAreDistinct("o", "ann", "o", "admin");
    KeysAreDistinct("o", "bob", "o", "admin");
  }

  lemma BothAsk(cfg: Config)
    requires cfg == Config(true, 10)
    ensures var src := Plan("admin");
            var s := Check(cfg, src, 0, map[], "o", "ann", NO_FAULTS).store;
            Check(cfg, src, 0, s, "o", "bob", NO_FAULTS).store == Warm(Some(["edit"]))
  {
    WarmKeys();
    StringsOfStrings(["edit"]);
  }

  lemma AnnRefills(cfg: Config)
    requires cfg == Config(true, 10)
    ensures Check(cfg, Plan("viewer"), 0, Warm(None), "o", "ann", NO_FAULTS).store == Warm(Some(["view"]))
    ensures Check(cfg, Plan("viewer"), 0, Warm(Some(["view"])), "o", "bob", NO_FAULTS).result == Some(CheckResult(true, ["view"]))
  {
    WarmKeys();
    MembershipOfText(true, "admin");
    StringsOfStrings(["view"]);
  }

  lemma AfterStep(cfg: Config, w: World, s: Step, steps: seq<Step>)
    ensures After(cfg, w, [s] + steps) == After(cfg, Next(cfg, w, s), steps)
  {
    assert ([s] + steps)[1..] == steps;
  }

  const ANN_ASKS := Asked("o", "ann", NO_FAULTS)
  const BOB_ASKS := Asked("o", "bob", NO_FAULTS)
  const EDIT_SET := PermissionsSet("o", "admin", ["edit"], true)
  const POISON := [ANN_ASKS, BOB_ASKS, ANN_DEMOTED, EDIT_SET, ANN_ASKS]
  const START := World(Plan("admin"), map[], 0, [(0, Plan("admin"))])
  const END := World(Plan("viewer"), Warm(Some(["view"])), 0, [(0, Plan("admin")), (0, Plan("viewer")), (0, Plan("viewer"))])

  const DEMOTED := World(Plan("viewer"), Warm(Some(["edit"])), 0, [(0, Plan("admin")), (0, Plan("viewer"))])

  lemma DemotionOfPoison(cfg: Config)
    ensures Next(cfg, World(Plan("admin"), Warm(Some(["edit"])), 0, [(0, Plan("admin"))]), ANN_DEMOTED) == DEMOTED
  {
    assert Plan("admin").roles[("o", "ann") := "viewer"] == Plan("viewer").roles;
  }

  lemma EditOfPoison(cfg: Config)
    ensures Next(cfg, DEMOTED, EDIT_SET) == END.(store := Warm(None))
  {
    WarmKeys();
    assert Warm(Some(["edit"])) - {OrgPermissions("o", "admin")} == Warm(None);
    assert Plan("viewer").permissions[("o", "admin") := ["edit"]] == Plan("viewer").permissions;
  }

  lemma PoisonEnds(cfg: Config)
    requires cfg == Config(true, 10)
    ensures After(cfg, START, POISON) == END
  {
    var w1 := Next(cfg, START, ANN_ASKS);
    var w2 := Next(cfg, w1, BOB_ASKS);
    var w3 := Next(cfg, w2, ANN_DEMOTED);
    var w4 := Next(cfg, w3, EDIT_SET);
    BothAsk(cfg);
    DemotionOfPoison(cfg);
    EditOfPoison(cfg);
    AnnRefills(cfg);
    AfterStep(cfg, w4, ANN_ASKS, []);
    AfterStep(cfg, w3, EDIT_SET, [ANN_ASKS]);
    AfterStep(cfg, w2, ANN_DEMOTED, [EDIT_SET, ANN_ASKS]);
    AfterStep(cfg, w1, BOB_ASKS, [ANN_DEMOTED, EDIT_SET, ANN_ASKS]);
    AfterStep(cfg, START, ANN_ASKS, [BOB_ASKS, ANN_DEMOTED, EDIT_SET, ANN_ASKS]);
  }

  /** One role write that leaves its membership entry behind is enough to break this for
      somebody else: Ann is demoted, the entry of her old role is then refilled with her new
      permissions, and Bob, whose role and permissions never change, is given those. */
  lemma StaleRoleReachesOthers()
    ensures Fresh(START) && forall s <- POISON :: Enabled(s) && (Deletes(s) || s == ANN_DEMOTED)
    ensures var end := After(Config(true, 10), START, POISON);
            && Check(Config(true, 10), end.src, end.now, end.store, "o", "bob", NO_FAULTS).result == Some(CheckResult(true, ["view"]))
            && forall e <- end.history :: Uncached(e.1, "o", "bob") == CheckResult(true, ["edit"])
  {
    PoisonIsARun();
    PoisonEnds(Config(true, 10));
    AnnRefills(Config(true, 10));
    BobIsSteady();
  }

  lemma PoisonIsARun()
    ensures Fresh(START) && forall s <- POISON :: Enabled(s) && (Deletes(s) || s == ANN_DEMOTED)
  {
    assert HeaderValue("o");
  }

  lemma BobIsSteady()
    ensures forall e <- END.history :: Uncached(e.1, "o", "bob") == CheckResult(true, ["edit"])
  {
  }

  // ---------------------------------------------------------------- exactly when

  /** Which kinds of write are sure to delete their key. */
  datatype Policy = Policy(roles: bool, perms: bool)

  predicate Obeys(p: Policy, s: Step) {
    match s
    case RoleSet(_, _, _, deletes) => p.roles ==> deletes
    case PermissionsSet(_, _, _, deletes) => p.perms ==> deletes
    case _ => true
  }

  predicate Allowed(p: Policy, steps: seq<Step>) {
    forall s <- steps :: Enabled(s) && Obeys(p, s)
  }

  predicate Agrees(cfg: Config, w: World, o: string, u: string, f: Faults) {
    var c := Check(cfg, w.src, w.now, w.store, o, u, f);
    c.result.Some? ==> c.result.value == Uncached(w.src, o, u)
  }

  /** From every fresh world, after every run that obeys the policy, and whatever fails, every
      call that does not throw answers as the source does. */
  ghost predicate AlwaysAgrees(cfg: Config, p: Policy) {
    forall w, steps, o, u, f :: Fresh(w) && Allowed(p, steps) && HeaderValue(o) ==> Agrees(cfg, After(cfg, w, steps), o, u, f)
  }

  const ROLE_KEPT := RoleSet("o", "ann", None, false)
  const GRANT_KEPT := PermissionsSet("o", "admin", ["view"], false)

  /** The store once Ann has asked. */
  function AnnCached(cfg: Config): Store {
    map[Membership("o", "ann") := Entry(MembershipText(true, "admin"), cfg.ttlMs),
        OrgPermissions("o", "admin") := Entry(PermissionsText(["edit"]), cfg.ttlMs)]
  }

  lemma AnnIsCached(cfg: Config)
    requires CacheOn(cfg)
    ensures Next(cfg, START, ANN_ASKS) == START.(store := AnnCached(cfg))
  {
    KeysAreDistinct("o", "ann", "o", "admin");
  }

  /** While those entries live, Ann is an editor, whatever the source says. */
  lemma AnnIsStillEditor(cfg: Config, src: Source)
    requires CacheOn(cfg)
    ensures Check(cfg, src, 0, AnnCached(cfg), "o", "ann", NO_FAULTS).result == Some(CheckResult(true, ["edit"]))
  {
    KeysAreDistinct("o", "ann", "o", "admin");
    MembershipOfText(true, "admin");
    StringsOfStrings(["edit"]);
  }

  /** One write that leaves its entry behind is enough. */
  lemma OneKeptEntry(cfg: Config, p: Policy, kept: Step)
    requires CacheOn(cfg) && (if p.roles then kept == GRANT_KEPT && !p.perms else kept == ROLE_KEPT)
    ensures !AlwaysAgrees(cfg, p)
  {
    var steps := [ANN_ASKS, kept];
    var w1 := Next(cfg, START, ANN_ASKS);
    var w2 := Next(cfg, w1, kept);
    AnnIsCached(cfg);
    AfterStep(cfg, START, ANN_ASKS, [kept]);
    AfterStep(cfg, w1, kept, []);
    assert [kept] + [] == [kept] && [ANN_ASKS] + [kept] == steps;
    assert After(cfg, START, steps) == w2 && w2.store == AnnCached(cfg) && w2.now == 0;
    AnnIsStillEditor(cfg, w2.src);
    assert Uncached(w2.src, "o", "ann") != CheckResult(true, ["edit"]) by {
      if p.roles { assert Uncached(w2.src, "o", "ann").permissions == ["view"] && "view"[0] != "edit"[0]; }
      else { assert !Uncached(w2.src, "o", "ann").isMember; }
    }
    assert HeaderValue("o") && Fresh(START) && Allowed(p, steps);
    assert !Agrees(cfg, After(cfg, START, steps), "o", "ann", NO_FAULTS);
  }

  /** The verifier always answers as its source does if and only if it has no cache, or role
      writes and permission writes both delete their keys. */
  lemma AlwaysAgreesIff(cfg: Config, p: Policy)
    ensures AlwaysAgrees(cfg, p) <==> !(cfg.wired && cfg.ttlMs > 0) || (p.roles && p.perms)
  {
    if CacheOn(cfg) && !p.roles {
      OneKeptEntry(cfg, p, ROLE_KEPT);
    } else if CacheOn(cfg) && !p.perms {
      OneKeptEntry(cfg, p, GRANT_KEPT);
    } else {
      forall w, steps, o, u, f | Fresh(w) && Allowed(p, steps) && HeaderValue(o)
        ensures Agrees(cfg, After(cfg, w, steps), o, u, f)
      {
        if CacheOn(cfg) {
          assert forall s <- steps :: Obeys(p, s) ==> Deletes(s);
          CacheAgreesWithSource(cfg, w, steps, o, u, f);
        }
      }
    }
  }
}
