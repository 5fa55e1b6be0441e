/** `cache/cache-keys.ts`: the shared keyspace. */
module CacheKeys {

  const SEPARATOR: char := '\0'
  const MEMBERSHIP := "membership"
  const ORG_PERMISSIONS := "org-permissions"
  const SYSTEM_PERMISSIONS := "system-permissions"

  function Membership(orgId: string, userId: string): string {
    MEMBERSHIP + ":" + orgId + [SEPARATOR] + userId
  }

  function OrgPermissions(orgId: string, role: string): string {
    ORG_PERMISSIONS + ":" + orgId + [SEPARATOR] + role
  }

  function SystemPermissions(userId: string): string {
    SYSTEM_PERMISSIONS + ":" + userId
  }

  /** An HTTP header value cannot contain NUL. */
  predicate HeaderValue(s: string) {
    SEPARATOR !in s
  }

  lemma {:induction false} SplitAtSeparator(a: string, x: string, b: string, y: string)
    requires HeaderValue(a) && HeaderValue(b)
    ensures a + [SEPARATOR] + x == b + [SEPARATOR] + y <==> a == b && x == y
  {
    var s, t := a + [SEPARATOR] + x, b + [SEPARATOR] + y;
    if a == "" || b == "" {
      assert a != "" ==> s[0] == a[0] && a[0] in a;
      assert b != "" ==> t[0] == b[0] && b[0] in b;
      assert a == "" ==> s[0] == SEPARATOR && s[1..] == x;
      assert b == "" ==> t[0] == SEPARATOR && t[1..] == y;
    } else {
      SplitAtSeparator(a[1..], x, b[1..], y);
      assert s == [a[0]] + (a[1..] + [SEPARATOR] + x) && t == [b[0]] + (b[1..] + [SEPARATOR] + y);
      assert s[1..] == a[1..] + [SEPARATOR] + x && t[1..] == b[1..] + [SEPARATOR] + y;
      assert a == [a[0]] + a[1..] && b == [b[0]] + b[1..];
    }
  }

  lemma StripPrefix(p: string, s: string, t: string)
    ensures p + s == p + t <==> s == t
  {
    assert (p + s)[|p|..] == s && (p + t)[|p|..] == t;
  }

  /** No two facts share a key, within a family or across families. */
  lemma KeysAreDistinct(o1: string, x1: string, o2: string, x2: string)
    requires HeaderValue(o1) && HeaderValue(o2)
    ensures Membership(o1, x1) == Membership(o2, x2) <==> o1 == o2 && x1 == x2
    ensures OrgPermissions(o1, x1) == OrgPermissions(o2, x2) <==> o1 == o2 && x1 == x2
    ensures Membership(o1, x1) != OrgPermissions(o2, x2)
    ensures SystemPermissions(x1) != Membership(o2, x2) && SystemPermissions(x1) != OrgPermissions(o2, x2)
  {
    SplitAtSeparator(o1, x1, o2, x2);
    var s, t := o1 + [SEPARATOR] + x1, o2 + [SEPARATOR] + x2;
    assert Membership(o1, x1) == (MEMBERSHIP + ":") + s && Membership(o2, x2) == (MEMBERSHIP + ":") + t;
    assert OrgPermissions(o1, x1) == (ORG_PERMISSIONS + ":") + s && OrgPermissions(o2, x2) == (ORG_PERMISSIONS + ":") + t;
    StripPrefix(MEMBERSHIP + ":", s, t);
    StripPrefix(ORG_PERMISSIONS + ":", s, t);
    assert Membership(o1, x1)[0] == 'm' && Membership(o2, x2)[0] == 'm' && OrgPermissions(o2, x2)[0] == 'o';
    assert SystemPermissions(x1)[0] == 's';
  }

  /** The texts themselves, which every service that shares the cache has to build alike. */
  lemma KeyTexts(orgId: string, x: string)
    ensures Membership(orgId, x) == "membership:" + orgId + "\0" + x
    ensures OrgPermissions(orgId, x) == "org-permissions:" + orgId + "\0" + x
    ensures SystemPermissions(x) == "system-permissions:" + x
  {
  }
}
