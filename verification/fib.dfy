// The part of the Linux forwarding path the agent configures: routing tables,
// policy rules, and the lookup that a packet's destination and mark undergo.
module Fib {
  import opened Common

  type Addr = a: int | 0 <= a < 0x1_0000_0000 witness 0

  // A network number and its length; host bits are zero.
  datatype Prefix = Prefix(net: Addr, len: nat)

  // link 0 is a route without a device (blackhole, unreachable).
  datatype Hop = Hop(gw: Option<Addr>, link: nat)

  datatype Key = Key(table: int, dst: Prefix)

  type Routes = map<Key, Hop>

  // mark 0: any mark; suppress -1: nothing suppressed.
  datatype Rule = Rule(priority: int, mark: int, table: int, suppress: int)

  datatype Match = Match(len: nat, hop: Hop)

  const ANY := Prefix(0, 0)

  function Host(a: Addr): Prefix {
    Prefix(a, 32)
  }

  function Pow2(n: nat): (p: nat)
    ensures p > 0
  {
    if n == 0 then 1 else 2 * Pow2(n - 1)
  }

  function BlockSize(len: nat): nat
    requires len <= 32
  {
    Pow2(32 - len)
  }

  predicate WellFormed(p: Prefix) {
    p.len <= 32 && p.net % BlockSize(p.len) == 0
  }

  // The leading len bits agree.
  predicate Covers(p: Prefix, a: Addr)
    requires p.len <= 32
  {
    a / BlockSize(p.len) == p.net / BlockSize(p.len)
  }

  // The multiple of d at or below a.
  function AlignDown(a: nat, d: nat): (r: nat)
    requires d > 0
    ensures r <= a
  {
    assert a < d ==> a % d == a;
    a - a % d
  }

  // The prefix of the given length around an address.
  function Around(a: Addr, len: nat): Prefix
    requires len <= 32
  {
    Prefix(AlignDown(a, BlockSize(len)), len)
  }

  lemma AroundCovers(a: Addr, len: nat)
    requires len <= 32
    ensures WellFormed(Around(a, len)) && Covers(Around(a, len), a)
  {
    SameBlock(a, AlignDown(a, BlockSize(len)), BlockSize(len));
  }

  lemma SameBlock(a: nat, b: nat, d: nat)
    requires d > 0
    ensures AlignDown(a, d) % d == 0
    ensures b % d == 0 ==> (a / d == b / d <==> b == AlignDown(a, d))
  {
    assert a == d * (a / d) + a % d;
    assert b == d * (b / d) + b % d;
    Division(AlignDown(a, d), d, a / d, 0);
  }

  // Quotient and remainder are unique.
  lemma Division(x: nat, d: nat, q: nat, r: nat)
    requires r < d && x == d * q + r
    ensures x / d == q && x % d == r
  {
    var q', r' := x / d, x % d;
    assert x == d * q' + r';
    if q < q' {
      Spread(d, q, q');
    } else if q' < q {
      Spread(d, q', q);
    }
  }

  lemma {:induction false} Spread(d: nat, a: nat, b: nat)
    requires a < b
    ensures d * b >= d * a + d
    decreases b
  {
    if b == a + 1 {
      assert d * (a + 1) == d * a + d;
    } else {
      Spread(d, a, b - 1);
      assert d * b == d * (b - 1) + d;
    }
  }

  // Longest match, by decreasing length.
  function LpmFrom(routes: Routes, table: int, dst: Addr, len: nat): Option<Match>
    requires len <= 32
  {
    var key := Key(table, Around(dst, len));
    if key in routes then Some(Match(len, routes[key]))
    else if len == 0 then None
    else LpmFrom(routes, table, dst, len - 1)
  }

  function Lpm(routes: Routes, table: int, dst: Addr): Option<Match> {
    LpmFrom(routes, table, dst, 32)
  }

  // What a rule decides for a packet: nothing when its selector does not
  // match, its table has no match, or the match is no longer than suppressed.
  function Decision(r: Rule, routes: Routes, dst: Addr, mark: int): Option<Hop> {
    if r.mark != 0 && r.mark != mark then None
    else
      match Lpm(routes, r.table, dst)
      case None => None
      case Some(m) => if m.len <= r.suppress then None else Some(m.hop)
  }

  // Rules are tried in order; the first decision stands.
  function Lookup(rules: seq<Rule>, routes: Routes, dst: Addr, mark: int): Option<Hop> {
    if rules == [] then None
    else
      var d := Decision(rules[0], routes, dst, mark);
      if d.Some? then d else Lookup(rules[1..], routes, dst, mark)
  }

  ghost predicate RoutesOk(routes: Routes) {
    forall k :: k in routes ==> WellFormed(k.dst)
  }

  ghost predicate Sorted(rules: seq<Rule>) {
    forall i, j :: 0 <= i < j < |rules| ==> rules[i].priority <= rules[j].priority
  }

  // --- Longest match -------------------------------------------------------

  // A well-formed prefix covers an address exactly when it is the prefix of its
  // own length around it.
  lemma CoversIff(p: Prefix, a: Addr)
    requires WellFormed(p)
    ensures Covers(p, a) <==> p == Around(a, p.len)
  {
    SameBlock(a, p.net, BlockSize(p.len));
  }

  // Independent meaning of Lpm (longest match, section 5.2.4.3 of RFC 1812):
  // the match is a covering prefix of the table, and no covering prefix of the
  // table is longer; there is none only if nothing covers the address.
  lemma LpmIsLongestMatch(routes: Routes, table: int, dst: Addr)
    requires RoutesOk(routes)
    ensures match Lpm(routes, table, dst)
      case None =>
        forall k :: k in routes && k.table == table ==> !Covers(k.dst, dst)
      case Some(m) =>
        && (exists k :: k in routes && k.table == table && Covers(k.dst, dst)
                        && k.dst.len == m.len && routes[k] == m.hop)
        && (forall k :: k in routes && k.table == table && Covers(k.dst, dst) ==> k.dst.len <= m.len)
  {
    LpmFromIsLongest(routes, table, dst, 32);
  }

  lemma {:induction false} LpmFromIsLongest(routes: Routes, table: int, dst: Addr, len: nat)
    requires RoutesOk(routes) && len <= 32
    ensures match LpmFrom(routes, table, dst, len)
      case None =>
        forall k :: k in routes && k.table == table && k.dst.len <= len ==> !Covers(k.dst, dst)
      case Some(m) =>
        && (exists k :: k in routes && k.table == table && Covers(k.dst, dst)
                        && k.dst.len == m.len && routes[k] == m.hop)
        && (forall k :: k in routes && k.table == table && k.dst.len <= len && Covers(k.dst, dst) ==>
                        k.dst.len <= m.len)
  {
    var key := Key(table, Around(dst, len));
    AroundCovers(dst, len);
    forall k | k in routes && k.table == table && k.dst.len == len && Covers(k.dst, dst) ensures k == key {
      CoversIff(k.dst, dst);
    }
    if key !in routes && len > 0 {
      LpmFromIsLongest(routes, table, dst, len - 1);
    }
  }

  lemma HostCovers(a: Addr, dst: Addr)
    ensures Around(dst, 32) == Host(dst)
    ensures Covers(Host(a), dst) <==> a == dst
  {
  }

  lemma AnyCovers(dst: Addr)
    ensures Around(dst, 0) == ANY
  {
    assert BlockSize(0) == 0x1_0000_0000 by {
      assert Pow2(8) == 256;
      assert Pow2(16) == 65536;
      assert Pow2(24) == 0x100_0000;
    }
  }

  lemma LpmHost(routes: Routes, table: int, dst: Addr)
    ensures Key(table, Host(dst)) in routes ==>
              Lpm(routes, table, dst) == Some(Match(32, routes[Key(table, Host(dst))]))
  {
    HostCovers(dst, dst);
  }

  // A match of length zero is the default route; a table with one always has a
  // match.
  lemma {:induction false} LpmDefault(routes: Routes, table: int, dst: Addr, len: nat)
    requires len <= 32
    ensures match LpmFrom(routes, table, dst, len)
      case None => Key(table, ANY) !in routes
      case Some(m) => m.len <= len
                      && (m.len == 0 ==> Key(table, ANY) in routes && m.hop == routes[Key(table, ANY)])
  {
    AnyCovers(dst);
    if len > 0 {
      LpmDefault(routes, table, dst, len - 1);
    }
  }

  // Tables that agree around an address decide alike.
  lemma {:induction false} LpmFrame(r1: Routes, r2: Routes, table: int, dst: Addr, len: nat)
    requires len <= 32
    requires forall l :: 0 <= l <= len ==>
      var k := Key(table, Around(dst, l)); (k in r1 <==> k in r2) && (k in r1 ==> r1[k] == r2[k])
    ensures LpmFrom(r1, table, dst, len) == LpmFrom(r2, table, dst, len)
  {
    assert 0 <= len <= len;
    if len > 0 {
      LpmFrame(r1, r2, table, dst, len - 1);
    }
  }

  // The key of whatever match is found.
  lemma {:induction false} LpmKey(routes: Routes, table: int, dst: Addr, len: nat)
    requires len <= 32
    ensures match LpmFrom(routes, table, dst, len)
      case None => true
      case Some(m) => m.len <= len && Key(table, Around(dst, m.len)) in routes
                      && routes[Key(table, Around(dst, m.len))] == m.hop
  {
    if len > 0 {
      LpmKey(routes, table, dst, len - 1);
    }
  }

  // --- Rules ---------------------------------------------------------------

  // With the rules sorted, the result is that of the rule r if every rule that
  // decides, at r's priority or before, is r itself.
  lemma {:induction false} FirstToDecide(rules: seq<Rule>, routes: Routes, dst: Addr, mark: int, r: Rule)
    requires Sorted(rules) && r in rules
    requires Decision(r, routes, dst, mark).Some?
    requires forall q :: q in rules && q.priority <= r.priority && Decision(q, routes, dst, mark).Some? ==> q == r
    ensures Lookup(rules, routes, dst, mark) == Decision(r, routes, dst, mark)
  {
    if rules[0] == r {
    } else {
      assert rules == [rules[0]] + rules[1..];
      var i :| 0 <= i < |rules| && rules[i] == r;
      assert rules[0].priority <= r.priority;
      assert rules[0] in rules && r in rules[1..];
      FirstToDecide(rules[1..], routes, dst, mark, r);
    }
  }

  // The result of a lookup is the decision of some rule, and no rule before it
  // decides.
  lemma {:induction false} DecidedBy(rules: seq<Rule>, routes: Routes, dst: Addr, mark: int) returns (i: nat)
    requires Lookup(rules, routes, dst, mark).Some?
    ensures i < |rules| && Lookup(rules, routes, dst, mark) == Decision(rules[i], routes, dst, mark)
    ensures forall j :: 0 <= j < i ==> Decision(rules[j], routes, dst, mark).None?
  {
    if Decision(rules[0], routes, dst, mark).Some? {
      i := 0;
    } else {
      i := DecidedBy(rules[1..], routes, dst, mark);
      i := i + 1;
    }
  }

  lemma {:induction false} NoneDecides(rules: seq<Rule>, routes: Routes, dst: Addr, mark: int)
    ensures Lookup(rules, routes, dst, mark).None? <==>
      forall r :: r in rules ==> Decision(r, routes, dst, mark).None?
  {
    if rules != [] {
      assert rules == [rules[0]] + rules[1..];
      NoneDecides(rules[1..], routes, dst, mark);
    }
  }
}
