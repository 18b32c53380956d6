// The agent's policy rules (pkg/wg/nl_rules.go) and the kernel's rule list.
module Rules {
  import opened Common
  import opened Fib

  const LOCAL_TABLE := 255
  const MAIN_TABLE := 254
  const WG_TABLE := 51820

  const DISCOVERY_PRIO := 50
  const LOCAL_PRIO := 100
  const BYPASS_PRIO := 150
  const DEFAULT_PRIO := 1000

  const DISCOVERY_MARK := 0x51820

  // Mark 0 disables the bypass.
  datatype BypassConfig = BypassConfig(mark: int, table: int) {
    predicate Enabled() {
      mark != 0
    }
  }

  predicate Reserved(table: int) {
    table == LOCAL_TABLE || table == MAIN_TABLE || table == 253 || table == WG_TABLE
  }

  function NewBypassConfig(mark: int, table: int): (r: Option<BypassConfig>)
    ensures r.Some? <==> 0 <= mark <= 0xffff_ffff && mark != DISCOVERY_MARK && table > 0 && !Reserved(table)
    ensures r.Some? ==> ConfigOk(r.value) && r.value.mark == mark && r.value.table == table
  {
    if mark < 0 || mark > 0xffff_ffff then None
    else if mark == DISCOVERY_MARK then None
    else if table <= 0 then None
    else if Reserved(table) then None
    else Some(BypassConfig(mark, table))
  }

  // What NewBypassConfig lets through.
  predicate ConfigOk(cfg: BypassConfig) {
    cfg.mark != DISCOVERY_MARK && cfg.table > 0 && !Reserved(cfg.table)
  }

  const LOCAL_RULE := Rule(LOCAL_PRIO, 0, MAIN_TABLE, 0)
  const DEFAULT_RULE := Rule(DEFAULT_PRIO, 0, WG_TABLE, -1)
  const DISCOVERY_RULE := Rule(DISCOVERY_PRIO, DISCOVERY_MARK, MAIN_TABLE, -1)

  function BypassRule(cfg: BypassConfig): Rule {
    Rule(BYPASS_PRIO, cfg.mark, cfg.table, -1)
  }

  // What the get functions look for; BypassIn is what delBypassSrcRule removes.
  datatype Kind = LocalKind | DefaultKind | DiscoveryKind | BypassKind(cfg: BypassConfig) | BypassIn(table: int)

  predicate Is(kind: Kind, r: Rule) {
    match kind
    case LocalKind => r.priority == LOCAL_PRIO && r.table == MAIN_TABLE && r.suppress == 0
    case DefaultKind => r.priority == DEFAULT_PRIO && r.table == WG_TABLE
    case DiscoveryKind => r.priority == DISCOVERY_PRIO && r.mark == DISCOVERY_MARK && r.table == MAIN_TABLE
    case BypassKind(cfg) => r.priority == BYPASS_PRIO && r.mark == cfg.mark && r.table == cfg.table
    case BypassIn(table) => r.priority == BYPASS_PRIO && r.table == table
  }

  // --- The kernel's list ---------------------------------------------------

  // A new rule goes behind those of its own priority.
  function Insert(rules: seq<Rule>, r: Rule): seq<Rule> {
    if rules == [] || rules[0].priority > r.priority then [r] + rules
    else [rules[0]] + Insert(rules[1..], r)
  }

  // RTM_DELRULE compares only the attributes present in the request: a rule
  // without mark or suppressor, read back and sent, matches any.
  predicate DelMatches(request: Rule, r: Rule) {
    && request.priority == r.priority
    && (request.mark != 0 ==> request.mark == r.mark)
    && (request.table != 0 ==> request.table == r.table)
    && (request.suppress != -1 ==> request.suppress == r.suppress)
  }

  // It removes the first match.
  function RemoveMatch(rules: seq<Rule>, request: Rule): Option<seq<Rule>> {
    if rules == [] then None
    else if DelMatches(request, rules[0]) then Some(rules[1..])
    else
      var rest := RemoveMatch(rules[1..], request);
      if rest.Some? then Some([rules[0]] + rest.value) else None
  }

  // --- Specification vocabulary --------------------------------------------

  function FirstOf(rules: seq<Rule>, kind: Kind): Option<Rule> {
    if rules == [] then None
    else if Is(kind, rules[0]) then Some(rules[0])
    else FirstOf(rules[1..], kind)
  }

  function RemoveFirst(rules: seq<Rule>, kind: Kind): seq<Rule> {
    if rules == [] then []
    else if Is(kind, rules[0]) then rules[1..]
    else [rules[0]] + RemoveFirst(rules[1..], kind)
  }

  function Without(rules: seq<Rule>, kind: Kind): seq<Rule> {
    if rules == [] then []
    else if Is(kind, rules[0]) then Without(rules[1..], kind)
    else [rules[0]] + Without(rules[1..], kind)
  }

  function CountOf(rules: seq<Rule>, kind: Kind): nat {
    if rules == [] then 0
    else CountOf(rules[1..], kind) + if Is(kind, rules[0]) then 1 else 0
  }

  function EnsureRule(rules: seq<Rule>, kind: Kind, r: Rule): seq<Rule> {
    if FirstOf(rules, kind).None? then Insert(rules, r) else rules
  }

  // --- Lemmas --------------------------------------------------------------

  lemma {:induction false} FirstOfMeans(rules: seq<Rule>, kind: Kind)
    ensures match FirstOf(rules, kind)
      case None => forall r :: r in rules ==> !Is(kind, r)
      case Some(r) => r in rules && Is(kind, r)
    ensures FirstOf(rules, kind).None? <==> CountOf(rules, kind) == 0
  {
    if rules != [] {
      assert rules == [rules[0]] + rules[1..];
      FirstOfMeans(rules[1..], kind);
    }
  }

  lemma {:induction false} InsertMembers(rules: seq<Rule>, r: Rule)
    ensures forall q :: q in Insert(rules, r) <==> q in rules || q == r
  {
    if rules != [] && rules[0].priority <= r.priority {
      assert rules == [rules[0]] + rules[1..];
      InsertMembers(rules[1..], r);
    }
  }

  lemma {:induction false} InsertSorted(rules: seq<Rule>, r: Rule)
    requires Sorted(rules)
    ensures Sorted(Insert(rules, r))
  {
    if rules == [] || rules[0].priority > r.priority {
      assert forall q :: q in rules ==> r.priority <= q.priority;
      SortedCons(r, rules);
    } else {
      InsertSorted(rules[1..], r);
      InsertMembers(rules[1..], r);
      assert forall q :: q in rules[1..] ==> rules[0].priority <= q.priority;
      SortedCons(rules[0], Insert(rules[1..], r));
    }
  }

  lemma InsertAdds(rules: seq<Rule>, r: Rule)
    ensures forall q :: q in Insert(rules, r) <==> q in rules || q == r
    ensures Sorted(rules) ==> Sorted(Insert(rules, r))
  {
    InsertMembers(rules, r);
    if Sorted(rules) {
      InsertSorted(rules, r);
    }
  }

  lemma {:induction false} InsertCounts(rules: seq<Rule>, r: Rule, kind: Kind)
    ensures CountOf(Insert(rules, r), kind) == CountOf(rules, kind) + if Is(kind, r) then 1 else 0
  {
    if rules == [] || rules[0].priority > r.priority {
      assert ([r] + rules)[1..] == rules;
    } else {
      InsertCounts(rules[1..], r, kind);
      assert Insert(rules, r)[1..] == Insert(rules[1..], r);
    }
  }

  lemma {:induction false} InsertCommutes(rules: seq<Rule>, a: Rule, b: Rule)
    requires a.priority != b.priority
    ensures Insert(Insert(rules, a), b) == Insert(Insert(rules, b), a)
  {
    if rules != [] && rules[0].priority <= a.priority && rules[0].priority <= b.priority {
      InsertCommutes(rules[1..], a, b);
      assert Insert(rules, a)[1..] == Insert(rules[1..], a);
      assert Insert(rules, b)[1..] == Insert(rules[1..], b);
    } else {
      assert ([a] + rules)[1..] == rules && ([b] + rules)[1..] == rules;
      if rules != [] {
        assert Insert(rules, a)[0] == if rules[0].priority > a.priority then a else rules[0];
        assert Insert(rules, b)[0] == if rules[0].priority > b.priority then b else rules[0];
        assert rules[0].priority <= a.priority ==> Insert(rules, a)[1..] == Insert(rules[1..], a);
        assert rules[0].priority <= b.priority ==> Insert(rules, b)[1..] == Insert(rules[1..], b);
      }
    }
  }

  // A new rule goes behind those of its own priority and before any later one.
  lemma {:induction false} InsertIsBehind(rules: seq<Rule>, r: Rule) returns (i: nat)
    requires Sorted(rules)
    ensures i <= |rules| && Insert(rules, r) == rules[..i] + [r] + rules[i..]
    ensures forall j :: 0 <= j < |rules| ==> (j < i <==> rules[j].priority <= r.priority)
  {
    if rules == [] || rules[0].priority > r.priority {
      i := 0;
    } else {
      i := InsertIsBehind(rules[1..], r);
      i := i + 1;
      assert rules[..i] == [rules[0]] + rules[1..][..i - 1] && rules[i..] == rules[1..][i - 1..];
    }
  }

  // Removing what was inserted gives the list back, order included.
  lemma {:induction false} RemoveUndoesInsert(rules: seq<Rule>, r: Rule, kind: Kind)
    requires Is(kind, r) && FirstOf(rules, kind).None?
    ensures RemoveFirst(Insert(rules, r), kind) == rules && Without(Insert(rules, r), kind) == rules
    ensures RemoveFirst(rules, kind) == rules && Without(rules, kind) == rules
    ensures FirstOf(Insert(rules, r), kind) == Some(r)
  {
    if rules == [] || rules[0].priority > r.priority {
      assert ([r] + rules)[1..] == rules;
      if rules != [] {
        RemoveUndoesInsert(rules[1..], r, kind);
      }
    } else {
      RemoveUndoesInsert(rules[1..], r, kind);
      assert Insert(rules, r)[1..] == Insert(rules[1..], r);
    }
  }

  lemma {:induction false} OtherKindUntouched(rules: seq<Rule>, r: Rule, kind: Kind)
    requires !Is(kind, r)
    ensures FirstOf(Insert(rules, r), kind) == FirstOf(rules, kind)
  {
    if rules == [] || rules[0].priority > r.priority {
      assert ([r] + rules)[1..] == rules;
    } else {
      OtherKindUntouched(rules[1..], r, kind);
      assert Insert(rules, r)[1..] == Insert(rules[1..], r);
    }
  }

  // A request read back from a rule of a kind matches only rules of that kind,
  // so the kernel removes the very rule the agent found.
  lemma RequestIsPrecise(kind: Kind, request: Rule, r: Rule)
    requires Is(kind, request) && DelMatches(request, r)
    requires kind.BypassIn? ==> kind.table != 0
    requires kind.BypassKind? ==> kind.cfg.Enabled() && kind.cfg.table != 0
    ensures Is(kind, r)
  {
  }

  // But it is lenient: a request for an unmarked rule deletes a marked one that
  // comes first.
  lemma RequestIsLenient(marked: Rule, rest: seq<Rule>)
    requires marked.priority == DEFAULT_PRIO && marked.table == WG_TABLE && marked.mark != 0
    ensures RemoveMatch([marked] + rest, DEFAULT_RULE) == Some(rest)
  {
    assert ([marked] + rest)[1..] == rest;
  }

  lemma {:induction false} RemoveFound(rules: seq<Rule>, kind: Kind)
    requires FirstOf(rules, kind).Some?
    requires kind.LocalKind? || kind.DefaultKind? || kind.DiscoveryKind?
    ensures RemoveMatch(rules, FirstOf(rules, kind).value) == Some(RemoveFirst(rules, kind))
  {
    var r := FirstOf(rules, kind).value;
    FirstOfMeans(rules, kind);
    if !Is(kind, rules[0]) {
      if DelMatches(r, rules[0]) {
        RequestIsPrecise(kind, r, rules[0]);
      }
      RemoveFound(rules[1..], kind);
    }
  }

  // Deleting the rules of a snapshot one by one: behind the part already
  // cleared, the next request hits its own rule.
  lemma {:induction false} RemoveNext(cleared: seq<Rule>, kind: Kind, r: Rule, rest: seq<Rule>)
    requires Is(kind, r) && forall q :: q in cleared ==> !Is(kind, q)
    requires kind.BypassIn? && kind.table != 0
    ensures RemoveMatch(cleared + [r] + rest, r) == Some(cleared + rest)
  {
    if cleared == [] {
      assert cleared + [r] + rest == [r] + rest && ([r] + rest)[1..] == rest && cleared + rest == rest;
    } else {
      if DelMatches(r, cleared[0]) {
        RequestIsPrecise(kind, r, cleared[0]);
      }
      RemoveNext(cleared[1..], kind, r, rest);
      assert (cleared + [r] + rest)[1..] == cleared[1..] + [r] + rest;
      assert cleared + rest == [cleared[0]] + (cleared[1..] + rest);
    }
  }

  lemma {:induction false} WithoutSnoc(rules: seq<Rule>, r: Rule, kind: Kind)
    ensures Without(rules + [r], kind) == Without(rules, kind) + if Is(kind, r) then [] else [r]
  {
    if rules != [] {
      WithoutSnoc(rules[1..], r, kind);
      assert (rules + [r])[1..] == rules[1..] + [r];
    }
  }

  // The list while the first i rules of its snapshot have been dealt with.
  function Cleared(snapshot: seq<Rule>, i: nat, kind: Kind): seq<Rule>
    requires i <= |snapshot|
  {
    Without(snapshot[..i], kind) + snapshot[i..]
  }

  lemma SnapshotStep(snapshot: seq<Rule>, i: nat, kind: Kind)
    requires i < |snapshot| && kind.BypassIn? && kind.table != 0
    ensures if Is(kind, snapshot[i])
            then RemoveMatch(Cleared(snapshot, i, kind), snapshot[i]) == Some(Cleared(snapshot, i + 1, kind))
            else Cleared(snapshot, i, kind) == Cleared(snapshot, i + 1, kind)
  {
    var r, done, rest := snapshot[i], Without(snapshot[..i], kind), snapshot[i + 1..];
    assert snapshot[..i + 1] == snapshot[..i] + [r] && snapshot[i..] == [r] + rest;
    WithoutSnoc(snapshot[..i], r, kind);
    assert Cleared(snapshot, i, kind) == done + [r] + rest;
    if Is(kind, r) {
      RemovalMembers(snapshot[..i], kind);
      RemoveNext(done, kind, r, rest);
      assert Cleared(snapshot, i + 1, kind) == done + rest;
    }
  }

  // Without keeps every other rule, as often as it was there and in order.
  lemma {:induction false} WithoutKeepsOthers(rules: seq<Rule>, kind: Kind, r: Rule)
    ensures multiset(Without(rules, kind))[r] == if Is(kind, r) then 0 else multiset(rules)[r]
  {
    if rules != [] {
      assert rules == [rules[0]] + rules[1..];
      WithoutKeepsOthers(rules[1..], kind, r);
    }
  }

  lemma {:induction false} RemovalMembers(rules: seq<Rule>, kind: Kind)
    ensures forall r :: r in Without(rules, kind) <==> r in rules && !Is(kind, r)
    ensures forall r :: r in RemoveFirst(rules, kind) ==> r in rules
  {
    if rules != [] {
      assert rules == [rules[0]] + rules[1..];
      RemovalMembers(rules[1..], kind);
    }
  }

  lemma SortedCons(r: Rule, rest: seq<Rule>)
    requires Sorted(rest) && forall q :: q in rest ==> r.priority <= q.priority
    ensures Sorted([r] + rest)
  {
  }

  lemma {:induction false} RemovalSorted(rules: seq<Rule>, kind: Kind)
    requires Sorted(rules)
    ensures Sorted(Without(rules, kind)) && Sorted(RemoveFirst(rules, kind))
  {
    if rules != [] {
      RemovalSorted(rules[1..], kind);
      RemovalMembers(rules[1..], kind);
      assert forall q :: q in rules[1..] ==> rules[0].priority <= q.priority;
      SortedCons(rules[0], Without(rules[1..], kind));
      SortedCons(rules[0], RemoveFirst(rules[1..], kind));
    }
  }

  lemma {:induction false} SilentRule(rules: seq<Rule>, r: Rule, routes: Routes, dst: Addr, mark: int)
    requires Decision(r, routes, dst, mark).None?
    ensures Lookup(Insert(rules, r), routes, dst, mark) == Lookup(rules, routes, dst, mark)
  {
    if rules == [] || rules[0].priority > r.priority {
      assert ([r] + rules)[1..] == rules;
    } else {
      SilentRule(rules[1..], r, routes, dst, mark);
      assert Insert(rules, r)[1..] == Insert(rules[1..], r);
    }
  }
}
