/** The order in which consent rules are tried: an in-place stable sort behind staged merges. */
module Rules {

  // A rule, with the compiled patterns of its hosts. A compiled pattern is named by its source.
  datatype Rule = Rule(name: string, priority: int, hosts: seq<string>, patterns: seq<string>)

  // What is left of regular expressions: which patterns compile, and what they match.
  datatype Patterns = Patterns(valid: string -> bool, matches: (string, string) -> bool)

  // ---------- what a stable sort is ----------

  predicate Descending(s: seq<Rule>) { forall i, j :: 0 <= i < j < |s| ==> s[i].priority >= s[j].priority }

  // The rules of one priority, in order.
  function WithPriority(s: seq<Rule>, p: int): seq<Rule> {
    if s == [] then [] else
    if s[0].priority == p then [s[0]] + WithPriority(s[1..], p) else WithPriority(s[1..], p)
  }

  // The same rules at each priority, in the same order.
  ghost predicate SameOrder(s: seq<Rule>, t: seq<Rule>) { forall p :: WithPriority(s, p) == WithPriority(t, p) }

  /** The descending order of priorities that keeps equal priorities in the order they came. */
  ghost predicate IsStableSort(input: seq<Rule>, output: seq<Rule>) { Descending(output) && SameOrder(input, output) }

  lemma {:induction false} HasPriority(s: seq<Rule>, p: int)
    ensures WithPriority(s, p) != [] <==> exists i :: 0 <= i < |s| && s[i].priority == p
  {
    if s != [] {
      HasPriority(s[1..], p);
      if i :| 0 <= i < |s| && s[i].priority == p {
        assert i > 0 ==> s[1..][i - 1] == s[i];
      }
    }
  }

  lemma FirstPriorityAtLeast(s: seq<Rule>, t: seq<Rule>)
    requires Descending(s) && SameOrder(s, t) && t != []
    ensures s != [] && s[0].priority >= t[0].priority
  {
    var p := t[0].priority;
    HasPriority(t, p);
    assert WithPriority(s, p) == WithPriority(t, p);
    HasPriority(s, p);
  }

  /** There is only one stable sort. */
  lemma {:induction false} StableSortIsUnique(s: seq<Rule>, t: seq<Rule>)
    requires Descending(s) && Descending(t) && SameOrder(s, t)
    ensures s == t
  {
    if s == [] {
      if t != [] {
        FirstPriorityAtLeast(s, t);
      }
    } else {
      assert SameOrder(t, s);
      FirstPriorityAtLeast(t, s);
      FirstPriorityAtLeast(s, t);
      var first := s[0].priority;
      assert WithPriority(s, first)[0] == s[0] && WithPriority(t, first)[0] == t[0];
      assert WithPriority(s, first) == WithPriority(t, first);
      forall p ensures WithPriority(s[1..], p) == WithPriority(t[1..], p) {
        assert WithPriority(s, p) == WithPriority(t, p);
        assert p == first ==> WithPriority(s[1..], p) == WithPriority(s, p)[1..]
                              && WithPriority(t[1..], p) == WithPriority(t, p)[1..];
      }
      StableSortIsUnique(s[1..], t[1..]);
    }
  }

  // ---------- the sort ----------

  lemma {:induction false} WithPriorityConcat(s: seq<Rule>, t: seq<Rule>, p: int)
    ensures WithPriority(s + t, p) == WithPriority(s, p) + WithPriority(t, p)
  {
    if s == [] {
      assert s + t == t;
    } else {
      assert (s + t)[1..] == s[1..] + t;
      WithPriorityConcat(s[1..], t, p);
    }
  }

  // Swapping two neighbours of different priority moves no rule past an equal one.
  lemma SwapKeepsOrder(s: seq<Rule>, j: nat)
    requires 0 < j < |s| && s[j].priority != s[j - 1].priority
    ensures SameOrder(s, s[j - 1 := s[j]][j := s[j - 1]])
  {
    var t := s[j - 1 := s[j]][j := s[j - 1]];
    var before, after := s[..j - 1], s[j + 1..];
    forall p ensures WithPriority(s, p) == WithPriority(t, p) {
      assert s == before + ([s[j - 1]] + ([s[j]] + after)) && t == before + ([s[j]] + ([s[j - 1]] + after));
      WithPriorityConcat(before, [s[j - 1]] + ([s[j]] + after), p);
      WithPriorityConcat(before, [s[j]] + ([s[j - 1]] + after), p);
      WithPriorityConcat([s[j - 1]], [s[j]] + after, p);
      WithPriorityConcat([s[j]], [s[j - 1]] + after, p);
      WithPriorityConcat([s[j]], after, p);
      WithPriorityConcat([s[j - 1]], after, p);
    }
  }

  // Descending up to i, but for the rule at j on its way forward.
  ghost predicate DescendingBut(s: seq<Rule>, i: nat, j: nat) {
    i < |s| && forall m, n :: 0 <= m < n <= i && n != j ==> s[m].priority >= s[n].priority
  }

  lemma SwapDescends(s: seq<Rule>, i: nat, j: nat)
    requires DescendingBut(s, i, j) && 0 < j <= i && s[j].priority > s[j - 1].priority
    ensures DescendingBut(s[j - 1 := s[j]][j := s[j - 1]], i, j - 1)
  {
  }

  /** Insertion sort, in place: the result is the stable sort of what was there. */
  method StableSortByPriority(rules: array<Rule>)
    modifies rules
    ensures IsStableSort(old(rules[..]), rules[..])
  {
    var i := 1;
    while i < rules.Length
      invariant 1 <= i && (i <= rules.Length || rules.Length == 0)
      invariant SameOrder(old(rules[..]), rules[..])
      invariant forall m, n :: 0 <= m < n < i && n < rules.Length ==> rules[..][m].priority >= rules[..][n].priority
    {
      var j := i;
      while j > 0 && rules[j].priority > rules[j - 1].priority
        invariant 0 <= j <= i
        invariant SameOrder(old(rules[..]), rules[..])
        invariant DescendingBut(rules[..], i, j)
      {
        ghost var s := rules[..];
        SwapKeepsOrder(s, j);
        SwapDescends(s, i, j);
        rules[j], rules[j - 1] := rules[j - 1], rules[j];
        assert rules[..] == s[j - 1 := s[j]][j := s[j - 1]];
        assert forall p :: WithPriority(old(rules[..]), p) == WithPriority(s, p);
        j := j - 1;
      }
      i := i + 1;
    }
  }

  // ---------- compiling and merging ----------

  predicate AllValid(pats: Patterns, patterns: seq<string>) {
    forall i :: 0 <= i < |patterns| ==> pats.valid(patterns[i])
  }

  predicate Compiles(pats: Patterns, rules: seq<Rule>) {
    forall i :: 0 <= i < |rules| ==> AllValid(pats, rules[i].hosts)
  }

  function Bare(r: Rule): Rule { r.(patterns := []) }

  function CompiledRule(r: Rule): Rule { r.(patterns := r.patterns + r.hosts) }

  function CompiledRules(rules: seq<Rule>): seq<Rule> {
    if rules == [] then [] else [CompiledRule(rules[0])] + CompiledRules(rules[1..])
  }

  lemma {:induction false} CompiledAt(rules: seq<Rule>)
    ensures |CompiledRules(rules)| == |rules|
    ensures forall i :: 0 <= i < |rules| ==> CompiledRules(rules)[i] == CompiledRule(rules[i])
  {
    if rules != [] {
      CompiledAt(rules[1..]);
    }
  }

  lemma {:induction false} CompiledConcat(s: seq<Rule>, t: seq<Rule>)
    ensures CompiledRules(s + t) == CompiledRules(s) + CompiledRules(t)
  {
    if s == [] {
      assert s + t == t;
    } else {
      assert (s + t)[1..] == s[1..] + t;
      CompiledConcat(s[1..], t);
    }
  }

  // Compiling does not reorder, and looks at no order.
  lemma {:induction false} CompiledWithPriority(rules: seq<Rule>, p: int)
    ensures WithPriority(CompiledRules(rules), p) == CompiledRules(WithPriority(rules, p))
  {
    if rules != [] {
      CompiledWithPriority(rules[1..], p);
      var rest := WithPriority(rules[1..], p);
      assert [rules[0]] + rest == WithPriority(rules, p) || rest == WithPriority(rules, p);
      CompiledConcat([rules[0]], rest);
    }
  }

  /** Compiles the host patterns of the rules, failing at the first bad one, and sorts them. */
  method Compile(pats: Patterns, rules: array<Rule>) returns (ok: bool)
    modifies rules
    ensures ok == Compiles(pats, old(rules[..]))
    ensures ok ==> IsStableSort(CompiledRules(old(rules[..])), rules[..])
    ensures !ok ==> forall k :: 0 <= k < rules.Length ==> Bare(rules[k]) == Bare(old(rules[..])[k])
  {
    ghost var raw := rules[..];
    CompiledAt(raw);
    for i := 0 to rules.Length
      invariant forall k :: i <= k < rules.Length ==> rules[k] == raw[k]
      invariant forall k :: 0 <= k < i ==> AllValid(pats, raw[k].hosts) && rules[k] == CompiledRule(raw[k])
    {
      var hosts := rules[i].hosts;
      for h := 0 to |hosts|
        invariant forall k :: 0 <= k < rules.Length && k != i ==>
                    rules[k] == (if k < i then CompiledRule(raw[k]) else raw[k])
        invariant AllValid(pats, hosts[..h])
        invariant rules[i] == raw[i].(patterns := raw[i].patterns + hosts[..h])
      {
        if !pats.valid(hosts[h]) {
          assert !AllValid(pats, raw[i].hosts);
          return false;
        }
        assert hosts[..h + 1] == hosts[..h] + [hosts[h]];
        rules[i] := rules[i].(patterns := rules[i].patterns + [hosts[h]]);
      }
      assert hosts[..|hosts|] == hosts;
    }
    assert rules[..] == CompiledRules(raw);
    StableSortByPriority(rules);
    return true;
  }

  function Concat(sets: seq<seq<Rule>>): seq<Rule> { if sets == [] then [] else sets[0] + Concat(sets[1..]) }

  // Combines rule sets that were compiled already; a missing set counts as an empty one.
  method Merge(pats: Patterns, sets: seq<seq<Rule>>) returns (merged: seq<Rule>)
    ensures if Compiles(pats, Concat(sets)) then IsStableSort(CompiledRules(Concat(sets)), merged)
            else && |merged| == |Concat(sets)|
                 && forall k :: 0 <= k < |merged| ==> Bare(merged[k]) == Bare(Concat(sets)[k])
  {
    var all: seq<Rule> := [];
    for i := 0 to |sets|
      invariant all + Concat(sets[i..]) == Concat(sets)
    {
      all := all + sets[i];
    }
    assert all == Concat(sets);
    var rules := new Rule[|all|](i requires 0 <= i < |all| => all[i]);
    assert rules[..] == all;
    var _ := Compile(pats, rules);
    return rules[..];
  }

  // ---------- staged merging is one merge ----------

  // Each set is what compiling its raw pack gave.
  ghost predicate CompiledFrom(pats: Patterns, raw: seq<seq<Rule>>, sets: seq<seq<Rule>>) {
    |raw| == |sets| && forall i :: 0 <= i < |raw| ==>
      Compiles(pats, raw[i]) && IsStableSort(CompiledRules(raw[i]), sets[i])
  }

  lemma {:induction false} ConcatSameOrder(pats: Patterns, raw: seq<seq<Rule>>, sets: seq<seq<Rule>>, p: int)
    requires CompiledFrom(pats, raw, sets)
    ensures WithPriority(Concat(sets), p) == WithPriority(CompiledRules(Concat(raw)), p)
  {
    if raw != [] {
      assert IsStableSort(CompiledRules(raw[0]), sets[0]);
      assert WithPriority(CompiledRules(raw[0]), p) == WithPriority(sets[0], p);
      assert CompiledFrom(pats, raw[1..], sets[1..]) by {
        forall i | 0 <= i < |raw| - 1
          ensures Compiles(pats, raw[1..][i]) && IsStableSort(CompiledRules(raw[1..][i]), sets[1..][i])
        {
          assert IsStableSort(CompiledRules(raw[i + 1]), sets[i + 1]);
        }
      }
      ConcatSameOrder(pats, raw[1..], sets[1..], p);
      WithPriorityConcat(sets[0], Concat(sets[1..]), p);
      CompiledConcat(raw[0], Concat(raw[1..]));
      WithPriorityConcat(CompiledRules(raw[0]), CompiledRules(Concat(raw[1..])), p);
    }
  }

  /** Staged merging equals one merge: compiling packs separately and merging the results gives
      the stable descending-priority order of all raw packs in load order, each rule compiled
      twice over. */
  lemma StagedIsOneSort(pats: Patterns, raw: seq<seq<Rule>>, sets: seq<seq<Rule>>, merged: seq<Rule>)
    requires CompiledFrom(pats, raw, sets) && IsStableSort(CompiledRules(Concat(sets)), merged)
    ensures IsStableSort(CompiledRules(CompiledRules(Concat(raw))), merged)
  {
    var once := CompiledRules(Concat(raw));
    forall p ensures WithPriority(CompiledRules(once), p) == WithPriority(merged, p) {
      ConcatSameOrder(pats, raw, sets, p);
      CompiledWithPriority(Concat(sets), p);
      CompiledWithPriority(once, p);
      assert WithPriority(CompiledRules(Concat(sets)), p) == WithPriority(merged, p);
    }
  }

  // The rules that come before the compiled one at the same place.
  lemma {:induction false} SortedCompiles(pats: Patterns, input: seq<Rule>, output: seq<Rule>, i: nat)
    requires Compiles(pats, input) && IsStableSort(CompiledRules(input), output) && i < |output|
    ensures AllValid(pats, output[i].hosts)
  {
    var p := output[i].priority;
    InWithPriority(output, i);
    assert WithPriority(CompiledRules(input), p) == WithPriority(output, p);
    FromWithPriority(CompiledRules(input), p, output[i]);
    CompiledAt(input);
  }

  lemma {:induction false} InWithPriority(s: seq<Rule>, i: nat)
    requires i < |s|
    ensures s[i] in WithPriority(s, s[i].priority)
  {
    if i > 0 {
      InWithPriority(s[1..], i - 1);
    }
  }

  lemma {:induction false} FromWithPriority(s: seq<Rule>, p: int, r: Rule)
    requires r in WithPriority(s, p)
    ensures r in s
  {
    if s[0].priority == p && s[0] == r {
    } else {
      FromWithPriority(s[1..], p, r);
    }
  }

  lemma {:induction false} CompilesConcat(pats: Patterns, sets: seq<seq<Rule>>)
    requires forall i :: 0 <= i < |sets| ==> Compiles(pats, sets[i])
    ensures Compiles(pats, Concat(sets))
  {
    if sets != [] {
      CompilesConcat(pats, sets[1..]);
    }
  }

  /** Merging sets that were compiled never falls back to the unordered rules. */
  lemma MergeNeverFallsBack(pats: Patterns, raw: seq<seq<Rule>>, sets: seq<seq<Rule>>)
    requires CompiledFrom(pats, raw, sets)
    ensures Compiles(pats, Concat(sets))
  {
    forall i | 0 <= i < |sets| ensures Compiles(pats, sets[i]) {
      assert Compiles(pats, raw[i]) && IsStableSort(CompiledRules(raw[i]), sets[i]);
      forall k | 0 <= k < |sets[i]| ensures AllValid(pats, sets[i][k].hosts) {
        SortedCompiles(pats, raw[i], sets[i], k);
      }
    }
    CompilesConcat(pats, sets);
  }

  // ---------- matching hosts ----------

  predicate AnyMatches(pats: Patterns, patterns: seq<string>, host: string, domain: string) {
    exists k :: 0 <= k < |patterns| && (pats.matches(patterns[k], host) || pats.matches(patterns[k], domain))
  }

  predicate MatchesHost(pats: Patterns, r: Rule, host: string, domain: string) {
    r.patterns == [] || AnyMatches(pats, r.patterns, host, domain)
  }

  lemma DoubledMatchesTheSame(pats: Patterns, once: seq<string>, host: string, domain: string)
    ensures AnyMatches(pats, once + once, host, domain) == AnyMatches(pats, once, host, domain)
  {
    if k :| 0 <= k < |once| && (pats.matches(once[k], host) || pats.matches(once[k], domain)) {
      assert (once + once)[k] == once[k];
    }
  }

  /** Compiling host patterns again does not change which hosts a rule matches. */
  lemma CompilingTwiceMatchesTheSame(pats: Patterns, r: Rule, host: string, domain: string)
    requires r.patterns == []
    ensures MatchesHost(pats, CompiledRule(CompiledRule(r)), host, domain)
            == MatchesHost(pats, CompiledRule(r), host, domain)
  {
    hide AnyMatches;
    assert CompiledRule(r).patterns == r.hosts && CompiledRule(CompiledRule(r)).patterns == r.hosts + r.hosts;
    DoubledMatchesTheSame(pats, r.hosts, host, domain);
  }

  method RuleMatchesHost(pats: Patterns, r: Rule, host: string, domain: string) returns (matches: bool)
    ensures matches == MatchesHost(pats, r, host, domain)
  {
    if |r.patterns| == 0 {
      return true;
    }
    for k := 0 to |r.patterns|
      invariant forall m :: 0 <= m < k ==> !pats.matches(r.patterns[m], host) && !pats.matches(r.patterns[m], domain)
    {
      if pats.matches(r.patterns[k], host) || pats.matches(r.patterns[k], domain) {
        return true;
      }
    }
    return false;
  }

  // ---------- candidates ----------

  function Allowed(pats: Patterns, rules: seq<Rule>, host: string, domain: string): seq<Rule> {
    if rules == [] then [] else
    var rest := Allowed(pats, rules[1..], host, domain);
    if MatchesHost(pats, rules[0], host, domain) then [rules[0]] + rest else rest
  }

  lemma {:induction false} AllowedConcat(pats: Patterns, s: seq<Rule>, t: seq<Rule>, host: string, domain: string)
    ensures Allowed(pats, s + t, host, domain) == Allowed(pats, s, host, domain) + Allowed(pats, t, host, domain)
  {
    if s == [] {
      assert s + t == t;
    } else {
      assert (s + t)[1..] == s[1..] + t;
      AllowedConcat(pats, s[1..], t, host, domain);
    }
  }

  // The host and domain come in lower case.
  method Candidates(pats: Patterns, rules: seq<Rule>, host: string, domain: string) returns (out: seq<Rule>)
    ensures out == Allowed(pats, rules, host, domain)
  {
    out := [];
    for i := 0 to |rules|
      invariant out == Allowed(pats, rules[..i], host, domain)
    {
      assert rules[..i + 1] == rules[..i] + [rules[i]];
      AllowedConcat(pats, rules[..i], [rules[i]], host, domain);
      var matches := RuleMatchesHost(pats, rules[i], host, domain);
      if matches {
        out := out + [rules[i]];
      }
    }
    assert rules[..|rules|] == rules;
  }

  lemma {:induction false} AllowedWithPriority(pats: Patterns, s: seq<Rule>, host: string, domain: string, p: int)
    ensures WithPriority(Allowed(pats, s, host, domain), p) == Allowed(pats, WithPriority(s, p), host, domain)
  {
    if s != [] {
      AllowedWithPriority(pats, s[1..], host, domain, p);
      var rest := WithPriority(s[1..], p);
      AllowedConcat(pats, [s[0]], rest, host, domain);
      WithPriorityConcat([s[0]], Allowed(pats, s[1..], host, domain), p);
      assert WithPriority(s, p) == if s[0].priority == p then [s[0]] + rest else rest;
    }
  }

  lemma {:induction false} AllowedDescends(pats: Patterns, s: seq<Rule>, host: string, domain: string)
    requires Descending(s)
    ensures Descending(Allowed(pats, s, host, domain))
    ensures forall r :: r in Allowed(pats, s, host, domain) <==> r in s && MatchesHost(pats, r, host, domain)
  {
    if s != [] {
      AllowedDescends(pats, s[1..], host, domain);
      var rest := Allowed(pats, s[1..], host, domain);
      forall i | 0 <= i < |rest| ensures s[0].priority >= rest[i].priority {
        assert rest[i] in s[1..];
      }
    }
  }

  /** Candidates keep the order: asking the sorted rules for a host gives the stable sort of the
      rules that match it, and exactly those. */
  lemma CandidatesKeepOrder(pats: Patterns, input: seq<Rule>, output: seq<Rule>, host: string, domain: string)
    requires IsStableSort(input, output)
    ensures IsStableSort(Allowed(pats, input, host, domain), Allowed(pats, output, host, domain))
    ensures forall r :: r in Allowed(pats, output, host, domain) <==> r in output && MatchesHost(pats, r, host, domain)
  {
    AllowedDescends(pats, output, host, domain);
    forall p
      ensures WithPriority(Allowed(pats, input, host, domain), p)
              == WithPriority(Allowed(pats, output, host, domain), p)
    {
      AllowedWithPriority(pats, input, host, domain, p);
      AllowedWithPriority(pats, output, host, domain, p);
      assert WithPriority(input, p) == WithPriority(output, p);
    }
  }

  // ---------- which of two equal rules comes first ----------

  // At every priority the rules of the later set are tried before those of the earlier one.
  ghost predicate LaterFirst(earlier: seq<Rule>, later: seq<Rule>, merged: seq<Rule>) {
    forall p :: WithPriority(merged, p) == WithPriority(later, p) + WithPriority(earlier, p)
  }

  ghost predicate SharesPriority(earlier: seq<Rule>, later: seq<Rule>, p: int) {
    WithPriority(earlier, p) != [] && WithPriority(later, p) != []
  }

  /** Later sets take precedence at equal priority exactly when no priority is equal across them:
      where one is shared, the rules of the earlier set are tried first. */
  lemma LaterFirstExactly(earlier: seq<Rule>, later: seq<Rule>, merged: seq<Rule>)
    requires IsStableSort(earlier + later, merged)
    requires forall r :: r in earlier ==> r !in later
    ensures LaterFirst(earlier, later, merged) <==> forall p :: !SharesPriority(earlier, later, p)
    ensures forall p :: SharesPriority(earlier, later, p) ==>
              WithPriority(merged, p) != [] && WithPriority(merged, p)[0] == WithPriority(earlier, p)[0]
  {
    forall p
      ensures WithPriority(merged, p) == WithPriority(earlier, p) + WithPriority(later, p)
      ensures SharesPriority(earlier, later, p)
              <==> WithPriority(merged, p) != WithPriority(later, p) + WithPriority(earlier, p)
    {
      assert WithPriority(earlier + later, p) == WithPriority(merged, p);
      WithPriorityConcat(earlier, later, p);
      var e, l := WithPriority(earlier, p), WithPriority(later, p);
      if SharesPriority(earlier, later, p) {
        FromWithPriority(earlier, p, e[0]);
        FromWithPriority(later, p, l[0]);
        assert (e + l)[0] != (l + e)[0];
      } else {
        assert e + l == l + e;
      }
    }
    if p :| SharesPriority(earlier, later, p) {
      assert WithPriority(merged, p) != WithPriority(later, p) + WithPriority(earlier, p);
      assert !LaterFirst(earlier, later, merged);
    }
  }

  /** The concrete case: two packs of one rule each, at the same priority. */
  lemma EarlierRuleIsTriedFirst(merged: seq<Rule>)
    requires IsStableSort([Rule("first", 5, [], [])] + [Rule("second", 5, [], [])], merged)
    ensures merged == [Rule("first", 5, [], []), Rule("second", 5, [], [])]
  {
    var two := [Rule("first", 5, [], []), Rule("second", 5, [], [])];
    assert [two[0]] + [two[1]] == two;
    StableSortIsUnique(two, merged);
  }
}
