/** The match predicate of a response rule and the first-match selection the
    registry performs, over value snapshots of the rules. */
module Matching {
  import opened Values

  /** `sub` occurs in `s` starting at position `i`. */
  predicate OccursAt(s: string, sub: string, i: int) {
    0 <= i && i + |sub| <= |s| && s[i..i + |sub|] == sub
  }

  /** Go's `strings.Contains(s, sub)`: scan the start positions of `s` left to right. */
  function Contains(s: string, sub: string): (found: bool)
    decreases |s|
  {
    if |sub| <= |s| && s[..|sub|] == sub then true
    else if s == [] then false
    else Contains(s[1..], sub)
  }

  /** The scan finds `sub` exactly when it occurs somewhere in `s`. */
  lemma {:induction false} ContainsIff(s: string, sub: string)
    ensures Contains(s, sub) <==> exists i :: OccursAt(s, sub, i)
    decreases |s|
  {
    if |sub| <= |s| && s[..|sub|] == sub {
      assert OccursAt(s, sub, 0);
    } else if s == [] {
      assert forall i :: !OccursAt(s, sub, i);
    } else {
      ContainsIff(s[1..], sub);
      forall i | OccursAt(s, sub, i)
        ensures OccursAt(s[1..], sub, i - 1)
      {
        assert i != 0;
        assert s[1..][i - 1..i - 1 + |sub|] == s[i..i + |sub|];
      }
      forall i | OccursAt(s[1..], sub, i)
        ensures OccursAt(s, sub, i + 1)
      {
        assert s[1..][i..i + |sub|] == s[i + 1..i + 1 + |sub|];
      }
    }
  }

  /** `isQueryMatch`: an empty pattern, or the pattern inside the query. */
  predicate QueryMatches(pattern: string, query: string) {
    pattern == "" || Contains(query, pattern)
  }

  /** The query predicate holds exactly when the pattern is empty or occurs in
      the query; the empty-pattern test is subsumed by containment. */
  lemma QueryMatchesIff(pattern: string, query: string)
    ensures QueryMatches(pattern, query) <==> pattern == "" || exists i :: OccursAt(query, pattern, i)
    ensures QueryMatches(pattern, query) <==> exists i :: OccursAt(query, pattern, i)
  {
    ContainsIff(query, pattern);
    if pattern == "" {
      assert OccursAt(query, pattern, 0);
    }
  }

  /** `isArgsMatch`: a nil `Args` is a wildcard; otherwise the bound values
      must deep-equal the supplied ones. */
  predicate ArgsMatch(bound: Option<seq<Value>>, args: seq<Value>) {
    bound.None? || DeepEqualSlices(bound.value, args)
  }

  /** The argument predicate holds exactly when nothing is bound, or the
      bound values have the supplied length and deep-equal them position by
      position. */
  lemma ArgsMatchIff(bound: Option<seq<Value>>, args: seq<Value>)
    ensures ArgsMatch(bound, args) <==>
      bound.None? ||
      (|bound.value| == |args| && forall i :: 0 <= i < |args| ==> DeepEqual(bound.value[i], args[i]))
  {
  }

  /** Everything about a rule except its fault hooks, which live in a
      separate shared object. */
  datatype RuleState = RuleState(
    pattern: string,
    args: Option<seq<Value>>,
    response: seq<Row>,
    once: bool,
    triggered: bool,
    callback: Option<Callback>,
    rowsAffected: int64,
    lastInsertId: int64)

  /** A rule as `NewMock` creates it and as the no-match default is made:
      every field at its zero value, an empty row sequence. */
  const Blank := RuleState("", None, [], false, false, None, 0, 0)

  /** A one-time rule that has fired. */
  predicate Exhausted(r: RuleState) {
    r.once && r.triggered
  }

  /** `IsMatch`: not an exhausted one-time rule, and both predicates hold. */
  predicate IsMatch(r: RuleState, query: string, args: seq<Value>) {
    if Exhausted(r) then false
    else QueryMatches(r.pattern, query) && ArgsMatch(r.args, args)
  }

  /** The match predicate in terms of its three parts, each stated outright. */
  lemma IsMatchIff(r: RuleState, query: string, args: seq<Value>)
    ensures IsMatch(r, query, args) <==>
      !(r.once && r.triggered) &&
      (exists i :: OccursAt(query, r.pattern, i)) &&
      (r.args.None? ||
       (|r.args.value| == |args| && forall i :: 0 <= i < |args| ==> DeepEqual(r.args.value[i], args[i])))
  {
    QueryMatchesIff(r.pattern, query);
    ArgsMatchIff(r.args, args);
  }

  /** Marking a rule triggered changes nothing about its matching unless it
      is a one-time rule, which then matches nothing. */
  lemma TriggeredMatch(r: RuleState, query: string, args: seq<Value>)
    ensures !r.once ==> (IsMatch(r.(triggered := true), query, args) <==> IsMatch(r, query, args))
    ensures r.once ==> !IsMatch(r.(triggered := true), query, args)
  {
  }

  /** The index of the first rule, in registration order, that matches;
      `|rules|` when none does. */
  function FirstMatch(rules: seq<RuleState>, query: string, args: seq<Value>): (k: nat)
    ensures k <= |rules|
    ensures k < |rules| ==> IsMatch(rules[k], query, args)
    ensures forall j :: 0 <= j < k ==> !IsMatch(rules[j], query, args)
  {
    if rules == [] then 0
    else if IsMatch(rules[0], query, args) then 0
    else 1 + FirstMatch(rules[1..], query, args)
  }

  /** Rules known not to match can be skipped: the search resumes after them. */
  lemma {:induction false} FirstMatchSkip(rules: seq<RuleState>, m: nat, query: string, args: seq<Value>)
    requires m <= |rules|
    requires forall j :: 0 <= j < m ==> !IsMatch(rules[j], query, args)
    ensures FirstMatch(rules, query, args) == m + FirstMatch(rules[m..], query, args)
  {
    if m > 0 {
      assert rules[1..][m - 1..] == rules[m..];
      FirstMatchSkip(rules[1..], m - 1, query, args);
    }
  }

  /** Rules appended later never shadow an earlier match; they are consulted
      only when nothing before them matches. */
  lemma {:induction false} FirstMatchAppend(rules: seq<RuleState>, more: seq<RuleState>, query: string, args: seq<Value>)
    ensures var k := FirstMatch(rules, query, args);
      FirstMatch(rules + more, query, args) == if k < |rules| then k else |rules| + FirstMatch(more, query, args)
  {
    if rules == [] {
      assert rules + more == more;
    } else {
      assert (rules + more)[0] == rules[0];
      if !IsMatch(rules[0], query, args) {
        assert (rules + more)[1..] == rules[1..] + more;
        FirstMatchAppend(rules[1..], more, query, args);
      }
    }
  }

  /** `after` is `before` once the rule object at position `k` has been
      marked triggered: position `k` is, and so is every position holding the
      same object, which therefore had the same state; nothing else changed. */
  predicate TriggeredAt(before: seq<RuleState>, after: seq<RuleState>, k: nat) {
    k < |before| && |after| == |before| &&
    after[k] == before[k].(triggered := true) &&
    forall i :: 0 <= i < |before| ==> after[i] == before[i] || (before[i] == before[k] && after[i] == after[k])
  }

  /** Positions before the first match keep their state when it fires: a
      copy of the matched rule there would have matched first. */
  lemma TriggeredKeepsPrefix(before: seq<RuleState>, after: seq<RuleState>, k: nat, query: string, args: seq<Value>)
    requires k == FirstMatch(before, query, args)
    requires TriggeredAt(before, after, k)
    ensures after[..k] == before[..k]
  {
    forall j | 0 <= j < k
      ensures after[j] == before[j]
    {
      assert before[j] != before[k];
    }
  }

  /** After a one-time rule at the first-match position `k` has fired, the
      same lookup skips it and falls through to the next candidate after it,
      or to no match. */
  lemma OnceRuleFallsThrough(before: seq<RuleState>, after: seq<RuleState>, k: nat, query: string, args: seq<Value>)
    requires k == FirstMatch(before, query, args)
    requires TriggeredAt(before, after, k) && before[k].once
    ensures FirstMatch(after, query, args) == k + 1 + FirstMatch(after[k + 1..], query, args)
  {
    TriggeredKeepsPrefix(before, after, k, query, args);
    forall j | 0 <= j < k + 1
      ensures !IsMatch(after[j], query, args)
    {
      if j < k {
        assert after[j] == after[..k][j];
      }
    }
    FirstMatchSkip(after, k + 1, query, args);
  }

  /** A rule that is not one-time still wins the same lookup after firing. */
  lemma RepeatableRuleMatchesAgain(before: seq<RuleState>, after: seq<RuleState>, k: nat, query: string, args: seq<Value>)
    requires k == FirstMatch(before, query, args)
    requires TriggeredAt(before, after, k) && !before[k].once
    ensures FirstMatch(after, query, args) == k
  {
    TriggeredKeepsPrefix(before, after, k, query, args);
    forall j | 0 <= j < k
      ensures !IsMatch(after[j], query, args)
    {
      assert after[j] == after[..k][j];
    }
    FirstMatchSkip(after, k, query, args);
  }
}
