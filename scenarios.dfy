/** Whole-registry usage scenarios: each builds a fresh registry, registers
    rules through the builder and looks queries up, and its contract states
    what the caller observes. */
module Scenarios {
  import opened Values
  import opened Matching
  import opened Response

  /** Substring containment: the pattern matches whatever driver-added text
      surrounds it. */
  lemma {:induction false} PatternMatchesSurrounded(pattern: string, before: string, after: string)
    ensures QueryMatches(pattern, before + pattern + after)
  {
    var q := before + pattern + after;
    QueryMatchesIff(pattern, q);
    assert q[|before|..|before| + |pattern|] == pattern;
    assert OccursAt(q, pattern, |before|);
  }

  /** A character that differs from the pattern rules out that start position. */
  lemma MismatchAt(query: string, pattern: string, i: nat, j: nat)
    requires j < |pattern| && i + j < |query| && query[i + j] != pattern[j]
    ensures !OccursAt(query, pattern, i)
  {
  }

  /** A different table name does not match. */
  lemma QueryPatternOtherTable(p: string, q: string)
    requires p == "SELECT * FROM users" && q == "SELECT * FROM orders"
    ensures !QueryMatches(p, q)
  {
    QueryMatchesIff(p, q);
    MismatchAt(q, p, 0, 14);
    MismatchAt(q, p, 1, 0);
    assert forall i :: OccursAt(q, p, i) ==> i == 0 || i == 1;
  }

  /** Bound arguments match the same values in the same order and nothing
      else: not a changed value, not a shorter or a longer list. */
  lemma ArgsExamples(a: Value, b: Value, c: Value, d: Value)
    requires !a.NaN? && !b.NaN? && b != c
    ensures ArgsMatch(Some([a, b]), [a, b])
    ensures !ArgsMatch(Some([a, b]), [a, c])
    ensures !ArgsMatch(Some([a, b]), [a])
    ensures !ArgsMatch(Some([a, b]), [a, b, d])
  {
    DeepEqualSlicesIsEquality([a, b], [a, b]);
    DeepEqualSlicesIsEquality([a, b], [a, c]);
    assert [a, b] != [a, c] by { assert [a, b][1] != [a, c][1]; }
  }

  /** With nothing after it, a spent one-time rule leaves only the empty
      default, a new rule outside the registry. */
  method OneTimeThenDefault(query: string, args: seq<Value>)
    returns (oneTime: FakeResponse, first: Outcome, second: Outcome)
    ensures first == Returned(oneTime)
    ensures second.Returned? && second.rule != oneTime && second.rule.State() == Blank
  {
    var c := new MockCatcher();
    oneTime := c.NewMock();
    oneTime := oneTime.OneTime();
    first := c.FindResponse(query, args);
    assert c.States() == [Blank.(once := true, triggered := true)];
    second := c.FindResponse(query, args);
  }

  /** `WithArgs()` with no values keeps the rule a wildcard over arguments. */
  method EmptyWithArgsIsWildcard(query: string, args: seq<Value>) returns (rule: FakeResponse, r: Outcome)
    ensures rule.args == None
    ensures r == Returned(rule)
  {
    var c := new MockCatcher();
    rule := c.NewMock();
    rule := rule.WithArgs([]);
    r := c.FindResponse(query, args);
  }

  /** A rule built with `WithQuery(pattern).WithRowsNum(rows).WithId(id)`
      reports that row count and id, and no fault, to an execution call whose
      statement contains the pattern. */
  method ExecReportsRowsAndId(pattern: string, statement: string, args: seq<Value>, rows: int64, id: int64)
    returns (rowsAffected: int64, lastInsertId: int64, fault: bool)
    requires QueryMatches(pattern, statement)
    ensures rowsAffected == rows && lastInsertId == id && !fault
  {
    var c := new MockCatcher();
    var rule := c.NewMock();
    rule := rule.WithQuery(pattern);
    rule := rule.WithRowsNum(rows);
    rule := rule.WithId(id);
    var r := c.FindResponse(statement, args);
    rowsAffected, lastInsertId, fault := r.rule.rowsAffected, r.rule.lastInsertId, r.rule.ExecFault();
  }

  /** After `Reset`, whatever was registered, a lookup gets the empty default. */
  method ResetThenDefault(rules: seq<FakeResponse>, query: string, args: seq<Value>) returns (r: Outcome)
    ensures r.Returned? && r.rule !in rules && r.rule.State() == Blank
  {
    var c := new MockCatcher();
    c.Attach(rules);
    var same := c.Reset();
    r := same.FindResponse(query, args);
  }

  /** With `PanicOnEmptyResponse` set and no rules, every lookup panics. */
  method PanicWithoutRules(query: string, args: seq<Value>) returns (r: Outcome)
    ensures r == Panicked(NoMatchMessage(query))
  {
    var c := new MockCatcher();
    c.panicOnEmptyResponse := true;
    r := c.FindResponse(query, args);
  }

  /** The exec and the query fault switches are independent. */
  method FaultSwitchesIndependent() returns (execOnlyExec: bool, execOnlyQuery: bool, bothExec: bool, bothQuery: bool)
    ensures execOnlyExec && !execOnlyQuery
    ensures bothExec && bothQuery
  {
    var c := new MockCatcher();
    var rule := c.NewMock();
    rule := rule.WithExecException();
    execOnlyExec, execOnlyQuery := rule.ExecFault(), rule.QueryFault();
    rule := rule.WithQueryException();
    bothExec, bothQuery := rule.ExecFault(), rule.QueryFault();
  }

  /** Two rules built around one `Exceptions` object share its hooks: a
      fault installed through either is seen by both. */
  method SharedExceptionsShareHooks() returns (firstFaults: bool, secondFaults: bool)
    ensures firstFaults && secondFaults
  {
    var hooks := new Exceptions();
    var first := new FakeResponse.Literal(Blank, hooks);
    var second := new FakeResponse.Literal(Blank.(pattern := "UPDATE"), hooks);
    first := first.WithExecException();
    firstFaults, secondFaults := first.ExecFault(), second.ExecFault();
  }
}
