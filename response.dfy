/** The rule registry and its rules as heap objects: a rule returned by
    `NewMock` or `FindResponse` is the very object the registry holds, so a
    builder call on it, or the trigger mark a lookup sets, is seen through the
    registry. */
module Response {
  import opened Values
  import opened Matching

  /** The pair of fault hooks a rule points to. A hook is either nil or a
      closure that always returns the same answer. Several rules may point
      to one `Exceptions` object, and then share its hooks. */
  class Exceptions {
    var hookQueryBadConnection: Option<bool>
    var hookExecBadConnection: Option<bool>

    /** `&Exceptions{}`: no hook installed. */
    constructor ()
      ensures hookQueryBadConnection == None && hookExecBadConnection == None
    {
      hookQueryBadConnection := None;
      hookExecBadConnection := None;
    }
  }

  /** The message of the panic raised for an unmatched query. */
  function NoMatchMessage(query: string): (message: string) {
    "No responses matches query " + query + " "
  }

  class FakeResponse {
    var pattern: string
    var args: Option<seq<Value>>
    var response: seq<Row>
    var once: bool
    var triggered: bool
    var callback: Option<Callback>
    var rowsAffected: int64
    var lastInsertId: int64
    /** The embedded `*Exceptions`; nil in a literal that leaves it out. */
    var exceptions: Exceptions?

    /** A `FakeResponse{...}` composite literal, as callers build rules for `Attach`. */
    constructor Literal(state: RuleState, exceptions: Exceptions?)
      ensures State() == state && this.exceptions == exceptions
    {
      pattern := state.pattern;
      args := state.args;
      response := state.response;
      once := state.once;
      triggered := state.triggered;
      callback := state.callback;
      rowsAffected := state.rowsAffected;
      lastInsertId := state.lastInsertId;
      this.exceptions := exceptions;
    }

    /** `&FakeResponse{Exceptions: &Exceptions{}, Response: make(..., 0)}`. */
    constructor Empty()
      ensures State() == Blank
      ensures fresh(exceptions) && exceptions.hookQueryBadConnection == None && exceptions.hookExecBadConnection == None
    {
      pattern := "";
      args := None;
      response := [];
      once := false;
      triggered := false;
      callback := None;
      rowsAffected := 0;
      lastInsertId := 0;
      exceptions := new Exceptions();
    }

    /** The rule's own fields as a value. */
    function State(): (state: RuleState)
      reads this
    {
      RuleState(pattern, args, response, once, triggered, callback, rowsAffected, lastInsertId)
    }

    /** `IsMatch` on the rule's current fields. */
    predicate IsMatch(query: string, args: seq<Value>)
      reads this
    {
      Matching.IsMatch(State(), query, args)
    }

    /** The query-call fault the adapter layer must raise: a query hook is
        installed and answers true. */
    predicate QueryFault()
      reads this, exceptions
    {
      exceptions != null && exceptions.hookQueryBadConnection == Some(true)
    }

    /** The execution-call fault the adapter layer must raise. */
    predicate ExecFault()
      reads this, exceptions
    {
      exceptions != null && exceptions.hookExecBadConnection == Some(true)
    }

    method MarkAsTriggered()
      modifies this
      ensures State() == old(State()).(triggered := true) && exceptions == old(exceptions)
    {
      triggered := true;
    }

    method WithQuery(query: string) returns (self: FakeResponse)
      modifies this
      ensures self == this
      ensures State() == old(State()).(pattern := query) && exceptions == old(exceptions)
    {
      pattern := query;
      return this;
    }

    /** Binds the argument values; with no values at all it changes nothing,
        so a nil `Args` stays a wildcard. */
    method WithArgs(vars: seq<Value>) returns (self: FakeResponse)
      modifies this
      ensures self == this
      ensures State() == if |vars| > 0 then old(State()).(args := Some(vars)) else old(State())
      ensures exceptions == old(exceptions)
    {
      if |vars| > 0 {
        var copy := new Value[|vars|];
        var index := 0;
        while index < |vars|
          invariant 0 <= index <= |vars|
          invariant copy[..index] == vars[..index]
          modifies copy
        {
          copy[index] := vars[index];
          index := index + 1;
        }
        assert copy[..] == vars;
        args := Some(copy[..]);
      }
      return this;
    }

    method WithReply(rows: seq<Row>) returns (self: FakeResponse)
      modifies this
      ensures self == this
      ensures State() == old(State()).(response := rows) && exceptions == old(exceptions)
    {
      response := rows;
      return this;
    }

    method OneTime() returns (self: FakeResponse)
      modifies this
      ensures self == this
      ensures State() == old(State()).(once := true) && exceptions == old(exceptions)
    {
      once := true;
      return this;
    }

    /** Installs an exec hook that always signals a broken connection. The
        query hook, and the rule's own fields, stay as they were. */
    method WithExecException() returns (self: FakeResponse)
      requires exceptions != null
      modifies exceptions
      ensures self == this
      ensures exceptions.hookExecBadConnection == Some(true)
      ensures exceptions.hookQueryBadConnection == old(exceptions.hookQueryBadConnection)
      ensures ExecFault() && (QueryFault() <==> old(QueryFault()))
    {
      exceptions.hookExecBadConnection := Some(true);
      return this;
    }

    /** Installs a query hook that always signals a broken connection. The
        exec hook, and the rule's own fields, stay as they were. */
    method WithQueryException() returns (self: FakeResponse)
      requires exceptions != null
      modifies exceptions
      ensures self == this
      ensures exceptions.hookQueryBadConnection == Some(true)
      ensures exceptions.hookExecBadConnection == old(exceptions.hookExecBadConnection)
      ensures QueryFault() && (ExecFault() <==> old(ExecFault()))
    {
      exceptions.hookQueryBadConnection := Some(true);
      return this;
    }

    method WithCallback(f: Option<Callback>) returns (self: FakeResponse)
      modifies this
      ensures self == this
      ensures State() == old(State()).(callback := f) && exceptions == old(exceptions)
    {
      callback := f;
      return this;
    }

    method WithRowsNum(num: int64) returns (self: FakeResponse)
      modifies this
      ensures self == this
      ensures State() == old(State()).(rowsAffected := num) && exceptions == old(exceptions)
    {
      rowsAffected := num;
      return this;
    }

    method WithId(id: int64) returns (self: FakeResponse)
      modifies this
      ensures self == this
      ensures State() == old(State()).(lastInsertId := id) && exceptions == old(exceptions)
    {
      lastInsertId := id;
      return this;
    }
  }

  /** The current states of a sequence of rules, position by position. */
  function StatesOf(rules: seq<FakeResponse>): (states: seq<RuleState>)
    reads rules
    ensures |states| == |rules|
    ensures forall i :: 0 <= i < |rules| ==> states[i] == rules[i].State()
  {
    if rules == [] then [] else [rules[0].State()] + StatesOf(rules[1..])
  }

  /** What a lookup hands back: a rule, or the panic of an unmatched query
      under `PanicOnEmptyResponse`. */
  datatype Outcome = Returned(rule: FakeResponse) | Panicked(message: string)

  class MockCatcher {
    var mocks: seq<FakeResponse>
    var logging: bool
    /** Whether an unmatched lookup panics instead of returning an empty rule. */
    var panicOnEmptyResponse: bool

    /** `&MockCatcher{}`. */
    constructor ()
      ensures mocks == [] && !logging && !panicOnEmptyResponse
    {
      mocks := [];
      logging := false;
      panicOnEmptyResponse := false;
    }

    /** The states of the registered rules, in registration order. */
    function States(): (states: seq<RuleState>)
      reads this, mocks
    {
      StatesOf(mocks)
    }

    /** Appends the given rules, in order, after the registered ones. */
    method Attach(fr: seq<FakeResponse>)
      modifies this
      ensures mocks == old(mocks) + fr
      ensures logging == old(logging) && panicOnEmptyResponse == old(panicOnEmptyResponse)
    {
      mocks := mocks + fr;
    }

    /** Returns the first registered rule that matches, marked triggered;
        otherwise panics or returns a fresh empty rule, per the flag. Only
        the returned rule object changes, wherever it is registered. */
    method FindResponse(query: string, args: seq<Value>) returns (r: Outcome)
      modifies mocks
      ensures mocks == old(mocks) && logging == old(logging) && panicOnEmptyResponse == old(panicOnEmptyResponse)
      ensures var k := FirstMatch(old(States()), query, args);
        && (k < |mocks| ==> r == Returned(mocks[k]))
        && (k == |mocks| && panicOnEmptyResponse ==> r == Panicked(NoMatchMessage(query)))
        && (k == |mocks| && !panicOnEmptyResponse ==>
              r.Returned? && fresh(r.rule) && r.rule.State() == Blank &&
              fresh(r.rule.exceptions) && r.rule.exceptions.hookQueryBadConnection == None &&
              r.rule.exceptions.hookExecBadConnection == None)
      ensures forall i :: 0 <= i < |mocks| ==>
        mocks[i].exceptions == old(mocks[i].exceptions) &&
        mocks[i].State() == if r.Returned? && mocks[i] == r.rule
                            then old(mocks[i].State()).(triggered := true)
                            else old(mocks[i].State())
      ensures var k := FirstMatch(old(States()), query, args);
        k < |mocks| ==> TriggeredAt(old(States()), States(), k)
    {
      var k := Scan(query, args);
      if k < |mocks| {
        var resp := mocks[k];
        resp.MarkAsTriggered();
        return Returned(resp);
      }
      if panicOnEmptyResponse {
        return Panicked(NoMatchMessage(query));
      }
      var d := new FakeResponse.Empty();
      return Returned(d);
    }

    /** The scan of `FindResponse`: the position of the first registered rule
        that matches, or the number of rules when none does. */
    method Scan(query: string, args: seq<Value>) returns (k: nat)
      ensures k == FirstMatch(States(), query, args)
    {
      k := 0;
      while k < |mocks|
        invariant 0 <= k <= |mocks|
        invariant forall j :: 0 <= j < k ==> !mocks[j].IsMatch(query, args)
      {
        if mocks[k].IsMatch(query, args) {
          return;
        }
        k := k + 1;
      }
    }

    /** Creates an empty rule, registers it at the end and returns it. */
    method NewMock() returns (fr: FakeResponse)
      modifies this
      ensures fresh(fr) && mocks == old(mocks) + [fr]
      ensures fr.State() == Blank
      ensures fresh(fr.exceptions) && fr.exceptions.hookQueryBadConnection == None &&
              fr.exceptions.hookExecBadConnection == None
      ensures logging == old(logging) && panicOnEmptyResponse == old(panicOnEmptyResponse)
    {
      fr := new FakeResponse.Empty();
      mocks := mocks + [fr];
    }

    /** Drops every rule; the flags and the registry itself stay. */
    method Reset() returns (self: MockCatcher)
      modifies this
      ensures self == this && mocks == []
      ensures logging == old(logging) && panicOnEmptyResponse == old(panicOnEmptyResponse)
    {
      mocks := [];
      return this;
    }
  }
}
