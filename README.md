# go-mocket match-and-respond engine, in Dafny

go-mocket is a mock SQL driver for Go tests. Its core, `response.go`, holds a
registry of canned response rules (`MockCatcher`) and the rules themselves
(`FakeResponse`). The database adapter hands each outgoing statement and its
bound argument values to `FindResponse`. The registry scans its rules in
registration order and returns the first rule that matches, marking it
triggered. When no rule matches, it either panics or returns a fresh empty
rule. A rule matches when three things hold:

- it is not a spent one-time rule;
- its pattern is empty or occurs in the query text;
- its bound arguments are nil, or deep-equal the supplied values.

Rules are built with a fluent builder. Each builder call changes one field in
place and returns the same rule.

The model has four modules:

- `Values` (`values.dfy`): the value types. `Option` models Go's nil. `Value`
  models the dynamically typed argument values, with `DeepEqual` as Go's
  `reflect.DeepEqual` on them. Also here: `int64`, result rows and callback
  handles.
- `Matching` (`matching.dfy`): the pure part. Substring containment, the query
  and argument predicates, `IsMatch` over a value snapshot (`RuleState`) of a
  rule, and `FirstMatch`, the specification of the registry scan. The lemmas
  about these live here too.
- `Response` (`response.dfy`): the heap part, as classes. `Exceptions` is the
  hook pair; several rules may point to one. `FakeResponse` is a rule, with
  `MarkAsTriggered` and every builder. `MockCatcher` holds `mocks: seq<FakeResponse>`
  and provides `Attach`, `FindResponse`, `NewMock` and `Reset`. Each
  state-changing method states the whole new state in terms of the old one.
  `FindResponse` is tied to `FirstMatch` on the snapshot of the registered
  rules. A rule object returned to the caller is the very object in the
  registry, so later builder calls and trigger marks show through it.
- `Scenarios` (`scenarios.dfy`): client methods that build rules, and
  mostly a registry, and look queries up or read the fault switches; plus
  lemmas that apply the match predicates to concrete patterns and argument
  lists.

## Model

| member | source | states |
|---|---|---|
| `Values.DeepEqual` | response.go:87 | two argument values are deep-equal exactly when they have the same dynamic type and the same value, and are not NaN; so `Int(1)` and `Float(1.0)` differ |
| `Values.DeepEqualSlices` | response.go:87 | two argument slices are deep-equal exactly when they have the same length and are deep-equal position by position |
| `Values.DeepEqualSlicesIsEquality` | response.go:87 | without NaN elements, deep equality of slices is plain sequence equality |
| `Values.NaNSliceNotSelfEqual` | response.go:87 | a slice holding a NaN is not deep-equal to itself |
| `Matching.ContainsIff` | response.go:91 | the left-to-right containment scan succeeds exactly when the pattern occurs at some position of the query |
| `Matching.QueryMatchesIff` | response.go:90-92 | the query predicate holds exactly when the pattern is empty or occurs in the query; the empty-pattern test is already covered by containment |
| `Matching.ArgsMatchIff` | response.go:80-88 | the argument predicate holds exactly when `Args` is nil, or has the supplied length and deep-equals the supplied values position by position; names and type tags play no part |
| `Matching.IsMatchIff` | response.go:94-99 | a rule matches exactly when it is not spent (`Once` and `Triggered` both set) and the query and argument predicates hold, each stated outright |
| `Matching.TriggeredMatch` | response.go:95-97 | setting `Triggered` leaves the match of a rule without `Once` unchanged, and makes a rule with `Once` match nothing |
| `Matching.FirstMatch` | response.go:29-34 | the selected position holds a matching rule, no earlier position matches, and the result is the number of rules exactly when none matches |
| `Matching.FirstMatchSkip` | response.go:29-33 | skipping rules already known not to match does not change the lookup |
| `Matching.FirstMatchAppend` | response.go:19-21 | rules appended later never shadow an earlier match, and are consulted only when no earlier rule matches |
| `Matching.TriggeredKeepsPrefix` | response.go:29-32 | when the selected rule is marked, every rule before it keeps its state, even when the same object is registered twice |
| `Matching.OnceRuleFallsThrough` | response.go:29-32 | after a one-time rule has been selected and marked, the same lookup skips it and goes on to the next candidate after it, or to no match |
| `Matching.RepeatableRuleMatchesAgain` | response.go:29-32 | after a rule without `Once` has been selected and marked, the same lookup selects that rule again |
| `Response.Exceptions.constructor` | response.go:49 | `&Exceptions{}` has neither hook installed |
| `Response.FakeResponse.Literal` | response.go:67-77 | a struct literal rule has exactly the given fields and `Exceptions` pointer, which may be nil |
| `Response.FakeResponse.Empty` | response.go:49 | the rule `NewMock` creates has an empty pattern, nil `Args`, an empty row sequence, no callback, both flags false, zero counters, and a new `Exceptions` with no hooks |
| `Response.FakeResponse.MarkAsTriggered` | response.go:101-103 | sets `Triggered` and changes nothing else |
| `Response.FakeResponse.WithQuery` | response.go:106-109 | returns the same rule with only `Pattern` replaced |
| `Response.FakeResponse.WithArgs` | response.go:112-120 | with one or more values, sets `Args` to exactly those values in order; with none, changes nothing, so a nil `Args` stays a wildcard; returns the same rule |
| `Response.FakeResponse.WithReply` | response.go:124-127 | returns the same rule with only the row payload replaced |
| `Response.FakeResponse.OneTime` | response.go:129-132 | returns the same rule with only `Once` set |
| `Response.FakeResponse.WithExecException` | response.go:134-139 | installs an exec hook that signals a fault; the query hook and the rule's own fields stay as they were |
| `Response.FakeResponse.WithQueryException` | response.go:141-146 | installs a query hook that signals a fault; the exec hook and the rule's own fields stay as they were |
| `Response.FakeResponse.WithCallback` | response.go:148-151 | returns the same rule with only the callback replaced (possibly by nil) |
| `Response.FakeResponse.WithRowsNum` | response.go:153-156 | returns the same rule with only `RowsAffected` replaced |
| `Response.FakeResponse.WithId` | response.go:158-161 | returns the same rule with only `LastInsertId` replaced |
| `Response.MockCatcher.constructor` | response.go:163-165 | a new registry has no rules and both flags false |
| `Response.MockCatcher.Attach` | response.go:19-21 | the rule list becomes the old list followed by the given rules, in order; the flags do not change |
| `Response.MockCatcher.Scan` | response.go:29-34 | the scan stops at the first matching rule, or after the last rule; it changes nothing |
| `Response.MockCatcher.FindResponse` | response.go:24-45 | returns the first matching rule and marks it triggered, including wherever it is registered again; nothing else changes. On no match it returns a panic outcome with the source's message when the flag is set, else a fresh empty rule outside the registry with no hooks. The list and the flags stay. |
| `Response.MockCatcher.NewMock` | response.go:48-52 | the list grows by exactly one fresh empty rule at the end, which is returned; earlier elements and the flags stay |
| `Response.MockCatcher.Reset` | response.go:55-58 | the list becomes empty, the flags stay, and the same registry is returned |
| `Scenarios.PatternMatchesSurrounded` | response.go:90-92 | a pattern matches any query made of it with arbitrary text before and after |
| `Scenarios.QueryPatternOtherTable` | response.go:91 | `SELECT * FROM users` does not match `SELECT * FROM orders` |
| `Scenarios.ArgsExamples` | response.go:80-88 | bound `[a, b]` matches `[a, b]` and not `[a, c]`, `[a]` or `[a, b, d]` |
| `Scenarios.OneTimeThenDefault` | response.go:29-44 | a one-time rule answers the first lookup; the second lookup gets a fresh empty default instead |
| `Scenarios.EmptyWithArgsIsWildcard` | response.go:112-120 | after `WithArgs()` with no values, the rule still matches lookups whatever their arguments |
| `Scenarios.ExecReportsRowsAndId` | response.go:153-161 | a rule built with `WithQuery`, `WithRowsNum` and `WithId` reports that row count and id, with no exec fault, to a statement containing the pattern |
| `Scenarios.ResetThenDefault` | response.go:55-58 | after `Reset`, a lookup returns an empty default rule that is none of the earlier rules |
| `Scenarios.PanicWithoutRules` | response.go:36-38 | with `PanicOnEmptyResponse` set and no rules, a lookup panics with the no-match message |
| `Scenarios.FaultSwitchesIndependent` | response.go:134-146 | setting the exec fault leaves the query fault off; setting both turns both on |
| `Scenarios.SharedExceptionsShareHooks` | response.go:76 | two rules pointing to one `Exceptions` object share its hooks |

## Notes on the model

- `FindResponse` is split in two. `Scan` is the source's loop, which only
  reads. `FindResponse` then marks the rule `Scan` found and returns it. On
  non-nil rule entries the behaviour is the source's (nil entries: see
  "Left out").
- The same rule object may be registered twice, since `Attach` does no
  checking. Marking it then shows at every position holding it, and the
  contract of `FindResponse` says so. `TriggeredAt` states this on
  snapshots.
- `Reset` drops the rules; it does not clear `Triggered` on them, so a spent
  one-time rule that is attached again stays spent (response.go:55-58).
- A nil `Args` and an empty non-nil `Args` behave differently. The builder
  cannot produce the empty list, but a struct literal passed to `Attach` can,
  and that rule then matches only calls with no arguments. The model keeps
  both, as `None` and `Some([])`.
- The no-match default is built like the `NewMock` rule: empty pattern, nil
  `Args`, no callback, zero counters, and a new hook pair with neither hook.

## Left out

- The `log.Printf` line that `FindResponse` writes when `Logging` is set is
  I/O with no effect on the result. The `logging` flag is kept and never
  changes.
- The global `Catcher` variable is left out. Its `init` is modelled as the
  `MockCatcher` constructor, so each registry is an explicit instance.
- Hooks and callbacks are Go closures. A hook is modelled as nil, or as a
  closure that always returns one fixed answer. A callback is modelled as
  nil, or as an opaque identity. Invoking them is not modelled. The adapter
  layer that invokes them is not part of this model.
- `reflect.DeepEqual` is modelled only over scalar argument values: null,
  bool, integer, float, NaN and text. All integer widths share one tag.
  Floats are reals, so infinities and the sign of zero are not represented.
  Go's `==` treats the two zeros as equal anyway.
- `float32` and `float64` share the one `Float` tag, so the model treats
  `float32(1.5)` and `float64(1.5)` as deep-equal, where Go's
  `reflect.DeepEqual` rejects them because their dynamic types differ.
- Go strings are byte strings; the model's query and pattern are sequences of
  characters. `strings.Contains` and the model's containment agree only where
  both strings are valid UTF-8, so byte-level matches inside invalid or
  partial encodings are not modelled.
- `driver.NamedValue` is modelled as its value only. Its name and ordinal
  never take part in matching.
- The row payload is a sequence of column-to-value maps that is only stored
  and returned.
- A panic is modelled as the `Panicked` outcome carrying the panic message,
  not as a stack unwind.
- Response.FakeResponse.WithExecException: requires a non-nil `Exceptions`
  pointer. On a struct-literal rule without one, Go dereferences nil and
  panics; that failure is not modelled.
- Response.FakeResponse.WithQueryException: requires a non-nil `Exceptions`
  pointer, for the same reason.
- Response.MockCatcher.Attach: takes rules of the non-null type, so a nil
  `*FakeResponse` entry cannot be registered. In Go it can, and a later
  `FindResponse` whose scan reaches it panics on the nil dereference of
  `fr.Once`; that panic is not modelled, and `mocks` holds no nil entries.
- `RowsAffected` and `LastInsertId` are `int64` values that are only stored,
  so no arithmetic or wrap-around arises.
