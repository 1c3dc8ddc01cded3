/**
  Usage of a Session: the model calls of its Runs, summed for the Session, per Run and per model.
 */
module Usage {
  import opened Prelude

  const MAX_INT64 := 0x7fff_ffff_ffff_ffff

  datatype Tokens = Tokens(input: Option<int>, output: Option<int>, cached: Option<int>, total: Option<int>)

  datatype ModelKey = ModelKey(name: string, provider: string, model: string)

  // One traced model call; the usage is missing when the provider reported none.
  datatype Call = Call(key: ModelKey, usage: Option<Tokens>)

  datatype RunTrace = RunTrace(modelCalls: nat, calls: seq<Call>)

  // The sum of the reported values, if any was reported, and how many were not.
  datatype Tally = Tally(sum: Option<int>, unknown: nat)

  datatype Summary = Summary(calls: nat, input: Tally, output: Tally, cached: Tally, total: Tally)

  const NONE := Tally(None, 0)
  const EMPTY := Summary(0, NONE, NONE, NONE, NONE)

  // ---------------------------------------------------------------------------------------------
  // Exact sums
  // ---------------------------------------------------------------------------------------------

  function PlusSum(a: Option<int>, b: Option<int>): Option<int> {
    if a.None? then b else if b.None? then a else Some(a.value + b.value)
  }

  function PlusTally(a: Tally, b: Tally): Tally {
    Tally(PlusSum(a.sum, b.sum), a.unknown + b.unknown)
  }

  function Plus(a: Summary, b: Summary): Summary {
    Summary(a.calls + b.calls, PlusTally(a.input, b.input), PlusTally(a.output, b.output),
            PlusTally(a.cached, b.cached), PlusTally(a.total, b.total))
  }

  function OneTally(value: Option<int>): Tally {
    if value.Some? then Tally(value, 0) else Tally(None, 1)
  }

  function One(usage: Option<Tokens>): Summary {
    var t := if usage.Some? then usage.value else Tokens(None, None, None, None);
    Summary(1, OneTally(t.input), OneTally(t.output), OneTally(t.cached), OneTally(t.total))
  }

  function SummaryOf(calls: seq<Call>): Summary {
    if calls == [] then EMPTY else Plus(SummaryOf(calls[..|calls| - 1]), One(calls[|calls| - 1].usage))
  }

  lemma PlusLaws(a: Summary, b: Summary, c: Summary)
    ensures Plus(Plus(a, b), c) == Plus(a, Plus(b, c)) && Plus(a, b) == Plus(b, a)
    ensures Plus(EMPTY, a) == a == Plus(a, EMPTY)
  {
  }

  lemma {:induction false} SummaryAppend(a: seq<Call>, b: seq<Call>)
    ensures SummaryOf(a + b) == Plus(SummaryOf(a), SummaryOf(b))
    decreases |b|
  {
    hide Plus, One;
    if b == [] {
      assert a + b == a;
      PlusLaws(SummaryOf(a), EMPTY, EMPTY);
    } else {
      var n := |b| - 1;
      assert (a + b)[..|a| + n] == a + b[..n];
      SummaryAppend(a, b[..n]);
      PlusLaws(SummaryOf(a), SummaryOf(b[..n]), One(b[n].usage));
    }
  }

  // The calls of one model.
  function Only(calls: seq<Call>, key: ModelKey): seq<Call> {
    if calls == [] then []
    else
      var c := calls[|calls| - 1];
      Only(calls[..|calls| - 1], key) + if c.key == key then [c] else []
  }

  lemma {:induction false} OnlyAppend(calls: seq<Call>, c: Call, key: ModelKey)
    ensures Only(calls + [c], key) == Only(calls, key) + if c.key == key then [c] else []
  {
    assert (calls + [c])[..|calls|] == calls;
  }

  lemma {:induction false} SummaryNext(calls: seq<Call>, c: Call)
    ensures SummaryOf(calls + [c]) == Plus(SummaryOf(calls), One(c.usage))
  {
    assert (calls + [c])[..|calls|] == calls;
  }

  // ---------------------------------------------------------------------------------------------
  // Adding with a bound
  // ---------------------------------------------------------------------------------------------

  // addUsageMetric; nothing when the value is negative or the sum overflows
  function AddMetric(t: Tally, value: Option<int>): Option<Tally> {
    if value.None? then Some(t.(unknown := t.unknown + 1))
    else if value.value < 0 then None
    else if t.sum.None? then Some(t.(sum := value))
    else if value.value > MAX_INT64 - t.sum.value then None
    else Some(t.(sum := Some(t.sum.value + value.value)))
  }

  // addUsageAttempt
  function AddAttempt(s: Summary, usage: Option<Tokens>): Option<Summary> {
    var t := if usage.Some? then usage.value else Tokens(None, None, None, None);
    var input := AddMetric(s.input, t.input);
    var output := AddMetric(s.output, t.output);
    var cached := AddMetric(s.cached, t.cached);
    var total := AddMetric(s.total, t.total);
    if input.None? || output.None? || cached.None? || total.None? then None
    else Some(Summary(s.calls + 1, input.value, output.value, cached.value, total.value))
  }

  predicate Within(t: Tally) {
    t.sum.Some? ==> 0 <= t.sum.value <= MAX_INT64
  }

  // A summary that fits its integers.
  predicate Fits(s: Summary) {
    Within(s.input) && Within(s.output) && Within(s.cached) && Within(s.total)
  }

  predicate Nonnegative(value: Option<int>) {
    value.Some? ==> 0 <= value.value <= MAX_INT64
  }

  // A usage as it is stored: each value a nonnegative 64-bit integer.
  predicate Valid(usage: Option<Tokens>) {
    usage.Some? ==>
      && Nonnegative(usage.value.input) && Nonnegative(usage.value.output)
      && Nonnegative(usage.value.cached) && Nonnegative(usage.value.total)
  }

  // The stored values are 64-bit integers.
  predicate Stored(usage: Option<Tokens>) {
    usage.Some? ==> Bounded(usage.value.input) && Bounded(usage.value.output) && Bounded(usage.value.cached) && Bounded(usage.value.total)
  }

  predicate Bounded(value: Option<int>) {
    value.Some? ==> value.value <= MAX_INT64
  }

  lemma AddMetricIff(t: Tally, value: Option<int>)
    requires Within(t) && Bounded(value)
    ensures AddMetric(t, value).Some? <==> Nonnegative(value) && Within(PlusTally(t, OneTally(value)))
    ensures AddMetric(t, value).Some? ==> AddMetric(t, value).value == PlusTally(t, OneTally(value))
  {
  }

  /** A bounded addition succeeds exactly when the usage is valid and the exact sum fits. */
  lemma AddAttemptIff(s: Summary, usage: Option<Tokens>)
    requires Fits(s) && Stored(usage)
    ensures AddAttempt(s, usage).Some? <==> Valid(usage) && Fits(Plus(s, One(usage)))
    ensures AddAttempt(s, usage).Some? ==> AddAttempt(s, usage).value == Plus(s, One(usage))
  {
    hide AddMetric, Within, Nonnegative, PlusTally, OneTally;
    var t := if usage.Some? then usage.value else Tokens(None, None, None, None);
    assert Nonnegative(None) by { NothingIsNonnegative(); }
    AddMetricIff(s.input, t.input);
    AddMetricIff(s.output, t.output);
    AddMetricIff(s.cached, t.cached);
    AddMetricIff(s.total, t.total);
  }

  lemma NothingIsNonnegative()
    ensures Nonnegative(None)
  {
  }

  // Parts of a summary that fits, fit.
  lemma PartFits(a: Summary, b: Summary)
    requires Fits(Plus(a, b)) && NonnegativeSums(a) && NonnegativeSums(b)
    ensures Fits(a) && Fits(b)
  {
  }

  predicate NonnegativeSums(s: Summary) {
    && (s.input.sum.Some? ==> s.input.sum.value >= 0) && (s.output.sum.Some? ==> s.output.sum.value >= 0)
    && (s.cached.sum.Some? ==> s.cached.sum.value >= 0) && (s.total.sum.Some? ==> s.total.sum.value >= 0)
  }

  predicate AllValid(calls: seq<Call>) {
    forall i | 0 <= i < |calls| :: Valid(calls[i].usage)
  }

  lemma {:induction false} ValidSums(calls: seq<Call>)
    requires AllValid(calls)
    ensures NonnegativeSums(SummaryOf(calls))
    decreases |calls|
  {
    if calls != [] {
      ValidSums(calls[..|calls| - 1]);
    }
  }

  // A bounded sum of a part fits when the whole does.
  lemma {:induction false} PrefixFits(a: seq<Call>, b: seq<Call>)
    requires AllValid(a) && AllValid(b) && Fits(SummaryOf(a + b))
    ensures Fits(SummaryOf(a))
  {
    hide Fits, Plus, NonnegativeSums, AllValid;
    SummaryAppend(a, b);
    ValidSums(a);
    ValidSums(b);
    PartFits(SummaryOf(a), SummaryOf(b));
  }

  // ---------------------------------------------------------------------------------------------
  // Sums over models
  // ---------------------------------------------------------------------------------------------

  predicate NoRepeats(keys: seq<ModelKey>) {
    forall i, j | 0 <= i < j < |keys| :: keys[i] != keys[j]
  }

  function SumOver(keys: seq<ModelKey>, calls: seq<Call>): Summary {
    if keys == [] then EMPTY
    else Plus(SumOver(keys[..|keys| - 1], calls), SummaryOf(Only(calls, keys[|keys| - 1])))
  }

  lemma {:induction false} SumOverNext(keys: seq<ModelKey>, calls: seq<Call>, c: Call)
    requires NoRepeats(keys)
    ensures SumOver(keys, calls + [c]) == if c.key in keys then Plus(SumOver(keys, calls), One(c.usage)) else SumOver(keys, calls)
    decreases |keys|
  {
    hide Plus, One, Only;
    if keys != [] {
      var n := |keys| - 1;
      assert keys == keys[..n] + [keys[n]];
      SumOverNext(keys[..n], calls, c);
      OnlyAppend(calls, c, keys[n]);
      assert Only(calls, keys[n]) + [] == Only(calls, keys[n]);
      SummaryNext(Only(calls, keys[n]), c);
      PlusLaws(SumOver(keys[..n], calls), SummaryOf(Only(calls, keys[n])), One(c.usage));
      PlusLaws(SumOver(keys[..n], calls), One(c.usage), SummaryOf(Only(calls, keys[n])));
      PlusLaws(One(c.usage), SummaryOf(Only(calls, keys[n])), EMPTY);
    }
  }

  lemma {:induction false} SumOverNothing(keys: seq<ModelKey>)
    ensures SumOver(keys, []) == EMPTY
    decreases |keys|
  {
    hide Plus;
    if keys != [] {
      SumOverNothing(keys[..|keys| - 1]);
      assert SummaryOf(Only([], keys[|keys| - 1])) == EMPTY;
      PlusLaws(EMPTY, EMPTY, EMPTY);
    }
  }

  /** The sums per model add up to the sum of all calls. */
  lemma {:induction false} ModelsAddUp(keys: seq<ModelKey>, calls: seq<Call>)
    requires NoRepeats(keys) && forall i | 0 <= i < |calls| :: calls[i].key in keys
    ensures SumOver(keys, calls) == SummaryOf(calls)
    decreases |calls|
  {
    hide Plus, One, NoRepeats, SumOver;
    if calls == [] {
      SumOverNothing(keys);
    } else {
      var n := |calls| - 1;
      assert calls == calls[..n] + [calls[n]];
      ModelsAddUp(keys, calls[..n]);
      SumOverNext(keys, calls[..n], calls[n]);
    }
  }

  // One model's calls are part of all.
  lemma {:induction false} OnlyFits(calls: seq<Call>, key: ModelKey)
    requires AllValid(calls) && Fits(SummaryOf(calls))
    ensures Fits(SummaryOf(Only(calls, key)))
  {
    var others := Except(calls, key);
    SplitSum(calls, key);
    OnlyValid(calls, key);
    hide Plus, Fits, NonnegativeSums, AllValid;
    ValidSums(Only(calls, key));
    ValidSums(others);
    PartFits(SummaryOf(Only(calls, key)), SummaryOf(others));
  }

  function Except(calls: seq<Call>, key: ModelKey): seq<Call> {
    if calls == [] then []
    else
      var c := calls[|calls| - 1];
      Except(calls[..|calls| - 1], key) + if c.key == key then [] else [c]
  }

  lemma {:induction false} OnlyValid(calls: seq<Call>, key: ModelKey)
    requires AllValid(calls)
    ensures AllValid(Only(calls, key)) && AllValid(Except(calls, key))
    decreases |calls|
  {
    hide Valid;
    if calls != [] {
      OnlyValid(calls[..|calls| - 1], key);
    }
  }

  lemma {:induction false} SplitSum(calls: seq<Call>, key: ModelKey)
    ensures SummaryOf(calls) == Plus(SummaryOf(Only(calls, key)), SummaryOf(Except(calls, key)))
    decreases |calls|
  {
    hide Plus, One;
    if calls == [] {
      PlusLaws(EMPTY, EMPTY, EMPTY);
    } else {
      var n := |calls| - 1;
      var c, only, except := calls[n], SummaryOf(Only(calls[..n], key)), SummaryOf(Except(calls[..n], key));
      SplitSum(calls[..n], key);
      if c.key == key {
        SummaryNext(Only(calls[..n], key), c);
        assert Except(calls[..n], key) + [] == Except(calls[..n], key);
        PlusLaws(only, except, One(c.usage));
        PlusLaws(only, One(c.usage), except);
        PlusLaws(except, One(c.usage), EMPTY);
      } else {
        SummaryNext(Except(calls[..n], key), c);
        assert Only(calls[..n], key) + [] == Only(calls[..n], key);
        PlusLaws(only, except, One(c.usage));
      }
    }
  }

  // ---------------------------------------------------------------------------------------------
  // Aggregation
  // ---------------------------------------------------------------------------------------------

  datatype Aggregate = Aggregated(total: Summary, byRun: seq<Summary>, byModel: map<ModelKey, Summary>) | Refused

  // modelKey
  function Resolve(c: Call, fallback: string): Call {
    if c.key.name == "" then c.(key := c.key.(name := fallback)) else c
  }

  function ResolveAll(calls: seq<Call>, fallback: string): seq<Call> {
    if calls == [] then [] else ResolveAll(calls[..|calls| - 1], fallback) + [Resolve(calls[|calls| - 1], fallback)]
  }

  // Calls that were counted but never traced.
  function Untraced(n: int, fallback: string): seq<Call>
    decreases if n > 0 then n else 0
  {
    if n <= 0 then [] else Untraced(n - 1, fallback) + [Call(ModelKey(fallback, "", ""), None)]
  }

  function CallsOf(run: RunTrace, fallback: string): seq<Call> {
    ResolveAll(run.calls, fallback) + Untraced(run.modelCalls - |run.calls|, fallback)
  }

  function AllCalls(runs: seq<RunTrace>, fallback: string): seq<Call> {
    if runs == [] then [] else AllCalls(runs[..|runs| - 1], fallback) + CallsOf(runs[|runs| - 1], fallback)
  }

  // What can be aggregated: no trace exceeds its count, no value is negative, and the sums fit.
  predicate Acceptable(runs: seq<RunTrace>, fallback: string) {
    && (forall i | 0 <= i < |runs| :: |runs[i].calls| <= runs[i].modelCalls)
    && AllValid(AllCalls(runs, fallback)) && Fits(SummaryOf(AllCalls(runs, fallback)))
  }

  ghost predicate Has(calls: seq<Call>, key: ModelKey) {
    exists i | 0 <= i < |calls| :: calls[i].key == key
  }

  // The totals of the calls seen so far.
  ghost predicate Ledger(done: seq<Call>, total: Summary, byModel: map<ModelKey, Summary>) {
    && total == SummaryOf(done) && AllValid(done) && Fits(total)
    && (forall key :: key in byModel <==> Has(done, key))
    && (forall key | key in byModel :: byModel[key] == SummaryOf(Only(done, key)))
  }

  lemma {:induction false} HasNext(done: seq<Call>, c: Call, key: ModelKey)
    ensures Has(done + [c], key) <==> Has(done, key) || c.key == key
  {
    var more := done + [c];
    assert more[|done|] == c;
    if Has(done, key) {
      var i :| 0 <= i < |done| && done[i].key == key;
      assert more[i] == done[i];
    }
  }

  lemma {:induction false} NothingOnly(calls: seq<Call>, key: ModelKey)
    requires !Has(calls, key)
    ensures Only(calls, key) == []
    decreases |calls|
  {
    if calls != [] {
      var n := |calls| - 1;
      assert calls[n].key != key;
      assert forall i | 0 <= i < n :: calls[..n][i] == calls[i];
      NothingOnly(calls[..n], key);
    }
  }

  lemma {:induction false} LedgerNext(done: seq<Call>, total: Summary, byModel: map<ModelKey, Summary>, c: Call)
    requires Ledger(done, total, byModel) && Valid(c.usage) && Fits(Plus(total, One(c.usage)))
    ensures var model := if c.key in byModel then byModel[c.key] else EMPTY;
      && Fits(model) && Fits(Plus(model, One(c.usage)))
      && Ledger(done + [c], Plus(total, One(c.usage)), byModel[c.key := Plus(model, One(c.usage))])
  {
    hide Plus, One, Fits, Valid, Only;
    var model := if c.key in byModel then byModel[c.key] else EMPTY;
    var more, next := done + [c], byModel[c.key := Plus(model, One(c.usage))];
    SummaryNext(done, c);
    assert AllValid(more);
    if c.key !in byModel {
      NothingOnly(done, c.key);
    }
    assert model == SummaryOf(Only(done, c.key));
    forall key ensures key in next <==> Has(more, key) {
      HasNext(done, c, key);
    }
    forall key | key in next ensures next[key] == SummaryOf(Only(more, key)) {
      OnlyAppend(done, c, key);
      assert Only(done, key) + [] == Only(done, key);
      SummaryNext(Only(done, key), c);
    }
    hide AllValid;
    OnlyFits(done, c.key);
    OnlyFits(more, c.key);
    OnlyAppend(done, c, c.key);
    SummaryNext(Only(done, c.key), c);
  }

  /** One call is added three times; once the Session's total accepts it, the other two cannot fail. */
  method AddCall(total: Summary, run: Summary, byModel: map<ModelKey, Summary>, c: Call, ghost before: seq<Call>, ghost mine: seq<Call>)
    returns (ok: bool, total': Summary, run': Summary, byModel': map<ModelKey, Summary>)
    requires Ledger(before + mine, total, byModel) && run == SummaryOf(mine) && Stored(c.usage)
    ensures ok <==> Valid(c.usage) && Fits(SummaryOf(before + mine + [c]))
    ensures ok ==> Ledger(before + mine + [c], total', byModel') && run' == SummaryOf(mine + [c])
  {
    hide Plus, One, AddAttempt, Fits, Valid, Stored, AllValid, Only, Has;
    total', run', byModel' := total, run, byModel;
    SummaryNext(before + mine, c);
    assert Fits(total);
    AddAttemptIff(total, c.usage);
    var session := AddAttempt(total, c.usage);
    if session.None? {
      return false, total', run', byModel';
    }
    LedgerNext(before + mine, total, byModel, c);
    var model := if c.key in byModel then byModel[c.key] else EMPTY;
    SuffixFits(before, mine);
    assert AllValid(before + mine + [c]);
    assert before + mine + [c] == before + (mine + [c]);
    SuffixFits(before, mine + [c]);
    SummaryNext(mine, c);
    AddAttemptIff(run, c.usage);
    AddAttemptIff(model, c.usage);
    total' := session.value;
    run' := AddAttempt(run, c.usage).value;
    byModel' := byModel[c.key := AddAttempt(model, c.usage).value];
    return true, total', run', byModel';
  }

  lemma {:induction false} SuffixFits(a: seq<Call>, b: seq<Call>)
    requires AllValid(a + b) && Fits(SummaryOf(a + b))
    ensures Fits(SummaryOf(b))
  {
    hide Fits, Plus, NonnegativeSums, Valid;
    assert AllValid(a) by { assert forall i | 0 <= i < |a| :: (a + b)[i] == a[i]; }
    assert AllValid(b) by { assert forall i | 0 <= i < |b| :: (a + b)[|a| + i] == b[i]; }
    hide AllValid;
    SummaryAppend(a, b);
    ValidSums(a);
    ValidSums(b);
    PartFits(SummaryOf(a), SummaryOf(b));
  }

  // A prefix that cannot be summed rules out the whole.
  lemma {:induction false} RefusedPrefix(all: seq<Call>, p: seq<Call>)
    requires p <= all && AllValid(all) && Fits(SummaryOf(all))
    ensures AllValid(p) && Fits(SummaryOf(p))
  {
    hide Fits, Valid;
    var rest := all[|p|..];
    assert all == p + rest;
    assert AllValid(rest) by { assert forall i | 0 <= i < |rest| :: rest[i] == all[|p| + i]; }
    hide AllValid;
    assert AllValid(p) by { PrefixValid(all, p); }
    PrefixFits(p, rest);
  }

  lemma {:induction false} PrefixValid(all: seq<Call>, p: seq<Call>)
    requires p <= all && AllValid(all)
    ensures AllValid(p)
  {
  }

  lemma {:induction false} ResolveNext(calls: seq<Call>, i: nat, fallback: string)
    requires i < |calls|
    ensures ResolveAll(calls[..i + 1], fallback) == ResolveAll(calls[..i], fallback) + [Resolve(calls[i], fallback)]
  {
    assert calls[..i + 1][..i] == calls[..i];
  }

  lemma {:induction false} AllCallsNext(runs: seq<RunTrace>, i: nat, fallback: string)
    requires i < |runs|
    ensures AllCalls(runs[..i + 1], fallback) == AllCalls(runs[..i], fallback) + CallsOf(runs[i], fallback)
  {
    assert runs[..i + 1][..i] == runs[..i];
  }

  lemma {:induction false} AllCallsPrefix(runs: seq<RunTrace>, i: nat, fallback: string)
    requires i <= |runs|
    ensures AllCalls(runs[..i], fallback) <= AllCalls(runs, fallback)
    decreases |runs| - i
  {
    if i < |runs| {
      AllCallsNext(runs, i, fallback);
      AllCallsPrefix(runs, i + 1, fallback);
    } else {
      assert runs[..i] == runs;
    }
  }

  // What can be summed.
  predicate Summable(calls: seq<Call>) {
    AllValid(calls) && Fits(SummaryOf(calls))
  }

  lemma {:induction false} SummablePrefix(all: seq<Call>, p: seq<Call>)
    requires p <= all && Summable(all)
    ensures Summable(p)
  {
    hide AllValid, Fits;
    RefusedPrefix(all, p);
  }

  lemma {:induction false} SummableLast(calls: seq<Call>, c: Call)
    requires Summable(calls + [c])
    ensures Valid(c.usage) && Fits(SummaryOf(calls + [c]))
  {
    assert (calls + [c])[|calls|] == c;
  }

  // The traced calls of one Run.
  method AddTraced(total: Summary, byModel: map<ModelKey, Summary>, run: RunTrace, fallback: string, ghost before: seq<Call>)
    returns (ok: bool, total': Summary, summary: Summary, byModel': map<ModelKey, Summary>, ghost failed: nat)
    requires Ledger(before, total, byModel) && forall i | 0 <= i < |run.calls| :: Stored(run.calls[i].usage)
    ensures ok ==> Ledger(before + ResolveAll(run.calls, fallback), total', byModel') && summary == SummaryOf(ResolveAll(run.calls, fallback))
    ensures !ok ==> failed < |run.calls| && !Summable(before + ResolveAll(run.calls[..failed + 1], fallback))
  {
    hide Ledger, SummaryOf, Valid, Fits, Stored, ResolveAll, Summable;
    total', summary, byModel', ok, failed := total, EMPTY, byModel, true, 0;
    NoCalls(run.calls, fallback);
    assert before + [] == before;
    for i := 0 to |run.calls|
      invariant Ledger(before + ResolveAll(run.calls[..i], fallback), total', byModel') && ok
      invariant summary == SummaryOf(ResolveAll(run.calls[..i], fallback))
    {
      var c := Resolve(run.calls[i], fallback);
      ghost var mine := ResolveAll(run.calls[..i], fallback);
      ResolveNext(run.calls, i, fallback);
      ok, total', summary, byModel' := AddCall(total', summary, byModel', c, before, mine);
      assert before + mine + [c] == before + ResolveAll(run.calls[..i + 1], fallback);
      if !ok {
        failed := i;
        LastRefused(before + mine, c);
        return;
      }
    }
    assert run.calls[..|run.calls|] == run.calls;
  }

  lemma {:induction false} LastRefused(calls: seq<Call>, c: Call)
    requires !(Valid(c.usage) && Fits(SummaryOf(calls + [c])))
    ensures !Summable(calls + [c])
  {
    if Summable(calls + [c]) {
      SummableLast(calls, c);
    }
  }

  lemma {:induction false} NoCalls(calls: seq<Call>, fallback: string)
    ensures ResolveAll(calls[..0], fallback) == [] && SummaryOf([]) == EMPTY && Untraced(0, fallback) == []
  {
  }

  // The calls a Run counted without tracing them: never a failure.
  method AddUntraced(total: Summary, summary: Summary, byModel: map<ModelKey, Summary>, n: nat, fallback: string, ghost before: seq<Call>, ghost mine: seq<Call>)
    returns (total': Summary, summary': Summary, byModel': map<ModelKey, Summary>)
    requires Ledger(before + mine, total, byModel) && summary == SummaryOf(mine)
    ensures Ledger(before + (mine + Untraced(n, fallback)), total', byModel') && summary' == SummaryOf(mine + Untraced(n, fallback))
  {
    hide Ledger, SummaryOf;
    total', summary', byModel' := total, summary, byModel;
    assert mine + Untraced(0, fallback) == mine;
    for i := 0 to n
      invariant Ledger(before + (mine + Untraced(i, fallback)), total', byModel') && summary' == SummaryOf(mine + Untraced(i, fallback))
    {
      var c := Call(ModelKey(fallback, "", ""), None);
      ghost var now := mine + Untraced(i, fallback);
      UnknownFits(before + now, total', byModel', c);
      var _, t, s, b := AddCall(total', summary', byModel', c, before, now);
      total', summary', byModel' := t, s, b;
      assert Untraced(i + 1, fallback) == Untraced(i, fallback) + [c];
      assert mine + Untraced(i + 1, fallback) == now + [c];
      assert before + now + [c] == before + (now + [c]);
    }
  }

  lemma {:induction false} UnknownFits(done: seq<Call>, total: Summary, byModel: map<ModelKey, Summary>, c: Call)
    requires Ledger(done, total, byModel) && c.usage.None?
    ensures Valid(c.usage) && Stored(c.usage) && Fits(SummaryOf(done + [c]))
  {
    SummaryNext(done, c);
  }

  // One Run, traced and untraced calls.
  method AddRun(total: Summary, byModel: map<ModelKey, Summary>, run: RunTrace, fallback: string, ghost before: seq<Call>)
    returns (ok: bool, total': Summary, summary: Summary, byModel': map<ModelKey, Summary>)
    requires Ledger(before, total, byModel) && forall i | 0 <= i < |run.calls| :: Stored(run.calls[i].usage)
    ensures ok <==> |run.calls| <= run.modelCalls && Summable(before + CallsOf(run, fallback))
    ensures ok ==> Ledger(before + CallsOf(run, fallback), total', byModel') && summary == SummaryOf(CallsOf(run, fallback))
  {
    hide Ledger, SummaryOf, Stored, ResolveAll, Summable, Untraced;
    ghost var failed;
    ok, total', summary, byModel', failed := AddTraced(total, byModel, run, fallback, before);
    if !ok {
      TracedPrefix(run, failed, fallback);
      NotSummable(before + CallsOf(run, fallback), before + ResolveAll(run.calls[..failed + 1], fallback));
      return;
    }
    if |run.calls| > run.modelCalls {
      ok := false;
      return;
    }
    total', summary, byModel' := AddUntraced(total', summary, byModel', run.modelCalls - |run.calls|, fallback, before, ResolveAll(run.calls, fallback));
    LedgerSums(before + CallsOf(run, fallback), total', byModel');
  }

  lemma {:induction false} LedgerSums(done: seq<Call>, total: Summary, byModel: map<ModelKey, Summary>)
    requires Ledger(done, total, byModel)
    ensures Summable(done)
  {
  }

  lemma {:induction false} NotSummable(all: seq<Call>, p: seq<Call>)
    requires p <= all && !Summable(p)
    ensures !Summable(all)
  {
    hide Summable;
    if Summable(all) {
      SummablePrefix(all, p);
    }
  }

  /**
    aggregateUsage: succeeds exactly when no trace exceeds its count, no value is negative and the
    Session's totals fit; the totals are then the exact sums, per Session, per Run and per model.
   */
  method AggregateUsage(runs: seq<RunTrace>, fallback: string) returns (r: Aggregate)
    requires forall i, j | 0 <= i < |runs| && 0 <= j < |runs[i].calls| :: Stored(runs[i].calls[j].usage)
    ensures r.Aggregated? <==> Acceptable(runs, fallback)
    ensures r.Aggregated? ==> r.total == SummaryOf(AllCalls(runs, fallback)) && |r.byRun| == |runs|
    ensures r.Aggregated? ==> forall i | 0 <= i < |runs| :: r.byRun[i] == SummaryOf(CallsOf(runs[i], fallback))
    ensures r.Aggregated? ==> forall key :: key in r.byModel <==> Has(AllCalls(runs, fallback), key)
    ensures r.Aggregated? ==> forall key | key in r.byModel :: r.byModel[key] == SummaryOf(Only(AllCalls(runs, fallback), key))
  {
    hide Stored, Has, SummaryOf, Only, AllValid, Fits, CallsOf;
    var total, byRun, byModel := EMPTY, [], map[];
    assert Ledger([], total, byModel) by { EmptyLedger(); }
    for i := 0 to |runs|
      invariant |byRun| == i && Ledger(AllCalls(runs[..i], fallback), total, byModel)
      invariant forall j | 0 <= j < i :: byRun[j] == SummaryOf(CallsOf(runs[j], fallback)) && |runs[j].calls| <= runs[j].modelCalls
    {
      hide Ledger, AllCalls;
      AllCallsNext(runs, i, fallback);
      var ok, t, summary, b := AddRun(total, byModel, runs[i], fallback, AllCalls(runs[..i], fallback));
      if !ok {
        if |runs[i].calls| <= runs[i].modelCalls {
          AllCallsPrefix(runs, i + 1, fallback);
          NotSummable(AllCalls(runs, fallback), AllCalls(runs[..i + 1], fallback));
        }
        return Refused;
      }
      total, byModel := t, b;
      byRun := byRun + [summary];
    }
    assert runs[..|runs|] == runs;
    return Aggregated(total, byRun, byModel);
  }

  lemma {:induction false} EmptyLedger()
    ensures Ledger([], EMPTY, map[])
  {
  }

  lemma {:induction false} TracedPrefix(run: RunTrace, i: nat, fallback: string)
    requires i < |run.calls|
    ensures ResolveAll(run.calls[..i + 1], fallback) <= CallsOf(run, fallback)
  {
    ResolvePrefix(run.calls, i + 1, fallback);
  }

  lemma {:induction false} ResolvePrefix(calls: seq<Call>, i: nat, fallback: string)
    requires i <= |calls|
    ensures ResolveAll(calls[..i], fallback) <= ResolveAll(calls, fallback)
    decreases |calls| - i
  {
    if i < |calls| {
      ResolveNext(calls, i, fallback);
      ResolvePrefix(calls, i + 1, fallback);
    } else {
      assert calls[..i] == calls;
    }
  }

  // ---------------------------------------------------------------------------------------------
  // Conservation
  // ---------------------------------------------------------------------------------------------

  function SumRuns(runs: seq<RunTrace>, fallback: string): Summary {
    if runs == [] then EMPTY else Plus(SumRuns(runs[..|runs| - 1], fallback), SummaryOf(CallsOf(runs[|runs| - 1], fallback)))
  }

  /** The sums per Run add up to the Session's. */
  lemma {:induction false} RunsAddUp(runs: seq<RunTrace>, fallback: string)
    ensures SumRuns(runs, fallback) == SummaryOf(AllCalls(runs, fallback))
    decreases |runs|
  {
    hide Plus, CallsOf;
    if runs == [] {
      assert SummaryOf([]) == EMPTY;
    } else {
      RunsAddUp(runs[..|runs| - 1], fallback);
      SummaryAppend(AllCalls(runs[..|runs| - 1], fallback), CallsOf(runs[|runs| - 1], fallback));
    }
  }

  // How many calls reported a metric.
  function Reported(calls: seq<Call>, metric: Tokens -> Option<int>): nat {
    if calls == [] then 0
    else
      var u := calls[|calls| - 1].usage;
      Reported(calls[..|calls| - 1], metric) + if u.Some? && metric(u.value).Some? then 1 else 0
  }

  // The sum of the values reported for a metric.
  function Added(calls: seq<Call>, metric: Tokens -> Option<int>): int {
    if calls == [] then 0
    else
      var u := calls[|calls| - 1].usage;
      Added(calls[..|calls| - 1], metric) + if u.Some? && metric(u.value).Some? then metric(u.value).value else 0
  }

  // A tally of a metric: how many calls did not report it, and the sum of those that did.
  ghost predicate Tallies(t: Tally, calls: seq<Call>, metric: Tokens -> Option<int>) {
    && Reported(calls, metric) + t.unknown == |calls|
    && t.sum == if Reported(calls, metric) > 0 then Some(Added(calls, metric)) else None
  }

  lemma {:induction false} TallyNext(t: Tally, calls: seq<Call>, metric: Tokens -> Option<int>)
    requires calls != [] && Tallies(t, calls[..|calls| - 1], metric)
    ensures var u := calls[|calls| - 1].usage;
      Tallies(PlusTally(t, OneTally(if u.Some? then metric(u.value) else None)), calls, metric)
  {
    var front := calls[..|calls| - 1];
    NoneAdded(front, metric);
  }

  lemma {:induction false} NoneAdded(calls: seq<Call>, metric: Tokens -> Option<int>)
    ensures Reported(calls, metric) == 0 ==> Added(calls, metric) == 0
    decreases |calls|
  {
    if calls != [] {
      NoneAdded(calls[..|calls| - 1], metric);
    }
  }

  /** For every metric, reported and unknown calls add up to the calls, and the total is the sum of what was reported, if anything was. */
  lemma {:induction false} KnownAndUnknown(calls: seq<Call>)
    ensures var s := SummaryOf(calls);
      && s.calls == |calls|
      && Tallies(s.input, calls, (t: Tokens) => t.input) && Tallies(s.output, calls, (t: Tokens) => t.output)
      && Tallies(s.cached, calls, (t: Tokens) => t.cached) && Tallies(s.total, calls, (t: Tokens) => t.total)
    decreases |calls|
  {
    hide Tallies;
    if calls == [] {
      assert forall metric :: Tallies(NONE, [], metric) by { NothingTallied(); }
    } else {
      var front := calls[..|calls| - 1];
      KnownAndUnknown(front);
      var s := SummaryOf(front);
      TallyNext(s.input, calls, (t: Tokens) => t.input);
      TallyNext(s.output, calls, (t: Tokens) => t.output);
      TallyNext(s.cached, calls, (t: Tokens) => t.cached);
      TallyNext(s.total, calls, (t: Tokens) => t.total);
    }
  }

  lemma {:induction false} NothingTallied()
    ensures forall metric :: Tallies(NONE, [], metric)
  {
  }

  /** The calls of a Run: the traced ones in order, under the Session's model where none was recorded, then one without usage for each that is missing. */
  lemma {:induction false} CallsAre(run: RunTrace, fallback: string, i: nat)
    ensures var calls := CallsOf(run, fallback);
      && |calls| == (if |run.calls| < run.modelCalls then run.modelCalls else |run.calls|)
      && (i < |run.calls| ==>
            && calls[i].usage == run.calls[i].usage && calls[i].key.provider == run.calls[i].key.provider && calls[i].key.model == run.calls[i].key.model
            && calls[i].key.name == if run.calls[i].key.name == "" then fallback else run.calls[i].key.name)
      && (|run.calls| <= i < |calls| ==> calls[i] == Call(ModelKey(fallback, "", ""), None))
  {
    ResolvedAre(run.calls, fallback);
    UntracedAre(run.modelCalls - |run.calls|, fallback);
  }

  lemma {:induction false} ResolvedAre(calls: seq<Call>, fallback: string)
    ensures |ResolveAll(calls, fallback)| == |calls| && forall i | 0 <= i < |calls| :: ResolveAll(calls, fallback)[i] == Resolve(calls[i], fallback)
    decreases |calls|
  {
    if calls != [] {
      ResolvedAre(calls[..|calls| - 1], fallback);
    }
  }

  lemma {:induction false} UntracedAre(n: int, fallback: string)
    ensures |Untraced(n, fallback)| == (if n > 0 then n else 0)
    ensures forall i | 0 <= i < |Untraced(n, fallback)| :: Untraced(n, fallback)[i] == Call(ModelKey(fallback, "", ""), None)
    decreases if n > 0 then n else 0
  {
    if n > 0 {
      UntracedAre(n - 1, fallback);
    }
  }
}
