/**
  The message protocol (every tool call is answered, in order, right after the message that made it)
  and the repair of a conversation that a crash cut short.
 */
module Completion {
  import opened Prelude
  import opened Messages

  // The result given to a call whose outcome was lost; the text tells the model to check before acting.
  const UNKNOWN := Failure("RUN_INTERRUPTED", "interrupted", Some("unknown"), 0)

  // ---------------------------------------------------------------------------------------------
  // The protocol
  // ---------------------------------------------------------------------------------------------

  // The first results answer the first calls, in order.
  predicate Answers(calls: seq<Call>, results: seq<Message>) {
    && |results| <= |calls|
    && (forall i | 0 <= i < |results| :: results[i].ToolResult? && results[i].id == calls[i].id)
  }

  predicate Protocol(ms: seq<Message>)
    decreases |ms|
  {
    if ms == [] then true
    else
      var calls, tail := CallsOf(ms[0]), ms[1..];
      && !ms[0].ToolResult? && |calls| <= |tail|
      && Answers(calls, tail[..|calls|]) && Protocol(tail[|calls|..])
  }

  // The protocol of a conversation still being written: the last calls may lack their results.
  predicate Partial(ms: seq<Message>)
    decreases |ms|
  {
    if ms == [] then true
    else
      var calls, tail := CallsOf(ms[0]), ms[1..];
      && !ms[0].ToolResult?
      && if |calls| <= |tail| then Answers(calls, tail[..|calls|]) && Partial(tail[|calls|..])
         else Answers(calls, tail)
  }

  // A message with the results of all its calls, in front of a conversation.
  lemma {:induction false} BlockProtocol(m: Message, results: seq<Message>, rest: seq<Message>)
    requires !m.ToolResult? && Answers(CallsOf(m), results) && |results| == |CallsOf(m)|
    ensures Protocol([m] + results + rest) <==> Protocol(rest)
    ensures Partial([m] + results + rest) <==> Partial(rest)
  {
    hide Answers;
    var ms := [m] + results + rest;
    var tail := ms[1..];
    assert tail == results + rest;
    assert tail[..|results|] == results && tail[|results|..] == rest;
  }

  lemma {:induction false} ProtocolBlock(ms: seq<Message>)
    requires ms != [] && Protocol(ms)
    ensures var calls, tail := CallsOf(ms[0]), ms[1..];
      && !ms[0].ToolResult? && |calls| <= |tail|
      && ms == [ms[0]] + tail[..|calls|] + tail[|calls|..]
      && Answers(calls, tail[..|calls|]) && Protocol(tail[|calls|..])
  {
    hide Answers;
  }

  // Moving the brackets, and adding to both sides of a prefix.
  lemma {:induction false} Regroup(m: Message, results: seq<Message>, rest: seq<Message>, b: seq<Message>)
    ensures [m] + results + rest + b == [m] + results + (rest + b)
  {
  }

  lemma {:induction false} PrefixAfter(first: seq<Message>, rest: seq<Message>, more: seq<Message>)
    requires rest <= more
    ensures first + rest <= first + more
  {
  }

  lemma {:induction false} ProtocolAppend(a: seq<Message>, b: seq<Message>)
    requires Protocol(a)
    ensures Protocol(a + b) <==> Protocol(b)
    ensures Partial(a + b) <==> Partial(b)
    decreases |a|
  {
    if a == [] {
      assert a + b == b;
    } else {
      ProtocolBlock(a);
      hide Protocol, Partial, Answers;
      var n, tail := |CallsOf(a[0])|, a[1..];
      var results, rest := tail[..n], tail[n..];
      ProtocolAppend(rest, b);
      BlockProtocol(a[0], results, rest + b);
      Regroup(a[0], results, rest, b);
    }
  }

  lemma {:induction false} OneMessage(m: Message)
    requires !m.ToolResult? && CallsOf(m) == []
    ensures Protocol([m])
  {
    BlockProtocol(m, [], []);
    assert [m] + [] + [] == [m];
  }

  // The last calls with their first results.
  lemma {:induction false} OpenBlock(m: Message, results: seq<Message>)
    requires m.Assistant? && m.calls != [] && Answers(m.calls, results)
    ensures Partial([m] + results) && (|results| == |m.calls| ==> Protocol([m] + results))
  {
    var ms := [m] + results;
    assert ms[1..] == results;
    if |results| == |m.calls| {
      BlockProtocol(m, results, []);
      assert ms + [] == ms;
    }
  }

  // ---------------------------------------------------------------------------------------------
  // Completion
  // ---------------------------------------------------------------------------------------------

  predicate AllResults(ms: seq<Message>) {
    forall i | 0 <= i < |ms| :: ms[i].ToolResult?
  }

  predicate StartsFresh(ms: seq<Message>) {
    ms == [] || !ms[0].ToolResult?
  }

  // The number of tool results a conversation starts with.
  function Leading(ms: seq<Message>): (n: nat)
    ensures n <= |ms|
  {
    if ms != [] && ms[0].ToolResult? then 1 + Leading(ms[1..]) else 0
  }

  lemma {:induction false} LeadingResults(ms: seq<Message>)
    ensures AllResults(ms[..Leading(ms)]) && StartsFresh(ms[Leading(ms)..])
    decreases |ms|
  {
    if ms != [] && ms[0].ToolResult? {
      var n := Leading(ms[1..]);
      LeadingResults(ms[1..]);
      assert ms[..n + 1] == [ms[0]] + ms[1..][..n];
      assert ms[n + 1..] == ms[1..][n..];
    }
  }

  lemma {:induction false} LeadingAppend(results: seq<Message>, rest: seq<Message>)
    requires AllResults(results) && StartsFresh(rest)
    ensures Leading(results + rest) == |results|
    decreases |results|
  {
    if results == [] {
      assert results + rest == rest;
    } else {
      assert (results + rest)[1..] == results[1..] + rest;
      assert AllResults(results[1..]);
      LeadingAppend(results[1..], rest);
    }
  }

  // The results right after the first message, and what follows them.
  function Block(ms: seq<Message>): seq<Message>
    requires ms != []
  {
    ms[1..][..Leading(ms[1..])]
  }

  function Rest(ms: seq<Message>): seq<Message>
    requires ms != []
  {
    ms[1..][Leading(ms[1..])..]
  }

  lemma {:induction false} Split(ms: seq<Message>)
    requires ms != []
    ensures ms == [ms[0]] + Block(ms) + Rest(ms) && AllResults(Block(ms)) && StartsFresh(Rest(ms))
  {
    LeadingResults(ms[1..]);
  }

  lemma {:induction false} SplitIs(m: Message, results: seq<Message>, rest: seq<Message>)
    requires AllResults(results) && StartsFresh(rest)
    ensures var ms := [m] + results + rest; ms[0] == m && Block(ms) == results && Rest(ms) == rest
  {
    var ms := [m] + results + rest;
    assert ms[1..] == results + rest;
    LeadingAppend(results, rest);
  }

  predicate Answered(results: seq<Message>, id: string) {
    exists i | 0 <= i < |results| :: results[i].ToolResult? && results[i].id == id
  }

  // An explicit unknown for each call without a result.
  function Missing(calls: seq<Call>, results: seq<Message>): seq<Message> {
    if calls == [] then []
    else
      var n := |calls| - 1;
      Missing(calls[..n], results) + if Answered(results, calls[n].id) then [] else [ToolResult(calls[n].id, UNKNOWN)]
  }

  lemma {:induction false} MissingResults(calls: seq<Call>, results: seq<Message>)
    ensures AllResults(Missing(calls, results))
    ensures forall m | m in Missing(calls, results) :: m.ToolResult? && m.content == UNKNOWN && !Answered(results, m.id)
    decreases |calls|
  {
    if calls != [] {
      MissingResults(calls[..|calls| - 1], results);
    }
  }

  function Complete(ms: seq<Message>): seq<Message>
    decreases |ms|
  {
    if ms == [] then []
    else if CallsOf(ms[0]) == [] then [ms[0]] + Complete(ms[1..])
    else [ms[0]] + Block(ms) + Missing(CallsOf(ms[0]), Block(ms)) + Complete(Rest(ms))
  }

  lemma {:induction false} TakeNext(ms: seq<Message>, k: nat)
    requires k < |ms|
    ensures ms[..k + 1] == ms[..k] + [ms[k]] && ms[k..][1..] == ms[k + 1..] && ms[k..][0] == ms[k]
  {
  }

  lemma {:induction false} TakeBoth(before: seq<Message>, m: Message, results: seq<Message>, missing: seq<Message>, rest: seq<Message>)
    ensures before + ([m] + results + missing + rest) == before + [m] + results + missing + rest
    ensures before + ([m] + rest) == before + [m] + rest
  {
  }

  /** completeToolResults: the index loop with its table of answered ids */
  method CompleteToolResults(ms: seq<Message>) returns (completed: seq<Message>)
    ensures completed == Complete(ms)
  {
    hide Complete, Missing, Leading, AllResults, StartsFresh, Answered;
    completed := [];
    var i := 0;
    assert ms[0..] == ms;
    while i < |ms|
      invariant 0 <= i <= |ms| && completed + Complete(ms[i..]) == Complete(ms)
    {
      var m := ms[i];
      ghost var before, rest := completed, ms[i + 1..];
      ghost var n := Leading(rest);
      CompleteStep(ms[i..]);
      TakeNext(ms, i);
      TakeBoth(before, m, [], [], Complete(rest));
      completed := completed + [m];
      i := i + 1;
      if m.Assistant? && m.calls != [] {
        var answered: set<string> := {};
        ghost var k := 0;
        NothingAnswered();
        while i < |ms| && ms[i].ToolResult?
          invariant k <= n && i <= |ms| && rest[k..] == ms[i..]
          invariant completed == before + [m] + rest[..k]
          invariant forall id :: id in answered <==> Answered(rest[..k], id)
        {
          LeadingMore(rest, k);
          TakeNext(ms, i);
          TakeNext(rest, k);
          AnsweredNext(rest[..k], ms[i]);
          completed := completed + [ms[i]];
          answered := answered + {ms[i].id};
          i, k := i + 1, k + 1;
        }
        LeadingDone(rest, k);
        ghost var block := completed;
        MissingNone(rest[..k]);
        for j := 0 to |m.calls|
          invariant completed == block + Missing(m.calls[..j], rest[..k])
        {
          MissingNext(m.calls, j, rest[..k]);
          if m.calls[j].id !in answered {
            completed := completed + [ToolResult(m.calls[j].id, UNKNOWN)];
          }
        }
        assert m.calls[..|m.calls|] == m.calls;
        TakeBoth(before, m, rest[..k], Missing(m.calls, rest[..k]), Complete(ms[i..]));
      }
    }
    CompleteNone(ms);
  }

  lemma {:induction false} NothingAnswered()
    ensures forall id :: !Answered([], id)
  {
  }

  lemma {:induction false} AnsweredNext(results: seq<Message>, m: Message)
    requires m.ToolResult?
    ensures forall id :: Answered(results + [m], id) <==> Answered(results, id) || id == m.id
  {
    var more := results + [m];
    assert more[|results|] == m;
    assert forall i | 0 <= i < |results| :: more[i] == results[i];
    forall id | Answered(results, id) ensures Answered(more, id) {
      var i :| 0 <= i < |results| && results[i].ToolResult? && results[i].id == id;
      assert more[i].id == id;
    }
  }

  lemma {:induction false} CompleteNone(ms: seq<Message>)
    ensures Complete(ms[|ms|..]) == [] && Complete([]) == []
  {
  }

  lemma {:induction false} CompleteStep(ms: seq<Message>)
    requires ms != []
    ensures CallsOf(ms[0]) == [] ==> Complete(ms) == [ms[0]] + Complete(ms[1..])
    ensures CallsOf(ms[0]) != [] ==>
      Complete(ms) == [ms[0]] + Block(ms) + Missing(CallsOf(ms[0]), Block(ms)) + Complete(Rest(ms))
  {
  }

  lemma {:induction false} LeadingMore(ms: seq<Message>, k: nat)
    requires k < |ms| && k <= Leading(ms) && ms[k].ToolResult?
    ensures k < Leading(ms)
  {
    LeadingResults(ms);
    assert Leading(ms) < |ms| ==> ms[Leading(ms)..][0] == ms[Leading(ms)];
  }

  lemma {:induction false} LeadingDone(ms: seq<Message>, k: nat)
    requires k <= |ms| && k <= Leading(ms) && (k < |ms| ==> !ms[k].ToolResult?)
    ensures k == Leading(ms)
  {
    LeadingResults(ms);
    var front := ms[..Leading(ms)];
    assert forall j | 0 <= j < |front| :: front[j] == ms[j];
  }

  lemma {:induction false} MissingNone(results: seq<Message>)
    ensures Missing([], results) == []
  {
  }

  lemma {:induction false} MissingNext(calls: seq<Call>, j: nat, results: seq<Message>)
    requires j < |calls|
    ensures Missing(calls[..0], results) == []
    ensures Missing(calls[..j + 1], results)
         == Missing(calls[..j], results) + if Answered(results, calls[j].id) then [] else [ToolResult(calls[j].id, UNKNOWN)]
  {
    assert calls[..j + 1][..j] == calls[..j];
  }

  // ---------------------------------------------------------------------------------------------
  // What completion gives
  // ---------------------------------------------------------------------------------------------

  // Every call has a result directly after the message that made it.
  ghost predicate AllAnswered(ms: seq<Message>)
    decreases |ms|
  {
    if ms == [] then true
    else
      && (forall i | 0 <= i < |CallsOf(ms[0])| :: Answered(Block(ms), CallsOf(ms[0])[i].id))
      && AllAnswered(ms[1..])
  }

  lemma {:induction false} AnsweredMore(results: seq<Message>, more: seq<Message>, id: string)
    requires Answered(results, id)
    ensures Answered(results + more, id)
  {
    var j :| 0 <= j < |results| && results[j].ToolResult? && results[j].id == id;
    assert (results + more)[j] == results[j];
  }

  lemma {:induction false} MissingAnswers(calls: seq<Call>, results: seq<Message>, i: nat)
    requires i < |calls|
    ensures Answered(results + Missing(calls, results), calls[i].id)
    decreases |calls|
  {
    var n := |calls| - 1;
    var front, missing := Missing(calls[..n], results), Missing(calls, results);
    var last := missing[|front|..];
    if Answered(results, calls[i].id) {
      AnsweredMore(results, missing, calls[i].id);
    } else if i < n {
      MissingAnswers(calls[..n], results, i);
      AnsweredMore(results + front, last, calls[i].id);
      assert results + missing == (results + front) + last;
    } else {
      assert (results + missing)[|results + missing| - 1] == ToolResult(calls[n].id, UNKNOWN);
    }
  }

  // Results before a conversation answer nothing and need no answer.
  lemma {:induction false} SkipResults(results: seq<Message>, rest: seq<Message>)
    requires AllResults(results) && AllAnswered(rest)
    ensures AllAnswered(results + rest)
    decreases |results|
  {
    if results == [] {
      assert results + rest == rest;
    } else {
      assert (results + rest)[1..] == results[1..] + rest;
      SkipResults(results[1..], rest);
    }
  }

  lemma {:induction false} CompleteFresh(ms: seq<Message>)
    requires StartsFresh(ms)
    ensures StartsFresh(Complete(ms))
  {
  }

  // A message, the results of all its calls, and a conversation.
  lemma {:induction false} AnswersBlock(m: Message, block: seq<Message>, rest: seq<Message>)
    requires AllResults(block) && AllAnswered(rest) && StartsFresh(rest)
    requires forall i | 0 <= i < |CallsOf(m)| :: Answered(block, CallsOf(m)[i].id)
    ensures AllAnswered([m] + block + rest)
  {
    hide Answered, Block;
    var ms := [m] + block + rest;
    assert ms[1..] == block + rest;
    SplitIs(m, block, rest);
    SkipResults(block, rest);
  }

  /** After completion every call is answered. */
  lemma {:induction false} CompleteAnswers(ms: seq<Message>)
    ensures AllAnswered(Complete(ms))
    decreases |ms|
  {
    hide Complete, Missing, Answered, Block, Rest, AllResults, StartsFresh, Leading;
    if ms == [] {
      CompleteNone(ms);
    } else {
      CompleteStep(ms);
      if CallsOf(ms[0]) == [] {
        CompleteAnswers(ms[1..]);
        PlainAnswered(ms[0], Complete(ms[1..]));
      } else {
        Split(ms);
        CompleteAnswers(Rest(ms));
        CompletedBlock(ms[0], Block(ms), Complete(Rest(ms))) by { CompleteFresh(Rest(ms)); }
      }
    }
  }

  lemma {:induction false} CompletedBlock(m: Message, results: seq<Message>, rest: seq<Message>)
    requires AllResults(results) && AllAnswered(rest) && StartsFresh(rest)
    ensures AllAnswered([m] + results + Missing(CallsOf(m), results) + rest)
  {
    hide Missing, Answered, AllAnswered;
    var block := results + Missing(CallsOf(m), results);
    MissingResults(CallsOf(m), results);
    forall i | 0 <= i < |CallsOf(m)| ensures Answered(block, CallsOf(m)[i].id) {
      MissingAnswers(CallsOf(m), results, i);
    }
    AnswersBlock(m, block, rest);
    assert [m] + block + rest == [m] + results + Missing(CallsOf(m), results) + rest;
  }

  lemma {:induction false} PlainAnswered(m: Message, rest: seq<Message>)
    requires CallsOf(m) == [] && AllAnswered(rest)
    ensures AllAnswered([m] + rest)
  {
    assert ([m] + rest)[1..] == rest;
  }

  lemma {:induction false} NothingMissing(calls: seq<Call>, results: seq<Message>)
    requires forall i | 0 <= i < |calls| :: Answered(results, calls[i].id)
    ensures Missing(calls, results) == []
    decreases |calls|
  {
    hide Answered;
    if calls != [] {
      NothingMissing(calls[..|calls| - 1], results);
    }
  }

  lemma {:induction false} AnsweredTail(ms: seq<Message>, n: nat)
    requires AllAnswered(ms) && n <= |ms|
    ensures AllAnswered(ms[n..])
    decreases n
  {
    if n == 0 {
      assert ms[0..] == ms;
    } else {
      assert ms[1..][n - 1..] == ms[n..];
      AnsweredTail(ms[1..], n - 1);
    }
  }

  lemma {:induction false} AnsweredRest(ms: seq<Message>)
    requires ms != [] && AllAnswered(ms)
    ensures AllAnswered(Rest(ms)) && |Rest(ms)| < |ms|
    ensures forall i | 0 <= i < |CallsOf(ms[0])| :: Answered(Block(ms), CallsOf(ms[0])[i].id)
  {
    assert Rest(ms) == ms[Leading(ms[1..]) + 1..];
    AnsweredTail(ms, Leading(ms[1..]) + 1);
  }

  /** A conversation whose calls are all answered is left alone, so completion is idempotent. */
  lemma {:induction false} CompleteLeavesAnswered(ms: seq<Message>)
    requires AllAnswered(ms)
    ensures Complete(ms) == ms
    decreases |ms|
  {
    hide AllAnswered, Complete, Missing, Answered, Block, Rest;
    if ms == [] {
      CompleteNone(ms);
    } else {
      CompleteStep(ms);
      if CallsOf(ms[0]) == [] {
        AnsweredTail(ms, 1);
        CompleteLeavesAnswered(ms[1..]);
      } else {
        AnsweredRest(ms);
        CompleteLeavesAnswered(Rest(ms));
        NothingMissing(CallsOf(ms[0]), Block(ms));
        Split(ms);
        var front := [ms[0]] + Block(ms);
        assert front + [] == front;
      }
    }
  }

  lemma {:induction false} CompleteTwice(ms: seq<Message>)
    ensures Complete(Complete(ms)) == Complete(ms)
  {
    CompleteAnswers(ms);
    CompleteLeavesAnswered(Complete(ms));
  }

  // ---------------------------------------------------------------------------------------------
  // A conversation cut short
  // ---------------------------------------------------------------------------------------------

  predicate DistinctIds(calls: seq<Call>) {
    forall i, j | 0 <= i < j < |calls| :: calls[i].id != calls[j].id
  }

  ghost predicate DistinctCalls(ms: seq<Message>) {
    forall i | 0 <= i < |ms| :: DistinctIds(CallsOf(ms[i]))
  }

  function Unknowns(calls: seq<Call>): seq<Message> {
    if calls == [] then [] else Unknowns(calls[..|calls| - 1]) + [ToolResult(calls[|calls| - 1].id, UNKNOWN)]
  }

  lemma {:induction false} UnknownsNext(calls: seq<Call>, i: nat, j: nat)
    requires i <= j < |calls|
    ensures Unknowns(calls[i..j + 1]) == Unknowns(calls[i..j]) + [ToolResult(calls[j].id, UNKNOWN)]
  {
    assert calls[i..j + 1][..j - i] == calls[i..j];
  }

  lemma {:induction false} NotYetAnswered(calls: seq<Call>, results: seq<Message>, m: nat)
    requires DistinctIds(calls) && Answers(calls, results) && m < |calls|
    ensures Answered(results, calls[m].id) <==> m < |results|
  {
    if m < |results| {
      assert results[m].id == calls[m].id;
    } else {
      forall i | 0 <= i < |results| ensures results[i].id != calls[m].id {
        assert calls[i].id != calls[m].id;
      }
    }
  }

  // With the first calls answered, exactly the others are missing.
  lemma {:induction false} MissingRest(calls: seq<Call>, results: seq<Message>, m: nat)
    requires DistinctIds(calls) && Answers(calls, results) && m <= |calls|
    ensures Missing(calls[..m], results) == if m <= |results| then [] else Unknowns(calls[|results|..m])
    decreases m
  {
    hide Answered, DistinctIds, Missing, Unknowns;
    if m == 0 {
      MissingNone(results);
      assert calls[..0] == [];
    } else {
      MissingRest(calls, results, m - 1);
      MissingNext(calls, m - 1, results);
      NotYetAnswered(calls, results, m - 1);
      if m > |results| {
        UnknownsNext(calls, |results|, m - 1);
        assert Unknowns(calls[|results|..|results|]) == [] by { NoUnknowns(calls, |results|); }
      }
    }
  }

  lemma {:induction false} NoUnknowns(calls: seq<Call>, k: nat)
    requires k <= |calls|
    ensures Unknowns(calls[k..k]) == []
  {
  }

  lemma {:induction false} AnswersMore(calls: seq<Call>, results: seq<Message>, m: nat)
    requires Answers(calls, results) && |results| <= m <= |calls|
    ensures Answers(calls, results + Unknowns(calls[|results|..m])) && |results + Unknowns(calls[|results|..m])| == m
    decreases m
  {
    hide Unknowns, Answers;
    if m == |results| {
      NoUnknowns(calls, m);
      assert results + [] == results;
    } else {
      AnswersMore(calls, results, m - 1);
      UnknownsNext(calls, |results|, m - 1);
      AnswersNext(calls, results + Unknowns(calls[|results|..m - 1]), UNKNOWN);
      OneMore(results, Unknowns(calls[|results|..m - 1]), ToolResult(calls[m - 1].id, UNKNOWN));
    }
  }

  lemma {:induction false} OneMore(a: seq<Message>, b: seq<Message>, m: Message)
    ensures a + (b + [m]) == a + b + [m]
  {
  }

  lemma {:induction false} AnswersNext(calls: seq<Call>, results: seq<Message>, r: Result)
    requires Answers(calls, results) && |results| < |calls|
    ensures Answers(calls, results + [ToolResult(calls[|results|].id, r)])
  {
  }

  lemma {:induction false} MissingUnknowns(calls: seq<Call>, results: seq<Message>)
    requires DistinctIds(calls) && Answers(calls, results)
    ensures Missing(calls, results) == Unknowns(calls[|results|..])
    ensures Answers(calls, results + Unknowns(calls[|results|..])) && |results + Unknowns(calls[|results|..])| == |calls|
  {
    hide Missing, Unknowns, DistinctIds, Answers;
    AnswersLength(calls, results);
    assert calls[..|calls|] == calls && calls[|results|..|calls|] == calls[|results|..];
    MissingRest(calls, results, |calls|);
    NoUnknowns(calls, |calls|);
    AnswersMore(calls, results, |calls|);
  }

  lemma {:induction false} AnswersLength(calls: seq<Call>, results: seq<Message>)
    requires Answers(calls, results)
    ensures |results| <= |calls| && AllResults(results)
  {
  }

  /** A block cut after some results completes to those results followed by explicit unknowns. */
  lemma {:induction false} CompleteOpenBlock(m: Message, results: seq<Message>)
    requires m.Assistant? && m.calls != [] && DistinctIds(m.calls) && Answers(m.calls, results)
    ensures Complete([m] + results) == [m] + results + Unknowns(m.calls[|results|..])
    ensures Protocol(Complete([m] + results))
  {
    hide Complete, Missing, Protocol, DistinctIds, Unknowns, Block, Rest, Answers, AllResults;
    var ms := [m] + results;
    AnswersLength(m.calls, results);
    var unknowns := Unknowns(m.calls[|results|..]);
    SplitIs(m, results, []);
    assert [m] + results + [] == ms;
    CompleteStep(ms);
    CompleteNone(ms);
    MissingUnknowns(m.calls, results);
    OpenBlock(m, results + unknowns);
    assert [m] + results + unknowns + [] == [m] + (results + unknowns);
  }

  // A complete block in front of a conversation.
  lemma {:induction false} CompleteBlock(m: Message, results: seq<Message>, rest: seq<Message>)
    requires Answers(CallsOf(m), results) && |results| == |CallsOf(m)| && StartsFresh(rest)
    ensures Complete([m] + results + rest) == [m] + results + Complete(rest)
  {
    hide Complete, Missing, Block, Rest;
    var ms := [m] + results + rest;
    CompleteStep(ms);
    if CallsOf(m) != [] {
      SplitIs(m, results, rest);
      forall i | 0 <= i < |CallsOf(m)| ensures Answered(results, CallsOf(m)[i].id) {
        assert results[i].id == CallsOf(m)[i].id;
      }
      NothingMissing(CallsOf(m), results);
      assert [m] + results + [] == [m] + results;
    } else {
      assert ms[1..] == rest && [m] + results == [m];
    }
  }

  /** Completion leaves complete blocks alone. */
  lemma {:induction false} CompleteAppend(a: seq<Message>, b: seq<Message>)
    requires Protocol(a) && StartsFresh(b)
    ensures Complete(a + b) == a + Complete(b)
    decreases |a|
  {
    hide Complete, Answers;
    if a == [] {
      assert a + b == b;
    } else {
      ProtocolBlock(a);
      var n, tail := |CallsOf(a[0])|, a[1..];
      var results, rest := tail[..n], tail[n..];
      CompleteAppend(rest, b);
      assert StartsFresh(rest + b) by { assert rest == [] ==> rest + b == b; }
      CompleteBlock(a[0], results, rest + b);
      Regroup(a[0], results, rest, b);
      Regroup(a[0], results, rest, Complete(b));
    }
  }

  lemma {:induction false} DistinctTail(ms: seq<Message>, n: nat)
    requires DistinctCalls(ms) && n <= |ms|
    ensures DistinctCalls(ms[n..])
  {
    forall i | 0 <= i < |ms[n..]| ensures DistinctIds(CallsOf(ms[n..][i])) {
      assert ms[n..][i] == ms[n + i];
    }
  }

  lemma {:induction false} FirstBlock(ms: seq<Message>) returns (first: seq<Message>, rest: seq<Message>)
    requires ms != [] && Partial(ms) && DistinctCalls(ms) && |CallsOf(ms[0])| < |ms|
    ensures ms == first + rest && |rest| < |ms| && Protocol(first) && Partial(rest) && StartsFresh(rest) && DistinctCalls(rest)
  {
    var n, tail := |CallsOf(ms[0])|, ms[1..];
    first, rest := [ms[0]] + tail[..n], tail[n..];
    BlockProtocol(ms[0], tail[..n], []);
    assert [ms[0]] + tail[..n] + [] == first;
    DistinctTail(ms, n + 1);
    assert ms[n + 1..] == rest;
  }

  /** A conversation cut short at any point completes to one that follows the protocol and extends it. */
  lemma {:induction false} PartialCompletes(ms: seq<Message>)
    requires Partial(ms) && DistinctCalls(ms)
    ensures Protocol(Complete(ms)) && ms <= Complete(ms)
    decreases |ms|
  {
    hide Complete, Protocol, Partial;
    if ms == [] {
      NothingComplete();
    } else if |CallsOf(ms[0])| < |ms| {
      hide DistinctCalls, StartsFresh;
      var first, rest := FirstBlock(ms);
      PartialCompletes(rest);
      CompleteAppend(first, rest);
      ProtocolAppend(first, Complete(rest));
      PrefixAfter(first, rest, Complete(rest));
    } else {
      assert DistinctIds(CallsOf(ms[0]));
      LastBlock(ms);
    }
  }

  lemma {:induction false} NothingComplete()
    ensures Complete([]) == [] && Protocol([])
  {
  }

  lemma {:induction false} LastBlock(ms: seq<Message>)
    requires ms != [] && Partial(ms) && DistinctIds(CallsOf(ms[0])) && |CallsOf(ms[0])| >= |ms|
    ensures Protocol(Complete(ms)) && ms <= Complete(ms)
  {
    hide Complete, Protocol, Answers, DistinctIds, Unknowns;
    assert ms == [ms[0]] + ms[1..];
    CompleteOpenBlock(ms[0], ms[1..]);
  }
}
