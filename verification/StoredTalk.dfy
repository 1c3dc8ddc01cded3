/**
  A conversation cut short and stored in semantic form still reloads as one that follows the protocol.
 */
module StoredTalk {
  import opened Prelude
  import opened Messages
  import opened Completion
  import opened SemanticStorage
  import opened SemanticLaws
  import opened StoredEvidence

  // A lone step whose result answers its call.
  predicate Matched(x: Item) {
    IsLone(x) && x.result.id == x.call.calls[0].id
  }

  // The steps of a conversation that follows the protocol.
  predicate Stepwise(es: seq<StoredStep>) {
    && (forall i | 0 <= i < |es| :: es[i].item.Lone? ==> Matched(es[i].item))
    && (forall i | 0 <= i < |es| && es[i].key.Some? :: es[i].item.Lone?)
  }

  lemma {:induction false} TailStepwise(es: seq<StoredStep>, n: nat)
    requires Stepwise(es) && n <= |es|
    ensures Stepwise(es[n..])
  {
    forall i | 0 <= i < |es[n..]| ensures es[n..][i].item.Lone? ==> Matched(es[n..][i].item) {
      assert es[n..][i] == es[n + i];
    }
  }

  // A matched step in front of anything is a complete block.
  lemma {:induction false} LoneFirst(e: StoredStep, rest: seq<StoredStep>)
    requires Matched(e.item)
    ensures Partial(Render([e] + rest)) <==> Partial(Render(rest))
  {
    assert ([e] + rest)[1..] == rest;
    assert Render([e] + rest) == Flat(e.item) + Render(rest);
    hide Render, Partial;
    var call, result := e.item.call, e.item.result;
    BlockProtocol(call, [result], Render(rest));
    assert Flat(e.item) + Render(rest) == [call] + [result] + Render(rest);
  }

  // A message without calls.
  lemma {:induction false} PlainFirst(e: StoredStep, rest: seq<StoredStep>)
    requires e.item.Single? && !e.item.message.ToolResult? && CallsOf(e.item.message) == []
    ensures Partial(Render([e] + rest)) <==> Partial(Render(rest))
  {
    assert ([e] + rest)[1..] == rest;
    assert Render([e] + rest) == Flat(e.item) + Render(rest);
    hide Render, Partial;
    BlockProtocol(e.item.message, [], Render(rest));
    assert Flat(e.item) + Render(rest) == [e.item.message] + [] + Render(rest);
  }

  // Loose results, one step each.
  predicate LooseResults(es: seq<StoredStep>) {
    forall i | 0 <= i < |es| :: es[i].item.Single? && es[i].item.message.ToolResult? && es[i].key.None?
  }

  function Loosened(es: seq<StoredStep>): seq<Message>
    requires LooseResults(es)
  {
    seq(|es|, i requires 0 <= i < |es| => es[i].item.message)
  }

  lemma {:induction false} RenderLoose(es: seq<StoredStep>, rest: seq<StoredStep>)
    requires LooseResults(es)
    ensures Render(es + rest) == Loosened(es) + Render(rest)
    decreases |es|
  {
    if es == [] {
      assert es + rest == rest;
    } else {
      assert (es + rest)[1..] == es[1..] + rest;
      RenderLoose(es[1..], rest);
      assert Loosened(es) == [es[0].item.message] + Loosened(es[1..]);
    }
  }

  // Steps without a failure pass through folding.
  lemma {:induction false} FoldPasses(es: seq<StoredStep>, rest: seq<StoredStep>)
    requires forall i | 0 <= i < |es| :: es[i].key.None?
    ensures Fold(es + rest) == es + Fold(rest)
    decreases |es|
  {
    if es == [] {
      assert es + rest == rest;
    } else {
      assert (es + rest)[1..] == es[1..] + rest;
      FoldPasses(es[1..], rest);
      if |es + rest| >= 2 {
        FoldStep(es + rest);
      } else {
        FoldShort(es + rest);
        FoldShort(rest);
      }
      assert es == [es[0]] + es[1..];
    }
  }

  predicate IsLoose(e: StoredStep) {
    e.item.Single? && e.item.message.ToolResult? && e.key.None?
  }

  // The loose results a list of steps starts with, and what follows them.
  function LooseOf(es: seq<StoredStep>): seq<StoredStep> {
    if es != [] && IsLoose(es[0]) then [es[0]] + LooseOf(es[1..]) else []
  }

  function AfterLoose(es: seq<StoredStep>): (rest: seq<StoredStep>)
    ensures |rest| <= |es|
  {
    if es != [] && IsLoose(es[0]) then AfterLoose(es[1..]) else es
  }

  lemma {:induction false} LooseStop(es: seq<StoredStep>)
    requires Stepwise(es) && (es == [] || !IsLoose(es[0]))
    ensures StartsFresh(Render(es))
  {
    if es != [] {
      RenderFirst(es);
    }
  }

  lemma {:induction false} ConsLoose(e: StoredStep, es: seq<StoredStep>)
    requires LooseResults(es) && IsLoose(e)
    ensures LooseResults([e] + es)
  {
  }

  lemma {:induction false} LooseSplit(es: seq<StoredStep>)
    requires Stepwise(es)
    ensures LooseResults(LooseOf(es)) && StartsFresh(Render(AfterLoose(es)))
    ensures es == LooseOf(es) + AfterLoose(es) && Stepwise(AfterLoose(es))
    decreases |es|
  {
    hide Stepwise, LooseResults, StartsFresh, Render, IsLoose;
    if es != [] && IsLoose(es[0]) {
      TailStepwise(es, 1);
      LooseSplit(es[1..]);
      ConsLoose(es[0], LooseOf(es[1..]));
      assert es == [es[0]] + es[1..];
      assert es == LooseOf(es) + AfterLoose(es);
    } else {
      LooseStop(es);
      assert LooseResults([]) by { NoLoose(); }
      assert [] + es == es;
    }
  }

  lemma {:induction false} NoLoose()
    ensures LooseResults([])
  {
  }

  // The calls of a message, the results that follow it, and the rest of the conversation.
  lemma {:induction false} CallsFirst(m: Message, results: seq<Message>, rest: seq<Message>)
    requires m.Assistant? && m.calls != [] && AllResults(results) && StartsFresh(rest)
    ensures Partial([m] + results + rest) <==>
      Answers(m.calls, results) && (if |results| == |m.calls| then Partial(rest) else rest == [])
  {
    var ms := [m] + results + rest;
    assert ms[1..] == results + rest;
    if |results| == |m.calls| {
      assert (results + rest)[..|m.calls|] == results && (results + rest)[|m.calls|..] == rest;
    } else if |m.calls| <= |results + rest| {
      MixedBlock(m.calls, results, rest);
    } else {
      LongBlock(m.calls, results, rest);
    }
  }

  // A block that reaches past its results, or stops before their end, is not answered.
  lemma {:induction false} MixedBlock(calls: seq<Call>, results: seq<Message>, rest: seq<Message>)
    requires |results| != |calls| <= |results + rest| && AllResults(results) && StartsFresh(rest)
    ensures !(Answers(calls, (results + rest)[..|calls|]) && Partial((results + rest)[|calls|..]))
    ensures !(Answers(calls, results) && rest == [])
  {
    var all := results + rest;
    if |results| < |calls| {
      assert all[..|calls|][|results|] == rest[0];
    } else {
      assert all[|calls|..][0] == results[|calls|];
    }
  }

  lemma {:induction false} LongBlock(calls: seq<Call>, results: seq<Message>, rest: seq<Message>)
    requires |results + rest| < |calls| && AllResults(results) && StartsFresh(rest)
    ensures Answers(calls, results + rest) <==> Answers(calls, results) && rest == []
  {
    if rest == [] {
      assert results + rest == results;
    } else {
      assert (results + rest)[|results|] == rest[0];
    }
  }

  /** Folding keeps a conversation that follows the protocol, cut short or not. */
  lemma {:induction false} FoldPartial(es: seq<StoredStep>)
    requires Stepwise(es) && Partial(Render(es))
    ensures Partial(Render(Fold(es)))
    decreases |es|
  {
    if |es| < 2 {
      FoldShort(es);
    } else {
      var e, rest := es[0], es[1..];
      assert es == [e] + rest;
      TailStepwise(es, 1);
      if Foldable(e, es[1]) {
        FoldPartialJoin(es);
      } else if e.item.Lone? {
        hide Partial, Render, Stepwise, Fold;
        assert Matched(e.item) by { FirstMatched(es); }
        FoldStep(es);
        LoneFirst(e, rest);
        FoldPartial(rest);
        LoneFirst(e, Fold(rest));
      } else {
        RenderFirst(es);
        assert !e.item.message.ToolResult?;
        hide Partial, Render, Stepwise, Fold;
        FoldStep(es);
        if CallsOf(e.item.message) == [] {
          PlainFirst(e, rest);
          FoldPartial(rest);
          PlainFirst(e, Fold(rest));
        } else {
          FoldPartialBlock(e, rest);
        }
      }
    }
  }

  lemma {:induction false} FirstMatched(es: seq<StoredStep>)
    requires Stepwise(es) && es != [] && es[0].item.Lone?
    ensures Matched(es[0].item)
  {
  }

  lemma {:induction false} FoldPartialJoin(es: seq<StoredStep>)
    requires |es| >= 2 && Stepwise(es) && Partial(Render(es)) && Foldable(es[0], es[1])
    ensures Partial(Render(Fold(es)))
    decreases |es|, 0
  {
    var a, b, more := es[0], es[1], es[2..];
    assert Matched(a.item) && Matched(b.item) && Matched(Join(a, b).item);
    TailStepwise(es, 2);
    var joined := [Join(a, b)] + more;
    assert Stepwise(joined) by {
      assert forall i | 0 < i < |joined| :: joined[i] == more[i - 1];
      assert Join(a, b).key == a.key;
    }
    FoldStep(es);
    hide Partial, Render, Stepwise, Fold, Join, Matched;
    assert es == [a] + ([b] + more);
    LoneFirst(a, [b] + more);
    LoneFirst(b, more);
    LoneFirst(Join(a, b), more);
    FoldPartial(joined);
  }

  // A message with calls and its loose results.
  lemma {:induction false} FoldPartialBlock(e: StoredStep, rest: seq<StoredStep>)
    requires Stepwise(rest) && e.item.Single? && CallsOf(e.item.message) != [] && Partial(Render([e] + rest))
    ensures Partial(Render([e] + Fold(rest)))
    decreases |rest| + 1, 0
  {
    var m := e.item.message;
    LooseSplit(rest);
    var loose, more := LooseOf(rest), AfterLoose(rest);
    hide Partial, Stepwise, Fold;
    FoldPasses(loose, more);
    BlockRender(e, loose, more);
    BlockRender(e, loose, Fold(more));
    RenderLoose(loose, more);
    CallsFirst(m, Loosened(loose), Render(more));
    FoldFresh(more);
    if Partial(Render(more)) {
      FoldPartial(more);
    }
    if Render(more) == [] {
      NothingLeft(more);
    }
    CallsFirst(m, Loosened(loose), Render(Fold(more)));
  }

  lemma {:induction false} BlockRender(e: StoredStep, loose: seq<StoredStep>, more: seq<StoredStep>)
    requires e.item.Single? && LooseResults(loose)
    ensures Render([e] + (loose + more)) == [e.item.message] + Loosened(loose) + Render(more)
    ensures AllResults(Loosened(loose))
  {
    assert ([e] + (loose + more))[1..] == loose + more;
    RenderLoose(loose, more);
  }

  lemma {:induction false} FoldFresh(es: seq<StoredStep>)
    requires StartsFresh(Render(es))
    ensures StartsFresh(Render(Fold(es)))
  {
    if es == [] {
      FoldShort(es);
    } else {
      RenderFirst(es);
      FoldHead(es);
      RenderFirst(Fold(es));
    }
  }

  lemma {:induction false} NothingLeft(es: seq<StoredStep>)
    requires Render(es) == []
    ensures es == [] && Render(Fold(es)) == [] && Partial([])
  {
    if es != [] {
      RenderFirst(es);
    }
    FoldShort([]);
  }

  // ---------------------------------------------------------------------------------------------
  // From messages to steps
  // ---------------------------------------------------------------------------------------------

  // The stored form of results that are not part of a lone call.
  function LooseEntries(calls: seq<Call>, results: seq<Message>): seq<StoredStep> {
    if results == [] then [] else [Prepare(calls, Single(results[0]))] + LooseEntries(calls, results[1..])
  }

  // Results are parsed one by one.
  lemma {:induction false} ParseResults(calls: seq<Call>, results: seq<Message>, rest: seq<Message>)
    requires AllResults(results)
    ensures PrepareAll(calls, Parse(results + rest)) == LooseEntries(calls, results) + PrepareAll(calls, Parse(rest))
    decreases |results|
  {
    hide Parse, Prepare, PrepareAll;
    if results == [] {
      assert results + rest == rest;
    } else {
      var ms := results + rest;
      assert ms[0] == results[0] && ms[1..] == results[1..] + rest;
      ParseResults(calls, results[1..], rest);
      ParseSingle(ms);
      PrepareCons(calls, Single(ms[0]), Parse(ms[1..]));
    }
  }

  lemma {:induction false} LooseAre(calls: seq<Call>, results: seq<Message>)
    requires AllResults(results)
    ensures var es := LooseEntries(calls, results);
      && |es| == |results| && LooseResults(es) && Stepwise(es)
      && (forall i | 0 <= i < |results| :: es[i].item.message.id == results[i].id)
    decreases |results|
  {
    hide DigestOf;
    if results != [] {
      LooseAre(calls, results[1..]);
      var es, tail := LooseEntries(calls, results), LooseEntries(calls, results[1..]);
      assert forall i | 0 < i < |es| :: es[i] == tail[i - 1] && results[i] == results[1..][i - 1];
    }
  }

  lemma {:induction false} SameAnswers(ids: seq<Call>, a: seq<Message>, b: seq<Message>)
    requires |a| == |b| && AllResults(a) && AllResults(b) && forall i | 0 <= i < |a| :: a[i].id == b[i].id
    ensures Answers(ids, a) <==> Answers(ids, b)
  {
  }

  lemma {:induction false} ConsStepwise(e: StoredStep, rest: seq<StoredStep>)
    requires Stepwise(rest) && (e.item.Lone? ==> Matched(e.item)) && (e.key.Some? ==> e.item.Lone?)
    ensures Stepwise([e] + rest)
  {
    hide Matched;
    var es := [e] + rest;
    assert forall i | 0 < i < |es| :: es[i] == rest[i - 1];
  }

  lemma {:induction false} JoinStepwise(a: seq<StoredStep>, b: seq<StoredStep>)
    requires Stepwise(a) && Stepwise(b)
    ensures Stepwise(a + b)
  {
    hide Matched;
    assert forall i | 0 <= i < |a + b| :: (a + b)[i] == if i < |a| then a[i] else b[i - |a|];
  }

  // The steps of a conversation that follows the protocol, in stored form.
  ghost predicate StoresPartial(calls: seq<Call>, ms: seq<Message>) {
    var es := PrepareAll(calls, Parse(ms));
    Stepwise(es) && Partial(Render(es)) && (StartsFresh(ms) ==> StartsFresh(Render(es)))
  }

  lemma {:induction false} NothingSound(calls: seq<Call>)
    ensures StoresPartial(calls, [])
  {
    assert PrepareAll(calls, Parse([])) == [];
  }

  lemma {:induction false} DroppedSound(calls: seq<Call>, ms: seq<Message>)
    requires Dropped(ms) && StartsFresh(ms[1..]) && StoresPartial(calls, ms[1..])
    ensures StoresPartial(calls, ms)
  {
  }

  lemma {:induction false} LoneSound(calls: seq<Call>, ms: seq<Message>)
    requires StartsLone(ms) && ms[1].id == ms[0].calls[0].id && StoresPartial(calls, ms[2..])
    ensures StoresPartial(calls, ms)
  {
    var x, rest := Lone(ms[0], ms[1]), PrepareAll(calls, Parse(ms[2..]));
    var e := Prepare(calls, x);
    ParseLone(ms);
    PrepareCons(calls, x, Parse(ms[2..]));
    assert Matched(e.item);
    hide Parse, Partial, Render;
    ConsStepwise(e, rest);
    LoneFirst(e, rest);
    RenderFirst([e] + rest);
  }

  lemma {:induction false} PlainSound(calls: seq<Call>, ms: seq<Message>)
    requires ms != [] && !Dropped(ms) && !ms[0].ToolResult? && CallsOf(ms[0]) == [] && StoresPartial(calls, ms[1..])
    ensures StoresPartial(calls, ms)
  {
    var x, rest := Single(ms[0]), PrepareAll(calls, Parse(ms[1..]));
    var e := Prepare(calls, x);
    ParseSingle(ms);
    PrepareCons(calls, x, Parse(ms[1..]));
    assert e.item.Single? && !e.item.message.ToolResult? && CallsOf(e.item.message) == [];
    hide Parse, Partial, Render;
    ConsStepwise(e, rest);
    PlainFirst(e, rest);
    RenderFirst([e] + rest);
  }

  // A message with calls that is not a lone call, with the results that follow it.
  lemma {:induction false} BlockSound(calls: seq<Call>, m: Message, results: seq<Message>, rest: seq<Message>)
    requires m.Assistant? && m.calls != [] && AllResults(results) && StartsFresh(rest)
    requires !StartsLone([m] + results + rest) && Partial([m] + results + rest) && StoresPartial(calls, rest)
    ensures StoresPartial(calls, [m] + results + rest)
  {
    hide Partial, DigestOf;
    CallsFirst(m, results, rest);
    var ms := [m] + results + rest;
    assert ms[1..] == results + rest && ms[0] == m;
    var e := StoredStep(Single(m), None);
    assert Prepare(calls, Single(m)) == e;
    ParseSingle(ms);
    PrepareCons(calls, Single(m), Parse(ms[1..]));
    ParseResults(calls, results, rest);
    var loose, more := LooseEntries(calls, results), PrepareAll(calls, Parse(rest));
    hide Parse;
    LooseAre(calls, results);
    JoinStepwise(loose, more);
    ConsStepwise(e, loose + more);
    BlockRender(e, loose, more);
    SameAnswers(m.calls, Loosened(loose), results);
    if rest == [] {
      assert more == [] by { NothingParsed(calls); }
    }
    hide Stepwise;
    CallsFirst(m, Loosened(loose), Render(more));
  }

  lemma {:induction false} NothingParsed(calls: seq<Call>)
    ensures PrepareAll(calls, Parse([])) == [] && Render([]) == []
  {
  }

  /** A conversation that follows the protocol has steps that do. */
  lemma {:induction false} ParsePartial(calls: seq<Call>, ms: seq<Message>)
    requires Partial(ms)
    ensures StoresPartial(calls, ms)
    decreases |ms|
  {
    if ms == [] {
      NothingSound(calls);
    } else if CallsOf(ms[0]) == [] {
      var tail := ms[1..];
      assert tail[..0] == [] && tail[0..] == tail;
      ParsePartial(calls, tail);
      hide StoresPartial;
      if Dropped(ms) {
        PartialFresh(tail);
        DroppedSound(calls, ms);
      } else {
        PlainSound(calls, ms);
      }
    } else {
      Split(ms);
      hide StoresPartial, Partial, Block, Completion.Rest;
      var m, results, rest := ms[0], Block(ms), Completion.Rest(ms);
      CallsFirst(m, results, rest);
      assert Partial(rest) by { NothingPartial(); }
      ParsePartial(calls, rest);
      if StartsLone(ms) {
        LoneBlock(ms, results, rest);
        LoneSound(calls, ms);
      } else {
        BlockSound(calls, m, results, rest);
      }
    }
  }

  lemma {:induction false} NothingPartial()
    ensures Partial([])
  {
  }

  lemma {:induction false} PartialFresh(ms: seq<Message>)
    requires Partial(ms)
    ensures StartsFresh(ms)
  {
  }

  lemma {:induction false} LoneBlock(ms: seq<Message>, results: seq<Message>, rest: seq<Message>)
    requires StartsLone(ms) && ms == [ms[0]] + results + rest && StartsFresh(rest) && Answers(ms[0].calls, results)
    ensures ms[2..] == rest && ms[1].id == ms[0].calls[0].id
  {
    var all := results + rest;
    assert ms[1..] == all;
    assert results == [] ==> all == rest;
    assert ms[1] == all[0];
  }

  /** Storing a conversation in semantic form keeps the protocol, wherever the conversation was cut. */
  lemma {:induction false} StoredPartial(ms: seq<Message>)
    requires Partial(ms)
    ensures Partial(Semantic(ms))
  {
    ParsePartial(Calls(ms), ms);
    hide Partial, Render, Parse, Fold, Calls;
    FoldPartial(PrepareAll(Calls(ms), Parse(ms)));
  }

  // ---------------------------------------------------------------------------------------------
  // Distinct ids survive
  // ---------------------------------------------------------------------------------------------

  // The messages with calls of a list of steps.
  ghost predicate CallsFrom(es: seq<StoredStep>, ms: seq<Message>) {
    forall m | m in Render(es) && CallsOf(m) != [] :: m in ms
  }

  lemma {:induction false} RenderMembers(es: seq<StoredStep>, m: Message)
    requires es != []
    ensures m in Render(es) <==> m in Flat(es[0].item) || m in Render(es[1..])
  {
  }

  lemma {:induction false} FoldMembers(es: seq<StoredStep>, m: Message)
    requires m in Render(Fold(es)) && CallsOf(m) != []
    ensures m in Render(es)
    decreases |es|
  {
    hide Render, Fold;
    if |es| < 2 {
      FoldShort(es);
    } else {
      var tail, more := es[1..], es[2..];
      assert tail[1..] == more;
      FoldStep(es);
      RenderMembers(es, m);
      RenderMembers(tail, m);
      if Foldable(es[0], es[1]) {
        var joined := [Join(es[0], es[1])] + more;
        assert joined[1..] == more;
        FoldMembers(joined, m);
        RenderMembers(joined, m);
      } else {
        var folded := [es[0]] + Fold(tail);
        assert folded[1..] == Fold(tail);
        RenderMembers(folded, m);
        if m in Render(Fold(tail)) {
          FoldMembers(tail, m);
        }
      }
    }
  }

  lemma {:induction false} ParsedMembers(calls: seq<Call>, ms: seq<Message>, m: Message)
    requires m in Render(PrepareAll(calls, Parse(ms))) && CallsOf(m) != []
    ensures m in ms
    decreases |ms|
  {
    hide Render, DigestOf;
    if ms == [] {
      NothingParsed(calls);
    } else if Dropped(ms) {
      ParsedMembers(calls, ms[1..], m);
    } else {
      var x, rest := Parse(ms)[0], if StartsLone(ms) then ms[2..] else ms[1..];
      PrepareCons(calls, x, Parse(rest));
      var es := PrepareAll(calls, Parse(ms));
      assert es[1..] == PrepareAll(calls, Parse(rest));
      RenderMembers(es, m);
      if m in Render(es[1..]) {
        ParsedMembers(calls, rest, m);
      }
    }
  }

  /** What a restart loads after any cut, from either storage mode, follows the protocol. */
  lemma {:induction false} ReloadsValid(ms: seq<Message>)
    requires Partial(ms) && DistinctCalls(ms)
    ensures Protocol(Complete(ms)) && Protocol(Complete(Semantic(ms)))
    ensures ms <= Complete(ms) && Semantic(ms) <= Complete(Semantic(ms))
  {
    PartialCompletes(ms);
    StoredPartial(ms);
    var stored := Semantic(ms);
    forall i | 0 <= i < |stored| ensures DistinctIds(CallsOf(stored[i])) {
      if CallsOf(stored[i]) != [] {
        FoldMembers(PrepareAll(Calls(ms), Parse(ms)), stored[i]);
        ParsedMembers(Calls(ms), ms, stored[i]);
        var j :| 0 <= j < |ms| && ms[j] == stored[i];
      }
    }
    hide Semantic, Partial, Protocol, Complete;
    PartialCompletes(stored);
  }

  // ---------------------------------------------------------------------------------------------
  // Stored results are honest
  // ---------------------------------------------------------------------------------------------

  function IdOf(x: Item): string
    requires IsLone(x) || (x.Single? && x.message.ToolResult?)
  {
    if x.Single? then x.message.id else x.result.id
  }

  // A stored result is the digest its tool's results get, perhaps counting further failures.
  predicate Digests(name: string, r: Result, stored: Result) {
    Bare(stored) == Bare(DigestOf(name, r)) && Count(stored) >= Count(r)
  }

  predicate Origin(calls: seq<Call>, x: Item, m: Message) {
    && m.ToolResult? && ToolOf(calls, x).Some? && IdOf(x) == m.id
    && Digests(ToolOf(calls, x).value, ContentOf(calls, x), m.content)
    && (x.Single? ==> m.content == DigestOf(ToolOf(calls, x).value, ContentOf(calls, x)))
  }

  // A refusal was one before it was stored.
  lemma {:induction false} DigestDenies(name: string, r: Result, stored: Result)
    requires Digests(name, r, stored) && Denial(stored)
    ensures Denial(r)
  {
  }

  // What folding makes of a step: the same step, perhaps counting further failures.
  predicate Grown(d: StoredStep, e: StoredStep) {
    && (d.item.Single? ==> e.item == d.item)
    && (IsLone(d.item) ==>
          && IsLone(e.item) && e.item.call == d.item.call && e.item.result.id == d.item.result.id
          && Bare(e.item.result.content) == Bare(d.item.result.content)
          && Count(e.item.result.content) >= Count(d.item.result.content))
  }

  predicate Parsed(es: seq<StoredStep>) {
    forall e | e in es :: e.item.Lone? ==> IsLone(e.item)
  }

  lemma {:induction false} JoinGrown(a: StoredStep, b: StoredStep, e: StoredStep)
    requires (a.item.Lone? ==> IsLone(a.item)) && Grown(Join(a, b), e)
    ensures Grown(a, e)
  {
  }

  lemma {:induction false} JoinParsed(es: seq<StoredStep>)
    requires |es| >= 2 && Parsed(es)
    ensures Parsed([Join(es[0], es[1])] + es[2..]) && Parsed(es[1..])
  {
    assert es[0] in es;
    assert IsLone(es[0].item) ==> IsLone(Join(es[0], es[1]).item);
  }

  lemma {:induction false} FoldGrown(es: seq<StoredStep>, e: StoredStep) returns (d: StoredStep)
    requires e in Fold(es) && Parsed(es)
    ensures d in es && Grown(d, e)
    decreases |es|
  {
    hide Join, Grown, Fold;
    if |es| < 2 {
      FoldShort(es);
      assert Grown(e, e) by { SelfGrown(e); }
      return e;
    }
    FoldStep(es);
    JoinParsed(es);
    assert es[0] in es;
    if Foldable(es[0], es[1]) {
      d := FoldGrown([Join(es[0], es[1])] + es[2..], e);
      if d !in es[2..] {
        JoinGrown(es[0], es[1], e);
        d := es[0];
      }
    } else if e == es[0] {
      SelfGrown(e);
      d := e;
    } else {
      d := FoldGrown(es[1..], e);
    }
  }

  lemma {:induction false} SelfGrown(e: StoredStep)
    requires e.item.Lone? ==> IsLone(e.item)
    ensures Grown(e, e)
  {
  }

  lemma {:induction false} RenderedBy(es: seq<StoredStep>, m: Message) returns (e: StoredStep)
    requires m in Render(es)
    ensures e in es && m in Flat(e.item)
    decreases |es|
  {
    if m in Flat(es[0].item) {
      e := es[0];
    } else {
      e := RenderedBy(es[1..], m);
    }
  }

  lemma {:induction false} ParsedLone(ms: seq<Message>, x: Item)
    requires x in Parse(ms)
    ensures (x.Lone? ==> IsLone(x)) && forall m | m in Flat(x) :: m in ms
    decreases |ms|
  {
    if ms != [] {
      var rest := if !Dropped(ms) && StartsLone(ms) then ms[2..] else ms[1..];
      if x in Parse(rest) {
        ParsedLone(rest, x);
      }
    }
  }

  lemma {:induction false} PreparedOrigin(calls: seq<Call>, x: Item, e: StoredStep, m: Message)
    requires (x.Lone? ==> IsLone(x)) && Grown(Prepare(calls, x), e) && m in Flat(e.item) && m.ToolResult?
    ensures Origin(calls, x, m)
  {
    hide NameOf, Truncate, IsMutation;
    if IsLone(x) {
      DigestCount(x.call.calls[0].name, x.result.content);
    } else if x.message.ToolResult? {
      DigestCount(NameOf(calls, x.message.id), x.message.content);
    }
  }

  // The tools whose results are evidence or instructions: they are stored as they are.
  predicate KeptWhole(name: string) {
    name in {"create_event", "delete_event", "place_order", "cancel_order", "close_position", "set_position_stops",
             "post_chat", "memory_save", "memory_edit", "skill_get", ""}
  }

  // What is left of a result in storage; a failure may in addition count the ones folded into it.
  predicate StoredAs(name: string, r: Result, stored: Result) {
    if KeptWhole(name) then Bare(stored) == Bare(r)
    else match r
      case Success(_, evidence) => stored.Digest? && stored.ok && CutAt(evidence, stored.text, 300)
      case Text(raw) => stored.Digest? && !stored.ok && CutAt(raw, stored.text, 300)
      case Failure(code, message, outcome, repeats) =>
        && stored.Failure? && stored.code == code
        && (if repeats == 0 then CutAt(message, stored.message, 300) && stored.outcome.None? else stored.message == message && stored.outcome == outcome)
      case _ => stored == r
  }

  lemma {:induction false} DigestStores(name: string, r: Result, stored: Result)
    requires Digests(name, r, stored)
    ensures StoredAs(name, r, stored)
  {
  }

  /**
    A stored result comes from a step of the conversation with the same id. For a mutation or a skill it
    is that step's result; for any other tool it is a digest of at most 300 characters of what the tool
    gave, or its error with the message cut the same way; an error may count further failures. It never
    turns into a refusal.
   */
  lemma {:induction false} StoredResult(ms: seq<Message>, m: Message)
    requires m in Semantic(ms) && m.ToolResult?
    ensures exists x :: x in Parse(ms) && Origin(Calls(ms), x, m) && ToolResult(m.id, ContentOf(Calls(ms), x)) in ms
                        && StoredAs(ToolOf(Calls(ms), x).value, ContentOf(Calls(ms), x), m.content)
                        && (Denial(m.content) ==> Denial(ContentOf(Calls(ms), x)))
  {
    hide Semantic, Parse, Calls, ContentOf, ToolOf, StoredAs, Digests, DigestOf;
    var x := OriginOf(ms, m);
    DigestStores(ToolOf(Calls(ms), x).value, ContentOf(Calls(ms), x), m.content);
  }

  // ---------------------------------------------------------------------------------------------
  // Every step is stored
  // ---------------------------------------------------------------------------------------------

  // The stored form of a step.
  ghost predicate KeptAs(calls: seq<Call>, x: Item, y: Item) {
    if IsLone(x) then
      && IsLone(y) && y.call == x.call && y.result.id == x.result.id
      && StoredAs(x.call.calls[0].name, x.result.content, y.result.content)
    else
      && x.Single? && y.Single?
      && if IsWake(x.message) then y.message.Wake? && Shrunk(x.message.fields, y.message.fields)
         else if x.message.ToolResult? then
           y.message.ToolResult? && y.message.id == x.message.id && StoredAs(NameOf(calls, x.message.id), x.message.content, y.message.content)
         else y == x
  }

  lemma {:induction false} PreparedAs(calls: seq<Call>, x: Item)
    requires x.Lone? ==> IsLone(x)
    ensures KeptAs(calls, x, Prepare(calls, x).item)
  {
    hide NameOf, StoredAs, DigestOf, Shrink, Shrunk;
    if IsLone(x) {
      DigestCount(x.call.calls[0].name, x.result.content);
      DigestStores(x.call.calls[0].name, x.result.content, DigestOf(x.call.calls[0].name, x.result.content));
    } else if x.message.ToolResult? {
      DigestCount(NameOf(calls, x.message.id), x.message.content);
      DigestStores(NameOf(calls, x.message.id), x.message.content, DigestOf(NameOf(calls, x.message.id), x.message.content));
    } else if x.message.Wake? {
      ShrinkKeeps(x.message.fields);
    }
  }

  /** Every step that is not a lone failure is stored, in the form its kind is given. */
  lemma {:induction false} StepStored(a: seq<Message>, x: Item)
    requires Rereadable(Parse(a)) && x in Parse(a) && !(IsLone(x) && x.result.content.Failure?)
    ensures exists y :: y in Parse(Semantic(a)) && KeptAs(Calls(a), x, y)
  {
    StoredReadsBack(a);
    ParsedLone(a, x);
    PreparedAs(Calls(a), x);
    hide Parse, Fold, Rereadable, Semantic, Calls, KeptAs, NameOf, DigestOf;
    var es := PrepareAll(Calls(a), Parse(a));
    var i :| 0 <= i < |Parse(a)| && Parse(a)[i] == x;
    assert es[i].key.None?;
    FoldKeeps(es, i);
    var j :| 0 <= j < |Steps(a)| && Steps(a)[j] == es[i];
    assert Items(Steps(a))[j] == es[i].item;
  }

  // A message that is only part of a retry: an instruction, or the answer it rejected.
  predicate Retried(ms: seq<Message>, i: nat)
    requires i < |ms|
  {
    ms[i].Instruction? || (ms[i].Assistant? && ms[i].calls == [] && i + 1 < |ms| && ms[i + 1].Instruction?)
  }

  /** Every message but those is part of a step, and no instruction is. */
  lemma {:induction false} MessagesAreSteps(ms: seq<Message>, k: nat, i: nat)
    requires k <= i < |ms|
    ensures !Retried(ms, i) ==> exists x :: x in Parse(ms[k..]) && ms[i] in Flat(x)
    ensures forall x | x in Parse(ms[k..]) && x.Single? :: !x.message.Instruction?
    decreases |ms| - k
  {
    var rest := ms[k..];
    assert rest[0] == ms[k] && rest[1..] == ms[k + 1..];
    assert |rest| > 1 ==> rest[1] == ms[k + 1] && rest[2..] == ms[k + 2..];
    var next := if !Dropped(rest) && StartsLone(rest) then k + 2 else k + 1;
    assert Parse(rest) == (if Dropped(rest) then [] else [if StartsLone(rest) then Lone(rest[0], rest[1]) else Single(rest[0])]) + Parse(ms[next..]);
    if next <= i {
      MessagesAreSteps(ms, next, i);
      if !Retried(ms, i) {
        var x :| x in Parse(ms[next..]) && ms[i] in Flat(x);
        assert x in Parse(rest);
      }
    } else {
      assert !Dropped(rest) && i == k ==> Parse(rest)[0] in Parse(rest) && ms[i] in Flat(Parse(rest)[0]);
      assert !Dropped(rest) && i == k + 1 ==> Parse(rest)[0] in Parse(rest) && ms[i] in Flat(Parse(rest)[0]);
      if next < |ms| {
        MessagesAreSteps(ms, next, next);
      }
    }
  }

  lemma {:induction false} OriginOf(ms: seq<Message>, m: Message) returns (x: Item)
    requires m in Semantic(ms) && m.ToolResult?
    ensures x in Parse(ms) && Origin(Calls(ms), x, m) && ToolResult(m.id, ContentOf(Calls(ms), x)) in ms
    ensures Denial(m.content) ==> Denial(ContentOf(Calls(ms), x))
  {
    hide Render, Fold, Parse, Grown, Calls, Digests, Prepare;
    var es := PrepareAll(Calls(ms), Parse(ms));
    forall y | y in Parse(ms) ensures y.Lone? ==> IsLone(y) {
      ParsedLone(ms, y);
    }
    forall e | e in es ensures e.item.Lone? ==> IsLone(e.item) {
      var i :| 0 <= i < |es| && es[i] == e;
      PreparedLone(Calls(ms), Parse(ms)[i]);
    }
    var e := RenderedBy(Fold(es), m);
    var d := FoldGrown(es, e);
    var i :| 0 <= i < |es| && es[i] == d;
    x := Parse(ms)[i];
    PreparedOrigin(Calls(ms), x, e, m);
    ParsedLone(ms, x);
    if Denial(m.content) {
      DigestDenies(ToolOf(Calls(ms), x).value, ContentOf(Calls(ms), x), m.content);
    }
  }

  lemma {:induction false} PreparedLone(calls: seq<Call>, x: Item)
    requires x.Lone? ==> IsLone(x)
    ensures var y := Prepare(calls, x).item; y.Lone? ==> IsLone(y)
  {
  }
}
