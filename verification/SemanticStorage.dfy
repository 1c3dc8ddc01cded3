/**
  Semantic storage: what a Run's conversation is reduced to before it is stored, and why storing it
  Run by Run gives the same conversation as storing it at once.
 */
module SemanticStorage {
  import opened Prelude
  import opened Messages

  // One step of a conversation: a lone tool call with its result, or any other message.
  datatype Item = Lone(call: Message, result: Message) | Single(message: Message)

  // An item in its stored form, with the identity of the failure it stood for before.
  datatype StoredStep = StoredStep(item: Item, key: Option<Key>)

  // Terminal instructions, and the rejected final answers they follow, are retries.
  predicate Dropped(ms: seq<Message>) {
    ms != [] && (ms[0].Instruction? || (ms[0].Assistant? && ms[0].calls == [] && |ms| > 1 && ms[1].Instruction?))
  }

  predicate StartsLone(ms: seq<Message>) {
    |ms| > 1 && ms[0].Assistant? && |ms[0].calls| == 1 && ms[1].ToolResult?
  }

  function Parse(ms: seq<Message>): seq<Item> {
    if ms == [] then []
    else if Dropped(ms) then Parse(ms[1..])
    else if StartsLone(ms) then [Lone(ms[0], ms[1])] + Parse(ms[2..])
    else [Single(ms[0])] + Parse(ms[1..])
  }

  predicate IsLone(x: Item) {
    x.Lone? && x.call.Assistant? && |x.call.calls| == 1 && x.result.ToolResult?
  }

  // The stored form of a message that is not part of a lone call.
  function Stored(calls: seq<Call>, m: Message): Message {
    if IsWake(m) then m.(fields := Shrink(m.fields))
    else if m.ToolResult? then m.(content := DigestOf(NameOf(calls, m.id), m.content))
    else m
  }

  function Prepare(calls: seq<Call>, x: Item): StoredStep {
    if IsLone(x) then
      var name := x.call.calls[0].name;
      StoredStep(Lone(x.call, x.result.(content := DigestOf(name, x.result.content))), FailureKeyOf(name, x.result.content))
    else if x.Lone? then StoredStep(x, None)
    else StoredStep(Single(Stored(calls, x.message)), None)
  }

  function PrepareAll(calls: seq<Call>, items: seq<Item>): (es: seq<StoredStep>)
    ensures |es| == |items|
    ensures forall i | 0 <= i < |items| :: es[i] == Prepare(calls, items[i])
  {
    seq(|items|, i requires 0 <= i < |items| => Prepare(calls, items[i]))
  }

  // The second of two equal failures is counted on the first.
  function Join(a: StoredStep, b: StoredStep): StoredStep {
    if IsLone(a.item) && IsLone(b.item)
    then a.(item := a.item.(result := a.item.result.(content := AddRepeat(a.item.result.content, b.item.result.content))))
    else a
  }

  predicate Foldable(a: StoredStep, b: StoredStep) {
    a.key.Some? && a.key == b.key
  }

  function Fold(es: seq<StoredStep>): seq<StoredStep>
    decreases |es|
  {
    if |es| < 2 then es
    else if Foldable(es[0], es[1]) then Fold([Join(es[0], es[1])] + es[2..])
    else [es[0]] + Fold(es[1..])
  }

  function Flat(x: Item): seq<Message> {
    match x
    case Lone(call, result) => [call, result]
    case Single(m) => [m]
  }

  function Render(es: seq<StoredStep>): seq<Message> {
    if es == [] then [] else Flat(es[0].item) + Render(es[1..])
  }

  /** semanticConversation, as a transformation of steps */
  function Semantic(ms: seq<Message>): seq<Message> {
    Render(Fold(PrepareAll(Calls(ms), Parse(ms))))
  }

  // ---------------------------------------------------------------------------------------------
  // The loop of the source
  // ---------------------------------------------------------------------------------------------

  ghost predicate Names(names: map<string, string>, calls: seq<Call>) {
    forall id :: (if id in names then names[id] else "") == NameOf(calls, id)
  }

  lemma NamesAppend(names: map<string, string>, calls: seq<Call>, c: Call)
    requires Names(names, calls)
    ensures Names(names[c.id := c.name], calls + [c])
  {
    assert (calls + [c])[..|calls|] == calls;
  }

  method CollectNames(ms: seq<Message>) returns (names: map<string, string>)
    ensures Names(names, Calls(ms))
  {
    hide Names;
    names := map[];
    assert Names(names, Calls(ms[..0])) by { NoNames(); }
    for i := 0 to |ms|
      invariant Names(names, Calls(ms[..i]))
    {
      var calls := CallsOf(ms[i]);
      ghost var before := Calls(ms[..i]);
      assert ms[..i + 1][..i] == ms[..i];
      assert before + calls[..0] == before;
      for j := 0 to |calls|
        invariant Names(names, before + calls[..j])
      {
        assert before + calls[..j + 1] == (before + calls[..j]) + [calls[j]];
        NamesAppend(names, before + calls[..j], calls[j]);
        names := names[calls[j].id := calls[j].name];
      }
      assert calls[..|calls|] == calls;
    }
    assert ms[..|ms|] == ms;
  }

  lemma NoNames()
    ensures Names(map[], [])
  {
  }

  lemma RenderAppend(es: seq<StoredStep>, e: StoredStep)
    ensures Render(es + [e]) == Render(es) + Flat(e.item)
  {
    if es != [] {
      assert (es + [e])[1..] == es[1..] + [e];
      RenderAppend(es[1..], e);
    }
  }

  // What the loop will still produce, given the last kept step when it may absorb the next one.
  ghost function Rest(calls: seq<Call>, last: Option<StoredStep>, ms: seq<Message>): seq<Message> {
    Render(Fold((if last.Some? then [last.value] else []) + PrepareAll(calls, Parse(ms))))
  }

  lemma PrepareCons(calls: seq<Call>, x: Item, items: seq<Item>)
    ensures PrepareAll(calls, [x] + items) == [Prepare(calls, x)] + PrepareAll(calls, items)
  {
  }

  // A step that does not absorb the next one is final.
  lemma Settle(e: StoredStep, rest: seq<StoredStep>)
    requires rest == [] || !Foldable(e, rest[0])
    ensures Render(Fold([e] + rest)) == Flat(e.item) + Render(Fold(rest))
  {
    if rest == [] {
      assert Render([e]) == Flat(e.item) + Render([]);
      assert [e] + rest == [e];
    } else {
      assert ([e] + rest)[1..] == rest;
      assert ([e] + Fold(rest))[1..] == Fold(rest);
    }
  }

  lemma RestDropped(calls: seq<Call>, last: Option<StoredStep>, ms: seq<Message>)
    requires Dropped(ms)
    ensures Rest(calls, last, ms) == Rest(calls, last, ms[1..])
  {
  }

  // The next step starts a new entry: the last one, if any, is settled.
  lemma RestNext(calls: seq<Call>, last: Option<StoredStep>, ms: seq<Message>, x: Item, more: seq<Message>)
    requires Parse(ms) == [x] + Parse(more)
    requires last.None? || !Foldable(last.value, Prepare(calls, x))
    ensures Rest(calls, last, ms)
         == (if last.Some? then Flat(last.value.item) else []) + Rest(calls, Some(Prepare(calls, x)), more)
  {
    PrepareCons(calls, x, Parse(more));
    var tail := [Prepare(calls, x)] + PrepareAll(calls, Parse(more));
    if last.Some? {
      Settle(last.value, tail);
    } else {
      assert [] + tail == tail;
    }
  }

  // The next step is counted on the last one.
  lemma RestFolded(calls: seq<Call>, last: StoredStep, ms: seq<Message>, x: Item, more: seq<Message>)
    requires Parse(ms) == [x] + Parse(more) && Foldable(last, Prepare(calls, x))
    ensures Rest(calls, Some(last), ms) == Rest(calls, Some(Join(last, Prepare(calls, x))), more)
  {
    PrepareCons(calls, x, Parse(more));
    var e, rest := Prepare(calls, x), PrepareAll(calls, Parse(more));
    assert [last] + PrepareAll(calls, Parse(ms)) == [last, e] + rest;
    assert ([last, e] + rest)[2..] == rest;
  }

  lemma RestSettled(calls: seq<Call>, e: StoredStep, ms: seq<Message>)
    requires e.key.None?
    ensures Rest(calls, Some(e), ms) == Flat(e.item) + Rest(calls, None, ms)
  {
    var rest := PrepareAll(calls, Parse(ms));
    Settle(e, rest);
    assert [] + rest == rest;
  }

  // What the loop has kept: the settled messages, then the step that may still absorb the next one.
  ghost predicate Kept(kept: seq<Message>, done: seq<Message>, last: Option<StoredStep>, failure: Option<Key>, position: int) {
    && kept == done + (if last.Some? then Flat(last.value.item) else [])
    && (last.Some? <==> failure.Some?)
    && (last.Some? ==> IsLone(last.value.item) && last.value.key == failure && position == |kept| - 1)
  }

  // The loop at position i: what is done, then what the rest will give.
  ghost predicate Midway(ms: seq<Message>, i: nat, kept: seq<Message>, done: seq<Message>, last: Option<StoredStep>, failure: Option<Key>, position: int) {
    && i <= |ms| && Kept(kept, done, last, failure, position)
    && Semantic(ms) == done + Rest(Calls(ms), last, ms[i..])
  }

  lemma StepDropped(ms: seq<Message>, i: nat, kept: seq<Message>, done: seq<Message>, last: Option<StoredStep>, failure: Option<Key>, position: int)
    requires i < |ms| && Midway(ms, i, kept, done, last, failure, position) && Dropped(ms[i..])
    ensures Midway(ms, i + 1, kept, done, last, failure, position)
  {
    hide Rest, Semantic;
    assert ms[i..][1..] == ms[i + 1..];
    RestDropped(Calls(ms), last, ms[i..]);
  }

  function Repeated(kept: seq<Message>, position: int, folded: Result): seq<Message>
    requires 0 <= position < |kept| && kept[position].ToolResult?
  {
    kept[position := kept[position].(content := AddRepeat(kept[position].content, folded))]
  }

  // Counting a folded failure on the last kept message.
  lemma KeptFolded(kept: seq<Message>, done: seq<Message>, last: StoredStep, e: StoredStep, folded: Result, failure: Option<Key>, position: int)
    requires Kept(kept, done, Some(last), failure, position) && IsLone(e.item) && Count(e.item.result.content) == Count(folded)
    ensures 0 <= position < |kept| && kept[position].ToolResult?
    ensures Kept(Repeated(kept, position, folded), done, Some(Join(last, e)), failure, position)
  {
    hide AddRepeat, Count;
    assert kept == done + [last.item.call, last.item.result];
    assert kept[position] == last.item.result;
    assert IsLone(Join(last, e).item) && Join(last, e).key == last.key;
    JoinCounts(last, e, folded);
    hide Join;
    assert Repeated(kept, position, folded) == done + Flat(Join(last, e).item);
  }

  lemma FoldedRest(ms: seq<Message>, i: nat, last: StoredStep)
    requires i < |ms| && StartsLone(ms[i..]) && last.key.Some? && FailureKeyOf(ms[i].calls[0].name, ms[i + 1].content) == last.key
    ensures Rest(Calls(ms), Some(last), ms[i..])
         == Rest(Calls(ms), Some(Join(last, Prepare(Calls(ms), Lone(ms[i], ms[i + 1])))), ms[i + 2..])
  {
    hide Rest, Parse, DigestOf, Calls, Join;
    var rest := ms[i..];
    assert rest[0] == ms[i] && rest[1] == ms[i + 1] && rest[2..] == ms[i + 2..];
    ParseLone(rest);
    RestFolded(Calls(ms), last, rest, Lone(ms[i], ms[i + 1]), rest[2..]);
  }

  lemma FoldedEntry(calls: seq<Call>, m: Message, result: Message)
    requires m.Assistant? && |m.calls| == 1 && result.ToolResult?
    ensures var e := Prepare(calls, Lone(m, result)); IsLone(e.item) && Count(e.item.result.content) == Count(result.content)
  {
    DigestCount(m.calls[0].name, result.content);
  }

  lemma StepFolded(ms: seq<Message>, i: nat, kept: seq<Message>, done: seq<Message>, last: StoredStep, failure: Option<Key>, position: int)
    requires i < |ms| && Midway(ms, i, kept, done, Some(last), failure, position) && StartsLone(ms[i..])
    requires FailureKeyOf(ms[i].calls[0].name, ms[i + 1].content) == failure
    ensures 0 <= position < |kept| && kept[position].ToolResult?
    ensures Midway(ms, i + 2, Repeated(kept, position, ms[i + 1].content), done,
                   Some(Join(last, Prepare(Calls(ms), Lone(ms[i], ms[i + 1])))), failure, position)
  {
    hide Rest, Semantic, Calls, Join, Count, Prepare, FailureKeyOf, Repeated;
    assert last.key == failure && failure.Some?;
    hide Kept;
    assert ms[i..][0] == ms[i] && ms[i..][1] == ms[i + 1];
    FoldedRest(ms, i, last);
    FoldedEntry(Calls(ms), ms[i], ms[i + 1]);
    KeptFolded(kept, done, last, Prepare(Calls(ms), Lone(ms[i], ms[i + 1])), ms[i + 1].content, failure, position);
  }

  // A new step after the kept ones.
  lemma StepNext(ms: seq<Message>, i: nat, kept: seq<Message>, done: seq<Message>, last: Option<StoredStep>, failure: Option<Key>, position: int, x: Item, j: nat)
    requires Midway(ms, i, kept, done, last, failure, position) && i <= j <= |ms|
    requires Parse(ms[i..]) == [x] + Parse(ms[j..])
    requires Prepare(Calls(ms), x).key.Some? ==> Prepare(Calls(ms), x).key != failure
    ensures var e := Prepare(Calls(ms), x);
      var kept' := kept + Flat(e.item);
      if e.key.Some? then IsLone(e.item) ==> Midway(ms, j, kept', kept, Some(e), e.key, |kept'| - 1)
      else Midway(ms, j, kept', kept', None, None, -1)
  {
    hide Rest, Semantic, Parse, DigestOf, AddRepeat, Calls, Stored;
    var e := Prepare(Calls(ms), x);
    CannotFold(last, e);
    RestNext(Calls(ms), last, ms[i..], x, ms[j..]);
    if e.key.None? {
      RestSettled(Calls(ms), e, ms[j..]);
      assert kept + (Flat(e.item) + Rest(Calls(ms), None, ms[j..])) == kept + Flat(e.item) + Rest(Calls(ms), None, ms[j..]);
    }
  }

  /** semanticConversation: the loop with its last failure computes Semantic */
  method SemanticConversation(ms: seq<Message>) returns (kept: seq<Message>)
    ensures kept == Semantic(ms)
  {
    hide Midway, Parse, DigestOf, NameOf, Semantic, Join, AddRepeat, Calls;
    var names := CollectNames(ms);
    kept := [];
    var failure: Option<Key>, position := None, -1;
    ghost var done: seq<Message>, last: Option<StoredStep> := [], None;
    var i := 0;
    MidwayStart(ms);
    while i < |ms|
      invariant i <= |ms| && Midway(ms, i, kept, done, last, failure, position)
      invariant last.Some? <==> failure.Some?
      invariant failure.Some? ==> 0 <= position
    {
      var m := ms[i];
      ghost var rest := ms[i..];
      assert rest[0] == m && (i + 1 < |ms| ==> rest[1] == ms[i + 1] && rest[2..] == ms[i + 2..]) && rest[1..] == ms[i + 1..];
      if m.Instruction? || (m.Assistant? && m.calls == [] && i + 1 < |ms| && ms[i + 1].Instruction?) {
        StepDropped(ms, i, kept, done, last, failure, position);
        i := i + 1;
      } else if m.Assistant? && |m.calls| == 1 && i + 1 < |ms| && ms[i + 1].ToolResult? {
        var name, result := m.calls[0].name, ms[i + 1];
        var key := FailureKeyOf(name, result.content);
        if key.Some? && key == failure && position >= 0 {
          StepFolded(ms, i, kept, done, last.value, failure, position);
          kept := kept[position := kept[position].(content := AddRepeat(kept[position].content, result.content))];
          last := Some(Join(last.value, Prepare(Calls(ms), Lone(m, result))));
        } else {
          ghost var e := Prepare(Calls(ms), Lone(m, result));
          ParseLone(rest);
          StepNext(ms, i, kept, done, last, failure, position, Lone(m, result), i + 2);
          done := kept;
          kept := kept + [m, result.(content := DigestOf(name, result.content))];
          failure, position, last := key, |kept| - 1, Some(e);
          if key.None? {
            position := -1;
            done, last := kept, None;
          }
        }
        i := i + 2;
      } else {
        var stored := m;
        if IsWake(m) {
          stored := m.(fields := Shrink(m.fields));
        } else if m.ToolResult? {
          var name := if m.id in names then names[m.id] else "";
          stored := m.(content := DigestOf(name, m.content));
        }
        ParseSingle(rest);
        StepNext(ms, i, kept, done, last, failure, position, Single(m), i + 1);
        kept := kept + [stored];
        failure, position := None, -1;
        done, last := kept, None;
        i := i + 1;
      }
    }
    MidwayEnd(ms, kept, done, last, failure, position);
  }

  lemma MidwayStart(ms: seq<Message>)
    ensures Midway(ms, 0, [], [], None, None, -1)
  {
    RestAll(Calls(ms), ms);
  }

  lemma MidwayEnd(ms: seq<Message>, kept: seq<Message>, done: seq<Message>, last: Option<StoredStep>, failure: Option<Key>, position: int)
    requires Midway(ms, |ms|, kept, done, last, failure, position)
    ensures kept == Semantic(ms)
  {
    hide Semantic, Rest;
    assert ms[|ms|..] == [];
    RestNone(Calls(ms), last);
  }

  lemma RestAll(calls: seq<Call>, ms: seq<Message>)
    requires calls == Calls(ms)
    ensures Semantic(ms) == [] + Rest(calls, None, ms[0..])
  {
    assert ms[0..] == ms;
    var es := PrepareAll(calls, Parse(ms));
    assert [] + es == es;
  }

  lemma RestNone(calls: seq<Call>, last: Option<StoredStep>)
    ensures Rest(calls, last, []) == if last.Some? then Flat(last.value.item) else []
  {
    if last.Some? {
      assert [last.value] + PrepareAll(calls, Parse([])) == [last.value];
      assert Render([last.value]) == Flat(last.value.item) + Render([]);
    }
  }

  lemma ParseLone(ms: seq<Message>)
    requires StartsLone(ms)
    ensures Parse(ms) == [Lone(ms[0], ms[1])] + Parse(ms[2..])
  {
  }

  lemma ParseSingle(ms: seq<Message>)
    requires ms != [] && !Dropped(ms) && !StartsLone(ms)
    ensures Parse(ms) == [Single(ms[0])] + Parse(ms[1..])
  {
  }

  lemma CanFold(a: StoredStep, b: StoredStep)
    requires a.key.Some? && a.key == b.key
    ensures Foldable(a, b)
  {
  }

  lemma CannotFold(last: Option<StoredStep>, b: StoredStep)
    requires last.Some? ==> b.key.None? || last.value.key != b.key
    ensures last.Some? ==> !Foldable(last.value, b)
  {
  }

  // Digesting a failure does not change how many it stands for.
  lemma DigestCount(name: string, r: Result)
    ensures Count(DigestOf(name, r)) == Count(r)
  {
  }

  lemma JoinCounts(a: StoredStep, b: StoredStep, folded: Result)
    requires IsLone(a.item) && IsLone(b.item) && Count(b.item.result.content) == Count(folded)
    ensures Join(a, b) == a.(item := a.item.(result := a.item.result.(content := AddRepeat(a.item.result.content, folded))))
  {
  }
}
