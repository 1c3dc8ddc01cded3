/**
  Laws of semantic storage: it is incremental over Runs, conserves repeat counts, and is idempotent
  exactly when no two neighbouring failures become equal by truncation.
 */
module SemanticLaws {
  import opened Prelude
  import opened Messages
  import opened SemanticStorage

  // ---------------------------------------------------------------------------------------------
  // Storing Run by Run
  // ---------------------------------------------------------------------------------------------

  lemma {:induction false} ParseAppend(a: seq<Message>, b: seq<Message>)
    requires b == [] || IsWake(b[0])
    ensures Parse(a + b) == Parse(a) + Parse(b)
    decreases |a|
  {
    if a == [] {
      assert a + b == b;
    } else {
      assert (a + b)[1..] == a[1..] + b;
      assert |a| > 1 ==> (a + b)[2..] == a[2..] + b;
      assert Dropped(a + b) <==> Dropped(a);
      assert StartsLone(a + b) <==> StartsLone(a);
      if Dropped(a) {
        ParseAppend(a[1..], b);
      } else if StartsLone(a) {
        ParseAppend(a[2..], b);
      } else {
        ParseAppend(a[1..], b);
      }
    }
  }

  lemma {:induction false} NameAppend(a: seq<Call>, b: seq<Call>, id: string)
    ensures NameOf(a + b, id) == if Called(b, id) then NameOf(b, id) else NameOf(a, id)
    decreases |b|
  {
    if b == [] {
      assert a + b == a;
    } else {
      var n := |b| - 1;
      assert (a + b)[..|a| + n] == a + b[..n];
      assert b == b[..n] + [b[n]];
      NameAppend(a, b[..n], id);
      assert Called(b, id) <==> b[n].id == id || Called(b[..n], id);
    }
  }

  lemma {:induction false} NotCalled(calls: seq<Call>, id: string)
    requires !Called(calls, id)
    ensures NameOf(calls, id) == ""
    decreases |calls|
  {
    if calls != [] {
      var n := |calls| - 1;
      assert calls[n] in calls;
      assert forall c | c in calls[..n] :: c in calls;
      NotCalled(calls[..n], id);
    }
  }

  // The results that are not part of a lone call.
  predicate Loose(items: seq<Item>, id: string) {
    exists x :: x in items && x.Single? && x.message.ToolResult? && x.message.id == id
  }

  lemma PrepareSame(c: seq<Call>, d: seq<Call>, items: seq<Item>)
    requires forall id | Loose(items, id) :: NameOf(c, id) == NameOf(d, id)
    ensures PrepareAll(c, items) == PrepareAll(d, items)
  {
    forall i | 0 <= i < |items| ensures Prepare(c, items[i]) == Prepare(d, items[i]) {
      var x := items[i];
      assert x in items;
      if x.Single? && x.message.ToolResult? {
        assert Loose(items, x.message.id);
      }
    }
  }

  lemma PrepareAppend(calls: seq<Call>, a: seq<Item>, b: seq<Item>)
    ensures PrepareAll(calls, a + b) == PrepareAll(calls, a) + PrepareAll(calls, b)
  {
  }

  lemma FoldStep(es: seq<StoredStep>)
    requires |es| >= 2
    ensures Fold(es) == if Foldable(es[0], es[1]) then Fold([Join(es[0], es[1])] + es[2..]) else [es[0]] + Fold(es[1..])
  {
  }

  lemma FoldShort(es: seq<StoredStep>)
    requires |es| < 2
    ensures Fold(es) == es
  {
  }

  // A step without a failure separates what is before it from what is after.
  lemma {:induction false} FoldAppend(a: seq<StoredStep>, b: seq<StoredStep>)
    requires b == [] || b[0].key.None?
    ensures Fold(a + b) == Fold(a) + Fold(b)
    decreases |a|
  {
    hide Fold, Join;
    if a == [] || b == [] {
      FoldShort([]);
      assert a + b == if a == [] then b else a;
    } else if |a| == 1 {
      FoldShort(a);
      FoldStep(a + b);
      assert (a + b)[1..] == b;
    } else {
      assert (a + b)[1..] == a[1..] + b && (a + b)[2..] == a[2..] + b;
      FoldStep(a);
      FoldStep(a + b);
      if Foldable(a[0], a[1]) {
        var e := Join(a[0], a[1]);
        assert [e] + (a[2..] + b) == ([e] + a[2..]) + b;
        FoldAppend([e] + a[2..], b);
      } else {
        FoldAppend(a[1..], b);
        assert [a[0]] + (Fold(a[1..]) + Fold(b)) == ([a[0]] + Fold(a[1..])) + Fold(b);
      }
    }
  }

  lemma {:induction false} RenderConcat(a: seq<StoredStep>, b: seq<StoredStep>)
    ensures Render(a + b) == Render(a) + Render(b)
    decreases |a|
  {
    if a == [] {
      assert a + b == b;
    } else {
      assert (a + b)[1..] == a[1..] + b;
      RenderConcat(a[1..], b);
    }
  }

  // A Run's messages: it starts with a wake-up, and shares no call with what came before.
  ghost predicate NextRun(a: seq<Message>, b: seq<Message>) {
    && (b == [] || IsWake(b[0]))
    && (forall id | Loose(Parse(a), id) :: !Called(Calls(b), id))
    && (forall id | Loose(Parse(b), id) :: !Called(Calls(a), id))
  }

  lemma NamesSeparate(a: seq<Message>, b: seq<Message>)
    requires NextRun(a, b)
    ensures PrepareAll(Calls(a + b), Parse(a)) == PrepareAll(Calls(a), Parse(a))
    ensures PrepareAll(Calls(a + b), Parse(b)) == PrepareAll(Calls(b), Parse(b))
  {
    hide Parse;
    CallsAppend(a, b);
    forall id | Loose(Parse(a), id) ensures NameOf(Calls(a + b), id) == NameOf(Calls(a), id) {
      NameAppend(Calls(a), Calls(b), id);
    }
    forall id | Loose(Parse(b), id) ensures NameOf(Calls(a + b), id) == NameOf(Calls(b), id) {
      NameAppend(Calls(a), Calls(b), id);
      if !Called(Calls(b), id) {
        NotCalled(Calls(b), id);
        NotCalled(Calls(a), id);
      }
    }
    PrepareSame(Calls(a + b), Calls(a), Parse(a));
    PrepareSame(Calls(a + b), Calls(b), Parse(b));
  }

  lemma WakeFirst(calls: seq<Call>, b: seq<Message>)
    requires b == [] || IsWake(b[0])
    ensures var es := PrepareAll(calls, Parse(b)); es == [] || es[0].key.None?
  {
  }

  /** Storing a conversation is storing its Runs one after the other. */
  lemma SemanticAppend(a: seq<Message>, b: seq<Message>)
    requires NextRun(a, b)
    ensures Semantic(a + b) == Semantic(a) + Semantic(b)
  {
    hide Parse, Fold, Render, PrepareAll, Calls;
    ParseAppend(a, b);
    PrepareAppend(Calls(a + b), Parse(a), Parse(b));
    NamesSeparate(a, b);
    WakeFirst(Calls(b), b);
    FoldAppend(PrepareAll(Calls(a), Parse(a)), PrepareAll(Calls(b), Parse(b)));
    RenderConcat(Fold(PrepareAll(Calls(a), Parse(a))), Fold(PrepareAll(Calls(b), Parse(b))));
  }

  // ---------------------------------------------------------------------------------------------
  // Reading a stored conversation back
  // ---------------------------------------------------------------------------------------------

  // A single call whose result was separated from it, and would be joined to it by a second reading.
  predicate Severed(x: Item, y: Item) {
    x.Single? && x.message.Assistant? && |x.message.calls| == 1 && y.Single? && y.message.ToolResult?
  }

  predicate Readable(x: Item) {
    if x.Lone? then IsLone(x) else !x.message.Instruction?
  }

  predicate Rereadable(items: seq<Item>) {
    && (forall i | 0 <= i < |items| :: Readable(items[i]))
    && (forall i | 0 <= i < |items| - 1 :: !Severed(items[i], items[i + 1]))
  }

  function Items(es: seq<StoredStep>): (items: seq<Item>)
    ensures |items| == |es|
    ensures forall i | 0 <= i < |es| :: items[i] == es[i].item
  {
    seq(|es|, i requires 0 <= i < |es| => es[i].item)
  }

  lemma TailRereadable(es: seq<StoredStep>)
    requires es != [] && Rereadable(Items(es))
    ensures Rereadable(Items(es[1..]))
  {
    var items, tail := Items(es), Items(es[1..]);
    assert forall i | 0 <= i < |tail| :: tail[i] == items[i + 1];
    forall i | 0 <= i < |tail| - 1 ensures !Severed(tail[i], tail[i + 1]) {
      assert !Severed(items[i + 1], items[i + 1 + 1]);
    }
  }

  lemma RenderFirst(es: seq<StoredStep>)
    requires es != []
    ensures Render(es) != [] && Render(es)[0] == Flat(es[0].item)[0]
  {
  }

  // The first message of a rereadable conversation is not dropped.
  lemma {:induction false} FirstKept(es: seq<StoredStep>)
    requires es != [] && Rereadable(Items(es))
    ensures !Dropped(Render(es))
    ensures StartsLone(Render(es)) <==> es[0].item.Lone?
  {
    var e, rest := es[0], es[1..];
    assert Items(es)[0] == e.item && Readable(e.item);
    if rest != [] {
      RenderFirst(rest);
      assert Items(es)[1] == es[1].item && Readable(es[1].item);
      assert !Severed(Items(es)[0], Items(es)[1]);
    }
  }

  /** Reading back what was written gives the steps that were written. */
  lemma {:induction false} ParseRender(es: seq<StoredStep>)
    requires Rereadable(Items(es))
    ensures Parse(Render(es)) == Items(es)
    decreases |es|
  {
    if es != [] {
      var ms := Render(es);
      assert Items(es)[0] == es[0].item && Readable(es[0].item);
      FirstKept(es);
      TailRereadable(es);
      ParseRender(es[1..]);
      assert Items(es) == [es[0].item] + Items(es[1..]);
      if es[0].item.Lone? {
        assert ms[2..] == Render(es[1..]);
      } else {
        assert ms[1..] == Render(es[1..]);
      }
    }
  }

  // ---------------------------------------------------------------------------------------------
  // Folding keeps the shape
  // ---------------------------------------------------------------------------------------------

  // What folding may do to a step: nothing, or count more failures on a lone one.
  predicate SameStep(x: StoredStep, y: StoredStep) {
    && x.key == y.key
    && (x.item.Single? ==> y.item == x.item)
    && (x.item.Lone? ==> y.item.Lone? && y.item.call == x.item.call && (IsLone(x.item) ==> IsLone(y.item)))
  }

  lemma {:induction false} FoldHead(es: seq<StoredStep>)
    requires es != []
    ensures Fold(es) != [] && SameStep(es[0], Fold(es)[0])
    decreases |es|
  {
    if |es| >= 2 && Foldable(es[0], es[1]) {
      FoldHead([Join(es[0], es[1])] + es[2..]);
    }
  }

  ghost predicate Sound(es: seq<StoredStep>) {
    && Rereadable(Items(es))
    && (forall i | 0 <= i < |es| :: es[i].key.Some? ==> IsLone(es[i].item))
  }

  lemma JoinSound(es: seq<StoredStep>)
    requires |es| >= 2 && Sound(es) && Foldable(es[0], es[1])
    ensures Sound([Join(es[0], es[1])] + es[2..])
  {
    var joined := [Join(es[0], es[1])] + es[2..];
    var items, was := Items(joined), Items(es);
    assert IsLone(es[0].item) && IsLone(Join(es[0], es[1]).item);
    forall i | 0 <= i < |items| ensures Readable(items[i]) {
      assert i > 0 ==> items[i] == was[i + 1];
    }
    forall i | 0 <= i < |items| - 1 ensures !Severed(items[i], items[i + 1]) {
      if i > 0 {
        assert items[i] == was[i + 1] && items[i + 1] == was[i + 1 + 1];
        assert !Severed(was[i + 1], was[i + 1 + 1]);
      }
    }
  }

  lemma TailSound(es: seq<StoredStep>)
    requires es != [] && Sound(es)
    ensures Sound(es[1..])
  {
    TailRereadable(es);
  }

  lemma ConsSound(e: StoredStep, before: seq<StoredStep>, after: seq<StoredStep>)
    requires Sound([e] + before) && Sound(after) && before != [] && after != [] && SameStep(before[0], after[0])
    ensures Sound([e] + after)
  {
    var items, was := Items([e] + after), Items([e] + before);
    assert items[0] == was[0] == e.item && was[1] == before[0].item;
    assert !Severed(was[0], was[1]);
    forall i | 0 <= i < |items| ensures Readable(items[i]) {
      assert i > 0 ==> items[i] == Items(after)[i - 1];
      assert i == 0 ==> Readable(was[0]);
    }
    forall i | 0 <= i < |items| - 1 ensures !Severed(items[i], items[i + 1]) {
      if i > 0 {
        assert items[i] == Items(after)[i - 1] && items[i + 1] == Items(after)[i];
        assert !Severed(Items(after)[i - 1], Items(after)[i - 1 + 1]);
      } else {
        assert items[1] == after[0].item;
      }
    }
    assert ([e] + before)[0] == e;
  }

  lemma {:induction false} FoldSound(es: seq<StoredStep>)
    requires Sound(es)
    ensures Sound(Fold(es))
    decreases |es|
  {
    if |es| >= 2 {
      if Foldable(es[0], es[1]) {
        JoinSound(es);
        FoldSound([Join(es[0], es[1])] + es[2..]);
      } else {
        TailSound(es);
        FoldSound(es[1..]);
        FoldHead(es[1..]);
        assert es == [es[0]] + es[1..];
        ConsSound(es[0], es[1..], Fold(es[1..]));
      }
    }
  }

  lemma PrepareSound(calls: seq<Call>, items: seq<Item>)
    requires Rereadable(items)
    ensures Sound(PrepareAll(calls, items))
  {
    var es := PrepareAll(calls, items);
    var prepared := Items(es);
    forall i | 0 <= i < |items| ensures Readable(prepared[i]) {
      assert Readable(items[i]);
    }
    forall i | 0 <= i < |items| - 1 ensures !Severed(prepared[i], prepared[i + 1]) {
      assert !Severed(items[i], items[i + 1]);
    }
  }

  // The stored steps of a conversation.
  function Steps(a: seq<Message>): seq<StoredStep> {
    Fold(PrepareAll(Calls(a), Parse(a)))
  }

  /** A stored conversation reads back as its stored steps. */
  lemma StoredReadsBack(a: seq<Message>)
    requires Rereadable(Parse(a))
    ensures Sound(Steps(a)) && Parse(Semantic(a)) == Items(Steps(a))
  {
    hide Parse, Fold, Render, PrepareAll, Rereadable;
    PrepareSound(Calls(a), Parse(a));
    FoldSound(PrepareAll(Calls(a), Parse(a)));
    ParseRender(Steps(a));
  }

  // Tool results directly follow the message that made the calls.
  predicate Contiguous(a: seq<Message>) {
    forall i | 0 <= i < |a| && a[i].ToolResult? ::
      i > 0 && (a[i - 1].ToolResult? || (a[i - 1].Assistant? && a[i - 1].calls != []))
  }

  lemma {:induction false} ParseFirst(a: seq<Message>, k: nat)
    requires k < |a| && Parse(a[k..]) != [] && Contiguous(a)
    requires !a[k].ToolResult?
    ensures Severed(Single(Assistant(None, [Call("", "", "")])), Parse(a[k..])[0]) ==> false
    decreases |a| - k
  {
    var ms := a[k..];
    assert ms[0] == a[k];
    assert ms[1..] == a[k + 1..];
    if Dropped(ms) {
      assert a[k].Instruction? || a[k].calls == [];
      assert k + 1 < |a| ==> !a[k + 1].ToolResult?;
      ParseFirst(a, k + 1);
    }
  }

  lemma {:induction false} ContiguousRereads(a: seq<Message>, k: nat)
    requires Contiguous(a) && k <= |a|
    ensures Rereadable(Parse(a[k..]))
    decreases |a| - k
  {
    var ms := a[k..];
    if ms != [] {
      assert ms[0] == a[k] && ms[1..] == a[k + 1..];
      assert |ms| > 1 ==> ms[1] == a[k + 1] && ms[2..] == a[k + 2..];
      if Dropped(ms) {
        ContiguousRereads(a, k + 1);
      } else if StartsLone(ms) {
        ContiguousRereads(a, k + 2);
        ConsRereadable(Lone(ms[0], ms[1]), Parse(a[k + 2..]));
      } else {
        ContiguousRereads(a, k + 1);
        var rest := Parse(a[k + 1..]);
        if ms[0].Assistant? && |ms[0].calls| == 1 && rest != [] {
          ParseFirst(a, k + 1);
        }
        ConsRereadable(Single(ms[0]), rest);
      }
    }
  }

  lemma ConsRereadable(x: Item, rest: seq<Item>)
    requires Readable(x) && Rereadable(rest) && (rest == [] || !Severed(x, rest[0]))
    ensures Rereadable([x] + rest)
  {
    var items := [x] + rest;
    forall i | 0 <= i < |items| - 1 ensures !Severed(items[i], items[i + 1]) {
      if i > 0 {
        assert !Severed(rest[i - 1], rest[i - 1 + 1]);
      }
    }
  }

  // ---------------------------------------------------------------------------------------------
  // What folding does to the failures
  // ---------------------------------------------------------------------------------------------

  // The failure a stored step is recognized by when it is read again.
  function StoredKey(x: Item): Option<Key> {
    if IsLone(x) then FailureKeyOf(x.call.calls[0].name, x.result.content) else None
  }

  // A failure after its message has been truncated.
  function Digested(k: Key): Key {
    if Whole(k.name) then k else k.(message := Truncate(k.message, DIGEST_RUNES))
  }

  // A read failure that already carries a count was truncated when it was counted.
  predicate SettledResult(name: string, r: Result) {
    r.Failure? && r.repeats > 0 && !Whole(name) ==> Truncate(r.message, DIGEST_RUNES) == r.message
  }

  predicate SettledItem(x: Item) {
    IsLone(x) ==> SettledResult(x.call.calls[0].name, x.result.content)
  }

  predicate Settled(items: seq<Item>) {
    forall i | 0 <= i < |items| :: SettledItem(items[i])
  }

  // A stored step: digesting it again changes nothing, and its key is the truncated one.
  ghost predicate Final(e: StoredStep) {
    && SettledItem(e.item)
    && StoredKey(e.item) == (if e.key.Some? then Some(Digested(e.key.value)) else None)
    && (IsLone(e.item) ==> DigestOf(e.item.call.calls[0].name, e.item.result.content) == e.item.result.content)
  }

  lemma PrepareFinal(calls: seq<Call>, x: Item)
    requires Readable(x) && SettledItem(x)
    ensures Final(Prepare(calls, x))
  {
    if IsLone(x) {
      var name, r := x.call.calls[0].name, x.result.content;
      DigestTwice(name, r);
      if r.Failure? {
        TruncateTwice(r.message, DIGEST_RUNES);
      }
    }
  }

  lemma JoinFinal(a: StoredStep, b: StoredStep)
    requires Final(a) && IsLone(a.item) && IsLone(b.item) && a.key.Some?
    ensures Final(Join(a, b)) && Join(a, b).key == a.key
  {
    var name, r := a.item.call.calls[0].name, a.item.result.content;
    assert r.Failure?;
    if !Whole(name) {
      TruncateTwice(r.message, DIGEST_RUNES);
      assert r.repeats > 0 || DigestOf(name, r) == r;
    }
  }

  ghost predicate AllFinal(es: seq<StoredStep>) {
    forall i | 0 <= i < |es| :: Final(es[i]) && (es[i].key.Some? ==> IsLone(es[i].item))
  }

  lemma {:induction false} FoldFinal(es: seq<StoredStep>)
    requires AllFinal(es)
    ensures AllFinal(Fold(es))
    decreases |es|
  {
    hide Final;
    if |es| >= 2 {
      if Foldable(es[0], es[1]) {
        JoinFinal(es[0], es[1]);
        var joined := [Join(es[0], es[1])] + es[2..];
        assert forall i | 0 < i < |joined| :: joined[i] == es[i + 1];
        assert IsLone(Join(es[0], es[1]).item);
        FoldFinal(joined);
      } else {
        FoldFinal(es[1..]);
      }
    }
  }

  // Neighbouring failures that differ only beyond the truncation.
  predicate Ambiguous(a: StoredStep, b: StoredStep) {
    a.key.Some? && b.key.Some? && a.key != b.key && Digested(a.key.value) == Digested(b.key.value)
  }

  ghost predicate Clash(es: seq<StoredStep>) {
    exists i {:trigger es[i]} :: 0 <= i < |es| - 1 && Ambiguous(es[i], es[i + 1])
  }

  lemma ClashCons(e: StoredStep, rest: seq<StoredStep>)
    ensures Clash([e] + rest) <==> (rest != [] && Ambiguous(e, rest[0])) || Clash(rest)
  {
    var es := [e] + rest;
    if i :| 0 <= i < |rest| - 1 && Ambiguous(rest[i], rest[i + 1]) {
      assert es[i + 1] == rest[i] && es[i + 1 + 1] == rest[i + 1];
    }
    if i :| 0 <= i < |es| - 1 && Ambiguous(es[i], es[i + 1]) {
      if i > 0 {
        assert rest[i - 1] == es[i] && rest[i - 1 + 1] == es[i + 1];
      }
    }
    if rest != [] && Ambiguous(e, rest[0]) {
      assert es[0] == e && es[0 + 1] == rest[0];
    }
  }

  /** Folding neither creates nor hides an ambiguity. */
  lemma {:induction false} FoldClash(es: seq<StoredStep>)
    ensures Clash(Fold(es)) <==> Clash(es)
    decreases |es|
  {
    hide Clash, Ambiguous;
    if |es| >= 2 {
      var tail, more := es[1..], es[2..];
      assert es == [es[0]] + tail && tail == [es[1]] + more;
      ClashCons(es[0], tail);
      ClashCons(es[1], more);
      if Foldable(es[0], es[1]) {
        var joined := Join(es[0], es[1]);
        ClashCons(joined, more);
        FoldClash([joined] + more);
        SameClash(es[0], es[1], more);
      } else {
        FoldClash(tail);
        FoldHead(tail);
        ClashCons(es[0], Fold(tail));
        KeyClash(es[0], tail[0], Fold(tail)[0]);
      }
    }
  }

  lemma KeyClash(e: StoredStep, a: StoredStep, b: StoredStep)
    requires a.key == b.key
    ensures Ambiguous(e, a) <==> Ambiguous(e, b)
  {
  }

  lemma SameClash(a: StoredStep, b: StoredStep, more: seq<StoredStep>)
    requires Foldable(a, b)
    ensures !Ambiguous(a, b)
    ensures more != [] ==> (Ambiguous(Join(a, b), more[0]) <==> Ambiguous(b, more[0]))
  {
  }

  ghost predicate NoFold(es: seq<StoredStep>) {
    forall i {:trigger es[i]} | 0 <= i < |es| - 1 :: !Foldable(es[i], es[i + 1])
  }

  lemma NoFoldCons(e: StoredStep, rest: seq<StoredStep>)
    ensures NoFold([e] + rest) <==> (rest == [] || !Foldable(e, rest[0])) && NoFold(rest)
  {
    var es := [e] + rest;
    if NoFold(es) {
      forall i {:trigger rest[i]} | 0 <= i < |rest| - 1 ensures !Foldable(rest[i], rest[i + 1]) {
        assert es[i + 1] == rest[i] && es[i + 1 + 1] == rest[i + 1];
      }
      assert rest != [] ==> es[0] == e && es[0 + 1] == rest[0];
    }
    if (rest == [] || !Foldable(e, rest[0])) && NoFold(rest) {
      forall i {:trigger es[i]} | 0 <= i < |es| - 1 ensures !Foldable(es[i], es[i + 1]) {
        if i > 0 {
          assert rest[i - 1] == es[i] && rest[i - 1 + 1] == es[i + 1];
        }
      }
    }
  }

  // Nothing is left to fold.
  lemma {:induction false} FoldIsDone(es: seq<StoredStep>)
    ensures NoFold(Fold(es))
    decreases |es|
  {
    hide NoFold;
    if |es| < 2 {
      assert NoFold(es) by { ShortNoFold(es); }
    } else if Foldable(es[0], es[1]) {
      FoldIsDone([Join(es[0], es[1])] + es[2..]);
    } else {
      FoldIsDone(es[1..]);
      FoldHead(es[1..]);
      NoFoldCons(es[0], Fold(es[1..]));
    }
  }

  lemma ShortNoFold(es: seq<StoredStep>)
    requires |es| < 2
    ensures NoFold(es)
  {
  }

  lemma {:induction false} FoldNothing(es: seq<StoredStep>)
    requires NoFold(es)
    ensures Fold(es) == es
    decreases |es|
  {
    if |es| >= 2 {
      assert es == [es[0]] + es[1..];
      NoFoldCons(es[0], es[1..]);
      FoldNothing(es[1..]);
    }
  }

  lemma {:induction false} FoldShorter(es: seq<StoredStep>)
    ensures |Render(Fold(es))| <= |Render(es)|
    ensures !NoFold(es) ==> |Render(Fold(es))| < |Render(es)|
    decreases |es|
  {
    hide NoFold;
    if |es| < 2 {
      ShortNoFold(es);
    } else {
      var tail, more := es[1..], es[2..];
      assert es == [es[0]] + tail && tail[1..] == more;
      if Foldable(es[0], es[1]) {
        var joined := [Join(es[0], es[1])] + more;
        assert joined[1..] == more;
        FoldShorter(joined);
      } else {
        FoldShorter(tail);
        NoFoldCons(es[0], tail);
        assert ([es[0]] + Fold(tail))[1..] == Fold(tail);
      }
    }
  }

  // ---------------------------------------------------------------------------------------------
  // The second pass
  // ---------------------------------------------------------------------------------------------

  // One id always names the same tool.
  predicate Consistent(calls: seq<Call>) {
    forall c, d | c in calls && d in calls && c.id == d.id :: c.name == d.name
  }

  lemma {:induction false} NameFound(calls: seq<Call>, id: string)
    requires Called(calls, id)
    ensures exists c :: c in calls && c.id == id && c.name == NameOf(calls, id)
    decreases |calls|
  {
    var n := |calls| - 1;
    assert calls[n] in calls;
    assert forall c :: c in calls <==> c in calls[..n] || c == calls[n] by {
      assert calls == calls[..n] + [calls[n]];
    }
    if calls[n].id != id {
      NameFound(calls[..n], id);
    }
  }

  // With fewer calls a name is the same or lost.
  lemma NameKeptOrLost(all: seq<Call>, some: seq<Call>, id: string)
    requires Consistent(all) && forall c | c in some :: c in all
    ensures NameOf(some, id) == NameOf(all, id) || NameOf(some, id) == ""
  {
    if Called(some, id) {
      NameFound(some, id);
      var c :| c in some && c.id == id && c.name == NameOf(some, id);
      assert c in all;
      NameFound(all, id);
    } else {
      NotCalled(some, id);
    }
  }

  lemma {:induction false} RenderCalls(es: seq<StoredStep>, c: Call)
    requires es != []
    ensures c in Calls(Render(es)) <==> c in Calls(Flat(es[0].item)) || c in Calls(Render(es[1..]))
  {
    CallsAppend(Flat(es[0].item), Render(es[1..]));
  }

  lemma FlatCalls(x: Item)
    ensures x.Single? ==> Calls(Flat(x)) == CallsOf(x.message)
    ensures x.Lone? ==> Calls(Flat(x)) == CallsOf(x.call) + CallsOf(x.result)
  {
    if x.Single? {
      assert [x.message][..0] == [];
    } else {
      assert [x.call, x.result][..1] == [x.call];
      assert [x.call][..0] == [];
      assert Calls([x.call]) == CallsOf(x.call);
    }
  }

  // Folding adds no call.
  lemma {:induction false} FoldCalls(es: seq<StoredStep>, c: Call)
    requires c in Calls(Render(Fold(es)))
    ensures c in Calls(Render(es))
    decreases |es|
  {
    hide Calls, Render;
    if |es| >= 2 {
      var tail, more := es[1..], es[2..];
      assert tail[1..] == more;
      RenderCalls(es, c);
      RenderCalls(tail, c);
      if Foldable(es[0], es[1]) {
        var joined := [Join(es[0], es[1])] + more;
        assert joined[1..] == more;
        FoldCalls(joined, c);
        RenderCalls(joined, c);
        FlatCalls(es[0].item);
        FlatCalls(joined[0].item);
      } else {
        var folded := [es[0]] + Fold(tail);
        assert folded[1..] == Fold(tail);
        RenderCalls(folded, c);
        if c in Calls(Render(Fold(tail))) {
          FoldCalls(tail, c);
        }
      }
    }
  }

  lemma PreparedCalls(calls: seq<Call>, x: Item)
    ensures Calls(Flat(Prepare(calls, x).item)) == Calls(Flat(x))
  {
    hide Calls;
    FlatCalls(x);
    FlatCalls(Prepare(calls, x).item);
  }

  lemma CallsCons(m: Message, rest: seq<Message>, c: Call)
    ensures c in Calls([m] + rest) <==> c in CallsOf(m) || c in Calls(rest)
  {
    CallsAppend([m], rest);
    FlatCalls(Single(m));
  }

  lemma {:induction false} ParsedCalls(calls: seq<Call>, ms: seq<Message>, c: Call)
    requires c in Calls(Render(PrepareAll(calls, Parse(ms))))
    ensures c in Calls(ms)
    decreases |ms|
  {
    hide Calls, Render;
    if ms == [] {
      assert Render(PrepareAll(calls, [])) == [] by { NothingRendered(calls); }
    } else {
      assert ms == [ms[0]] + ms[1..];
      CallsCons(ms[0], ms[1..], c);
      if Dropped(ms) {
        ParsedCalls(calls, ms[1..], c);
      } else {
        var x, rest := Parse(ms)[0], if StartsLone(ms) then ms[2..] else ms[1..];
        PrepareCons(calls, x, Parse(rest));
        var es := PrepareAll(calls, Parse(ms));
        assert es[1..] == PrepareAll(calls, Parse(rest));
        RenderCalls(es, c);
        PreparedCalls(calls, x);
        FlatCalls(x);
        if StartsLone(ms) {
          assert ms[1..] == [ms[1]] + ms[2..];
          CallsCons(ms[1], ms[2..], c);
        }
        if c in Calls(Render(es[1..])) {
          ParsedCalls(calls, rest, c);
        }
      }
    }
  }

  lemma NothingRendered(calls: seq<Call>)
    ensures Render(PrepareAll(calls, [])) == []
  {
  }

  /** A stored conversation contains only calls of the original. */
  lemma StoredCalls(a: seq<Message>, c: Call)
    requires c in Calls(Semantic(a))
    ensures c in Calls(a)
  {
    hide Calls, Render, Parse, Fold, PrepareAll;
    FoldCalls(PrepareAll(Calls(a), Parse(a)), c);
    ParsedCalls(Calls(a), a, c);
  }

  // A message in stored form.
  ghost predicate Polished(calls: seq<Call>, e: StoredStep) {
    e.item.Single? ==> exists m :: e.item.message == Stored(calls, m)
  }

  ghost predicate AllPolished(calls: seq<Call>, es: seq<StoredStep>) {
    forall i | 0 <= i < |es| :: Polished(calls, es[i])
  }

  lemma {:induction false} FoldPolished(calls: seq<Call>, es: seq<StoredStep>)
    requires AllPolished(calls, es)
    ensures AllPolished(calls, Fold(es))
    decreases |es|
  {
    if |es| >= 2 {
      if Foldable(es[0], es[1]) {
        var joined := [Join(es[0], es[1])] + es[2..];
        assert Polished(calls, es[0]);
        assert forall i | 0 < i < |joined| :: joined[i] == es[i + 1];
        assert Polished(calls, joined[0]);
        FoldPolished(calls, joined);
      } else {
        FoldPolished(calls, es[1..]);
        var rest := Fold(es[1..]);
        assert Polished(calls, es[0]);
        assert forall i | 0 < i < |[es[0]] + rest| :: ([es[0]] + rest)[i] == rest[i - 1];
      }
    }
  }

  lemma PreparePolished(calls: seq<Call>, items: seq<Item>)
    ensures AllPolished(calls, PrepareAll(calls, items))
  {
  }

  lemma ShrinkTwice(fields: map<string, string>)
    ensures Shrink(Shrink(fields)) == Shrink(fields)
    ensures "trigger" in fields ==> "trigger" in Shrink(fields)
    ensures "current_time" in fields ==> "current_time" in Shrink(fields)
  {
  }

  lemma StoredTwice(all: seq<Call>, some: seq<Call>, m: Message)
    requires m.ToolResult? ==> NameOf(some, m.id) == NameOf(all, m.id) || NameOf(some, m.id) == ""
    ensures Stored(some, Stored(all, m)) == Stored(all, m)
  {
    hide DigestOf, NameOf, Shrink;
    if IsWake(m) {
      ShrinkTwice(m.fields);
    } else if m.ToolResult? {
      DigestTwice(NameOf(all, m.id), m.content);
    }
  }

  // A stored step prepared again: the same step, recognized by its truncated failure.
  function Rekeyed(e: StoredStep): StoredStep {
    e.(key := if e.key.Some? then Some(Digested(e.key.value)) else None)
  }

  lemma PrepareAgain(all: seq<Call>, some: seq<Call>, e: StoredStep)
    requires Consistent(all) && (forall c | c in some :: c in all)
    requires Final(e) && Polished(all, e) && Readable(e.item) && (e.key.Some? ==> IsLone(e.item))
    ensures Prepare(some, e.item) == Rekeyed(e)
  {
    hide DigestOf, NameOf, Digested;
    if e.item.Single? {
      var m :| e.item.message == Stored(all, m);
      if m.ToolResult? {
        NameKeptOrLost(all, some, m.id);
      }
      StoredTwice(all, some, m);
    }
  }

  function RekeyAll(es: seq<StoredStep>): (rs: seq<StoredStep>)
    ensures |rs| == |es|
    ensures forall i | 0 <= i < |es| :: rs[i] == Rekeyed(es[i])
  {
    seq(|es|, i requires 0 <= i < |es| => Rekeyed(es[i]))
  }

  lemma {:induction false} SameRender(es: seq<StoredStep>, fs: seq<StoredStep>)
    requires |es| == |fs| && forall i | 0 <= i < |es| :: es[i].item == fs[i].item
    ensures Render(es) == Render(fs)
    decreases |es|
  {
    if es != [] {
      SameRender(es[1..], fs[1..]);
    }
  }

  // What a conversation must be for its stored form to be read as it was meant: results follow their
  // calls, one id names one tool, and counted read failures are truncated.
  ghost predicate Storable(a: seq<Message>) {
    Rereadable(Parse(a)) && Consistent(Calls(a)) && Settled(Parse(a))
  }

  lemma StepsFinal(a: seq<Message>)
    requires Storable(a)
    ensures AllFinal(Steps(a)) && AllPolished(Calls(a), Steps(a))
  {
    hide Parse, Final, Prepare, Fold, Calls;
    var es := PrepareAll(Calls(a), Parse(a));
    forall i | 0 <= i < |es| ensures Final(es[i]) && (es[i].key.Some? ==> IsLone(es[i].item)) {
      PrepareFinal(Calls(a), Parse(a)[i]);
      PreparedKey(Calls(a), Parse(a)[i]);
    }
    FoldFinal(es);
    PreparePolished(Calls(a), Parse(a));
    FoldPolished(Calls(a), es);
  }

  lemma PreparedKey(calls: seq<Call>, x: Item)
    ensures Prepare(calls, x).key.Some? ==> IsLone(Prepare(calls, x).item)
  {
  }

  /** The second pass sees the stored steps, with truncated failures. */
  lemma SecondPass(a: seq<Message>)
    requires Storable(a)
    ensures Semantic(Semantic(a)) == Render(Fold(RekeyAll(Steps(a)))) && Parse(Semantic(a)) == Items(Steps(a))
    ensures PrepareAll(Calls(Semantic(a)), Parse(Semantic(a))) == RekeyAll(Steps(a))
  {
    StoredReadsBack(a);
    StepsFinal(a);
    hide Parse, Final, Prepare, Fold, Calls, Polished, Render;
    var es, some := Steps(a), Calls(Semantic(a));
    forall c | c in some ensures c in Calls(a) {
      StoredCalls(a, c);
    }
    forall i | 0 <= i < |es| ensures Prepare(some, Items(es)[i]) == Rekeyed(es[i]) {
      assert Readable(Items(es)[i]);
      PrepareAgain(Calls(a), some, es[i]);
    }
    hide Steps;
    assert PrepareAll(some, Items(es)) == RekeyAll(es);
  }

  // Folding again changes something exactly when two neighbours have become equal.
  lemma RekeyedFolds(es: seq<StoredStep>)
    requires NoFold(es)
    ensures NoFold(RekeyAll(es)) <==> !Clash(es)
  {
    var rs := RekeyAll(es);
    if NoFold(rs) {
      forall i {:trigger es[i]} | 0 <= i < |es| - 1 ensures !Ambiguous(es[i], es[i + 1]) {
        assert !Foldable(rs[i], rs[i + 1]);
        assert rs[i + 1] == Rekeyed(es[i + 1]);
      }
    }
    if !Clash(es) {
      forall i {:trigger rs[i]} | 0 <= i < |rs| - 1 ensures !Foldable(rs[i], rs[i + 1]) {
        assert rs[i + 1] == Rekeyed(es[i + 1]);
        assert !Ambiguous(es[i], es[i + 1]);
        assert !Foldable(es[i], es[i + 1]);
      }
    }
  }

  // Two neighbouring lone failures of one read tool, with one code, whose messages differ only beyond
  // the first 300 characters.
  predicate Confusable(x: Item, y: Item) {
    && IsLone(x) && IsLone(y) && x.result.content.Failure? && y.result.content.Failure?
    && x.call.calls[0].name == y.call.calls[0].name && !Whole(x.call.calls[0].name)
    && x.result.content.code == y.result.content.code && x.result.content.message != y.result.content.message
    && Truncate(x.result.content.message, DIGEST_RUNES) == Truncate(y.result.content.message, DIGEST_RUNES)
  }

  ghost predicate Confusing(items: seq<Item>) {
    exists i {:trigger items[i]} :: 0 <= i < |items| - 1 && Confusable(items[i], items[i + 1])
  }

  lemma ConfusableClash(calls: seq<Call>, x: Item, y: Item)
    ensures Ambiguous(Prepare(calls, x), Prepare(calls, y)) <==> Confusable(x, y)
  {
    hide DigestOf, Truncate;
  }

  lemma ConfusingClash(calls: seq<Call>, items: seq<Item>)
    ensures Clash(PrepareAll(calls, items)) <==> Confusing(items)
  {
    hide Prepare, Ambiguous, Confusable;
    var es := PrepareAll(calls, items);
    if Clash(es) {
      var i :| 0 <= i < |es| - 1 && Ambiguous(es[i], es[i + 1]);
      ConfusableClash(calls, items[i], items[i + 1]);
    }
    if Confusing(items) {
      var i :| 0 <= i < |items| - 1 && Confusable(items[i], items[i + 1]);
      ConfusableClash(calls, items[i], items[i + 1]);
      assert es[i] == Prepare(calls, items[i]) && es[i + 1] == Prepare(calls, items[i + 1]);
    }
  }

  /**
    Storing a stored conversation changes nothing, if and only if no two neighbouring failures of it
    differ only beyond the truncation.
   */
  lemma IdempotentIff(a: seq<Message>)
    requires Storable(a)
    ensures Semantic(Semantic(a)) == Semantic(a) <==> !Confusing(Parse(a))
  {
    SecondPass(a);
    hide Parse, PrepareAll, Calls, Storable;
    var before := PrepareAll(Calls(a), Parse(a));
    var es := Steps(a);
    ConfusingClash(Calls(a), Parse(a));
    FoldClash(before);
    FoldIsDone(before);
    hide Clash, NoFold, Confusing, Fold;
    RekeyedFolds(es);
    SameRender(RekeyAll(es), es);
    if NoFold(RekeyAll(es)) {
      FoldNothing(RekeyAll(es));
    } else {
      FoldShorter(RekeyAll(es));
    }
  }

  /** Storing is stable after two passes. */
  lemma StableAfterTwo(a: seq<Message>)
    requires Storable(a)
    ensures Semantic(Semantic(Semantic(a))) == Semantic(Semantic(a))
  {
    hide Semantic, Confusing;
    StoredStorable(a);
    IdempotentIff(Semantic(a));
  }

  lemma DigestedTwice(k: Key)
    ensures Digested(Digested(k)) == Digested(k)
  {
    TruncateTwice(k.message, DIGEST_RUNES);
  }

  lemma StoredSettled(es: seq<StoredStep>)
    requires AllFinal(es)
    ensures Settled(Items(es))
  {
    forall i | 0 <= i < |es| ensures SettledItem(Items(es)[i]) {
      assert Final(es[i]);
    }
  }

  lemma StoredStorable(a: seq<Message>)
    requires Storable(a)
    ensures Storable(Semantic(a)) && !Confusing(Parse(Semantic(a)))
  {
    StoredReadsBack(a);
    StepsFinal(a);
    StoredSettled(Steps(a));
    SecondPass(a);
    forall c | c in Calls(Semantic(a)) ensures c in Calls(a) {
      StoredCalls(a, c);
    }
    hide Parse, Final, Prepare, Fold, Calls, Polished, Render, Semantic, Steps;
    ConfusingClash(Calls(Semantic(a)), Parse(Semantic(a)));
    hide Confusing;
    RekeyedClear(Steps(a));
  }

  lemma RekeyedClear(es: seq<StoredStep>)
    ensures !Clash(RekeyAll(es))
  {
    hide Digested;
    var rs := RekeyAll(es);
    forall i {:trigger rs[i]} | 0 <= i < |rs| - 1 ensures !Ambiguous(rs[i], rs[i + 1]) {
      assert rs[i + 1] == Rekeyed(es[i + 1]);
      if es[i].key.Some? {
        DigestedTwice(es[i].key.value);
      }
      if es[i + 1].key.Some? {
        DigestedTwice(es[i + 1].key.value);
      }
    }
  }

  // ---------------------------------------------------------------------------------------------
  // Storing with the next Run appended
  // ---------------------------------------------------------------------------------------------

  lemma {:induction false} FoldSingles(es: seq<StoredStep>, x: Item)
    requires x.Single? && x in Items(Fold(es))
    ensures x in Items(es)
    decreases |es|
  {
    if |es| >= 2 {
      var items := Items(es);
      if Foldable(es[0], es[1]) {
        var joined := [Join(es[0], es[1])] + es[2..];
        FoldSingles(joined, x);
        var i :| 0 <= i < |joined| && joined[i].item == x;
        if i > 0 {
          assert items[i + 1] == x;
        } else {
          assert items[0] == x;
        }
      } else {
        var folded := [es[0]] + Fold(es[1..]);
        var i :| 0 <= i < |folded| && folded[i].item == x;
        if i > 0 {
          assert Items(Fold(es[1..]))[i - 1] == x;
          FoldSingles(es[1..], x);
          var j :| 0 <= j < |es| - 1 && es[1..][j].item == x;
          assert items[j + 1] == x;
        } else {
          assert items[0] == x;
        }
      }
    }
  }

  // A loose result stays under its id.
  lemma StoredLoose(a: seq<Message>, id: string)
    requires Rereadable(Parse(a)) && Loose(Parse(Semantic(a)), id)
    ensures Loose(Parse(a), id)
  {
    StoredReadsBack(a);
    hide Parse, Fold, Rereadable, Semantic, Calls, Sound, Prepare;
    var before := PrepareAll(Calls(a), Parse(a));
    var x :| x in Items(Steps(a)) && x.Single? && x.message.ToolResult? && x.message.id == id;
    FoldSingles(before, x);
    var i :| 0 <= i < |before| && before[i].item == x;
    PreparedLoose(Calls(a), Parse(a)[i]);
    assert Parse(a)[i] in Parse(a);
  }

  lemma PreparedLoose(calls: seq<Call>, x: Item)
    ensures var y := Prepare(calls, x).item;
      y.Single? && y.message.ToolResult? ==> x.Single? && x.message.ToolResult? && x.message.id == y.message.id
  {
  }

  lemma StoredNextRun(a: seq<Message>, b: seq<Message>)
    requires Rereadable(Parse(a)) && NextRun(a, b)
    ensures NextRun(Semantic(a), b)
  {
    hide Parse, Semantic, Rereadable, Calls;
    forall id | Loose(Parse(Semantic(a)), id) ensures !Called(Calls(b), id) {
      StoredLoose(a, id);
    }
    forall id | Loose(Parse(b), id) ensures !Called(Calls(Semantic(a)), id) {
      forall c | c in Calls(Semantic(a)) ensures c in Calls(a) {
        StoredCalls(a, c);
      }
    }
  }

  /**
    Appending a Run to the stored conversation and storing again is storing everything at once, if and
    only if the stored part had no confusable neighbours.
   */
  lemma IncrementalIff(a: seq<Message>, b: seq<Message>)
    requires Storable(a) && NextRun(a, b)
    ensures Semantic(Semantic(a) + b) == Semantic(a + b) <==> !Confusing(Parse(a))
  {
    StoredNextRun(a, b);
    hide Semantic, NextRun, Storable, Confusing;
    SemanticAppend(a, b);
    SemanticAppend(Semantic(a), b);
    IdempotentIff(a);
    var again, once, next := Semantic(Semantic(a)), Semantic(a), Semantic(b);
    if again + next == once + next {
      assert |again| == |once|;
      assert again == (again + next)[..|again|] && once == (once + next)[..|again|];
    }
  }

  // ---------------------------------------------------------------------------------------------
  // Counting failures
  // ---------------------------------------------------------------------------------------------

  function Weight(x: Item): nat {
    if IsLone(x) && x.result.content.Failure? then Count(x.result.content) else 0
  }

  function Total(items: seq<Item>): nat {
    if items == [] then 0 else Weight(items[0]) + Total(items[1..])
  }

  // The failures of a stored step, by the key it was folded under.
  function Tally(es: seq<StoredStep>): nat {
    if es == [] then 0 else (if es[0].key.Some? then Weight(es[0].item) else 0) + Tally(es[1..])
  }

  lemma JoinWeight(a: StoredStep, b: StoredStep)
    requires IsLone(a.item) && IsLone(b.item) && a.item.result.content.Failure? && b.item.result.content.Failure?
    ensures Weight(Join(a, b).item) == Weight(a.item) + Weight(b.item)
  {
  }

  ghost predicate Failing(es: seq<StoredStep>) {
    forall i | 0 <= i < |es| && es[i].key.Some? :: IsLone(es[i].item) && es[i].item.result.content.Failure?
  }

  lemma {:induction false} FoldTally(es: seq<StoredStep>)
    requires Failing(es)
    ensures Tally(Fold(es)) == Tally(es) && Failing(Fold(es))
    decreases |es|
  {
    if |es| >= 2 {
      assert es[1..][1..] == es[2..];
      if Foldable(es[0], es[1]) {
        var joined := [Join(es[0], es[1])] + es[2..];
        assert joined[1..] == es[2..];
        assert forall i | 0 < i < |joined| :: joined[i] == es[i + 1];
        JoinWeight(es[0], es[1]);
        FoldTally(joined);
      } else {
        FoldTally(es[1..]);
        assert ([es[0]] + Fold(es[1..]))[1..] == Fold(es[1..]);
      }
    }
  }

  lemma {:induction false} PreparedTally(calls: seq<Call>, items: seq<Item>)
    ensures Tally(PrepareAll(calls, items)) == Total(items) && Failing(PrepareAll(calls, items))
    decreases |items|
  {
    hide Prepare;
    if items != [] {
      var x := items[0];
      PreparedWeight(calls, x);
      assert items == [x] + items[1..];
      PrepareCons(calls, x, items[1..]);
      var es := PrepareAll(calls, items);
      assert es[1..] == PrepareAll(calls, items[1..]);
      PreparedTally(calls, items[1..]);
      forall i | 0 <= i < |es| && es[i].key.Some? ensures IsLone(es[i].item) && es[i].item.result.content.Failure? {
        PreparedWeight(calls, items[i]);
      }
    }
  }

  lemma PreparedWeight(calls: seq<Call>, x: Item)
    ensures var e := Prepare(calls, x);
      && Weight(x) == (if e.key.Some? then Weight(e.item) else 0)
      && (e.key.Some? ==> IsLone(e.item) && e.item.result.content.Failure?)
  {
    if IsLone(x) {
      DigestCount(x.call.calls[0].name, x.result.content);
    }
  }

  lemma {:induction false} FinalTally(es: seq<StoredStep>)
    requires AllFinal(es)
    ensures Total(Items(es)) == Tally(es)
    decreases |es|
  {
    if es != [] {
      assert Final(es[0]);
      assert Items(es)[1..] == Items(es[1..]);
      FinalTally(es[1..]);
    }
  }

  /** The number of failures a conversation stands for is the same after it is stored. */
  lemma FailuresConserved(a: seq<Message>)
    requires Storable(a)
    ensures Total(Parse(Semantic(a))) == Total(Parse(a))
  {
    hide Parse, Fold, Prepare, Final, Failing, Semantic, Storable, Calls;
    assert Rereadable(Parse(a)) by { StorableReads(a); }
    StoredReadsBack(a);
    StepsFinal(a);
    PreparedTally(Calls(a), Parse(a));
    FoldTally(PrepareAll(Calls(a), Parse(a)));
    FinalTally(Steps(a));
  }

  lemma StorableReads(a: seq<Message>)
    requires Storable(a)
    ensures Rereadable(Parse(a))
  {
  }

  // ---------------------------------------------------------------------------------------------
  // What is never lost
  // ---------------------------------------------------------------------------------------------

  // Folding only absorbs failures.
  lemma {:induction false} FoldKeeps(es: seq<StoredStep>, i: nat)
    requires i < |es| && es[i].key.None?
    ensures es[i] in Fold(es)
    decreases |es|
  {
    if |es| >= 2 {
      if Foldable(es[0], es[1]) {
        var joined := [Join(es[0], es[1])] + es[2..];
        assert joined[i - 1] == es[i];
        FoldKeeps(joined, i - 1);
      } else {
        var folded := [es[0]] + Fold(es[1..]);
        assert folded[0] == es[0];
        if i > 0 {
          assert es[1..][i - 1] == es[i];
          FoldKeeps(es[1..], i - 1);
          var j :| 0 <= j < |Fold(es[1..])| && Fold(es[1..])[j] == es[i];
          assert folded[j + 1] == es[i];
        }
      }
    }
  }

  // ---------------------------------------------------------------------------------------------
  // The idempotence the source claims does not always hold
  // ---------------------------------------------------------------------------------------------

  function Fill(n: nat): string {
    if n == 0 then "" else Fill(n - 1) + "a"
  }

  lemma FillLength(n: nat)
    ensures |Fill(n)| == n
  {
  }

  function FailedCall(id: string, ending: string): seq<Message> {
    [Assistant(None, [Call(id, "get_price", "")]), ToolResult(id, Failure("E", Fill(DIGEST_RUNES) + ending, None, 0))]
  }

  lemma ExampleParses(a: seq<Message>, b: seq<Message>, x: Item, y: Item)
    requires a == FailedCall("1", "b") && b == FailedCall("2", "c") && x == Lone(a[0], a[1]) && y == Lone(b[0], b[1])
    ensures Parse(a + b) == [x, y] && Calls(a + b) == [Call("1", "get_price", ""), Call("2", "get_price", "")]
  {
    var ms := a + b;
    assert ms[2..] == b;
    assert b[2..] == [];
    assert Parse(b) == [y] + Parse([]);
    assert Parse(ms) == [x] + Parse(b);
    CallsAppend(a, b);
    FlatCalls(x);
    FlatCalls(y);
  }

  /** Two failures whose messages differ in character 301: the second pass still folds them. */
  lemma NotIdempotent()
    ensures exists a :: Storable(a) && Semantic(Semantic(a)) != Semantic(a)
  {
    var a, b := FailedCall("1", "b"), FailedCall("2", "c");
    var x, y := Lone(a[0], a[1]), Lone(b[0], b[1]);
    FillLength(DIGEST_RUNES);
    ExampleParses(a, b, x, y);
    hide Parse, Calls, Fill, FailedCall;
    assert Rereadable([x, y]) && Settled([x, y]);
    assert Confusable(x, y) by {
      var f := Fill(DIGEST_RUNES);
      assert (f + "b")[..DIGEST_RUNES] == f == (f + "c")[..DIGEST_RUNES];
      assert (f + "b")[DIGEST_RUNES] != (f + "c")[DIGEST_RUNES];
    }
    assert Confusing([x, y]) by {
      assert [x, y][0] == x && [x, y][0 + 1] == y;
    }
    hide Semantic, Confusing, Rereadable, Settled;
    IdempotentIff(a + b);
  }
}
