/**
  What semantic storage tells of the calls that change something: when it tells how each of them ended,
  and when it keeps every one that succeeded or may have.
 */
module StoredEvidence {
  import opened Prelude
  import opened Messages
  import opened SemanticStorage
  import opened SemanticLaws

  // ---------------------------------------------------------------------------------------------
  // What a conversation tells of its mutations
  // ---------------------------------------------------------------------------------------------

  // A result without its count.
  function Bare(r: Result): Result {
    if r.Failure? then r.(repeats := 0) else r
  }

  datatype Report = Report(name: string, result: Result)

  function Copies(report: Report, n: nat): (s: seq<Report>)
    ensures |s| == n && forall i | 0 <= i < n :: s[i] == report
  {
    seq(n, i => report)
  }

  // The tool of a step with a result.
  function ToolOf(calls: seq<Call>, x: Item): Option<string> {
    if IsLone(x) then Some(x.call.calls[0].name)
    else if x.Single? && x.message.ToolResult? then Some(NameOf(calls, x.message.id))
    else None
  }

  function ContentOf(calls: seq<Call>, x: Item): Result
    requires ToolOf(calls, x).Some?
  {
    if IsLone(x) then x.result.content else x.message.content
  }

  predicate Mutates(calls: seq<Call>, x: Item) {
    ToolOf(calls, x).Some? && IsMutation(ToolOf(calls, x).value)
  }

  // A step tells how a mutation ended, as many times as it counts.
  function ReportsOf(calls: seq<Call>, x: Item): seq<Report> {
    if Mutates(calls, x)
    then Copies(Report(ToolOf(calls, x).value, Bare(ContentOf(calls, x))), Count(ContentOf(calls, x)))
    else []
  }

  function Reports(calls: seq<Call>, items: seq<Item>): seq<Report> {
    if items == [] then [] else ReportsOf(calls, items[0]) + Reports(calls, items[1..])
  }

  // Two lone calls of one mutation, one after the other, that failed with the same error but not the
  // same outcome.
  predicate Misreports(x: Item, y: Item) {
    && SameFailure(x, y) && x.result.content.outcome != y.result.content.outcome
  }

  predicate SameFailure(x: Item, y: Item) {
    && IsLone(x) && IsLone(y) && IsMutation(x.call.calls[0].name) && x.call.calls[0].name == y.call.calls[0].name
    && x.result.content.Failure? && y.result.content.Failure?
    && x.result.content.code == y.result.content.code && x.result.content.message == y.result.content.message
  }

  ghost predicate Misreporting(items: seq<Item>) {
    exists i {:trigger items[i]} :: 0 <= i < |items| - 1 && Misreports(items[i], items[i + 1])
  }

  lemma {:induction false} MisreportingCons(x: Item, rest: seq<Item>)
    ensures Misreporting([x] + rest) <==> (rest != [] && Misreports(x, rest[0])) || Misreporting(rest)
  {
    hide Misreports;
    var items := [x] + rest;
    if i :| 0 <= i < |rest| - 1 && Misreports(rest[i], rest[i + 1]) {
      assert items[i + 1] == rest[i] && items[i + 1 + 1] == rest[i + 1];
    }
    if i :| 0 <= i < |items| - 1 && Misreports(items[i], items[i + 1]) {
      if i > 0 {
        assert rest[i - 1] == items[i] && rest[i - 1 + 1] == items[i + 1];
      }
    }
    if rest != [] && Misreports(x, rest[0]) {
      assert items[0] == x && items[0 + 1] == rest[0];
    }
  }

  // ---------------------------------------------------------------------------------------------
  // Steps in stored form
  // ---------------------------------------------------------------------------------------------

  // The key of a step is its failure; that of a mutation can be read off the stored result.
  predicate Keyed(e: StoredStep) {
    && (e.key.Some? ==> IsLone(e.item) && e.key.value.name == e.item.call.calls[0].name)
    && (IsLone(e.item) && IsMutation(e.item.call.calls[0].name) ==>
          e.key == FailureKeyOf(e.item.call.calls[0].name, e.item.result.content))
  }

  predicate AllKeyed(es: seq<StoredStep>) {
    forall i | 0 <= i < |es| :: Keyed(es[i])
  }

  lemma {:induction false} PreparedKeyed(calls: seq<Call>, x: Item)
    ensures Keyed(Prepare(calls, x)) && ReportsOf(calls, Prepare(calls, x).item) == ReportsOf(calls, x)
    ensures Mutates(calls, x) ==> Prepare(calls, x).item == x
    ensures Mutates(calls, Prepare(calls, x).item) <==> Mutates(calls, x)
  {
  }

  lemma {:induction false} JoinKeyed(a: StoredStep, b: StoredStep)
    requires Keyed(a) && Keyed(b) && Foldable(a, b)
    ensures Keyed(Join(a, b)) && IsLone(a.item) && IsLone(b.item) && IsLone(Join(a, b).item)
    ensures a.item.call.calls[0].name == b.item.call.calls[0].name && Join(a, b).item.call == a.item.call
    ensures IsMutation(a.item.call.calls[0].name) ==>
      && SameFailure(a.item, b.item)
      && Join(a, b).item.result.content == a.item.result.content.(repeats := a.item.result.content.repeats + Count(b.item.result.content))
  {
  }

  lemma {:induction false} TailKeyed(es: seq<StoredStep>, n: nat)
    requires AllKeyed(es) && n <= |es|
    ensures AllKeyed(es[n..])
  {
  }

  lemma {:induction false} JoinAllKeyed(es: seq<StoredStep>)
    requires |es| >= 2 && AllKeyed(es) && Foldable(es[0], es[1])
    ensures AllKeyed([Join(es[0], es[1])] + es[2..])
  {
    hide Keyed;
    JoinKeyed(es[0], es[1]);
    TailKeyed(es, 2);
  }

  lemma {:induction false} ItemsCons(e: StoredStep, rest: seq<StoredStep>)
    ensures Items([e] + rest) == [e.item] + Items(rest)
  {
  }

  lemma {:induction false} ReportsCons(calls: seq<Call>, e: StoredStep, rest: seq<StoredStep>)
    ensures Reports(calls, Items([e] + rest)) == ReportsOf(calls, e.item) + Reports(calls, Items(rest))
  {
    ItemsCons(e, rest);
    assert ([e.item] + Items(rest))[1..] == Items(rest);
  }

  // ---------------------------------------------------------------------------------------------
  // Folding and the reports
  // ---------------------------------------------------------------------------------------------

  // The outcomes that folding puts together are the same, or the first speaks for both.
  lemma {:induction false} JoinReports(calls: seq<Call>, a: StoredStep, b: StoredStep)
    requires Keyed(a) && Keyed(b) && Foldable(a, b)
    ensures !Misreports(a.item, b.item) ==> ReportsOf(calls, Join(a, b).item) == ReportsOf(calls, a.item) + ReportsOf(calls, b.item)
    ensures Misreports(a.item, b.item) ==>
      && 0 < |ReportsOf(calls, a.item)| < |ReportsOf(calls, Join(a, b).item)| && ReportsOf(calls, b.item) != []
      && ReportsOf(calls, Join(a, b).item)[|ReportsOf(calls, a.item)|] != ReportsOf(calls, b.item)[0]
  {
    JoinKeyed(a, b);
    hide Keyed, Foldable, Join;
  }

  // The first step keeps telling what it told.
  lemma {:induction false} FirstReports(calls: seq<Call>, es: seq<StoredStep>)
    requires es != [] && AllKeyed(es)
    ensures ReportsOf(calls, es[0].item) <= Reports(calls, Items(Fold(es)))
    decreases |es|
  {
    hide ReportsOf, Reports, Join, Keyed, Items;
    var tail := es[1..];
    if |es| < 2 {
      FoldShort(es);
      assert es == [es[0]] + [];
      ReportsCons(calls, es[0], []);
    } else if Foldable(es[0], es[1]) {
      FoldStep(es);
      JoinAllKeyed(es);
      var joined := [Join(es[0], es[1])] + es[2..];
      FirstReports(calls, joined);
      JoinLonger(calls, es[0], es[1]);
    } else {
      FoldStep(es);
      ReportsCons(calls, es[0], Fold(tail));
    }
  }

  lemma {:induction false} JoinLonger(calls: seq<Call>, a: StoredStep, b: StoredStep)
    requires Keyed(a) && Keyed(b) && Foldable(a, b)
    ensures ReportsOf(calls, a.item) <= ReportsOf(calls, Join(a, b).item)
  {
    JoinKeyed(a, b);
    hide Keyed, Foldable, Join;
  }

  // A joined step is as different from what follows as the second of the two.
  lemma {:induction false} JoinMisreports(a: StoredStep, b: StoredStep, y: Item)
    requires Keyed(a) && Keyed(b) && Foldable(a, b) && !Misreports(a.item, b.item)
    ensures Misreports(Join(a, b).item, y) <==> Misreports(b.item, y)
  {
    JoinKeyed(a, b);
    hide Keyed, Foldable, Join;
  }

  lemma {:induction false} MisreportsFold(a: StoredStep, b: StoredStep)
    requires Keyed(a) && Keyed(b) && Misreports(a.item, b.item)
    ensures Foldable(a, b)
  {
  }

  lemma {:induction false} SameTail(first: seq<Report>, a: seq<Report>, b: seq<Report>)
    ensures first + a == first + b <==> a == b
  {
    if first + a == first + b {
      assert a == (first + a)[|first|..] && b == (first + b)[|first|..];
    }
  }

  lemma {:induction false} FoldReports(calls: seq<Call>, es: seq<StoredStep>)
    requires AllKeyed(es)
    ensures Reports(calls, Items(Fold(es))) == Reports(calls, Items(es)) <==> !Misreporting(Items(es))
    decreases |es|
  {
    hide ReportsOf, Reports, Join, Keyed, Items, Misreporting, Misreports, Foldable;
    if |es| < 2 {
      FoldShort(es);
      ShortIsTrue(Items(es));
    } else {
      var a, b, tail, more := es[0], es[1], es[1..], es[2..];
      FoldStep(es);
      TailKeyed(es, 1);
      assert es == [a] + tail && tail == [b] + more;
      ItemsCons(a, tail);
      ItemsCons(b, more);
      MisreportingCons(a.item, Items(tail));
      MisreportingCons(b.item, Items(more));
      ReportsCons(calls, a, tail);
      if !Foldable(a, b) {
        FoldReports(calls, tail);
        ReportsCons(calls, a, Fold(tail));
        SameTail(ReportsOf(calls, a.item), Reports(calls, Items(Fold(tail))), Reports(calls, Items(tail)));
        if Misreports(a.item, b.item) {
          MisreportsFold(a, b);
        }
      } else {
        ReportsCons(calls, b, more);
        FoldedReports(calls, a, b, more);
      }
    }
  }

  lemma {:induction false} ShortIsTrue(items: seq<Item>)
    requires |items| < 2
    ensures !Misreporting(items)
  {
  }

  lemma {:induction false} FoldedReports(calls: seq<Call>, a: StoredStep, b: StoredStep, more: seq<StoredStep>)
    requires AllKeyed([a, b] + more) && Foldable(a, b)
    ensures var told := ReportsOf(calls, a.item) + (ReportsOf(calls, b.item) + Reports(calls, Items(more)));
      Reports(calls, Items(Fold([Join(a, b)] + more))) == told <==>
      !Misreports(a.item, b.item) && !((Items(more) != [] && Misreports(b.item, Items(more)[0])) || Misreporting(Items(more)))
    decreases |more| + 2, 0
  {
    hide ReportsOf, Reports, Join, Keyed, Items, Misreporting, Misreports, Foldable, Fold;
    var es := [a, b] + more;
    assert es[0] == a && es[1] == b && es[2..] == more;
    JoinAllKeyed(es);
    assert Keyed(a) && Keyed(b);
    var e := Join(a, b);
    var joined := [e] + more;
    JoinReports(calls, a, b);
    hide AllKeyed;
    var ra, rb, rest := ReportsOf(calls, a.item), ReportsOf(calls, b.item), Reports(calls, Items(more));
    if Misreports(a.item, b.item) {
      FirstReports(calls, joined);
      Differs(ra, rb, rest, ReportsOf(calls, e.item), Reports(calls, Items(Fold(joined))));
    } else {
      FoldReports(calls, joined);
      ReportsCons(calls, e, more);
      ItemsCons(e, more);
      MisreportingCons(e.item, Items(more));
      if Items(more) != [] {
        JoinMisreports(a, b, Items(more)[0]);
      }
      Regroup(ra, rb, rest);
    }
  }

  lemma {:induction false} Regroup(a: seq<Report>, b: seq<Report>, c: seq<Report>)
    ensures a + b + c == a + (b + c)
  {
  }

  lemma {:induction false} Differs(ra: seq<Report>, rb: seq<Report>, rest: seq<Report>, re: seq<Report>, folded: seq<Report>)
    requires |ra| < |re| && rb != [] && re[|ra|] != rb[0] && re <= folded
    ensures folded != ra + (rb + rest)
  {
    assert folded[|ra|] == re[|ra|];
    assert (ra + (rb + rest))[|ra|] == rb[0];
  }

  lemma {:induction false} PreparedReports(calls: seq<Call>, items: seq<Item>)
    ensures Reports(calls, Items(PrepareAll(calls, items))) == Reports(calls, items) && AllKeyed(PrepareAll(calls, items))
    decreases |items|
  {
    hide ReportsOf, Keyed, Prepare, Items;
    forall i | 0 <= i < |items| ensures Keyed(PrepareAll(calls, items)[i]) {
      PreparedKeyed(calls, items[i]);
    }
    if items == [] {
      assert Items(PrepareAll(calls, items)) == [];
    } else {
      assert items == [items[0]] + items[1..];
      PreparedKeyed(calls, items[0]);
      PrepareCons(calls, items[0], items[1..]);
      ReportsCons(calls, Prepare(calls, items[0]), PrepareAll(calls, items[1..]));
      PreparedReports(calls, items[1..]);
    }
  }

  lemma {:induction false} PreparedMisreports(calls: seq<Call>, x: Item, y: Item)
    ensures Misreports(Prepare(calls, x).item, Prepare(calls, y).item) <==> Misreports(x, y)
  {
  }

  lemma {:induction false} PreparedMisreporting(calls: seq<Call>, items: seq<Item>)
    ensures Misreporting(Items(PrepareAll(calls, items))) <==> Misreporting(items)
  {
    hide Misreports, Prepare;
    var prepared := Items(PrepareAll(calls, items));
    forall i {:trigger items[i]} | 0 <= i < |items| - 1 ensures Misreports(prepared[i], prepared[i + 1]) <==> Misreports(items[i], items[i + 1]) {
      PreparedMisreports(calls, items[i], items[i + 1]);
    }
    if i :| 0 <= i < |items| - 1 && Misreports(items[i], items[i + 1]) {
      assert prepared[i] == Prepare(calls, items[i]).item;
    }
    if i :| 0 <= i < |items| - 1 && Misreports(prepared[i], prepared[i + 1]) {
      assert items[i] == items[i];
    }
  }

  /**
    Read a stored failure as having happened as often as it counts. Then the stored conversation tells,
    in order, which mutations were tried and how each ended, if and only if no two neighbouring lone
    failures of one mutation share their error and differ in their outcome.
   */
  lemma {:induction false} ReportsTrueIff(a: seq<Message>)
    requires Rereadable(Parse(a))
    ensures Reports(Calls(a), Parse(Semantic(a))) == Reports(Calls(a), Parse(a)) <==> !Misreporting(Parse(a))
  {
    StoredReadsBack(a);
    hide Parse, Fold, Rereadable, Semantic, Reports, Misreporting, Items, Calls;
    PreparedReports(Calls(a), Parse(a));
    FoldReports(Calls(a), PrepareAll(Calls(a), Parse(a)));
    PreparedMisreporting(Calls(a), Parse(a));
  }

  // ---------------------------------------------------------------------------------------------
  // The mutations that succeeded, or may have
  // ---------------------------------------------------------------------------------------------

  predicate Evident(calls: seq<Call>, x: Item) {
    Mutates(calls, x) && (!ContentOf(calls, x).Failure? || ContentOf(calls, x).outcome == Some("unknown"))
  }

  // A step without its count.
  function BareItem(x: Item): Item {
    if IsLone(x) then x.(result := x.result.(content := Bare(x.result.content)))
    else if x.Single? && x.message.ToolResult? then Single(x.message.(content := Bare(x.message.content)))
    else x
  }

  function EvidenceOf(calls: seq<Call>, x: Item): seq<Item> {
    if Evident(calls, x) then [BareItem(x)] else []
  }

  // The calls with their results, or the results, that are evidence, in order.
  function Evidence(calls: seq<Call>, items: seq<Item>): seq<Item> {
    if items == [] then [] else EvidenceOf(calls, items[0]) + Evidence(calls, items[1..])
  }

  // Two lone calls of one mutation, one after the other, that failed with the same error, the second
  // perhaps executed.
  predicate Absorbs(x: Item, y: Item) {
    SameFailure(x, y) && y.result.content.outcome == Some("unknown")
  }

  ghost predicate Absorbing(items: seq<Item>) {
    exists i {:trigger items[i]} :: 0 <= i < |items| - 1 && Absorbs(items[i], items[i + 1])
  }

  lemma {:induction false} AbsorbingCons(x: Item, rest: seq<Item>)
    ensures Absorbing([x] + rest) <==> (rest != [] && Absorbs(x, rest[0])) || Absorbing(rest)
  {
    hide Absorbs;
    var items := [x] + rest;
    if i :| 0 <= i < |rest| - 1 && Absorbs(rest[i], rest[i + 1]) {
      assert items[i + 1] == rest[i] && items[i + 1 + 1] == rest[i + 1];
    }
    if i :| 0 <= i < |items| - 1 && Absorbs(items[i], items[i + 1]) {
      if i > 0 {
        assert rest[i - 1] == items[i] && rest[i - 1 + 1] == items[i + 1];
      }
    }
    if rest != [] && Absorbs(x, rest[0]) {
      assert items[0] == x && items[0 + 1] == rest[0];
    }
  }

  lemma {:induction false} EvidenceCons(calls: seq<Call>, e: StoredStep, rest: seq<StoredStep>)
    ensures Evidence(calls, Items([e] + rest)) == EvidenceOf(calls, e.item) + Evidence(calls, Items(rest))
  {
    ItemsCons(e, rest);
    assert ([e.item] + Items(rest))[1..] == Items(rest);
  }

  // Of two joined steps the first is kept; the second is lost as evidence exactly when it is evidence.
  lemma {:induction false} JoinEvidence(calls: seq<Call>, a: StoredStep, b: StoredStep)
    requires Keyed(a) && Keyed(b) && Foldable(a, b)
    ensures EvidenceOf(calls, Join(a, b).item) == EvidenceOf(calls, a.item)
    ensures EvidenceOf(calls, b.item) != [] <==> Absorbs(a.item, b.item)
    ensures forall y :: Absorbs(Join(a, b).item, y) <==> Absorbs(b.item, y)
  {
    JoinKeyed(a, b);
    hide Keyed, Foldable, Join;
  }

  lemma {:induction false} AbsorbsFold(a: StoredStep, b: StoredStep)
    requires Keyed(a) && Keyed(b) && Absorbs(a.item, b.item)
    ensures Foldable(a, b)
  {
  }

  lemma {:induction false} SameEvidence(first: seq<Item>, a: seq<Item>, b: seq<Item>)
    ensures first + a == first + b <==> a == b
  {
    if first + a == first + b {
      assert a == (first + a)[|first|..] && b == (first + b)[|first|..];
    }
  }

  lemma {:induction false} FoldEvidence(calls: seq<Call>, es: seq<StoredStep>)
    requires AllKeyed(es)
    ensures |Evidence(calls, Items(Fold(es)))| <= |Evidence(calls, Items(es))|
    ensures Evidence(calls, Items(Fold(es))) == Evidence(calls, Items(es)) <==> !Absorbing(Items(es))
    decreases |es|
  {
    hide EvidenceOf, Evidence, Join, Keyed, Items, Absorbing, Absorbs, Foldable;
    if |es| < 2 {
      FoldShort(es);
      ShortKeeps(Items(es));
    } else {
      var a, b, tail, more := es[0], es[1], es[1..], es[2..];
      FoldStep(es);
      TailKeyed(es, 1);
      assert es == [a] + tail && tail == [b] + more;
      ItemsCons(a, tail);
      ItemsCons(b, more);
      AbsorbingCons(a.item, Items(tail));
      AbsorbingCons(b.item, Items(more));
      EvidenceCons(calls, a, tail);
      if !Foldable(a, b) {
        FoldEvidence(calls, tail);
        EvidenceCons(calls, a, Fold(tail));
        SameEvidence(EvidenceOf(calls, a.item), Evidence(calls, Items(Fold(tail))), Evidence(calls, Items(tail)));
        if Absorbs(a.item, b.item) {
          AbsorbsFold(a, b);
        }
      } else {
        JoinAllKeyed(es);
        JoinEvidence(calls, a, b);
        var joined := [Join(a, b)] + more;
        FoldEvidence(calls, joined);
        EvidenceCons(calls, b, more);
        EvidenceCons(calls, Join(a, b), more);
        ItemsCons(Join(a, b), more);
        AbsorbingCons(Join(a, b).item, Items(more));
        assert EvidenceOf(calls, b.item) == [] ==> EvidenceOf(calls, b.item) + Evidence(calls, Items(more)) == Evidence(calls, Items(more));
      }
    }
  }

  lemma {:induction false} ShortKeeps(items: seq<Item>)
    requires |items| < 2
    ensures !Absorbing(items)
  {
  }

  lemma {:induction false} PreparedEvidence(calls: seq<Call>, items: seq<Item>)
    ensures Evidence(calls, Items(PrepareAll(calls, items))) == Evidence(calls, items)
    decreases |items|
  {
    hide EvidenceOf, Prepare, Items;
    if items == [] {
      assert Items(PrepareAll(calls, items)) == [];
    } else {
      assert items == [items[0]] + items[1..];
      assert EvidenceOf(calls, Prepare(calls, items[0]).item) == EvidenceOf(calls, items[0]) by { PreparedEvident(calls, items[0]); }
      PrepareCons(calls, items[0], items[1..]);
      EvidenceCons(calls, Prepare(calls, items[0]), PrepareAll(calls, items[1..]));
      PreparedEvidence(calls, items[1..]);
    }
  }

  lemma {:induction false} PreparedEvident(calls: seq<Call>, x: Item)
    ensures EvidenceOf(calls, Prepare(calls, x).item) == EvidenceOf(calls, x)
  {
    PreparedKeyed(calls, x);
    hide Prepare;
  }

  lemma {:induction false} PreparedAbsorbs(calls: seq<Call>, x: Item, y: Item)
    ensures Absorbs(Prepare(calls, x).item, Prepare(calls, y).item) <==> Absorbs(x, y)
  {
  }

  lemma {:induction false} PreparedAbsorbing(calls: seq<Call>, items: seq<Item>)
    ensures Absorbing(Items(PrepareAll(calls, items))) <==> Absorbing(items)
  {
    hide Absorbs, Prepare;
    var prepared := Items(PrepareAll(calls, items));
    forall i {:trigger items[i]} | 0 <= i < |items| - 1 ensures Absorbs(prepared[i], prepared[i + 1]) <==> Absorbs(items[i], items[i + 1]) {
      PreparedAbsorbs(calls, items[i], items[i + 1]);
    }
    if i :| 0 <= i < |items| - 1 && Absorbs(items[i], items[i + 1]) {
      assert prepared[i] == Prepare(calls, items[i]).item;
    }
    if i :| 0 <= i < |items| - 1 && Absorbs(prepared[i], prepared[i + 1]) {
      assert items[i] == items[i];
    }
  }

  /**
    Storage keeps the calls and results of every mutation that succeeded or may have, in order, if and
    only if no lone failure of a mutation whose outcome is unknown directly follows one of the same tool
    with the same error.
   */
  lemma {:induction false} EvidenceKeptIff(a: seq<Message>)
    requires Rereadable(Parse(a))
    ensures Evidence(Calls(a), Parse(Semantic(a))) == Evidence(Calls(a), Parse(a)) <==> !Absorbing(Parse(a))
  {
    StoredReadsBack(a);
    hide Parse, Fold, Rereadable, Semantic, Evidence, Absorbing, Items, Calls, Reports;
    PreparedReports(Calls(a), Parse(a));
    PreparedEvidence(Calls(a), Parse(a));
    FoldEvidence(Calls(a), PrepareAll(Calls(a), Parse(a)));
    PreparedAbsorbing(Calls(a), Parse(a));
  }

  // A step that storage leaves as it is: a call of a mutation or a skill that did not fail, a result of
  // one among parallel calls, however it ended, and any message but a wake-up or a read's result.
  predicate Lasting(calls: seq<Call>, x: Item) {
    if x.Lone? then IsLone(x) && Whole(x.call.calls[0].name) && !x.result.content.Failure?
    else !IsWake(x.message) && (x.message.ToolResult? ==> Whole(NameOf(calls, x.message.id)))
  }

  /** What lasts is stored word for word; a lone call keeps its place next to its result. */
  lemma {:induction false} LastingKept(a: seq<Message>, x: Item)
    requires Rereadable(Parse(a)) && x in Parse(a) && Lasting(Calls(a), x)
    ensures x in Parse(Semantic(a))
  {
    StoredReadsBack(a);
    hide Parse, Fold, Rereadable, Semantic, Calls, NameOf;
    var es := PrepareAll(Calls(a), Parse(a));
    var i :| 0 <= i < |Parse(a)| && Parse(a)[i] == x;
    assert es[i] == StoredStep(x, None);
    FoldKeeps(es, i);
    var j :| 0 <= j < |Steps(a)| && Steps(a)[j] == es[i];
    assert Items(Steps(a))[j] == x;
  }

  lemma {:induction false} EvidenceMember(calls: seq<Call>, items: seq<Item>, z: Item)
    ensures z in Evidence(calls, items) <==> exists x :: x in items && Evident(calls, x) && BareItem(x) == z
    decreases |items|
  {
    hide Evident, BareItem;
    if items != [] {
      EvidenceMember(calls, items[1..], z);
      assert forall x :: x in items <==> x == items[0] || x in items[1..];
    }
  }

  /** While nothing is absorbed, each mutation that succeeded or may have keeps its call and its result. */
  lemma {:induction false} EvidenceKept(a: seq<Message>, x: Item)
    requires Rereadable(Parse(a)) && x in Parse(a) && Evident(Calls(a), x) && !Absorbing(Parse(a))
    ensures exists y :: y in Parse(Semantic(a)) && Evident(Calls(a), y) && BareItem(y) == BareItem(x)
  {
    EvidenceKeptIff(a);
    hide Parse, Rereadable, Semantic, Evidence, Absorbing, Calls, Evident, BareItem;
    EvidenceMember(Calls(a), Parse(a), BareItem(x));
    EvidenceMember(Calls(a), Parse(Semantic(a)), BareItem(x));
  }

  // ---------------------------------------------------------------------------------------------
  // What storage loses
  // ---------------------------------------------------------------------------------------------

  // An order that ran into the deadline: before its request was sent, or after.
  function TimedOut(id: string, arguments: string, outcome: string, repeats: nat): seq<Message> {
    [Assistant(None, [Call(id, "place_order", arguments)]),
     ToolResult(id, Failure("TOOL_TIMEOUT", "context deadline exceeded", Some(outcome), repeats))]
  }

  /** Of two orders that timed out one after the other, whatever they were and however they ended, only the first is stored. */
  lemma {:induction false} SecondOrderIsLost(id: string, order: string, outcome: string, id': string, order': string, outcome': string)
    ensures var a := TimedOut(id, order, outcome, 0) + TimedOut(id', order', outcome', 0);
      Semantic(a) == TimedOut(id, order, outcome, 1) && Parse(a) == [Lone(a[0], a[1]), Lone(a[2], a[3])]
  {
    var first, second := TimedOut(id, order, outcome, 0), TimedOut(id', order', outcome', 0);
    var a := first + second;
    var x, y := Lone(first[0], first[1]), Lone(second[0], second[1]);
    assert a[2..] == second && second[2..] == [];
    assert Parse(second) == [y] + Parse([]);
    assert Parse(a) == [x] + Parse(second) == [x, y];
    var es := PrepareAll(Calls(a), [x, y]);
    hide Parse, Calls, Fold;
    assert IsMutation("place_order");
    assert es[0] == StoredStep(x, es[0].key) && es[1] == StoredStep(y, es[0].key) && es[0].key.Some?;
    assert es[2..] == [];
    FoldStep(es);
    var joined := [Join(es[0], es[1])] + es[2..];
    assert joined == [Join(es[0], es[1])] && joined[1..] == [];
    FoldShort(joined);
    assert Render(joined) == Flat(joined[0].item) + Render([]);
    assert Flat(joined[0].item) == TimedOut(id, order, outcome, 1);
  }

  /**
    An order that was never sent, then one that may have been: the stored conversation says that two
    orders were not executed.
   */
  lemma {:induction false} FalseRefusal()
    ensures var a := TimedOut("1", "AAPL", "not_executed", 0) + TimedOut("2", "MSFT", "unknown", 0);
      && Misreporting(Parse(a)) && Absorbing(Parse(a))
      && Semantic(a) == TimedOut("1", "AAPL", "not_executed", 1)
  {
    var a := TimedOut("1", "AAPL", "not_executed", 0) + TimedOut("2", "MSFT", "unknown", 0);
    SecondOrderIsLost("1", "AAPL", "not_executed", "2", "MSFT", "unknown");
    hide Parse, Semantic;
    var items := Parse(a);
    assert |"unknown"| == 7 && |"not_executed"| == 12;
    assert SameFailure(items[0], items[0 + 1]);
    assert Misreports(items[0], items[0 + 1]) && Absorbs(items[0], items[0 + 1]);
    assert Misreporting(items) && Absorbing(items);
  }
}
