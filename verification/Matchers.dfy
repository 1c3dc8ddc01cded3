/**
  Price and position Events look at one sample at a time and remember at most one earlier
  observation. This module models that evaluation and proves that, over any sequence of samples,
  it decides the same thing as a predicate over the whole history.
 */
module Matchers {
  import opened Prelude

  datatype Instrument = Instrument(market: string, symbol: string)

  datatype Sample = Sample(price: real, at: Time)

  datatype Position = Position(id: nat, instrument: Instrument, product: string, side: string)

  // One successful poll of an Account: its open positions and the reasons known for closed ones.
  datatype Snapshot = Snapshot(positions: map<nat, Position>, reasons: map<nat, string>)

  datatype Kind =
    | Timer(due: Time)
    | PriceAbove(on: Instrument, level: real)
    | PriceBelow(on: Instrument, level: real)
    | CrossAbove(on: Instrument, level: real)
    | CrossBelow(on: Instrument, level: real)
    | ChangePct(on: Instrument, base: real, up: bool, pct: real)
    | PositionClose(position: nat)

  // The persisted state_json of an Event.
  datatype Memo = Nothing | LastSample(sample: Sample) | Observed(seen: Position)

  // The facts reported with a fired Event.
  datatype Match =
    | Due(at: Time)
    | Level(sample: Sample)
    | Crossed(sample: Sample, previous: Sample)
    | Changed(sample: Sample, changePct: real)
    | Closed(was: Position, reason: Option<string>)

  datatype Verdict = Skip | Remember(memo: Memo) | Fire(facts: Match)

  predicate IsPrice(kind: Kind) {
    !kind.Timer? && !kind.PositionClose?
  }

  predicate IsCross(kind: Kind) {
    kind.CrossAbove? || kind.CrossBelow?
  }

  // The level a price Event watches has been reached by two consecutive samples.
  predicate Crosses(kind: Kind, previous: Sample, sample: Sample)
    requires IsCross(kind)
  {
    if kind.CrossAbove? then previous.price < kind.level <= sample.price
    else previous.price > kind.level >= sample.price
  }

  function Change(base: real, price: real): real
    requires base != 0.0
  {
    (price - base) / base * 100.0
  }

  /** evaluatePriceEvent: one sample against one Event and its remembered sample. */
  function EvaluatePrice(kind: Kind, memo: Memo, sample: Sample): (v: Verdict)
    requires IsPrice(kind)
  {
    if kind.PriceAbove? then
      if sample.price >= kind.level then Fire(Level(sample)) else Skip
    else if kind.PriceBelow? then
      if sample.price <= kind.level then Fire(Level(sample)) else Skip
    else if kind.ChangePct? then
      if kind.base == 0.0 then Skip else
      var change := Change(kind.base, sample.price);
      if (if kind.up then change >= kind.pct else change <= -kind.pct) then Fire(Changed(sample, change)) else Skip
    else if !memo.LastSample? then Remember(LastSample(sample))
    else if sample.at <= memo.sample.at then Skip
    else if Crosses(kind, memo.sample, sample) then Fire(Crossed(sample, memo.sample))
    else Remember(LastSample(sample))
  }

  /** One Account snapshot against one position_close Event and the position it remembers. */
  function EvaluatePosition(id: nat, memo: Memo, snapshot: Snapshot): (v: Verdict) {
    if id in snapshot.positions then
      if memo == Observed(snapshot.positions[id]) then Skip else Remember(Observed(snapshot.positions[id]))
    else if !memo.Observed? then Skip
    else Fire(Closed(memo.seen, if id in snapshot.reasons && snapshot.reasons[id] != ""
                                then Some(snapshot.reasons[id]) else None))
  }

  function NextMemo(memo: Memo, v: Verdict): Memo {
    if v.Remember? then v.memo else memo
  }

  // ---------------------------------------------------------------------------------------------
  // Level crossings over a whole sequence of samples
  // ---------------------------------------------------------------------------------------------

  // A sample is news when it is strictly newer than everything sampled before it.
  ghost predicate News(samples: seq<Sample>, i: int)
    requires 0 <= i < |samples|
  {
    forall j | 0 <= j < i :: samples[j].at < samples[i].at
  }

  // i and j are consecutive news items.
  ghost predicate Consecutive(samples: seq<Sample>, i: int, j: int)
    requires 0 <= i < j < |samples|
  {
    News(samples, i) && News(samples, j) && forall k | i < k < j :: !News(samples, k)
  }

  // The crossing predicate over the whole history: some consecutive pair of news items crosses,
  // the later of the two being sample j.
  ghost predicate CrossesAt(kind: Kind, samples: seq<Sample>, j: int)
    requires IsCross(kind) && 0 <= j < |samples|
  {
    exists i :: 0 <= i < j && Consecutive(samples, i, j) && Crosses(kind, samples[i], samples[j])
  }

  // The Event after the samples: what it remembers, and the match that removed it, if any.
  datatype Watch = Watching(memo: Memo) | Done(at: nat, facts: Match)

  function WatchPrice(kind: Kind, samples: seq<Sample>): (w: Watch)
    requires IsPrice(kind)
    ensures w.Done? ==> w.at < |samples|
  {
    if samples == [] then Watching(Nothing)
    else
      var n := |samples| - 1;
      match WatchPrice(kind, samples[..n])
      case Done(at, facts) => Done(at, facts)
      case Watching(memo) =>
        var v := EvaluatePrice(kind, memo, samples[n]);
        if v.Fire? then Done(n, v.facts) else Watching(NextMemo(memo, v))
  }

  // The latest news item of a nonempty history.
  ghost predicate LatestNews(samples: seq<Sample>, i: int) {
    0 <= i < |samples| && News(samples, i) && forall k | i < k < |samples| :: !News(samples, k)
  }

  lemma NewsPrefix(samples: seq<Sample>, n: nat, i: nat)
    requires i < n <= |samples|
    ensures News(samples[..n], i) <==> News(samples, i)
  {
    var p := samples[..n];
    assert forall j | 0 <= j <= i :: p[j] == samples[j];
  }

  lemma NewsAgree(samples: seq<Sample>, n: nat)
    requires n <= |samples|
    ensures forall i :: 0 <= i < n ==> (News(samples[..n], i) <==> News(samples, i))
  {
    forall i | 0 <= i < n ensures News(samples[..n], i) <==> News(samples, i) {
      NewsPrefix(samples, n, i);
    }
  }

  lemma CrossesAtPrefix(kind: Kind, samples: seq<Sample>, n: nat, j: nat)
    requires IsCross(kind) && j < n <= |samples|
    ensures CrossesAt(kind, samples[..n], j) <==> CrossesAt(kind, samples, j)
  {
    NewsAgree(samples, n);
    var p := samples[..n];
    if CrossesAt(kind, p, j) {
      var i :| 0 <= i < j && Consecutive(p, i, j) && Crosses(kind, p[i], p[j]);
      assert Consecutive(samples, i, j);
    }
    if CrossesAt(kind, samples, j) {
      var i :| 0 <= i < j && Consecutive(samples, i, j) && Crosses(kind, samples[i], samples[j]);
      assert Consecutive(p, i, j);
    }
  }

  // A sample newer than the latest news item is news itself.
  lemma NewerThanLatest(samples: seq<Sample>, i: nat, k: nat)
    requires k < |samples| && LatestNews(samples[..k], i)
    ensures News(samples, k) <==> samples[i].at < samples[k].at
  {
    if samples[i].at < samples[k].at {
      forall j | 0 <= j < k ensures samples[j].at <= samples[i].at {
        LatestIsMax(samples[..k], i, j);
      }
    }
  }

  lemma LatestIsMax(samples: seq<Sample>, i: nat, j: nat)
    requires LatestNews(samples, i) && j < |samples|
    ensures samples[j].at <= samples[i].at
    decreases j
  {
    if j > i {
      assert !News(samples, j);
      var k :| 0 <= k < j && samples[k].at >= samples[j].at;
      LatestIsMax(samples, i, k);
    }
  }

  // The Event agrees with the whole history: it is gone exactly when some sample completes a
  // crossing, it went at the first such sample, and while it watches it remembers the latest news.
  ghost predicate AgreesWithHistory(kind: Kind, samples: seq<Sample>, w: Watch)
    requires IsCross(kind)
  {
    if w.Done? then
      && w.at < |samples|
      && CrossesAt(kind, samples, w.at)
      && (forall j | 0 <= j < w.at :: !CrossesAt(kind, samples, j))
      && w.facts.Crossed? && w.facts.sample == samples[w.at]
    else
      && (forall j | 0 <= j < |samples| :: !CrossesAt(kind, samples, j))
      && (samples == [] ==> w.memo == Nothing)
      && (samples != [] ==> exists i :: LatestNews(samples, i) && w.memo == LastSample(samples[i]))
  }

  lemma CrossesAtPrefixes(kind: Kind, samples: seq<Sample>, n: nat)
    requires IsCross(kind) && n <= |samples|
    ensures forall j | 0 <= j < n :: CrossesAt(kind, samples[..n], j) <==> CrossesAt(kind, samples, j)
  {
    forall j | 0 <= j < n ensures CrossesAt(kind, samples[..n], j) <==> CrossesAt(kind, samples, j) {
      CrossesAtPrefix(kind, samples, n, j);
    }
  }

  // One more sample, the latest news item before it being sample i.
  lemma NextSample(kind: Kind, samples: seq<Sample>, n: nat, i: nat)
    requires IsCross(kind) && |samples| == n + 1 && LatestNews(samples[..n], i)
    ensures CrossesAt(kind, samples, n) <==> samples[i].at < samples[n].at && Crosses(kind, samples[i], samples[n])
    ensures LatestNews(samples, if samples[i].at < samples[n].at then n else i)
  {
    NewsAgree(samples, n);
    NewerThanLatest(samples, i, n);
    if News(samples, n) {
      assert Consecutive(samples, i, n);
      forall i' | 0 <= i' < n && Consecutive(samples, i', n) ensures i' == i {
        assert News(samples, i') && News(samples, i);
      }
    }
  }

  // Nothing has crossed before sample n, and the Event remembers the latest news item i.
  lemma StillWatching(kind: Kind, samples: seq<Sample>, n: nat, i: nat)
    requires IsCross(kind) && |samples| == n + 1
    requires i < n && LatestNews(samples[..n], i)
    requires forall j | 0 <= j < n :: !CrossesAt(kind, samples, j)
    ensures
      var v := EvaluatePrice(kind, LastSample(samples[i]), samples[n]);
      AgreesWithHistory(kind, samples, if v.Fire? then Done(n, v.facts) else Watching(NextMemo(LastSample(samples[i]), v)))
  {
    hide LatestNews, CrossesAt, News;
    NextSample(kind, samples, n, i);
    var latest := if samples[i].at < samples[n].at then n else i;
    assert LatestNews(samples, latest);
  }

  /** A price_cross Event that sees one sample at a time agrees with the whole history. */
  lemma {:induction false} CrossRefinesHistory(kind: Kind, samples: seq<Sample>)
    requires IsCross(kind)
    ensures AgreesWithHistory(kind, samples, WatchPrice(kind, samples))
  {
    hide CrossesAt, News;
    if samples != [] {
      var n := |samples| - 1;
      CrossRefinesHistory(kind, samples[..n]);
      CrossesAtPrefixes(kind, samples, n);
      var w := WatchPrice(kind, samples[..n]);
      if w.Watching? && n == 0 {
        FirstSample(kind, samples);
      } else if w.Watching? {
        var i :| LatestNews(samples[..n], i) && w.memo == LastSample(samples[..n][i]);
        StillWatching(kind, samples, n, i);
      }
    }
  }

  lemma FirstSample(kind: Kind, samples: seq<Sample>)
    requires IsCross(kind) && |samples| == 1
    ensures LatestNews(samples, 0) && !CrossesAt(kind, samples, 0)
  {
  }

  // ---------------------------------------------------------------------------------------------
  // Position closes over a whole sequence of snapshots
  // ---------------------------------------------------------------------------------------------

  function WatchPosition(id: nat, polls: seq<Snapshot>): (w: Watch)
    ensures w.Done? ==> w.at < |polls|
  {
    if polls == [] then Watching(Nothing)
    else
      var n := |polls| - 1;
      match WatchPosition(id, polls[..n])
      case Done(at, facts) => Done(at, facts)
      case Watching(memo) =>
        var v := EvaluatePosition(id, memo, polls[n]);
        if v.Fire? then Done(n, v.facts) else Watching(NextMemo(memo, v))
  }

  // Poll j misses the position although an earlier poll reported it.
  ghost predicate GoneAt(id: nat, polls: seq<Snapshot>, j: int)
    requires 0 <= j < |polls|
  {
    id !in polls[j].positions && exists i :: 0 <= i < j && id in polls[i].positions
  }

  // The Event agrees with the whole history of polls: it is gone exactly at the first poll that
  // misses a position reported earlier, reporting the identity of the poll just before.
  ghost predicate AgreesWithPolls(id: nat, polls: seq<Snapshot>, w: Watch) {
    if w.Done? then
      && 0 < w.at < |polls|
      && GoneAt(id, polls, w.at)
      && (forall j | 0 <= j < w.at :: !GoneAt(id, polls, j))
      && id in polls[w.at - 1].positions
      && w.facts.Closed? && w.facts.was == polls[w.at - 1].positions[id]
    else
      && (forall j | 0 <= j < |polls| :: !GoneAt(id, polls, j))
      && w.memo == (if polls != [] && id in polls[|polls| - 1].positions
                    then Observed(polls[|polls| - 1].positions[id]) else Nothing)
  }

  lemma GonePrefix(id: nat, polls: seq<Snapshot>, n: nat)
    requires n <= |polls|
    ensures forall j | 0 <= j < n :: GoneAt(id, polls[..n], j) <==> GoneAt(id, polls, j)
  {
    var p := polls[..n];
    forall j | 0 <= j < n ensures GoneAt(id, p, j) <==> GoneAt(id, polls, j) {
      if GoneAt(id, polls, j) {
        var i :| 0 <= i < j && id in polls[i].positions;
        assert id in p[i].positions;
      }
    }
  }

  // While nothing is gone, the position is missing now only if it was missing all along.
  lemma MissingAllAlong(id: nat, polls: seq<Snapshot>)
    requires polls != [] && id !in polls[|polls| - 1].positions
    requires forall j | 0 <= j < |polls| :: !GoneAt(id, polls, j)
    ensures forall i | 0 <= i < |polls| :: id !in polls[i].positions
  {
    if i :| 0 <= i < |polls| && id in polls[i].positions {
      assert GoneAt(id, polls, |polls| - 1);
    }
  }

  lemma GoneNow(id: nat, polls: seq<Snapshot>)
    requires polls != []
    requires forall j | 0 <= j < |polls| - 1 :: !GoneAt(id, polls, j)
    ensures GoneAt(id, polls, |polls| - 1) <==>
      id !in polls[|polls| - 1].positions && |polls| > 1 && id in polls[|polls| - 2].positions
  {
    var n := |polls| - 1;
    if n > 0 && id !in polls[n - 1].positions {
      GonePrefix(id, polls, n);
      MissingAllAlong(id, polls[..n]);
    }
  }

  /** A position_close Event that sees one poll at a time agrees with the whole history. */
  lemma {:induction false} PositionRefinesHistory(id: nat, polls: seq<Snapshot>)
    ensures AgreesWithPolls(id, polls, WatchPosition(id, polls))
  {
    hide GoneAt;
    if polls != [] {
      var n := |polls| - 1;
      PositionRefinesHistory(id, polls[..n]);
      GonePrefix(id, polls, n);
      if WatchPosition(id, polls[..n]).Watching? {
        GoneNow(id, polls);
      }
    }
  }

  // ---------------------------------------------------------------------------------------------
  // When one sample or snapshot makes an Event fire
  // ---------------------------------------------------------------------------------------------

  // A price Event fires on a sample, with these facts.
  predicate PriceFires(kind: Kind, memo: Memo, s: Sample, facts: Match) {
    match kind
    case PriceAbove(_, level) => s.price >= level && facts == Level(s)
    case PriceBelow(_, level) => s.price <= level && facts == Level(s)
    case ChangePct(_, base, up, pct) =>
      base != 0.0 && facts == Changed(s, (s.price - base) / base * 100.0) &&
      (if up then (s.price - base) / base * 100.0 >= pct else (s.price - base) / base * 100.0 <= -pct)
    case CrossAbove(_, level) =>
      memo.LastSample? && memo.sample.at < s.at && memo.sample.price < level <= s.price && facts == Crossed(s, memo.sample)
    case CrossBelow(_, level) =>
      memo.LastSample? && memo.sample.at < s.at && memo.sample.price > level >= s.price && facts == Crossed(s, memo.sample)
    case _ => false
  }

  // What a price Event remembers when it does not: only a crossing remembers, and only newer samples.
  function PriceMemo(kind: Kind, memo: Memo, s: Sample): Memo {
    if (kind.CrossAbove? || kind.CrossBelow?) && (!memo.LastSample? || memo.sample.at < s.at) then LastSample(s) else memo
  }

  // A position Event fires when the position it remembers is gone.
  predicate PositionFires(id: nat, memo: Memo, snapshot: Snapshot, facts: Match) {
    && id !in snapshot.positions && memo.Observed? && facts.Closed? && facts.was == memo.seen
    && facts.reason == (if id in snapshot.reasons && snapshot.reasons[id] != "" then Some(snapshot.reasons[id]) else None)
  }

  function PositionMemo(id: nat, memo: Memo, snapshot: Snapshot): Memo {
    if id in snapshot.positions then Observed(snapshot.positions[id]) else memo
  }

  /** evaluatePriceEvent fires exactly when the condition of its kind holds, with its facts, and remembers the latest sample of a crossing. */
  lemma {:induction false} PriceVerdict(kind: Kind, memo: Memo, s: Sample, facts: Match)
    requires IsPrice(kind)
    ensures EvaluatePrice(kind, memo, s) == Fire(facts) <==> PriceFires(kind, memo, s, facts)
    ensures !EvaluatePrice(kind, memo, s).Fire? ==> NextMemo(memo, EvaluatePrice(kind, memo, s)) == PriceMemo(kind, memo, s)
  {
  }

  /** A position Event fires exactly when a position it remembers is no longer reported. */
  lemma {:induction false} PositionVerdict(id: nat, memo: Memo, snapshot: Snapshot, facts: Match)
    ensures EvaluatePosition(id, memo, snapshot) == Fire(facts) <==> PositionFires(id, memo, snapshot, facts)
    ensures !EvaluatePosition(id, memo, snapshot).Fire? ==> NextMemo(memo, EvaluatePosition(id, memo, snapshot)) == PositionMemo(id, memo, snapshot)
  {
  }
}
