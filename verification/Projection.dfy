/**
  The byte-bound projection of a conversation before it is sent: read results are compacted first, then
  long old answers, then mutation results, one at a time and only while the request is too large. The
  encoder and the compactors are arbitrary.
 */
module Projection {
  import opened Prelude
  import Messages

  const BOUND := 786_432
  const LONG_ANSWER := 4096

  datatype Role = System | User | Assistant | Tool

  datatype Call = Call(id: string, name: string)

  // Contents are byte strings; answers is the id of the call a tool result belongs to.
  datatype Msg = Msg(role: Role, content: Option<string>, calls: seq<Call>, answers: Option<string>)

  // How messages are encoded and how contents are compacted.
  datatype Codec = Codec(
    size: seq<Msg> -> nat, read: (string, string) -> string, mutation: (string, string) -> string, note: nat -> string)

  function NameIn(calls: seq<Call>, id: string, otherwise: string): string {
    if calls == [] then otherwise
    else
      var c := calls[|calls| - 1];
      if c.id == id then c.name else NameIn(calls[..|calls| - 1], id, otherwise)
  }

  // The name a call id stands for after the first n messages.
  function NameAt(ms: seq<Msg>, n: nat, id: string): string
    requires n <= |ms|
  {
    if n == 0 then ""
    else
      var before := NameAt(ms, n - 1, id);
      if ms[n - 1].role == Assistant then NameIn(ms[n - 1].calls, id, before) else before
  }

  predicate IsResult(ms: seq<Msg>, i: nat)
    requires i < |ms|
  {
    ms[i].role == Tool && ms[i].answers.Some?
  }

  predicate IsRead(ms: seq<Msg>, i: nat) {
    i < |ms| && IsResult(ms, i) && !Messages.IsMutation(NameAt(ms, i, ms[i].answers.value))
  }

  predicate IsMutation(ms: seq<Msg>, i: nat) {
    i < |ms| && IsResult(ms, i) && Messages.IsMutation(NameAt(ms, i, ms[i].answers.value))
  }

  predicate IsLong(ms: seq<Msg>, i: nat) {
    1 < i < |ms| && ms[i].role == Assistant && ms[i].content.Some? && |ms[i].content.value| > LONG_ANSWER
  }

  // replaceMessageContent: only a shorter content is taken
  function Replaced(m: Msg, replacement: string): Msg {
    if m.content.None? || |replacement| >= |m.content.value| then m else m.(content := Some(replacement))
  }

  // The message once its turn has come.
  function Tried(codec: Codec, ms: seq<Msg>, i: nat): Msg
    requires i < |ms|
  {
    var m := ms[i];
    if m.content.None? then m
    else if IsRead(ms, i) then Replaced(m, codec.read(NameAt(ms, |ms|, m.answers.value), m.content.value))
    else if IsMutation(ms, i) then Replaced(m, codec.mutation(NameAt(ms, |ms|, m.answers.value), m.content.value))
    else if IsLong(ms, i) then Replaced(m, codec.note(|m.content.value|))
    else m
  }

  // The same message with at most a shorter content.
  predicate Shorter(a: Msg, b: Msg) {
    && b == a.(content := b.content)
    && (a.content.None? <==> b.content.None?) && (a.content.Some? ==> |b.content.value| <= |a.content.value|)
  }

  lemma TriedIsShorter(codec: Codec, ms: seq<Msg>, i: nat)
    requires i < |ms|
    ensures Shorter(ms[i], Tried(codec, ms, i))
    ensures ms[i].role == System || ms[i].role == User ==> Tried(codec, ms, i) == ms[i]
  {
  }

  // ---------------------------------------------------------------------------------------------
  // Classification
  // ---------------------------------------------------------------------------------------------

  ghost predicate Lists(ms: seq<Msg>, n: nat, readResults: seq<nat>, longs: seq<nat>, mutations: seq<nat>) {
    && (forall i: nat :: i in readResults <==> i < n && IsRead(ms, i))
    && (forall i: nat :: i in longs <==> i < n && IsLong(ms, i))
    && (forall i: nat :: i in mutations <==> i < n && IsMutation(ms, i))
    && Ascending(readResults) && Ascending(longs) && Ascending(mutations)
  }

  ghost predicate Ascending(list: seq<nat>) {
    forall i, j | 0 <= i < j < |list| :: list[i] < list[j]
  }

  lemma {:induction false} AscendingNext(list: seq<nat>, n: nat)
    requires Ascending(list) && forall i | i in list :: i < n
    ensures Ascending(list + [n])
  {
    assert forall i | 0 <= i < |list| :: list[i] in list;
  }

  // The names after n messages and some calls of the next.
  ghost predicate NamesAt(ms: seq<Msg>, n: nat, calls: seq<Call>, names: map<string, string>)
    requires n <= |ms|
  {
    forall id :: (if id in names then names[id] else "") == NameIn(calls, id, NameAt(ms, n, id))
  }

  lemma {:induction false} NamesCall(ms: seq<Msg>, n: nat, calls: seq<Call>, j: nat, names: map<string, string>)
    requires n <= |ms| && j < |calls| && NamesAt(ms, n, calls[..j], names)
    ensures NamesAt(ms, n, calls[..j + 1], names[calls[j].id := calls[j].name])
  {
    assert calls[..j + 1][..j] == calls[..j];
  }

  lemma {:induction false} NamesMessage(ms: seq<Msg>, n: nat, names: map<string, string>)
    requires n < |ms| && NamesAt(ms, n, if ms[n].role == Assistant then ms[n].calls else [], names)
    ensures NamesAt(ms, n + 1, [], names)
  {
  }

  lemma {:induction false} NamesNone(ms: seq<Msg>)
    ensures NamesAt(ms, 0, [], map[])
  {
  }

  lemma {:induction false} NamesLookup(ms: seq<Msg>, n: nat, names: map<string, string>, id: string)
    requires n <= |ms| && NamesAt(ms, n, [], names)
    ensures (if id in names then names[id] else "") == NameAt(ms, n, id)
  {
  }

  lemma {:induction false} NamesAll(ms: seq<Msg>, names: map<string, string>)
    requires NamesAt(ms, |ms|, [], names)
    ensures Names(ms, names)
  {
  }

  /** One pass sorts the candidates, with the names known at each message. */
  method Classify(ms: seq<Msg>) returns (names: map<string, string>, readResults: seq<nat>, longs: seq<nat>, mutations: seq<nat>)
    ensures Lists(ms, |ms|, readResults, longs, mutations) && Names(ms, names)
  {
    hide NamesAt, NameAt, Messages.IsMutation, Names;
    names, readResults, longs, mutations := map[], [], [], [];
    NamesNone(ms);
    for i := 0 to |ms|
      invariant Lists(ms, i, readResults, longs, mutations) && NamesAt(ms, i, [], names)
    {
      AscendingNext(readResults, i);
      AscendingNext(longs, i);
      AscendingNext(mutations, i);
      hide Ascending;
      if ms[i].role == Assistant {
        var calls := ms[i].calls;
        assert calls[..0] == [];
        for j := 0 to |calls|
          invariant NamesAt(ms, i, calls[..j], names)
        {
          NamesCall(ms, i, calls, j, names);
          names := names[calls[j].id := calls[j].name];
        }
        assert calls[..|calls|] == calls;
        if i > 1 && ms[i].content.Some? && |ms[i].content.value| > LONG_ANSWER {
          longs := longs + [i];
        }
      } else if ms[i].role == Tool && ms[i].answers.Some? {
        var id := ms[i].answers.value;
        NamesLookup(ms, i, names, id);
        if Messages.IsMutation(if id in names then names[id] else "") {
          mutations := mutations + [i];
        } else {
          readResults := readResults + [i];
        }
      }
      NamesMessage(ms, i, names);
    }
    NamesAll(ms, names);
  }

  // ---------------------------------------------------------------------------------------------
  // Stages
  // ---------------------------------------------------------------------------------------------

  // A conversation on its way: each message as it was or as tried.
  ghost predicate Partway(codec: Codec, ms: seq<Msg>, r: seq<Msg>) {
    |r| == |ms| && forall i | 0 <= i < |ms| :: r[i] == ms[i] || r[i] == Tried(codec, ms, i)
  }

  ghost predicate Names(ms: seq<Msg>, names: map<string, string>) {
    forall id :: (if id in names then names[id] else "") == NameAt(ms, |ms|, id)
  }

  // The replacement of one candidate, by its kind.
  method TryOne(codec: Codec, ms: seq<Msg>, names: map<string, string>, i: nat, kind: Candidate) returns (m: Msg)
    requires Names(ms, names) && OfKind(ms, i, kind)
    ensures m == Tried(codec, ms, i)
  {
    hide NameAt;
    m := ms[i];
    if m.content.Some? {
      match kind {
        case ReadResult =>
          var id := m.answers.value;
          m := Replaced(m, codec.read(if id in names then names[id] else "", m.content.value));
        case MutationResult =>
          var id := m.answers.value;
          m := Replaced(m, codec.mutation(if id in names then names[id] else "", m.content.value));
        case LongAnswer =>
          m := Replaced(m, codec.note(|m.content.value|));
      }
    }
  }

  datatype Candidate = ReadResult | LongAnswer | MutationResult

  predicate OfKind(ms: seq<Msg>, i: nat, kind: Candidate) {
    match kind
    case ReadResult => IsRead(ms, i)
    case LongAnswer => IsLong(ms, i)
    case MutationResult => IsMutation(ms, i)
  }

  // The conversation with the messages of a path tried.
  ghost function With(codec: Codec, ms: seq<Msg>, path: seq<nat>): seq<Msg> {
    seq(|ms|, i requires 0 <= i < |ms| => if i in path then Tried(codec, ms, i) else ms[i])
  }

  // Each message was tried only because the conversation was too large without it.
  ghost predicate Needed(codec: Codec, ms: seq<Msg>, path: seq<nat>) {
    forall j | 0 <= j < |path| :: codec.size(With(codec, ms, path[..j])) > BOUND
  }

  lemma {:induction false} NeededNext(codec: Codec, ms: seq<Msg>, path: seq<nat>, i: nat)
    requires Needed(codec, ms, path) && codec.size(With(codec, ms, path)) > BOUND && i < |ms|
    ensures Needed(codec, ms, path + [i]) && With(codec, ms, path + [i]) == With(codec, ms, path)[i := Tried(codec, ms, i)]
  {
    hide Tried;
    var more := path + [i];
    forall j | 0 <= j < |more| ensures codec.size(With(codec, ms, more[..j])) > BOUND {
      if j < |path| {
        assert more[..j] == path[..j];
      } else {
        assert more[..j] == path;
      }
    }
    var a, b := With(codec, ms, more), With(codec, ms, path)[i := Tried(codec, ms, i)];
    assert forall j: nat :: j in more <==> j in path || j == i;
    assert forall j | 0 <= j < |ms| :: a[j] == b[j];
    assert a == b;
  }

  lemma {:induction false} NothingTried(codec: Codec, ms: seq<Msg>)
    ensures With(codec, ms, []) == ms && Needed(codec, ms, [])
  {
  }

  // Tries the listed messages in order, while the conversation is too large.
  method Stage(codec: Codec, ms: seq<Msg>, names: map<string, string>, start: seq<Msg>, list: seq<nat>, kind: Candidate, ghost path: seq<nat>)
    returns (r: seq<Msg>, ghost path': seq<nat>)
    requires Partway(codec, ms, start) && Names(ms, names) && start == With(codec, ms, path) && Needed(codec, ms, path)
    requires forall j | 0 <= j < |list| :: list[j] < |ms| && OfKind(ms, list[j], kind)
    ensures Partway(codec, ms, r)
    ensures forall i | 0 <= i < |ms| && i !in list :: r[i] == start[i]
    ensures codec.size(r) <= BOUND || forall j | 0 <= j < |list| :: r[list[j]] == Tried(codec, ms, list[j])
    ensures codec.size(start) <= BOUND ==> r == start && path' == path
    ensures r == With(codec, ms, path') && Needed(codec, ms, path') && path <= path' <= path + list
    ensures codec.size(r) <= BOUND || path' == path + list
  {
    hide Tried, Names, OfKind, With, Needed;
    r, path' := start, path;
    for k := 0 to |list|
      invariant r == With(codec, ms, path') && Needed(codec, ms, path') && path' == path + list[..k]
      invariant Partway(codec, ms, r)
      invariant forall i | 0 <= i < |ms| && i !in list :: r[i] == start[i]
      invariant forall j | 0 <= j < k :: r[list[j]] == Tried(codec, ms, list[j])
      invariant codec.size(start) <= BOUND ==> r == start && path' == path
    {
      assert path + list == path' + list[k..];
      if codec.size(r) <= BOUND {
        return;
      }
      var i := list[k];
      var m := TryOne(codec, ms, names, i, kind);
      NeededNext(codec, ms, path', i);
      r, path' := r[i := m], path' + [i];
      assert list[..k + 1] == list[..k] + [i];
    }
    assert list[..|list|] == list;
  }

  /**
    projectModelContext: within the bound nothing changes; otherwise contents only shrink, and only
    those of tool results and long answers. It fails only when everything was tried, and no mutation
    result is touched before every read result and long answer was. What is tried is an initial part of
    the read results, the long answers and the mutation results, each oldest first, and nothing is tried
    once the request fits.
   */
  method ProjectModelContext(codec: Codec, ms: seq<Msg>) returns (r: seq<Msg>, ok: bool, ghost path: seq<nat>)
    ensures |r| == |ms| && forall i | 0 <= i < |ms| :: Shorter(ms[i], r[i])
    ensures forall i | 0 <= i < |ms| && (ms[i].role == System || ms[i].role == User) :: r[i] == ms[i]
    ensures ok <==> codec.size(r) <= BOUND
    ensures codec.size(ms) <= BOUND ==> ok && r == ms
    ensures !ok ==> forall i | 0 <= i < |ms| :: r[i] == Tried(codec, ms, i)
    ensures (exists i | 0 <= i < |ms| :: IsMutation(ms, i) && r[i] != ms[i]) ==>
      forall j | 0 <= j < |ms| && (IsRead(ms, j) || IsLong(ms, j)) :: r[j] == Tried(codec, ms, j)
    ensures r == With(codec, ms, path) && Needed(codec, ms, path)
    ensures exists readResults, longs, mutations ::
      && Lists(ms, |ms|, readResults, longs, mutations)
      && path <= readResults + longs + mutations && (ok || path == readResults + longs + mutations)
  {
    hide IsMutation, IsRead, IsLong, Tried, Names, With, Needed, Ascending;
    var names, readResults, longs, mutations := Classify(ms);
    assert Partway(codec, ms, ms);
    assert forall j | 0 <= j < |readResults| :: readResults[j] in readResults;
    assert forall j | 0 <= j < |longs| :: longs[j] in longs;
    assert forall j | 0 <= j < |mutations| :: mutations[j] in mutations;
    NothingTried(codec, ms);
    var first, second;
    ghost var one, two;
    first, one := Stage(codec, ms, names, ms, readResults, ReadResult, []);
    second, two := Stage(codec, ms, names, first, longs, LongAnswer, one);
    r, path := Stage(codec, ms, names, second, mutations, MutationResult, two);
    ok := codec.size(r) <= BOUND;
    InitialPart(readResults, longs, mutations, one, two, path);
    Distinct(ms);
    forall i | 0 <= i < |ms| ensures Shorter(ms[i], r[i]) {
      TriedIsShorter(codec, ms, i);
    }
    forall i | 0 <= i < |ms| && (ms[i].role == System || ms[i].role == User) ensures r[i] == ms[i] {
      TriedIsShorter(codec, ms, i);
    }
    if !ok {
      forall i | 0 <= i < |ms| ensures r[i] == Tried(codec, ms, i) {
        if !IsRead(ms, i) && !IsMutation(ms, i) && !IsLong(ms, i) {
          NotACandidate(codec, ms, i);
        }
      }
    }
  }

  lemma {:induction false} InitialPart(a: seq<nat>, b: seq<nat>, c: seq<nat>, one: seq<nat>, two: seq<nat>, path: seq<nat>)
    requires [] <= one <= [] + a && one <= two <= one + b && two <= path <= two + c
    requires (one == a || two == one) && (two == one + b || path == two)
    requires one != a ==> path == one
    ensures path <= a + b + c && (path == two + c && two == one + b && one == a ==> path == a + b + c)
  {
    assert [] + a == a;
    if one == a && two == one + b {
      assert two + c == a + b + c;
    } else if one == a {
      assert path <= a + b;
    }
  }

  /** What a message becomes when it is tried: a shorter rendering of its kind, if there is one. */
  lemma {:induction false} TriedTells(codec: Codec, ms: seq<Msg>, i: nat)
    requires i < |ms| && ms[i].content.Some?
    ensures var m, content := ms[i], ms[i].content.value;
      var offered := if IsRead(ms, i) then Some(codec.read(NameAt(ms, |ms|, m.answers.value), content))
                     else if IsMutation(ms, i) then Some(codec.mutation(NameAt(ms, |ms|, m.answers.value), content))
                     else if IsLong(ms, i) then Some(codec.note(|content|)) else None;
      Tried(codec, ms, i).content == Some(if offered.Some? && |offered.value| < |content| then offered.value else content)
  {
  }

  // The three kinds of candidate exclude each other.
  lemma Distinct(ms: seq<Msg>)
    ensures forall i: nat | IsRead(ms, i) :: !IsLong(ms, i) && !IsMutation(ms, i)
    ensures forall i: nat | IsLong(ms, i) :: !IsMutation(ms, i)
  {
  }

  lemma NotACandidate(codec: Codec, ms: seq<Msg>, i: nat)
    requires i < |ms| && !IsRead(ms, i) && !IsMutation(ms, i) && !IsLong(ms, i)
    ensures Tried(codec, ms, i) == ms[i]
  {
  }
}
