/**
  Conversation messages as the Runtime stores and sends them, with JSON documents as datatypes.
 */
module Messages {
  import opened Prelude

  const DIGEST_RUNES := 300

  // A tool result. evidence is the JSON text of the compacted result; repeats is how many further
  // equal failures were folded into a failure: its stored count, less one.
  datatype Result =
    | Text(raw: string)
    | Success(result: string, evidence: string)
    | Failure(code: string, message: string, outcome: Option<string>, repeats: nat)
    | BareFailure
    | Digest(text: string, ok: bool)

  datatype Call = Call(id: string, name: string, arguments: string)

  // A line of a compacted history: what woke a Run, a delivered tag, an answer, or a tool call with
  // what must be remembered of its result.
  datatype Line =
    | WakeLine(fields: map<string, string>)
    | ChatLine(text: string)
    | AnswerLine(text: string)
    | CallLine(name: string, arguments: string)
    | SkillLine(name: string, arguments: string, result: Result)
    | EvidenceLine(name: string, arguments: string, evidence: Evidence)

  datatype Evidence = Succeeded(evidence: string) | Uncertain(code: string, message: string)

  // Wake is a JSON object from the user; Instruction is a terminal repair instruction; Mention delivers
  // tags from the group chat; History is a compacted history; Plain is any other system or user text.
  datatype Message =
    | Wake(fields: map<string, string>)
    | Instruction(text: string)
    | Plain(text: string)
    | Mention(text: string)
    | History(lines: seq<Line>)
    | Assistant(answer: Option<string>, calls: seq<Call>)
    | ToolResult(id: string, content: Result)

  predicate IsWake(m: Message) {
    m.Wake? && "trigger" in m.fields && "current_time" in m.fields
  }

  predicate IsMutation(name: string) {
    name in {"create_event", "delete_event", "place_order", "cancel_order", "close_position",
             "set_position_stops", "post_chat", "memory_save", "memory_edit", ""}
  }

  function Truncate(s: string, limit: nat): string {
    if |s| <= limit then s else s[..limit] + "\U{2026}"
  }

  lemma TruncateTwice(s: string, limit: nat)
    ensures Truncate(Truncate(s, limit), limit) == Truncate(s, limit)
  {
    if |s| > limit {
      assert (s[..limit] + "\U{2026}")[..limit] == s[..limit];
    }
  }

  const WAKE_KEYS := {"trigger", "triggers", "current_time", "account_snapshot", "inbox", "restart_context",
                      "recovery_context", "retry_context"}

  // shrinkWake
  function Shrink(fields: map<string, string>): map<string, string> {
    map key | key in fields && key in WAKE_KEYS :: fields[key]
  }

  // Results that keep their whole text: mutations, and the playbooks of skills.
  predicate Whole(name: string) {
    IsMutation(name) || name == "skill_get"
  }

  /** digestToolResult */
  function DigestOf(name: string, r: Result): Result {
    if Whole(name) then r
    else match r
      case Text(raw) => Digest(Truncate(raw, DIGEST_RUNES), false)
      case Success(_, evidence) => Digest(Truncate(evidence, DIGEST_RUNES), true)
      case Failure(code, message, _, repeats) => if repeats == 0 then Failure(code, Truncate(message, DIGEST_RUNES), None, 0) else r
      case BareFailure => r
      case Digest(_, _) => r
  }

  /** A digest is final: digesting it again, under its own tool's name or with the name lost, changes nothing. */
  lemma DigestTwice(name: string, r: Result)
    ensures DigestOf(name, DigestOf(name, r)) == DigestOf(name, r) && DigestOf("", DigestOf(name, r)) == DigestOf(name, r)
  {
    if r.Failure? {
      TruncateTwice(r.message, DIGEST_RUNES);
    }
  }

  // failureKey: what makes two failures the same.
  datatype Key = Key(name: string, code: string, message: string)

  function FailureKeyOf(name: string, r: Result): Option<Key> {
    if r.Failure? then Some(Key(name, r.code, r.message)) else None
  }

  // How many failures a result stands for.
  function Count(r: Result): nat {
    if r.Failure? then r.repeats + 1 else 1
  }

  // addRepeat
  function AddRepeat(kept: Result, folded: Result): Result {
    if kept.Failure? then kept.(repeats := kept.repeats + Count(folded)) else kept
  }

  // A result that says its call was not executed.
  predicate Denial(r: Result) {
    r.Failure? && r.outcome == Some("not_executed")
  }

  function CallsOf(m: Message): seq<Call> {
    if m.Assistant? then m.calls else []
  }

  function Calls(ms: seq<Message>): seq<Call> {
    if ms == [] then [] else Calls(ms[..|ms| - 1]) + CallsOf(ms[|ms| - 1])
  }

  // The name of the last call with an id; empty when there is none.
  function NameOf(calls: seq<Call>, id: string): string {
    if calls == [] then ""
    else
      var c := calls[|calls| - 1];
      if c.id == id then c.name else NameOf(calls[..|calls| - 1], id)
  }

  lemma {:induction false} CallsAppend(a: seq<Message>, b: seq<Message>)
    ensures Calls(a + b) == Calls(a) + Calls(b)
    decreases |b|
  {
    if b == [] {
      assert a + b == a;
    } else {
      var n := |b| - 1;
      assert (a + b)[..|a| + n] == a + b[..n];
      CallsAppend(a, b[..n]);
    }
  }

  predicate Called(calls: seq<Call>, id: string) {
    exists c :: c in calls && c.id == id
  }

  // ---------------------------------------------------------------------------------------------
  // What is left of texts and wake-ups
  // ---------------------------------------------------------------------------------------------

  // A text within the limit, or its beginning and an ellipsis.
  predicate CutAt(text: string, cut: string, limit: nat) {
    if |text| <= limit then cut == text else cut == text[..limit] + "\U{2026}"
  }

  lemma TruncateCuts(text: string, limit: nat)
    ensures CutAt(text, Truncate(text, limit), limit)
  {
  }

  predicate StillMeans(key: string) {
    key in {"trigger", "triggers", "current_time", "account_snapshot", "inbox", "restart_context", "recovery_context", "retry_context"}
  }

  // What is kept of a wake-up: exactly the entries that still mean something later.
  ghost predicate Shrunk(fields: map<string, string>, kept: map<string, string>) {
    && (forall key :: key in kept <==> key in fields && StillMeans(key))
    && (forall key | key in kept :: kept[key] == fields[key])
  }

  lemma {:induction false} ShrinkKeeps(fields: map<string, string>)
    ensures Shrunk(fields, Shrink(fields))
  {
  }
}
