/** Folding one provider stream into a response, event by event. */
module ResponseNormalizer {
  import opened Text
  import opened TokenUsage
  import opened ToolCallAssembly

  // ---- tool calls, in place ----

  /** The tables that one stream fills. */
  class ToolCallAssembler {
    var builders: map<Key, Builder>
    var order: seq<Key>
    var idKeys: map<string, Key>
    var indexKeys: map<int, Key>
    var syntheticSeq: nat

    ghost function State(): Table
      reads this
    {
      Table(builders, order, idKeys, indexKeys, syntheticSeq)
    }

    constructor ()
      ensures State() == START
    {
      builders, order, idKeys, indexKeys, syntheticSeq := map[], [], map[], map[], 0;
    }

    /** Finds or files the builder an event belongs to, and notes contradictions. */
    method EnsureBuilder(id: string, index: Option<int>) returns (key: Key)
      modifies this
      ensures Resolved(key, State()) == Resolve(old(State()), id, index)
      ensures key in builders
    {
      if id != "" && id in idKeys && idKeys[id] in builders {
        key := idKeys[id];
        if index.Some? {
          var i := index.value;
          var b := builders[key];
          if (i in indexKeys && indexKeys[i] != key) || (b.index.Some? && b.index.value != i) {
            builders := builders[key := b.(conflict := true)];
          } else {
            builders := builders[key := b.(index := Some(i))];
            indexKeys := indexKeys[i := key];
          }
        }
        return;
      }
      if index.Some? && index.value in indexKeys && indexKeys[index.value] in builders {
        key := indexKeys[index.value];
        if id != "" {
          var b := builders[key];
          if (id in idKeys && idKeys[id] != key) || (b.id != "" && b.id != id) {
            builders := builders[key := b.(conflict := true)];
          } else {
            builders := builders[key := b.(id := id)];
            idKeys := idKeys[id := key];
          }
        }
        return;
      }
      if id != "" {
        key := ById(id);
      } else if index.Some? {
        key := ByIndex(index.value);
      } else {
        key := Synthetic(syntheticSeq);
        syntheticSeq := syntheticSeq + 1;
      }
      if key !in builders {
        if id != "" { idKeys := idKeys[id := key]; }
        if index.Some? { indexKeys := indexKeys[index.value := key]; }
        builders := builders[key := EMPTY.(id := id, index := index)];
        order := order + [key];
      }
    }

    /** Records a complete call; refuses a second one for the same builder. */
    method ApplyCall(call: Part) returns (ok: bool)
      requires call.Full?
      modifies this
      ensures ok == Apply(old(State()), call).Some?
      ensures ok ==> Some(State()) == Apply(old(State()), call)
    {
      hide Resolve;
      var key := EnsureBuilder(call.id, None);
      var b := builders[key];
      if b.fullSeen {
        return false;
      }
      b := b.(fullSeen := true);
      if call.id != "" { b := b.(id := call.id); }
      if call.name != "" { b := b.(name := call.name); }
      if call.arguments != "" { b := b.(arguments := call.arguments); }
      builders := builders[key := b];
      return true;
    }

    /** Merges a fragment. */
    method ApplyDelta(delta: Part)
      requires delta.Delta?
      modifies this
      ensures Some(State()) == Apply(old(State()), delta)
    {
      hide Resolve;
      var key := EnsureBuilder(delta.id, delta.index);
      var b := builders[key];
      if delta.id != "" { b := b.(id := delta.id); }
      if delta.index.Some? { b := b.(index := delta.index); }
      if delta.name != "" { b := b.(name := delta.name); }
      b := b.(arguments := b.arguments + delta.arguments);
      builders := builders[key := b];
    }

    /** Walks the builders in arrival order, refusing the first that is not a call. */
    method FinalizeCalls(json: string -> bool) returns (o: Outcome)
      ensures o == Finalize(State(), json, |order|)
    {
      hide Blank;
      var calls: seq<Call> := [];
      var n := 0;
      while n < |order|
        invariant 0 <= n <= |order| && Finalize(State(), json, n) == Ok(calls)
      {
        var key := order[n];
        n := n + 1;
        if key in builders {
          var b := builders[key];
          var error := None;
          if b.conflict { error := Some(Conflict); }
          else if Blank(b.id) { error := Some(MissingId); }
          else if b.arguments != "" && !json(b.arguments) { error := Some(InvalidArguments); }
          else if |calls| >= MAX_TOOL_CALLS { error := Some(TooMany); }
          if error.Some? {
            FinalizeStays(State(), json, n, error.value);
            return Err(error.value);
          }
          calls := calls + [Call(b.id, b.name, b.arguments)];
        }
      }
      return Ok(calls);
    }
  }

  lemma {:induction false} FinalizeStays(t: Table, json: string -> bool, n: nat, error: Error)
    requires n <= |t.order| && Finalize(t, json, n) == Err(error)
    ensures Finalize(t, json, |t.order|) == Err(error)
    decreases |t.order| - n
  {
    hide Blank;
    if n < |t.order| {
      FinalizeStays(t, json, n + 1, error);
    }
  }

  // ---- events ----

  datatype TextPhase = Unmarked | Commentary | FinalAnswer
  datatype Kind = TextPart | CommentaryPart | FinalPart | ReasoningPart | RedactedPart
  datatype ContentPart = ContentPart(kind: Kind, text: string, signature: string, data: string)

  datatype EventBody =
    | TextDelta(phase: TextPhase, text: string)
    | ThinkingDelta(thinking: string, signature: string, redacted: string)
    | ToolEvent(part: Option<Part>)
    | ErrorEvent
    | DoneEvent(stopReason: string)
    | OtherEvent

  datatype StreamEvent = StreamEvent(body: EventBody, usage: Usage)

  predicate Terminal(e: StreamEvent) { e.body.DoneEvent? || e.body.ErrorEvent? }

  datatype Response = Response(
    text: string, thinking: string, signature: string, redacted: string, content: seq<ContentPart>, calls: seq<Call>,
    usage: Usage, stopReason: string)

  datatype Refusal = EventAfterTerminal | MultipleTerminals | MissingTerminal | ProviderError | BadCalls(error: Error)
  datatype Normalized = Accepted(response: Response) | Refused(refusal: Refusal)

  // ---- what a stream says, part by part ----

  function Texts(events: seq<StreamEvent>): string {
    if events == [] then ""
    else
      var body := events[|events| - 1].body;
      Texts(events[..|events| - 1]) + (if body.TextDelta? then body.text else "")
  }

  function Thoughts(events: seq<StreamEvent>): string {
    if events == [] then ""
    else
      var body := events[|events| - 1].body;
      Thoughts(events[..|events| - 1]) + (if body.ThinkingDelta? then body.thinking else "")
  }

  function ToolParts(events: seq<StreamEvent>): seq<Part> {
    if events == [] then []
    else
      var body := events[|events| - 1].body;
      ToolParts(events[..|events| - 1]) + (if body.ToolEvent? && body.part.Some? then [body.part.value] else [])
  }

  /** Every event's usage is added; a final report that is not empty replaces the sum. */
  function Spending(events: seq<StreamEvent>): Usage {
    if events == [] then ZERO
    else
      var last := events[|events| - 1];
      if last.body.DoneEvent? && last.usage != ZERO then last.usage
      else Add(Spending(events[..|events| - 1]), last.usage)
  }

  /** The last signature, and the last redacted thinking, that was given. */
  function Signature(events: seq<StreamEvent>): string {
    if events == [] then ""
    else
      var body := events[|events| - 1].body;
      if body.ThinkingDelta? && body.signature != "" then body.signature else Signature(events[..|events| - 1])
  }

  function Redacted(events: seq<StreamEvent>): string {
    if events == [] then ""
    else
      var body := events[|events| - 1].body;
      if body.ThinkingDelta? && body.redacted != "" then body.redacted else Redacted(events[..|events| - 1])
  }

  /** The reason the end of the stream gave. */
  function Stopped(events: seq<StreamEvent>): string {
    if events == [] then ""
    else
      var body := events[|events| - 1].body;
      if body.DoneEvent? then body.stopReason else Stopped(events[..|events| - 1])
  }

  /** A terminal event is the last one, and there is one if it is required. */
  ghost predicate WellTerminated(events: seq<StreamEvent>, required: bool) {
    && (forall i :: 0 <= i < |events| - 1 ==> !Terminal(events[i]))
    && (required ==> events != [] && Terminal(events[|events| - 1]))
  }

  method ValidateTerminalSequence(events: seq<StreamEvent>, required: bool) returns (refusal: Option<Refusal>)
    ensures refusal.None? <==> WellTerminated(events, required)
    ensures refusal == Some(MissingTerminal) <==> required && forall i :: 0 <= i < |events| ==> !Terminal(events[i])
    ensures refusal.Some? ==>
              refusal.value == EventAfterTerminal || refusal.value == MultipleTerminals || refusal.value == MissingTerminal
  {
    var terminal := -1;
    var index := 0;
    while index < |events|
      invariant 0 <= index <= |events|
      invariant terminal == -1 || terminal == index - 1
      invariant terminal >= 0 ==> Terminal(events[terminal])
      invariant forall i :: 0 <= i < index && i != terminal ==> !Terminal(events[i])
    {
      if terminal >= 0 {
        return Some(if Terminal(events[index]) then MultipleTerminals else EventAfterTerminal);
      }
      if Terminal(events[index]) {
        terminal := index;
      }
      index := index + 1;
    }
    if required && terminal < 0 {
      return Some(MissingTerminal);
    }
    return None;
  }

  // ---- content parts ----

  function KindOf(phase: TextPhase): Kind {
    match phase
    case Unmarked => TextPart
    case Commentary => CommentaryPart
    case FinalAnswer => FinalPart
  }

  function AppendText(parts: seq<ContentPart>, kind: Kind, text: string, signature: string): seq<ContentPart> {
    if text == "" && signature == "" then parts
    else
      var n := |parts| - 1;
      if parts != [] && parts[n].kind == kind && parts[n].data == "" then
        parts[n := parts[n].(text := parts[n].text + text,
                             signature := if signature != "" then signature else parts[n].signature)]
      else parts + [ContentPart(kind, text, signature, "")]
  }

  function AppendEvent(parts: seq<ContentPart>, body: EventBody): seq<ContentPart> {
    match body
    case TextDelta(phase, text) => AppendText(parts, KindOf(phase), text, "")
    case ThinkingDelta(thinking, signature, redacted) =>
      var reasoned := AppendText(parts, ReasoningPart, thinking, signature);
      if redacted != "" then reasoned + [ContentPart(RedactedPart, "", "", redacted)] else reasoned
    case _ => parts
  }

  function Content(events: seq<StreamEvent>): seq<ContentPart> {
    if events == [] then [] else AppendEvent(Content(events[..|events| - 1]), events[|events| - 1].body)
  }

  /** The text of the parts that are, or are not, reasoning. */
  function Written(parts: seq<ContentPart>, reasoning: bool): string {
    if parts == [] then ""
    else
      var last := parts[|parts| - 1];
      Written(parts[..|parts| - 1], reasoning)
      + (if last.kind.ReasoningPart? == reasoning && !last.kind.RedactedPart? then last.text else "")
  }

  /** Neighbours of one kind have been joined. */
  ghost predicate Joined(parts: seq<ContentPart>) {
    && (forall i :: 0 <= i < |parts| ==> (parts[i].kind.RedactedPart? <==> parts[i].data != ""))
    && (forall i :: 0 < i < |parts| ==> parts[i - 1].kind != parts[i].kind || parts[i].kind.RedactedPart?)
  }

  lemma WrittenPush(parts: seq<ContentPart>, part: ContentPart, reasoning: bool)
    ensures Written(parts + [part], reasoning) ==
            Written(parts, reasoning)
            + (if part.kind.ReasoningPart? == reasoning && !part.kind.RedactedPart? then part.text else "")
  {
    assert (parts + [part])[..|parts|] == parts;
  }

  lemma AppendTextJoins(parts: seq<ContentPart>, kind: Kind, text: string, signature: string)
    requires Joined(parts) && !kind.RedactedPart?
    ensures Joined(AppendText(parts, kind, text, signature))
  {
  }

  lemma AppendTextWrites(parts: seq<ContentPart>, kind: Kind, text: string, signature: string, reasoning: bool)
    requires !kind.RedactedPart?
    ensures Written(AppendText(parts, kind, text, signature), reasoning)
            == Written(parts, reasoning) + (if kind.ReasoningPart? == reasoning then text else "")
  {
    hide Written;
    var after := AppendText(parts, kind, text, signature);
    var n := |parts| - 1;
    if text == "" && signature == "" {
    } else if parts != [] && parts[n].kind == kind && parts[n].data == "" {
      assert after == parts[..n] + [after[n]] && parts == parts[..n] + [parts[n]];
      WrittenPush(parts[..n], parts[n], reasoning);
      WrittenPush(parts[..n], after[n], reasoning);
    } else {
      assert after == parts + [ContentPart(kind, text, signature, "")];
      WrittenPush(parts, ContentPart(kind, text, signature, ""), reasoning);
    }
  }

  /** The content parts lose nothing: their texts are the text and the thinking of the
      response, in order, and neighbouring parts of one kind are joined. */
  lemma {:induction false} ContentConserves(events: seq<StreamEvent>)
    ensures Written(Content(events), false) == Texts(events)
    ensures Written(Content(events), true) == Thoughts(events)
    ensures Joined(Content(events))
  {
    hide Joined, AppendText, Written;
    if events == [] {
      NothingWritten();
    } else {
      var before, body := Content(events[..|events| - 1]), events[|events| - 1].body;
      ContentConserves(events[..|events| - 1]);
      match body
      case TextDelta(phase, text) =>
        AppendTextWrites(before, KindOf(phase), text, "", false);
        AppendTextWrites(before, KindOf(phase), text, "", true);
        AppendTextJoins(before, KindOf(phase), text, "");
      case ThinkingDelta(thinking, signature, redacted) =>
        AppendTextWrites(before, ReasoningPart, thinking, signature, false);
        AppendTextWrites(before, ReasoningPart, thinking, signature, true);
        AppendTextJoins(before, ReasoningPart, thinking, signature);
        var reasoned := AppendText(before, ReasoningPart, thinking, signature);
        if redacted != "" {
          var part := ContentPart(RedactedPart, "", "", redacted);
          WrittenPush(reasoned, part, false);
          WrittenPush(reasoned, part, true);
          RedactedJoins(reasoned, part);
        }
      case _ =>
    }
  }

  lemma NothingWritten()
    ensures Written([], false) == "" && Written([], true) == "" && Joined([])
  {
  }

  lemma RedactedJoins(parts: seq<ContentPart>, part: ContentPart)
    requires Joined(parts) && part.kind.RedactedPart? && part.data != ""
    ensures Joined(parts + [part])
  {
  }

  // ---- content, mark by mark ----

  /** One character under its kind, or one redacted payload. */
  datatype Mark = Char(kind: Kind, letter: char) | Payload(data: string)

  function Chars(kind: Kind, text: string): seq<Mark> {
    seq(|text|, i requires 0 <= i < |text| => Char(kind, text[i]))
  }

  /** What one event says. */
  function Said(body: EventBody): seq<Mark> {
    match body
    case TextDelta(Unmarked, text) => Chars(TextPart, text)
    case TextDelta(Commentary, text) => Chars(CommentaryPart, text)
    case TextDelta(FinalAnswer, text) => Chars(FinalPart, text)
    case ThinkingDelta(thinking, _, redacted) =>
      Chars(ReasoningPart, thinking) + (if redacted != "" then [Payload(redacted)] else [])
    case _ => []
  }

  function AllSaid(events: seq<StreamEvent>): seq<Mark> {
    if events == [] then [] else AllSaid(events[..|events| - 1]) + Said(events[|events| - 1].body)
  }

  /** What the content parts hold. */
  function Marks(parts: seq<ContentPart>): seq<Mark> {
    if parts == [] then []
    else
      var last := parts[|parts| - 1];
      Marks(parts[..|parts| - 1]) + (if last.kind.RedactedPart? then [Payload(last.data)] else Chars(last.kind, last.text))
  }

  /** The signature given last to any part. */
  function LastSigned(parts: seq<ContentPart>): string {
    if parts == [] then ""
    else if parts[|parts| - 1].signature != "" then parts[|parts| - 1].signature
    else LastSigned(parts[..|parts| - 1])
  }

  lemma MarksPush(parts: seq<ContentPart>, part: ContentPart)
    ensures Marks(parts + [part])
            == Marks(parts) + (if part.kind.RedactedPart? then [Payload(part.data)] else Chars(part.kind, part.text))
    ensures LastSigned(parts + [part]) == if part.signature != "" then part.signature else LastSigned(parts)
  {
    assert (parts + [part])[..|parts|] == parts;
  }

  lemma CharsJoin(kind: Kind, a: string, b: string)
    ensures Chars(kind, a + b) == Chars(kind, a) + Chars(kind, b) && Chars(kind, "") == []
  {
  }

  lemma AppendTextMarks(parts: seq<ContentPart>, kind: Kind, text: string, signature: string)
    requires !kind.RedactedPart?
    ensures Marks(AppendText(parts, kind, text, signature)) == Marks(parts) + Chars(kind, text)
    ensures LastSigned(AppendText(parts, kind, text, signature)) == if signature != "" then signature else LastSigned(parts)
  {
    hide Marks, LastSigned, Chars;
    var after := AppendText(parts, kind, text, signature);
    var n := |parts| - 1;
    CharsJoin(kind, "", "");
    if text == "" && signature == "" {
      assert Marks(parts) + [] == Marks(parts);
    } else if parts != [] && parts[n].kind == kind && parts[n].data == "" {
      assert after == parts[..n] + [after[n]] && parts == parts[..n] + [parts[n]];
      MarksPush(parts[..n], parts[n]);
      MarksPush(parts[..n], after[n]);
      CharsJoin(kind, parts[n].text, text);
    } else {
      assert after == parts + [ContentPart(kind, text, signature, "")];
      MarksPush(parts, ContentPart(kind, text, signature, ""));
    }
  }

  lemma AppendEventMarks(parts: seq<ContentPart>, body: EventBody)
    ensures Marks(AppendEvent(parts, body)) == Marks(parts) + Said(body)
    ensures LastSigned(AppendEvent(parts, body))
            == if body.ThinkingDelta? && body.signature != "" then body.signature else LastSigned(parts)
  {
    hide Marks, LastSigned, Chars, AppendText;
    match body
    case TextDelta(phase, text) => AppendTextMarks(parts, KindOf(phase), text, "");
    case ThinkingDelta(thinking, signature, redacted) =>
      AppendTextMarks(parts, ReasoningPart, thinking, signature);
      MarksPush(AppendText(parts, ReasoningPart, thinking, signature), ContentPart(RedactedPart, "", "", redacted));
      assert Marks(parts) + Chars(ReasoningPart, thinking) + [] == Marks(parts) + Chars(ReasoningPart, thinking);
    case _ => assert Marks(parts) + [] == Marks(parts);
  }

  /** The content is exactly what the events said, character by character under its kind, with
      every redacted payload in its place, and the last signature is on the last part that has one. */
  lemma {:induction false} ContentExact(events: seq<StreamEvent>)
    ensures Marks(Content(events)) == AllSaid(events)
    ensures LastSigned(Content(events)) == Signature(events)
  {
    hide Marks, LastSigned, AppendEvent, Said;
    if events == [] {
      NoMarks();
    } else {
      ContentExact(events[..|events| - 1]);
      AppendEventMarks(Content(events[..|events| - 1]), events[|events| - 1].body);
    }
  }

  lemma NoMarks()
    ensures Marks([]) == [] && LastSigned([]) == ""
  {
  }

  // ---- usage and the end ----

  function Usages(events: seq<StreamEvent>): seq<Usage> {
    seq(|events|, i requires 0 <= i < |events| => events[i].usage)
  }

  /** Of a well-terminated stream the usage is the final report if there is one, and the total of
      all reports otherwise; the stop reason is the one the last event gives. */
  lemma {:induction false} SpendingTold(events: seq<StreamEvent>)
    requires forall i :: 0 <= i < |events| - 1 ==> !events[i].body.DoneEvent?
    ensures var done := events != [] && events[|events| - 1].body.DoneEvent?;
            && Spending(events) == (if done && events[|events| - 1].usage != ZERO then events[|events| - 1].usage
                                    else Total(Usages(events)))
            && Stopped(events) == (if done then events[|events| - 1].body.stopReason else "")
  {
    hide Add;
    if events == [] {
      assert Usages(events) == [];
    } else {
      var n := |events| - 1;
      SpendingTold(events[..n]);
      assert Usages(events)[..n] == Usages(events[..n]);
      assert n > 0 ==> events[..n][n - 1] == events[n - 1];
    }
  }

  // ---- the whole stream ----

  ghost predicate Fails(events: seq<StreamEvent>) {
    exists i :: 0 <= i < |events| && events[i].body.ErrorEvent?
  }

  /** Accepts exactly the streams that are well terminated, carry no error, and whose tool
      calls assemble; the response is what the events say, part by part. */
  method Normalize(events: seq<StreamEvent>, required: bool, json: string -> bool) returns (n: Normalized)
    ensures n.Accepted? <==>
            WellTerminated(events, required) && !Fails(events) && Assemble(ToolParts(events), json).Ok?
    ensures n.Accepted? ==>
            && n.response.text == Texts(events) == Written(n.response.content, false)
            && n.response.thinking == Thoughts(events) == Written(n.response.content, true)
            && Joined(n.response.content)
            && n.response.calls == Assemble(ToolParts(events), json).calls
            && n.response.content == Content(events)
            && n.response.signature == Signature(events) && n.response.redacted == Redacted(events)
            && n.response.usage == Spending(events)
            && n.response.stopReason == Stopped(events)
  {
    hide Apply, Finalize, Add, AppendEvent, Written, Joined, Texts, Thoughts, Content, Spending, ToolParts, Collect,
         Signature, Redacted, Stopped;
    Beginning();
    var sequence := ValidateTerminalSequence(events, false);
    if sequence.Some? {
      return Refused(sequence.value);
    }
    var text, thinking, content, usage, stop := "", "", [], ZERO, "";
    var signature, redacted := "", "";
    var assembler := new ToolCallAssembler();
    var k := 0;
    while k < |events|
      invariant 0 <= k <= |events|
      invariant text == Texts(events[..k]) && thinking == Thoughts(events[..k]) && content == Content(events[..k])
      invariant usage == Spending(events[..k]) && stop == Stopped(events[..k])
      invariant signature == Signature(events[..k]) && redacted == Redacted(events[..k])
      invariant Collect(ToolParts(events[..k])) == Some(assembler.State())
      invariant forall i :: 0 <= i < k ==> !events[i].body.ErrorEvent?
      invariant fresh(assembler)
    {
      var event := events[k];
      Further(events, k);
      usage := Add(usage, event.usage);
      match event.body {
        case TextDelta(_, delta) => text := text + delta;
        case ThinkingDelta(delta, signed, hidden) =>
          thinking := thinking + delta;
          if signed != "" { signature := signed; }
          if hidden != "" { redacted := hidden; }
        case ToolEvent(part) =>
          if part.Some? {
            PushPart(events, k);
            if part.value.Full? {
              var ok := assembler.ApplyCall(part.value);
              if !ok {
                StuckParts(events, k + 1);
                return Refused(BadCalls(Duplicate));
              }
            } else {
              assembler.ApplyDelta(part.value);
            }
          }
        case ErrorEvent => return Refused(ProviderError);
        case DoneEvent(reason) =>
          stop := reason;
          if event.usage != ZERO { usage := event.usage; }
        case OtherEvent =>
      }
      content := AppendEvent(content, event.body);
      k := k + 1;
    }
    assert events[..k] == events;
    ContentConserves(events);
    if required {
      sequence := ValidateTerminalSequence(events, true);
      if sequence.Some? {
        return Refused(sequence.value);
      }
    }
    var calls := assembler.FinalizeCalls(json);
    match calls {
      case Err(error) => return Refused(BadCalls(error));
      case Ok(list) => return Accepted(Response(text, thinking, signature, redacted, content, list, usage, stop));
    }
  }

  lemma Beginning()
    ensures Texts([]) == Thoughts([]) == Signature([]) == Redacted([]) == Stopped([]) == ""
    ensures Content([]) == [] && Spending([]) == ZERO && Collect(ToolParts([])) == Some(START)
  {
  }

  /** What one more event adds. */
  lemma Further(events: seq<StreamEvent>, k: nat)
    requires k < |events|
    ensures var before, after, e := events[..k], events[..k + 1], events[k];
            && Texts(after) == Texts(before) + (if e.body.TextDelta? then e.body.text else "")
            && Thoughts(after) == Thoughts(before) + (if e.body.ThinkingDelta? then e.body.thinking else "")
            && Content(after) == AppendEvent(Content(before), e.body)
            && Spending(after) == (if e.body.DoneEvent? && e.usage != ZERO then e.usage else Add(Spending(before), e.usage))
            && Signature(after) == (if e.body.ThinkingDelta? && e.body.signature != "" then e.body.signature else Signature(before))
            && Redacted(after) == (if e.body.ThinkingDelta? && e.body.redacted != "" then e.body.redacted else Redacted(before))
            && Stopped(after) == (if e.body.DoneEvent? then e.body.stopReason else Stopped(before))
            && (!(e.body.ToolEvent? && e.body.part.Some?) ==> ToolParts(after) == ToolParts(before))
  {
    hide Add, AppendEvent;
    assert events[..k + 1][..k] == events[..k];
  }

  lemma PushPart(events: seq<StreamEvent>, k: nat)
    requires k < |events| && events[k].body.ToolEvent? && events[k].body.part.Some?
    requires Collect(ToolParts(events[..k])).Some?
    ensures Collect(ToolParts(events[..k + 1])) == Apply(Collect(ToolParts(events[..k])).value, events[k].body.part.value)
  {
    hide Apply, Collect;
    assert events[..k + 1][..k] == events[..k];
    CollectPush(ToolParts(events[..k]), events[k].body.part.value);
  }

  /** A duplicate call in a prefix is one in the whole stream. */
  lemma {:induction false} StuckParts(events: seq<StreamEvent>, k: nat)
    requires k <= |events| && Collect(ToolParts(events[..k])).None?
    ensures Collect(ToolParts(events)).None?
    decreases |events| - k
  {
    hide Apply, Collect;
    if k == |events| {
      assert events[..k] == events;
    } else {
      assert events[..k + 1][..k] == events[..k];
      var parts := ToolParts(events[..k + 1]);
      var before := ToolParts(events[..k]);
      if parts != before {
        assert parts[..|before|] == before;
        if Collect(parts).Some? {
          CollectGrows(parts, |before|);
        }
      }
      StuckParts(events, k + 1);
    }
  }
}
