/** Messages and tool-turn history: which histories are made of complete tool
    exchanges, where they may be cut, and which prefix is protected. */
module Messages {
  import opened Text

  datatype Role = Unset | System | User | Assistant | ToolRole

  /** The identity of a tool-call slot: absent, in the loop's own form, or some
      other text, from which a leading turn number may still be scanned. */
  datatype Operation = NoOperation | Slot(turn: int, call: int) | Foreign(text: string, scanned: Option<int>)

  datatype ToolCall = ToolCall(id: string, name: string, arguments: string, operation: Operation)
  datatype ToolResult = ToolResult(callId: string, name: string, content: string, structured: string, isError: bool)

  /** `rest` stands for the fields the modelled code only copies and compares. */
  datatype Message = Message(
    role: Role,
    text: string,
    thinking: string,
    toolCalls: seq<ToolCall>,
    toolResult: Option<ToolResult>,
    cacheBoundary: bool,
    rest: string)
}

module History {
  import opened Text
  import opened Messages

  // ---- what a complete history is ----

  ghost predicate DistinctIds(calls: seq<ToolCall>) {
    forall i, j :: 0 <= i < j < |calls| && calls[i].id != "" ==> calls[i].id != calls[j].id
  }

  /** A message that may answer a tool call. */
  predicate IsResult(m: Message) {
    m.role == ToolRole && m.toolCalls == [] && m.toolResult.Some?
  }

  /** A message outside any exchange. */
  predicate IsPlain(m: Message) {
    m.role != ToolRole && m.toolCalls == [] && m.toolResult.None?
  }

  predicate Answers(call: ToolCall, result: ToolResult) {
    call.id == "" || result.callId == "" || call.id == result.callId
  }

  /** The matching gives each result its own call, and every result answers its call. */
  ghost predicate Matching(calls: seq<ToolCall>, results: seq<Message>, to: seq<nat>) {
    && |to| == |results|
    && (forall i :: 0 <= i < |to| ==>
          to[i] < |calls| && IsResult(results[i]) && Answers(calls[to[i]], results[i].toolResult.value))
    && (forall i, j :: 0 <= i < j < |to| ==> to[i] != to[j])
  }

  /** The first unmatched call from `from` on, restricted to those with this id if asked. */
  function FirstFree(calls: seq<ToolCall>, matched: seq<bool>, from: nat, byId: bool, id: string): (c: Option<nat>)
    requires from <= |calls| == |matched|
    ensures c.Some? ==> from <= c.value < |calls| && !matched[c.value] && (byId ==> calls[c.value].id == id)
    ensures c.Some? ==> forall i :: from <= i < c.value ==> matched[i] || (byId && calls[i].id != id)
    ensures c.None? ==> forall i :: from <= i < |calls| ==> matched[i] || (byId && calls[i].id != id)
    decreases |calls| - from
  {
    if from == |calls| then None
    else if !matched[from] && (!byId || calls[from].id == id) then Some(from)
    else FirstFree(calls, matched, from + 1, byId, id)
  }

  /** The call chosen for a result: the unmatched call with its id, else the first
      unmatched anonymous call; for a result without id, the first unmatched call. */
  function Choose(calls: seq<ToolCall>, matched: seq<bool>, id: string): (c: Option<nat>)
    requires |calls| == |matched|
  {
    if id == "" then FirstFree(calls, matched, 0, false, "")
    else
      var named := FirstFree(calls, matched, 0, true, id);
      if named.Some? then named else FirstFree(calls, matched, 0, true, "")
  }

  /** Every result in turn takes a call that is still unmatched. */
  ghost predicate Fills(calls: seq<ToolCall>, matched: seq<bool>, results: seq<Message>)
    requires |calls| == |matched|
    decreases results
  {
    results == [] ||
    (&& IsResult(results[0])
     && var c := Choose(calls, matched, results[0].toolResult.value.callId);
     c.Some? && Fills(calls, matched[c.value := true], results[1..]))
  }

  function NoneMatched(calls: seq<ToolCall>): (matched: seq<bool>)
    ensures |matched| == |calls|
  {
    seq(|calls|, _ => false)
  }

  /** The number of messages in the turn that `m` opens. */
  function TurnSize(m: Message): nat {
    1 + |m.toolCalls|
  }

  /** The history opens with a plain message, or with an assistant message and its results. */
  ghost predicate TurnFirst(messages: seq<Message>) {
    && messages != []
    && var m := messages[0];
    if m.toolCalls == [] then IsPlain(m) else
      && m.role == Assistant && m.toolResult.None? && DistinctIds(m.toolCalls)
      && TurnSize(m) <= |messages|
      && Fills(m.toolCalls, NoneMatched(m.toolCalls), messages[1..TurnSize(m)])
  }

  /** The history is made of plain messages and complete exchanges. */
  ghost predicate Complete(messages: seq<Message>) {
    messages == [] || (TurnFirst(messages) && Complete(messages[TurnSize(messages[0])..]))
  }

  /** `cut` falls between two turns, or at an end of the history. */
  ghost predicate Boundary(messages: seq<Message>, cut: nat) {
    || cut == 0
    || (&& messages != [] && TurnSize(messages[0]) <= |messages|
        && TurnSize(messages[0]) <= cut
        && Boundary(messages[TurnSize(messages[0])..], cut - TurnSize(messages[0])))
  }

  // ---- acceptance is sound ----

  lemma {:induction false} FillsMatch(calls: seq<ToolCall>, matched: seq<bool>, results: seq<Message>) returns (to: seq<nat>)
    requires |calls| == |matched| && Fills(calls, matched, results)
    ensures Matching(calls, results, to)
    ensures forall i :: 0 <= i < |to| ==> !matched[to[i]]
    decreases results
  {
    if results == [] {
      to := [];
    } else {
      var c := Choose(calls, matched, results[0].toolResult.value.callId).value;
      var rest := FillsMatch(calls, matched[c := true], results[1..]);
      to := [c] + rest;
      forall i | 0 <= i < |to|
        ensures to[i] < |calls| && IsResult(results[i]) && Answers(calls[to[i]], results[i].toolResult.value)
      {
        if i > 0 {
          assert results[i] == results[1..][i - 1];
        }
      }
      forall i, j | 0 <= i < j < |to| ensures to[i] != to[j] {
        assert !matched[c := true][rest[j - 1]];
      }
    }
  }

  /** In an accepted exchange the calls and the results match one to one. */
  lemma ExchangeMatches(messages: seq<Message>) returns (to: seq<nat>)
    requires TurnFirst(messages) && messages[0].toolCalls != []
    ensures |to| == |messages[0].toolCalls|
    ensures Matching(messages[0].toolCalls, messages[1..TurnSize(messages[0])], to)
  {
    to := FillsMatch(messages[0].toolCalls, NoneMatched(messages[0].toolCalls), messages[1..TurnSize(messages[0])]);
  }

  // ---- acceptance is complete, where results are named ----

  /** The matching with `c` given up, and whatever was matched to it moved to `d`. */
  function Instead(to: seq<nat>, c: nat, d: nat): seq<nat> {
    seq(|to|, i requires 0 <= i < |to| => if to[i] == c then d else to[i])
  }

  /** The call chosen for the first result can be taken out of any matching. */
  lemma ChosenFits(calls: seq<ToolCall>, matched: seq<bool>, results: seq<Message>, to: seq<nat>) returns (rest: seq<nat>)
    requires |calls| == |matched| && DistinctIds(calls) && results != []
    requires Matching(calls, results, to) && forall i :: 0 <= i < |to| ==> !matched[to[i]]
    requires forall i :: 0 <= i < |results| ==> results[i].toolResult.Some? && results[i].toolResult.value.callId != ""
    ensures Choose(calls, matched, results[0].toolResult.value.callId).Some?
    ensures var c := Choose(calls, matched, results[0].toolResult.value.callId).value;
            Matching(calls, results[1..], rest) && forall i :: 0 <= i < |rest| ==> !matched[c := true][rest[i]]
  {
    var id, d := results[0].toolResult.value.callId, to[0];
    assert Answers(calls[d], results[0].toolResult.value);
    var c := Choose(calls, matched, id).value;
    rest := Instead(to[1..], c, d);
    forall i | 0 <= i < |rest|
      ensures rest[i] < |calls| && !matched[c := true][rest[i]]
      ensures IsResult(results[1..][i]) && Answers(calls[rest[i]], results[1..][i].toolResult.value)
    {
      assert IsResult(results[i + 1]) && Answers(calls[to[i + 1]], results[i + 1].toolResult.value);
      if to[i + 1] == c && c != d {
        MovedFits(calls, matched, id, c, d, results[i + 1].toolResult.value);
      }
    }
  }

  /** What was matched to the chosen call may be matched to the other one. */
  lemma MovedFits(calls: seq<ToolCall>, matched: seq<bool>, id: string, c: nat, d: nat, other: ToolResult)
    requires |calls| == |matched| && DistinctIds(calls) && c < |calls| && d < |calls| && c != d && id != ""
    requires Choose(calls, matched, id) == Some(c) && !matched[d]
    requires calls[d].id == "" || calls[d].id == id
    requires Answers(calls[c], other) && other.callId != ""
    ensures Answers(calls[d], other)
  {
  }

  lemma {:induction false} NamedFill(calls: seq<ToolCall>, matched: seq<bool>, results: seq<Message>, to: seq<nat>)
    requires |calls| == |matched| && DistinctIds(calls)
    requires Matching(calls, results, to) && forall i :: 0 <= i < |to| ==> !matched[to[i]]
    requires forall i :: 0 <= i < |results| ==> results[i].toolResult.Some? && results[i].toolResult.value.callId != ""
    ensures Fills(calls, matched, results)
    decreases results
  {
    hide DistinctIds;
    if results != [] {
      var rest := ChosenFits(calls, matched, results, to);
      var c := Choose(calls, matched, results[0].toolResult.value.callId).value;
      NamedFill(calls, matched[c := true], results[1..], rest);
    }
  }

  /** Where every result names a call, an exchange is accepted exactly when its calls and results
      match one to one: taking them in order loses nothing. */
  lemma NamedExchangeIff(messages: seq<Message>)
    requires messages != [] && messages[0].toolCalls != [] && TurnSize(messages[0]) <= |messages|
    requires forall i :: 1 <= i < TurnSize(messages[0]) && messages[i].toolResult.Some? ==> messages[i].toolResult.value.callId != ""
    ensures TurnFirst(messages) <==>
            && messages[0].role == Assistant && messages[0].toolResult.None? && DistinctIds(messages[0].toolCalls)
            && exists to :: Matching(messages[0].toolCalls, messages[1..TurnSize(messages[0])], to)
  {
    hide Fills;
    var calls, results := messages[0].toolCalls, messages[1..TurnSize(messages[0])];
    if TurnFirst(messages) {
      var to := ExchangeMatches(messages);
    }
    if DistinctIds(calls) {
      forall to | Matching(calls, results, to) ensures Fills(calls, NoneMatched(calls), results) {
        forall i | 0 <= i < |results| ensures results[i].toolResult.Some? && results[i].toolResult.value.callId != "" {
          assert IsResult(results[i]) && results[i] == messages[i + 1];
        }
        NamedFill(calls, NoneMatched(calls), results, to);
      }
    }
  }

  /** A result without an id takes the first call there is, so an exchange that could be matched
      may be refused. */
  lemma UnnamedRefused() returns (messages: seq<Message>, to: seq<nat>)
    ensures messages != [] && messages[0].toolCalls != [] && |messages| == TurnSize(messages[0])
    ensures messages[0].role == Assistant && messages[0].toolResult.None? && DistinctIds(messages[0].toolCalls)
    ensures Matching(messages[0].toolCalls, messages[1..], to) && !TurnFirst(messages)
  {
    var calls := [ToolCall("a", "a", "", NoOperation), ToolCall("b", "b", "", NoOperation)];
    var unnamed := Message(ToolRole, "", "", [], Some(ToolResult("", "", "", "", false)), false, "");
    var named := Message(ToolRole, "", "", [], Some(ToolResult("a", "", "", "", false)), false, "");
    messages := [Message(Assistant, "", "", calls, None, false, ""), unnamed, named];
    to := [1, 0];
    assert messages[1..] == [unnamed, named] && [unnamed, named][1..] == [named];
    assert messages[1..TurnSize(messages[0])] == [unnamed, named];
    var none := NoneMatched(calls);
    assert Choose(calls, none, "") == Some(0);
    var one := none[0 := true];
    assert FirstFree(calls, one, 0, true, "a").None? && FirstFree(calls, one, 0, true, "").None?;
    assert Choose(calls, one, "a").None?;
    assert !Fills(calls, one, [named]);
  }

  // ---- cutting at turn boundaries ----

  lemma {:induction false} BoundaryWithin(messages: seq<Message>, cut: nat)
    requires Boundary(messages, cut)
    ensures cut <= |messages|
  {
    if cut != 0 {
      BoundaryWithin(messages[TurnSize(messages[0])..], cut - TurnSize(messages[0]));
    }
  }

  lemma TurnFirstFrame(messages: seq<Message>, other: seq<Message>)
    requires TurnFirst(messages) && TurnSize(messages[0]) <= |other|
    requires messages[..TurnSize(messages[0])] == other[..TurnSize(messages[0])]
    ensures TurnFirst(other)
  {
    var n := TurnSize(messages[0]);
    assert other[0] == other[..n][0] == messages[..n][0];
    assert other[1..n] == other[..n][1..] == messages[..n][1..] == messages[1..n];
  }

  /** Cutting at a turn boundary leaves two complete histories. */
  lemma {:induction false} BoundarySplits(messages: seq<Message>, cut: nat)
    requires Complete(messages) && Boundary(messages, cut)
    ensures cut <= |messages| && Complete(messages[..cut]) && Complete(messages[cut..])
  {
    hide Fills, DistinctIds, NoneMatched, IsPlain;
    BoundaryWithin(messages, cut);
    if cut == 0 {
      assert messages[0..] == messages;
    } else {
      var n := TurnSize(messages[0]);
      BoundarySplits(messages[n..], cut - n);
      assert messages[n..][cut - n..] == messages[cut..];
      assert messages[..cut][n..] == messages[n..][..cut - n];
      assert messages[..cut][..n] == messages[..n];
      TurnFirstFrame(messages, messages[..cut]);
    }
  }

  /** A cut that leaves two complete histories is a turn boundary. */
  lemma {:induction false} SplitIsBoundary(messages: seq<Message>, cut: nat)
    requires cut <= |messages| && Complete(messages) && Complete(messages[..cut])
    ensures Boundary(messages, cut)
  {
    if cut > 0 {
      var prefix := messages[..cut];
      assert prefix[0] == messages[0];
      var n := TurnSize(messages[0]);
      assert n <= cut;
      assert prefix[n..] == messages[n..][..cut - n];
      SplitIsBoundary(messages[n..], cut - n);
    }
  }

  lemma JoinFirst(a: seq<Message>, b: seq<Message>, n: nat)
    requires a != [] && n <= |a|
    ensures (a + b)[0] == a[0] && (a + b)[..n] == a[..n] && (a + b)[n..] == a[n..] + b
  {
  }

  /** Joining complete histories gives a complete history that may be cut where they meet. */
  lemma {:induction false} CompleteJoin(a: seq<Message>, b: seq<Message>)
    requires Complete(a) && Complete(b)
    ensures Complete(a + b) && Boundary(a + b, |a|)
  {
    if a == [] {
      assert a + b == b;
    } else {
      var n := TurnSize(a[0]);
      CompleteJoin(a[n..], b);
      JoinFirst(a, b, n);
      TurnFirstFrame(a, a + b);
    }
  }

  /** Boundaries of the rest are boundaries of the whole, and conversely from the rest on. */
  lemma {:induction false} BoundaryShift(messages: seq<Message>, at: nat, cut: nat)
    requires Boundary(messages, at) && at <= |messages| && at <= cut
    ensures Boundary(messages, cut) <==> Boundary(messages[at..], cut - at)
  {
    if at == 0 {
      assert messages[0..] == messages;
    } else {
      var n := TurnSize(messages[0]);
      var rest := messages[n..];
      BoundaryWithin(rest, at - n);
      BoundaryShift(rest, at - n, cut - n);
      assert rest[at - n..] == messages[at..];
      assert Boundary(messages, cut) <==> Boundary(rest, cut - n);
    }
  }

  /** No boundary lies strictly inside the turn that begins at a boundary. */
  lemma NoBoundaryInside(messages: seq<Message>, at: nat, cut: nat)
    requires Boundary(messages, at) && at < |messages| && at < cut < at + TurnSize(messages[at])
    ensures !Boundary(messages, cut)
  {
    BoundaryShift(messages, at, cut);
    assert messages[at..][0] == messages[at];
  }

  /** The turn that begins at a boundary of a complete history ends at a boundary. */
  lemma NextBoundary(messages: seq<Message>, at: nat)
    requires Complete(messages) && Boundary(messages, at) && at < |messages|
    ensures at + TurnSize(messages[at]) <= |messages| && Boundary(messages, at + TurnSize(messages[at]))
  {
    BoundarySplits(messages, at);
    var rest := messages[at..];
    assert rest[0] == messages[at];
    var n := TurnSize(rest[0]);
    assert Boundary(rest, n);
    BoundaryShift(messages, at, at + n);
  }

  /** The whole history is a boundary. */
  lemma {:induction false} EndIsBoundary(messages: seq<Message>)
    requires Complete(messages)
    ensures Boundary(messages, |messages|)
  {
    if messages != [] {
      EndIsBoundary(messages[TurnSize(messages[0])..]);
    }
  }

  // ---- the program's checks ----

  method UnmatchedCallIndex(calls: seq<ToolCall>, matched: seq<bool>, resultId: string) returns (index: Option<nat>)
    requires |calls| == |matched| && DistinctIds(calls)
    ensures index == Choose(calls, matched, resultId)
  {
    if resultId != "" {
      // The index by id holds at most one call, as ids are distinct.
      var named := 0;
      while named < |calls| && calls[named].id != resultId
        invariant 0 <= named <= |calls|
        invariant forall i :: 0 <= i < named ==> calls[i].id != resultId
      {
        named := named + 1;
      }
      if named < |calls| && !matched[named] {
        return Some(named);
      }
      assert FirstFree(calls, matched, 0, true, resultId).None?;
      var k := 0;
      while k < |calls|
        invariant 0 <= k <= |calls|
        invariant FirstFree(calls, matched, 0, true, "") == FirstFree(calls, matched, k, true, "")
      {
        if !matched[k] && calls[k].id == "" {
          return Some(k);
        }
        k := k + 1;
      }
      return None;
    }
    var k := 0;
    while k < |calls|
      invariant 0 <= k <= |calls|
      invariant FirstFree(calls, matched, 0, false, "") == FirstFree(calls, matched, k, false, "")
    {
      if !matched[k] {
        return Some(k);
      }
      k := k + 1;
    }
    return None;
  }

  /** Whether the ids of one message's calls, blanks aside, are pairwise distinct. */
  method CheckDistinctIds(calls: seq<ToolCall>) returns (ok: bool)
    ensures ok <==> DistinctIds(calls)
  {
    var seen: set<string> := {};
    var k := 0;
    while k < |calls|
      invariant 0 <= k <= |calls|
      invariant forall id :: id in seen <==> id != "" && exists i :: 0 <= i < k && calls[i].id == id
      invariant forall i, j :: 0 <= i < j < k && calls[i].id != "" ==> calls[i].id != calls[j].id
    {
      if calls[k].id != "" {
        if calls[k].id in seen {
          return false;
        }
        seen := seen + {calls[k].id};
      }
      k := k + 1;
    }
    return true;
  }

  /** Accepts exactly the complete histories. */
  method ValidateCompleteTurns(messages: seq<Message>) returns (ok: bool)
    ensures ok <==> Complete(messages)
  {
    assert messages[0..] == messages;
    var index := 0;
    while index < |messages|
      invariant 0 <= index <= |messages|
      invariant Complete(messages) <==> Complete(messages[index..])
    {
      ghost var rest := messages[index..];
      var msg := messages[index];
      assert rest[0] == msg;
      if msg.toolCalls != [] && msg.role != Assistant {
        return false;
      }
      if msg.toolResult.Some? && msg.role != ToolRole {
        return false;
      }
      if msg.role == ToolRole {
        return false;
      }
      if msg.toolCalls == [] {
        assert rest[1..] == messages[index + 1..];
        index := index + 1;
        continue;
      }
      var distinct := CheckDistinctIds(msg.toolCalls);
      if !distinct {
        return false;
      }
      var filled := CheckExchange(messages, index);
      if !filled {
        return false;
      }
      assert rest[TurnSize(msg)..] == messages[index + |msg.toolCalls| + 1..];
      index := index + |msg.toolCalls| + 1;
    }
    assert messages[index..] == [];
    return true;
  }

  /** Whether each call of the assistant message at `index` has its result right behind. */
  method CheckExchange(messages: seq<Message>, index: nat) returns (ok: bool)
    requires index < |messages|
    requires messages[index].toolCalls != [] && messages[index].role == Assistant && messages[index].toolResult.None?
    requires DistinctIds(messages[index].toolCalls)
    ensures ok <==> TurnFirst(messages[index..])
  {
    var calls := messages[index].toolCalls;
    var matched := seq(|calls|, _ => false);
    ghost var rest := messages[index..];
    assert rest[0] == messages[index];
    var offset := 0;
    while offset < |calls|
      invariant 0 <= offset <= |calls| == |matched| && index + 1 + offset <= |messages|
      invariant TurnSize(messages[index]) <= |rest| ==>
                  (TurnFirst(rest) <==> Fills(calls, matched, rest[1 + offset..TurnSize(messages[index])]))
    {
      var resultIndex := index + offset + 1;
      if resultIndex >= |messages| {
        return false;
      }
      var resultMessage := messages[resultIndex];
      assert rest[1 + offset] == resultMessage;
      if resultMessage.toolCalls != [] || resultMessage.role != ToolRole || resultMessage.toolResult.None? {
        return false;
      }
      var call := UnmatchedCallIndex(calls, matched, resultMessage.toolResult.value.callId);
      if call.None? {
        return false;
      }
      if TurnSize(messages[index]) <= |rest| {
        assert rest[1 + offset..TurnSize(messages[index])][1..] == rest[1 + (offset + 1)..TurnSize(messages[index])];
      }
      matched := matched[call.value := true];
      offset := offset + 1;
    }
    return true;
  }

  // ---- safe cut points ----

  function Clamp(preferred: int, n: nat): nat {
    if preferred < 0 then 0 else if preferred > n then n else preferred
  }

  /** The exchange at `at` ends the history and holds the preferred index behind its call message. */
  ghost predicate HoldsInside(messages: seq<Message>, at: nat, preferred: nat) {
    && at < |messages| && Boundary(messages, at)
    && at < preferred < at + TurnSize(messages[at]) == |messages|
  }

  /** The least turn boundary at or after the preferred index. */
  ghost predicate LeastBoundary(messages: seq<Message>, preferred: nat, cut: nat) {
    && preferred <= cut <= |messages| && Boundary(messages, cut)
    && forall c: nat :: preferred <= c < cut ==> !Boundary(messages, c)
  }

  /** A preferred index inside the final exchange keeps that exchange whole behind the cut;
      any other is moved to the least turn boundary at or after it. */
  ghost predicate SafeCut(messages: seq<Message>, preferred: nat, cut: nat) {
    if exists at: nat :: HoldsInside(messages, at, preferred) then HoldsInside(messages, cut, preferred)
    else LeastBoundary(messages, preferred, cut)
  }

  /** Only one turn holds an index strictly inside. */
  lemma OneTurnInside(messages: seq<Message>, a: nat, b: nat, preferred: nat)
    requires Boundary(messages, a) && a < |messages| && a < preferred < a + TurnSize(messages[a])
    requires Boundary(messages, b) && b < |messages| && b < preferred < b + TurnSize(messages[b])
    ensures a == b
  {
    if a < b {
      NoBoundaryInside(messages, a, b);
    } else if b < a {
      NoBoundaryInside(messages, b, a);
    }
  }

  /** The description leaves one cut. */
  lemma SafeCutUnique(messages: seq<Message>, preferred: nat, a: nat, b: nat)
    requires SafeCut(messages, preferred, a) && SafeCut(messages, preferred, b)
    ensures a == b
  {
    if HoldsInside(messages, a, preferred) {
      OneTurnInside(messages, a, b, preferred);
    }
  }

  lemma InsideCut(messages: seq<Message>, index: nat, preferred: nat)
    requires Complete(messages) && Boundary(messages, index) && index < |messages|
    requires index < preferred < index + TurnSize(messages[index])
    ensures var end := index + TurnSize(messages[index]);
            SafeCut(messages, preferred, if end < |messages| then end else index)
  {
    NextBoundary(messages, index);
    var end := index + TurnSize(messages[index]);
    if end < |messages| {
      forall c: nat | preferred <= c < end ensures !Boundary(messages, c) {
        NoBoundaryInside(messages, index, c);
      }
      forall at: nat ensures !HoldsInside(messages, at, preferred) {
        if HoldsInside(messages, at, preferred) {
          OneTurnInside(messages, index, at, preferred);
        }
      }
    } else {
      assert HoldsInside(messages, index, preferred);
    }
  }

  /** A preferred index that is a boundary is the cut. */
  lemma BoundaryCut(messages: seq<Message>, cut: nat)
    requires cut <= |messages| && Boundary(messages, cut)
    ensures SafeCut(messages, cut, cut)
  {
    forall at: nat ensures !HoldsInside(messages, at, cut) {
      if HoldsInside(messages, at, cut) {
        NoBoundaryInside(messages, at, cut);
      }
    }
  }

  /** A safe cut leaves two complete histories. */
  lemma SafeCutSplits(messages: seq<Message>, preferred: nat, cut: nat)
    requires Complete(messages) && SafeCut(messages, preferred, cut)
    ensures Complete(messages[..cut]) && Complete(messages[cut..])
  {
    BoundarySplits(messages, cut);
  }

  method CompleteTurnBoundary(messages: seq<Message>, preferredStart: int) returns (ok: bool, start: nat)
    ensures ok <==> Complete(messages)
    ensures ok ==> SafeCut(messages, Clamp(preferredStart, |messages|), start)
    ensures !ok ==> start == 0
  {
    ok := ValidateCompleteTurns(messages);
    start := 0;
    if !ok {
      return;
    }
    start := if preferredStart < 0 then 0 else if preferredStart > |messages| then |messages| else preferredStart;
    var index := 0;
    while index < |messages|
      invariant 0 <= index <= |messages| && Boundary(messages, index)
      invariant start == Clamp(preferredStart, |messages|)
      invariant start <= index ==> Boundary(messages, start)
    {
      var callCount := |messages[index].toolCalls|;
      NextBoundary(messages, index);
      if callCount == 0 {
        index := index + 1;
        continue;
      }
      var groupEnd := index + callCount + 1;
      if index < start < groupEnd {
        InsideCut(messages, index, start);
        start := if groupEnd < |messages| then groupEnd else index;
        return;
      }
      index := groupEnd;
    }
    BoundaryCut(messages, start);
  }

  /** Some message at or after `from` carries a marker. */
  ghost predicate Marked(messages: seq<Message>, from: nat) {
    exists i :: from <= i < |messages| && messages[i].cacheBoundary
  }

  /** The boundary is the least one behind every marker. */
  ghost predicate ProtectsMarkers(messages: seq<Message>, boundary: nat) {
    && boundary <= |messages| && Boundary(messages, boundary) && !Marked(messages, boundary)
    && forall c: nat :: c < boundary && Boundary(messages, c) ==> Marked(messages, c)
  }

  lemma ProtectsUnique(messages: seq<Message>, a: nat, b: nat)
    requires ProtectsMarkers(messages, a) && ProtectsMarkers(messages, b)
    ensures a == b
  {
  }

  /** The turn holding the last marker ends the protected prefix. */
  lemma LastMarkedTurn(messages: seq<Message>, index: nat, last: nat)
    requires Complete(messages) && Boundary(messages, index) && index < |messages|
    requires index <= last < |messages| && last < index + TurnSize(messages[index])
    requires messages[last].cacheBoundary && !Marked(messages, last + 1)
    ensures ProtectsMarkers(messages, index + TurnSize(messages[index]))
  {
    var end := index + TurnSize(messages[index]);
    NextBoundary(messages, index);
    forall c: nat | c < end && Boundary(messages, c) ensures Marked(messages, c) {
      if c > last {
        NoBoundaryInside(messages, index, c);
      }
    }
  }

  method LastMarker(messages: seq<Message>) returns (boundary: nat)
    ensures boundary <= |messages| && !Marked(messages, boundary)
    ensures boundary > 0 ==> messages[boundary - 1].cacheBoundary
  {
    boundary := 0;
    for k := 0 to |messages|
      invariant boundary <= k
      invariant forall i :: boundary <= i < k ==> !messages[i].cacheBoundary
      invariant boundary > 0 ==> messages[boundary - 1].cacheBoundary
    {
      if messages[k].cacheBoundary {
        boundary := k + 1;
      }
    }
  }

  method CachePrefixBoundary(messages: seq<Message>) returns (ok: bool, boundary: nat)
    ensures ok <==> Complete(messages)
    ensures ok ==> ProtectsMarkers(messages, boundary)
    ensures !ok ==> boundary == 0
  {
    ok := ValidateCompleteTurns(messages);
    boundary := 0;
    if !ok {
      return;
    }
    boundary := LastMarker(messages);
    if boundary == 0 {
      return;
    }
    var index := 0;
    while index < |messages|
      invariant 0 <= index <= |messages| && Boundary(messages, index)
      invariant 0 < boundary <= |messages| && messages[boundary - 1].cacheBoundary && !Marked(messages, boundary)
      invariant boundary <= index ==> ProtectsMarkers(messages, boundary)
    {
      var callCount := |messages[index].toolCalls|;
      NextBoundary(messages, index);
      if index <= boundary - 1 < index + TurnSize(messages[index]) {
        LastMarkedTurn(messages, index, boundary - 1);
      }
      if callCount == 0 {
        index := index + 1;
        continue;
      }
      var groupEnd := index + callCount + 1;
      if index < boundary < groupEnd {
        boundary := groupEnd;
        return;
      }
      index := groupEnd;
    }
  }

  // ---- compaction and the protected prefix ----

  /** What the loop accepts from a compactor: complete turns, with the protected prefix untouched. */
  ghost predicate CompactionAccepted(before: seq<Message>, after: seq<Message>) {
    && Complete(before) && Complete(after)
    && forall b: nat :: ProtectsMarkers(before, b) ==> b <= |after| && after[..b] == before[..b]
  }

  /** The checks around one compaction, whatever the compactor returns. */
  method AcceptCompaction(before: seq<Message>, after: seq<Message>) returns (ok: bool)
    ensures ok <==> CompactionAccepted(before, after)
  {
    var fine, boundary := CachePrefixBoundary(before);
    if !fine {
      return false;
    }
    var complete := ValidateCompleteTurns(after);
    if !complete {
      return false;
    }
    if boundary > |after| {
      return false;
    }
    var index := 0;
    while index < boundary
      invariant 0 <= index <= boundary <= |after| && boundary <= |before|
      invariant after[..index] == before[..index]
    {
      if before[index] != after[index] {
        assert before[..boundary][index] != after[..boundary][index];
        return false;
      }
      index := index + 1;
    }
    forall b | ProtectsMarkers(before, b) ensures b == boundary {
      ProtectsUnique(before, b, boundary);
    }
    return true;
  }

  datatype Edit = Compacted(after: seq<Message>) | Appended(turns: seq<Message>)

  function Apply(messages: seq<Message>, edit: Edit): seq<Message> {
    match edit
    case Compacted(after) => after
    case Appended(turns) => messages + turns
  }

  ghost predicate Legal(messages: seq<Message>, edit: Edit) {
    match edit
    case Compacted(after) => CompactionAccepted(messages, after)
    case Appended(turns) => Complete(turns)
  }

  /** A run of successful compactions by any compactor and of appended turns. */
  ghost predicate EditRun(messages: seq<Message>, edits: seq<Edit>)
    decreases edits
  {
    edits == [] || (Legal(messages, edits[0]) && EditRun(Apply(messages, edits[0]), edits[1..]))
  }

  function Final(messages: seq<Message>, edits: seq<Edit>): seq<Message>
    decreases edits
  {
    if edits == [] then messages else Final(Apply(messages, edits[0]), edits[1..])
  }

  /** A history with a boundary `b` that its markers reach protects at least `b`. */
  lemma ProtectedGrows(before: seq<Message>, after: seq<Message>, b: nat, c: nat)
    requires Complete(after) && ProtectsMarkers(before, b) && ProtectsMarkers(after, c)
    requires b <= |after| && after[..b] == before[..b]
    ensures b <= c
  {
    if c < b {
      SamePrefixBoundary(after, before, b, c);
      MarkerCarries(before, after, b, c);
    }
  }

  /** A marker inside a common prefix is in both histories. */
  lemma MarkerCarries(before: seq<Message>, after: seq<Message>, b: nat, c: nat)
    requires b <= |before| && b <= |after| && after[..b] == before[..b]
    requires Marked(before, c) && !Marked(before, b)
    ensures Marked(after, c)
  {
    var i :| c <= i < |before| && before[i].cacheBoundary;
    assert after[i] == after[..b][i] == before[..b][i];
  }

  /** Turn boundaries inside a common prefix are the same. */
  lemma {:induction false} SamePrefixBoundary(a: seq<Message>, other: seq<Message>, b: nat, c: nat)
    requires b <= |a| && b <= |other| && a[..b] == other[..b]
    requires Boundary(a, c) && c <= b
    ensures Boundary(other, c)
  {
    if c > 0 {
      assert a[0] == a[..b][0] == other[..b][0] == other[0];
      var n := TurnSize(a[0]);
      assert a[n..][..b - n] == a[..b][n..] == other[..b][n..] == other[n..][..b - n];
      SamePrefixBoundary(a[n..], other[n..], b - n, c - n);
    }
  }

  lemma {:induction false} BoundaryExists(messages: seq<Message>) returns (b: nat)
    requires Complete(messages)
    ensures ProtectsMarkers(messages, b)
  {
    if messages == [] {
      b := 0;
    } else {
      var n := TurnSize(messages[0]);
      var rest := messages[n..];
      var inner := BoundaryExists(rest);
      if !Marked(messages, 0) {
        b := 0;
      } else {
        b := n + inner;
        ProtectsPrepend(messages, inner);
      }
    }
  }

  lemma ProtectsPrepend(messages: seq<Message>, inner: nat)
    requires Complete(messages) && messages != [] && Marked(messages, 0)
    requires ProtectsMarkers(messages[TurnSize(messages[0])..], inner)
    ensures ProtectsMarkers(messages, TurnSize(messages[0]) + inner)
  {
    var n := TurnSize(messages[0]);
    var rest := messages[n..];
    forall c: nat | n <= c <= |messages| ensures Marked(messages, c) <==> Marked(rest, c - n) {
      MarkedShift(messages, n, c);
    }
    forall c: nat | c < n + inner && Boundary(messages, c) ensures Marked(messages, c) {
      if c != 0 {
        assert Boundary(rest, c - n);
      }
    }
  }

  lemma MarkedShift(messages: seq<Message>, n: nat, c: nat)
    requires n <= c <= |messages|
    ensures Marked(messages, c) <==> Marked(messages[n..], c - n)
  {
    if Marked(messages, c) {
      var i :| c <= i < |messages| && messages[i].cacheBoundary;
      assert messages[n..][i - n].cacheBoundary;
    }
  }

  /** Over any run of compactions and appended turns the history stays complete, the
      initially protected prefix stays as it was, and the boundary never moves back. */
  lemma {:induction false} ProtectedPrefix(messages: seq<Message>, edits: seq<Edit>, b: nat) returns (c: nat)
    requires Complete(messages) && EditRun(messages, edits) && ProtectsMarkers(messages, b)
    ensures var last := Final(messages, edits);
            && Complete(last) && ProtectsMarkers(last, c) && b <= c
            && last[..b] == messages[..b]
    decreases |edits|
  {
    if edits == [] {
      c := b;
    } else {
      var next := Apply(messages, edits[0]);
      if edits[0].Appended? {
        CompleteJoin(messages, edits[0].turns);
      }
      assert b <= |next| && next[..b] == messages[..b];
      var mid := BoundaryExists(next);
      ProtectedGrows(messages, next, b, mid);
      c := ProtectedPrefix(next, edits[1..], mid);
      var last := Final(next, edits[1..]);
      assert last[..b] == last[..mid][..b] == next[..mid][..b] == next[..b];
    }
  }
}
