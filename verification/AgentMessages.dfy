// Messages and tool calls of the agent (core/bridge/agent): validation of a call,
// the split of a response's calls into executable and rejected ones, and the
// bounded history.
module AgentMessages {
  import opened Options
  import opened Text

  datatype Role = System | User | Assistant | ToolRole | NoRole

  // The arguments of a call, by what decoding them as JSON gives.
  datatype Arguments = Blank | Malformed | NotAnObject | Object(json: string)

  datatype ToolCall = ToolCall(id: string, name: string, arguments: Arguments)

  datatype Message = Message(role: Role, text: string, toolCalls: seq<ToolCall>, toolCallID: string)

  // ------------------------------------------------------- validating a call

  datatype CallIssue = IDEmpty | NameEmpty | ArgumentsEmpty | ArgumentsMalformed | ArgumentsNotAnObject

  function ValidateToolCall(call: ToolCall): (issue: Option<CallIssue>)
    ensures issue.None? <==> Executable(call)
  {
    if TrimSpace(call.id) == "" then Some(IDEmpty)
    else if TrimSpace(call.name) == "" then Some(NameEmpty)
    else
      match call.arguments
      case Blank => Some(ArgumentsEmpty)
      case Malformed => Some(ArgumentsMalformed)
      case NotAnObject => Some(ArgumentsNotAnObject)
      case Object(_) => None
  }

  predicate Executable(call: ToolCall) {
    TrimSpace(call.id) != "" && TrimSpace(call.name) != "" && call.arguments.Object?
  }

  // -------------------------------------------------- splitting the calls

  datatype IndexedCall = IndexedCall(index: nat, call: ToolCall)

  // The calls of one kind, with their positions in the response.
  function Select(calls: seq<ToolCall>, executable: bool): seq<IndexedCall> {
    if calls == [] then []
    else
      var last := calls[|calls| - 1];
      Select(calls[..|calls| - 1], executable) +
      (if Executable(last) == executable then [IndexedCall(|calls| - 1, last)] else [])
  }

  function Calls(indexed: seq<IndexedCall>): seq<ToolCall> {
    seq(|indexed|, i requires 0 <= i < |indexed| => indexed[i].call)
  }

  function Indices(indexed: seq<IndexedCall>): seq<nat> {
    seq(|indexed|, i requires 0 <= i < |indexed| => indexed[i].index)
  }

  lemma {:induction false} SelectedCalls(calls: seq<ToolCall>, executable: bool)
    ensures var sel := Select(calls, executable);
            && (forall i :: 0 <= i < |sel| ==> sel[i].index < |calls| && calls[sel[i].index] == sel[i].call)
            && (forall i :: 0 <= i < |sel| ==> Executable(sel[i].call) == executable)
            && (forall i, j :: 0 <= i < j < |sel| ==> sel[i].index < sel[j].index)
            && (forall k :: 0 <= k < |calls| && Executable(calls[k]) == executable ==> k in Indices(sel))
  {
    hide Executable;
    if calls != [] {
      var front, n := calls[..|calls| - 1], |calls| - 1;
      SelectedCalls(front, executable);
      var sel, before := Select(calls, executable), Select(front, executable);
      assert forall i :: 0 <= i < |sel| ==> sel[i] == if i < |before| then before[i] else IndexedCall(n, calls[n]);
      assert forall i :: 0 <= i < |before| ==> sel[i] == before[i] && Indices(sel)[i] == Indices(before)[i];
      assert forall k :: 0 <= k < n ==> front[k] == calls[k];
      if Executable(calls[n]) == executable { assert Indices(sel)[|before|] == n; }
      forall k | 0 <= k < |calls| && Executable(calls[k]) == executable ensures k in Indices(sel) {
        if k < n { assert front[k] == calls[k] && k in Indices(before); }
      }
    }
  }

  predicate Distinct(xs: seq<nat>) {
    forall i, j :: 0 <= i < j < |xs| ==> xs[i] != xs[j]
  }

  // Rejected and executable calls partition the positions of the response, so
  // the steps reported for them never coincide.
  lemma CallsArePartitioned(calls: seq<ToolCall>)
    ensures var steps := Indices(Select(calls, false)) + Indices(Select(calls, true));
            Distinct(steps) && forall k :: 0 <= k < |calls| <==> k in steps
  {
    hide Select, Executable;
    SelectedCalls(calls, false);
    SelectedCalls(calls, true);
    var rejected, executable := Select(calls, false), Select(calls, true);
    var r, e := Indices(rejected), Indices(executable);
    assert forall i :: 0 <= i < |r| ==> r[i] < |calls| && !Executable(calls[r[i]]);
    assert forall i :: 0 <= i < |e| ==> e[i] < |calls| && Executable(calls[e[i]]);
    assert Distinct(r) && Distinct(e);
    ApartIsDistinct(r, e);
  }

  lemma ApartIsDistinct(a: seq<nat>, b: seq<nat>)
    requires Distinct(a) && Distinct(b) && forall k :: k in a ==> k !in b
    ensures Distinct(a + b)
  {
    forall i, j | 0 <= i < j < |a + b| ensures (a + b)[i] != (a + b)[j] {
      if i < |a| <= j { assert (a + b)[i] in a && (a + b)[j] in b; }
    }
  }

  datatype Rejection = Rejection(index: nat, call: ToolCall, issue: CallIssue)

  function Rejected(rejections: seq<Rejection>): seq<IndexedCall> {
    seq(|rejections|, i requires 0 <= i < |rejections| => IndexedCall(rejections[i].index, rejections[i].call))
  }

  // Only executable calls stay in the message.
  method SanitizeAssistantToolCalls(msg: Message)
    returns (out: Message, valid: seq<IndexedCall>, issues: seq<Rejection>)
    ensures valid == Select(msg.toolCalls, true) && Rejected(issues) == Select(msg.toolCalls, false)
    ensures out == msg.(toolCalls := Calls(valid))
    ensures forall i :: 0 <= i < |issues| ==> ValidateToolCall(issues[i].call) == Some(issues[i].issue)
  {
    hide ValidateToolCall, Executable;
    var calls := msg.toolCalls;
    valid, issues := [], [];
    if calls == [] {
      return msg, [], [];
    }
    var kept: seq<ToolCall> := [];
    for index := 0 to |calls|
      invariant valid == Select(calls[..index], true) && kept == Calls(valid)
      invariant Rejected(issues) == Select(calls[..index], false)
      invariant forall i :: 0 <= i < |issues| ==> ValidateToolCall(issues[i].call) == Some(issues[i].issue)
    {
      assert calls[..index + 1][..index] == calls[..index];
      var call := calls[index];
      var checked := ValidateToolCall(call);
      if checked.Some? {
        issues := issues + [Rejection(index, call, checked.value)];
        continue;
      }
      kept := kept + [call];
      valid := valid + [IndexedCall(index, call)];
    }
    assert calls[..|calls|] == calls;
    out := msg.(toolCalls := kept);
  }

  // ------------------------------------------------------- the sliding window

  // The messages a window of `max` keeps: a system message at the head is
  // pinned, and the most recent ones fill the rest. No bound if `max` is 0.
  function Trimmed(messages: seq<Message>, max: int): (r: seq<Message>)
    ensures max > 0 ==> |r| <= max
  {
    if max <= 0 || |messages| <= max then messages
    else if messages[0].role == System then
      [messages[0]] + messages[|messages| - (max - 1)..]
    else messages[|messages| - max..]
  }

  // Message after message, trimming each time.
  function AppendAll(messages: seq<Message>, more: seq<Message>, max: int): seq<Message>
    decreases |more|
  {
    if more == [] then messages
    else AppendAll(Trimmed(messages + [more[0]], max), more[1..], max)
  }

  lemma AppendAllNothing(messages: seq<Message>, max: int)
    ensures AppendAll(messages, [], max) == messages
  {
  }

  lemma AppendAllStep(messages: seq<Message>, more: seq<Message>, max: int)
    requires more != []
    ensures AppendAll(messages, more, max) == AppendAll(Trimmed(messages + [more[0]], max), more[1..], max)
  {
  }

  lemma {:induction false} AppendAllSnoc(messages: seq<Message>, more: seq<Message>, m: Message, max: int)
    ensures AppendAll(messages, more + [m], max) == Trimmed(AppendAll(messages, more, max) + [m], max)
    decreases |more|
  {
    if more == [] {
      assert ([] + [m])[1..] == [];
    } else {
      assert (more + [m])[1..] == more[1..] + [m];
      AppendAllSnoc(Trimmed(messages + [more[0]], max), more[1..], m, max);
    }
  }

  lemma {:induction false} AppendAllConcat(messages: seq<Message>, a: seq<Message>, b: seq<Message>, max: int)
    ensures AppendAll(messages, a + b, max) == AppendAll(AppendAll(messages, a, max), b, max)
    decreases |a|
  {
    if a == [] {
      assert a + b == b;
    } else {
      assert (a + b)[1..] == a[1..] + b;
      AppendAllConcat(Trimmed(messages + [a[0]], max), a[1..], b, max);
    }
  }

  // A window that is large enough keeps everything.
  lemma {:induction false} NothingTrimmed(messages: seq<Message>, more: seq<Message>, max: int)
    requires max <= 0 || |messages| + |more| <= max
    ensures AppendAll(messages, more, max) == messages + more
    decreases |more|
  {
    if more == [] {
      assert messages + more == messages;
    } else {
      NothingTrimmed(messages + [more[0]], more[1..], max);
      assert messages + [more[0]] + more[1..] == messages + more;
    }
  }

  // The position of the message that stands pinned at the head of the window once
  // all of `log` and `more` has been appended: a system message at the very head,
  // or the first one after it that slides to the head of the full window while
  // more is appended. `from` is where the window starts.
  function Pinned(total: seq<Message>, from: nat, max: nat): (r: Option<nat>)
    ensures r.Some? ==> r.value + max < |total| && total[r.value].role == System
    decreases |total| - from
  {
    if from + max >= |total| then None
    else if total[from].role == System then Some(from)
    else Pinned(total, from + 1, max)
  }

  // Where the window over a log starts.
  function WindowStart(log: seq<Message>, max: nat): nat {
    if |log| > max && log[0].role != System then |log| - max else 0
  }

  // What a window over `log` has become when `more` was appended.
  function Slid(log: seq<Message>, more: seq<Message>, max: nat): seq<Message>
    requires max > 0
  {
    SlidTo(log + more, WindowStart(log, max), max)
  }

  function SlidTo(total: seq<Message>, from: nat, max: nat): seq<Message>
    requires max > 0
  {
    if |total| <= max then total
    else
      match Pinned(total, from, max)
      case None => total[|total| - max..]
      case Some(p) => [total[p]] + total[|total| - (max - 1)..]
  }

  // The last `n` messages.
  function Last(messages: seq<Message>, n: nat): (r: seq<Message>)
    requires n <= |messages|
    ensures |r| == n
  {
    messages[|messages| - n..]
  }

  lemma LastOfRest(messages: seq<Message>, from: nat, n: nat)
    requires from + n <= |messages|
    ensures Last(messages[from..], n) == Last(messages, n)
  {
  }

  // Once pinned, a message stays while the others slide past it.
  lemma {:induction false} PinnedStays(s: Message, tail: seq<Message>, more: seq<Message>, max: nat)
    requires s.role == System && |tail| + 1 == max
    ensures AppendAll([s] + tail, more, max) == [s] + Last(tail + more, max - 1)
    decreases |more|
  {
    hide AppendAll, Trimmed, Last;
    if more == [] {
      LastOfAll(tail);
      AppendAllNothing([s] + tail, max);
      assert tail + more == tail && more == [];
    } else {
      var next := (tail + [more[0]])[1..];
      AppendAllStep([s] + tail, more, max);
      PinnedStep(s, tail, more[0], max);
      NextLast(tail, more);
      PinnedStays(s, next, more[1..], max);
    }
  }

  lemma LastOfAll(messages: seq<Message>)
    ensures Last(messages, |messages|) == messages
  {
  }

  lemma NextLast(tail: seq<Message>, more: seq<Message>)
    requires more != []
    ensures var next := (tail + [more[0]])[1..];
            |next| == |tail| && Last(next + more[1..], |tail|) == Last(tail + more, |tail|)
  {
    hide Last;
    assert (tail + [more[0]])[1..] + more[1..] == (tail + more)[1..];
    LastOfRest(tail + more, 1, |tail|);
  }

  lemma PinnedStep(s: Message, tail: seq<Message>, m: Message, max: nat)
    requires s.role == System && |tail| + 1 == max
    ensures Trimmed([s] + tail + [m], max) == [s] + (tail + [m])[1..]
  {
    var w := [s] + tail + [m];
    assert w == [s] + (tail + [m]) && w[|w| - (max - 1)..] == (tail + [m])[1..];
  }

  // The window for any log and any messages appended to it: the end of the log, or
  // the message that was pinned and the end of the log.
  lemma {:induction false} WindowOfLog(log: seq<Message>, more: seq<Message>, max: nat)
    requires max > 0
    ensures AppendAll(Trimmed(log, max), more, max) == Slid(log, more, max)
    decreases |more|
  {
    hide AppendAll, Trimmed, Slid;
    if |log| > max && log[0].role == System {
      WindowPinned(log, more, 0, max);
    } else if |log| >= max && log[|log| - max].role == System {
      WindowPinned(log, more, |log| - max, max);
    } else if more == [] {
      AppendAllNothing(Trimmed(log, max), max);
      SlidNothing(log, max);
      assert more == [];
    } else {
      AppendAllStep(Trimmed(log, max), more, max);
      WindowStep(log, more[0], max);
      WindowOfLog(log + [more[0]], more[1..], max);
      SlidStep(log, more, max);
    }
  }

  lemma SlidNothing(log: seq<Message>, max: nat)
    requires max > 0 && (|log| > max ==> log[0].role != System)
    ensures Slid(log, [], max) == Trimmed(log, max)
  {
    assert log + [] == log;
  }

  lemma SlidStep(log: seq<Message>, more: seq<Message>, max: nat)
    requires max > 0 && more != [] && (|log| > max ==> log[0].role != System)
    requires |log| >= max ==> log[|log| - max].role != System
    ensures Slid(log + [more[0]], more[1..], max) == Slid(log, more, max)
  {
    hide Pinned, WindowStart, SlidTo;
    assert log + [more[0]] + more[1..] == log + more;
    if |log + more| > max { SameStart(log, more, max); }
    SlidToSame(log + more, WindowStart(log + [more[0]], max), WindowStart(log, max), max);
  }

  lemma SlidToSame(total: seq<Message>, from: nat, from': nat, max: nat)
    requires max > 0 && (|total| > max ==> Pinned(total, from, max) == Pinned(total, from', max))
    ensures SlidTo(total, from, max) == SlidTo(total, from', max)
  {
  }

  lemma SameStart(log: seq<Message>, more: seq<Message>, max: nat)
    requires max > 0 && more != [] && |log + more| > max && (|log| > max ==> log[0].role != System)
    requires |log| >= max ==> log[|log| - max].role != System
    ensures Pinned(log + more, WindowStart(log + [more[0]], max), max) == Pinned(log + more, WindowStart(log, max), max)
  {
    hide Pinned;
    var next := log + [more[0]];
    if |log| >= max {
      assert (log + more)[|log| - max] == log[|log| - max];
      assert next[0] == log[0];
      PinnedSkips(log + more, |log| - max, max);
    }
  }

  lemma PinnedSkips(total: seq<Message>, from: nat, max: nat)
    requires from + max < |total| && total[from].role != System
    ensures Pinned(total, from, max) == Pinned(total, from + 1, max)
  {
  }

  lemma WindowStep(log: seq<Message>, m: Message, max: nat)
    requires max > 0 && (|log| > max ==> log[0].role != System) && (|log| >= max ==> log[|log| - max].role != System)
    ensures Trimmed(Trimmed(log, max) + [m], max) == Trimmed(log + [m], max)
  {
    if |log| >= max {
      var w, from := Trimmed(log, max), |log| - max;
      assert w == log[from..] && w[0] == log[from];
      assert (w + [m])[1..] == (log + [m])[from + 1..];
    }
  }

  lemma WindowPinned(log: seq<Message>, more: seq<Message>, p: nat, max: nat)
    requires 0 < max && p + max <= |log| && log[p].role == System && p == WindowStart(log, max)
    ensures AppendAll(Trimmed(log, max), more, max) == Slid(log, more, max)
  {
    hide AppendAll, Pinned, Trimmed, Slid, Last;
    var total, tail := log + more, Last(log, max - 1);
    PinnedWindow(log, p, max);
    PinnedStays(log[p], tail, more, max);
    LastOfBoth(log, more, max - 1);
    SlidPinned(log, more, p, max);
  }

  lemma LastOfBoth(a: seq<Message>, b: seq<Message>, n: nat)
    requires n <= |a|
    ensures n <= |Last(a, n) + b| && Last(Last(a, n) + b, n) == Last(a + b, n)
  {
    assert Last(a, n) + b == (a + b)[|a| - n..];
    LastOfRest(a + b, |a| - n, n);
  }

  lemma SlidPinned(log: seq<Message>, more: seq<Message>, p: nat, max: nat)
    requires 0 < max && p + max <= |log| && log[p].role == System && p == WindowStart(log, max)
    ensures Slid(log, more, max) == [log[p]] + Last(log + more, max - 1)
  {
    hide Pinned;
    var total := log + more;
    assert total[p] == log[p];
    if p + max < |total| {
      PinnedAtOnce(total, p, max);
    } else {
      assert total[p..] == [total[p]] + total[p + 1..];
      NonePinned(total, p, max);
      assert |total| == max ==> total[p..] == total;
    }
  }

  lemma PinnedWindow(log: seq<Message>, p: nat, max: nat)
    requires 0 < max && p + max <= |log| && log[p].role == System && p == WindowStart(log, max)
    ensures Trimmed(log, max) == [log[p]] + Last(log, max - 1)
  {
    if |log| == max { assert log == [log[0]] + log[1..]; }
    if p > 0 { assert log[p..] == [log[p]] + log[p + 1..]; }
  }

  lemma NonePinned(total: seq<Message>, from: nat, max: nat)
    requires from + max >= |total|
    ensures Pinned(total, from, max) == None
  {
  }

  lemma PinnedAtOnce(total: seq<Message>, p: nat, max: nat)
    requires p + max < |total| && total[p].role == System
    ensures Pinned(total, p, max) == Some(p)
  {
  }

  // When trimming message after message is trimming the whole log once: there is
  // nothing to trim, the log begins with a system message, no later one slides to
  // the head, or the one that does is what the last window begins with anyhow.
  predicate TrimsAsOne(log: seq<Message>, more: seq<Message>, max: int) {
    var total := log + more;
    || max <= 0 || |total| <= max
    || total[0].role == System
    || var p := Pinned(total, WindowStart(log, max), max); p.None? || total[p.value] == total[|total| - max]
  }

  // Exactly then; and the limit is never exceeded.
  lemma SlidingWindow(log: seq<Message>, more: seq<Message>, max: int)
    ensures AppendAll(Trimmed(log, max), more, max) == Trimmed(log + more, max) <==> TrimsAsOne(log, more, max)
    ensures max > 0 ==> |AppendAll(Trimmed(log, max), more, max)| <= max
  {
    hide AppendAll, Pinned;
    var total := log + more;
    if max <= 0 {
      NothingTrimmed(log, more, max);
    } else {
      WindowOfLog(log, more, max);
      if |total| > max {
        assert log != [] ==> log[0] == total[0];
        if total[0].role == System {
          PinnedAtOnce(total, 0, max);
        } else {
          var p := Pinned(total, WindowStart(log, max), max);
          var head, tail := total[|total| - max], total[|total| - (max - 1)..];
          assert total[|total| - max..] == [head] + tail;
          if p.Some? { HeadsDecide(total[p.value], head, tail); }
        }
      }
    }
  }

  lemma HeadsDecide(a: Message, b: Message, tail: seq<Message>)
    ensures [a] + tail == [b] + tail <==> a == b
  {
    if [a] + tail == [b] + tail { assert ([a] + tail)[0] == ([b] + tail)[0]; }
  }

  // In particular if a system message occurs only at the head of the log.
  lemma SystemOnlyAtHead(log: seq<Message>, more: seq<Message>, max: nat)
    requires max > 0 && forall i :: 0 < i < |log + more| ==> (log + more)[i].role != System
    ensures TrimsAsOne(log, more, max)
  {
  }

  // It can fail: a system message that slides to the head of the window is pinned
  // there, so the window is no longer the end of the log.
  lemma LateSystemMessageIsPinned(a: Message, s: Message, b: Message, c: Message)
    requires a.role != System && s.role == System && b != s
    ensures AppendAll([], [a, s, b, c], 2) == [s, c]
    ensures !TrimsAsOne([], [a, s, b, c], 2)
  {
    var log := [a, s, b, c];
    assert [] + log == log && log[3..] == [c];
    assert Pinned(log, 0, 2) == Some(1);
    WindowOfLog([], log, 2);
  }

  const DEFAULT_MAX_HISTORY_MESSAGES := 100

  class History {
    var messages: seq<Message>
    var conversationState: string
    var maxMessages: int

    constructor WithMaxMessages(systemPrompt: string, maxMessages: int)
      ensures this.maxMessages == (if maxMessages <= 0 then DEFAULT_MAX_HISTORY_MESSAGES else maxMessages)
      ensures conversationState == ""
      ensures messages ==
                if TrimSpace(systemPrompt) == "" then [] else [Message(System, TrimSpace(systemPrompt), [], "")]
    {
      this.maxMessages := if maxMessages <= 0 then DEFAULT_MAX_HISTORY_MESSAGES else maxMessages;
      messages, conversationState := [], "";
      new;
      var prompt := TrimSpace(systemPrompt);
      if prompt != "" {
        Append(Message(System, prompt, [], ""));
      }
    }

    // Without a limit, as `NewHistoryFromMessages` builds it.
    constructor FromMessages(messages: seq<Message>, conversationState: string)
      ensures this.messages == messages && this.conversationState == conversationState && maxMessages == 0
    {
      this.messages, this.conversationState, maxMessages := messages, conversationState, 0;
    }

    method Append(msg: Message)
      modifies this`messages
      ensures messages == Trimmed(old(messages) + [msg], maxMessages)
      ensures messages == AppendAll(old(messages), [msg], maxMessages)
    {
      assert [msg][1..] == [];
      messages := messages + [msg];
      if maxMessages > 0 && |messages| > maxMessages {
        TrimToMax();
      }
    }

    method TrimToMax()
      modifies this`messages
      ensures messages == Trimmed(old(messages), maxMessages)
    {
      if maxMessages <= 0 || |messages| <= maxMessages {
        return;
      }
      var hasSystem := |messages| > 0 && messages[0].role == System;
      var keep := maxMessages;
      if hasSystem {
        keep := keep - 1;
      }
      if keep <= 0 {
        // Only a pinned message can leave no room: a window of one keeps it alone.
        messages := [messages[0]];
        return;
      }
      var recent := messages[|messages| - keep..];
      messages := if hasSystem then [messages[0]] + recent else recent;
    }

    // Replaces the pinned prompt or adds one; the limit is not applied here, so
    // the history can exceed it by the added message until the next append.
    method UpdateSystemPrompt(newPrompt: string)
      modifies this`messages
      ensures var prompt := TrimSpace(newPrompt);
              messages ==
                if prompt == "" then old(messages)
                else
                  [Message(System, prompt, [], "")] +
                  (if old(messages) != [] && old(messages)[0].role == System then old(messages)[1..] else old(messages))
    {
      var prompt := TrimSpace(newPrompt);
      if prompt == "" {
        return;
      }
      var desired := Message(System, prompt, [], "");
      if |messages| == 0 {
        messages := messages + [desired];
        return;
      }
      if messages[0].role == System {
        messages := messages[0 := desired];
        return;
      }
      messages := [desired] + messages;
    }

    // An independent copy; it carries no limit of its own.
    method Clone() returns (copy: History)
      ensures fresh(copy) && copy.messages == messages && copy.conversationState == conversationState
      ensures copy.maxMessages == 0
    {
      copy := new History.FromMessages(messages, conversationState);
    }

    method SetConversationState(state: string)
      modifies this`conversationState
      ensures conversationState == state
    {
      conversationState := state;
    }
  }

  // The history a run works on: bounded, and trimmed once.
  method CloneHistoryForRun(history: History) returns (copy: History)
    ensures fresh(copy) && copy.maxMessages > 0
    ensures copy.maxMessages == if history.maxMessages <= 0 then DEFAULT_MAX_HISTORY_MESSAGES else history.maxMessages
    ensures copy.messages == Trimmed(history.messages, copy.maxMessages)
    ensures copy.conversationState == history.conversationState
  {
    copy := history.Clone();
    var maxMessages := history.maxMessages;
    if maxMessages <= 0 {
      maxMessages := DEFAULT_MAX_HISTORY_MESSAGES;
    }
    copy.maxMessages := maxMessages;
    copy.TrimToMax();
  }
}
