/**
 * The history-to-messages conversion at the start of `chat_with_kimi`: every
 * (human, assistant) pair of the chat history gives a user message and, when the
 * assistant text is truthy (present and non-empty), an assistant message; the new
 * user message comes last.
 */
module Chat {
  import opened Base
  import opened Text

  datatype Role = User | Assistant

  datatype Message = Message(role: Role, content: string)

  /** One turn of the chat history: what the user wrote, and the reply if there is one yet. */
  datatype Turn = Turn(human: string, assistant: Option<string>)

  /** Python's `if assistant:` on a reply that may be None. */
  predicate HasReply(t: Turn)
  {
    t.assistant.Some? && t.assistant.value != ""
  }

  function TurnMessages(t: Turn): seq<Message>
  {
    [Message(User, t.human)] + (if HasReply(t) then [Message(Assistant, t.assistant.value)] else [])
  }

  /** The messages the loop has appended after the turns of `history`. */
  function HistoryMessages(history: seq<Turn>): seq<Message>
  {
    if history == [] then []
    else HistoryMessages(history[..|history| - 1]) + TurnMessages(history[|history| - 1])
  }

  /** The list `chat_with_kimi` sends. */
  function RequestMessages(history: seq<Turn>, message: string): seq<Message>
  {
    HistoryMessages(history) + [Message(User, message)]
  }

  /** The message-building loop of `chat_with_kimi`. */
  method BuildMessages(history: seq<Turn>, message: string) returns (messages: seq<Message>)
    ensures messages == RequestMessages(history, message)
  {
    messages := [];
    for k := 0 to |history|
      invariant messages == HistoryMessages(history[..k])
    {
      var turn := history[k];
      messages := messages + [Message(User, turn.human)];
      if turn.assistant.Some? && turn.assistant.value != "" {
        messages := messages + [Message(Assistant, turn.assistant.value)];
      }
      assert history[..k + 1][..k] == history[..k];
    }
    assert history[..|history|] == history;
    messages := messages + [Message(User, message)];
  }

  /** Contents of the user messages, in order. */
  function UserContents(ms: seq<Message>): seq<string>
  {
    if ms == [] then []
    else (if ms[0].role == User then [ms[0].content] else []) + UserContents(ms[1..])
  }

  /** Contents of the assistant messages, in order. */
  function AssistantContents(ms: seq<Message>): seq<string>
  {
    if ms == [] then []
    else (if ms[0].role == Assistant then [ms[0].content] else []) + AssistantContents(ms[1..])
  }

  function Humans(history: seq<Turn>): (r: seq<string>)
    ensures |r| == |history|
    ensures forall k :: 0 <= k < |history| ==> r[k] == history[k].human
  {
    seq(|history|, k requires 0 <= k < |history| => history[k].human)
  }

  /** The replies that are truthy, in order. */
  function Replies(history: seq<Turn>): seq<string>
  {
    if history == [] then []
    else (if HasReply(history[0]) then [history[0].assistant.value] else []) + Replies(history[1..])
  }

  lemma {:induction false} UserContentsAppend(a: seq<Message>, b: seq<Message>)
    ensures UserContents(a + b) == UserContents(a) + UserContents(b)
  {
    if a == [] {
      assert a + b == b;
    } else {
      var head := if a[0].role == User then [a[0].content] else [];
      assert UserContents(a + b) == head + UserContents(a[1..] + b) by {
        assert (a + b)[0] == a[0];
        assert (a + b)[1..] == a[1..] + b;
      }
      UserContentsAppend(a[1..], b);
      AppendAssociative(head, UserContents(a[1..]), UserContents(b));
    }
  }

  lemma {:induction false} AssistantContentsAppend(a: seq<Message>, b: seq<Message>)
    ensures AssistantContents(a + b) == AssistantContents(a) + AssistantContents(b)
  {
    if a == [] {
      assert a + b == b;
    } else {
      var head := if a[0].role == Assistant then [a[0].content] else [];
      assert AssistantContents(a + b) == head + AssistantContents(a[1..] + b) by {
        assert (a + b)[0] == a[0];
        assert (a + b)[1..] == a[1..] + b;
      }
      AssistantContentsAppend(a[1..], b);
      AppendAssociative(head, AssistantContents(a[1..]), AssistantContents(b));
    }
  }

  lemma {:induction false} RepliesAppend(a: seq<Turn>, b: seq<Turn>)
    ensures Replies(a + b) == Replies(a) + Replies(b)
  {
    if a == [] {
      assert a + b == b;
    } else {
      assert (a + b)[1..] == a[1..] + b;
      RepliesAppend(a[1..], b);
    }
  }

  lemma TurnContents(t: Turn)
    ensures UserContents(TurnMessages(t)) == [t.human]
    ensures AssistantContents(TurnMessages(t)) == Replies([t])
  {
    var tail := if HasReply(t) then [Message(Assistant, t.assistant.value)] else [];
    assert TurnMessages(t) == [Message(User, t.human)] + tail;
    assert UserContents(tail) == [] && AssistantContents(tail) == Replies([t]);
    UserContentsAppend([Message(User, t.human)], tail);
    AssistantContentsAppend([Message(User, t.human)], tail);
  }

  lemma {:induction false} HistoryUsers(history: seq<Turn>)
    ensures UserContents(HistoryMessages(history)) == Humans(history)
  {
    if history != [] {
      var init := history[..|history| - 1];
      var last := history[|history| - 1];
      HistoryUsers(init);
      UserContentsAppend(HistoryMessages(init), TurnMessages(last));
      TurnContents(last);
      assert Humans(history) == Humans(init) + [last.human];
    }
  }

  lemma {:induction false} HistoryAssistants(history: seq<Turn>)
    ensures AssistantContents(HistoryMessages(history)) == Replies(history)
  {
    if history != [] {
      var init := history[..|history| - 1];
      var last := history[|history| - 1];
      HistoryAssistants(init);
      AssistantContentsAppend(HistoryMessages(init), TurnMessages(last));
      TurnContents(last);
      assert history == init + [last];
      RepliesAppend(init, [last]);
    }
  }

  /**
   * Nothing is lost or invented: the user messages are the history's human texts
   * followed by the new message, and the assistant messages are its truthy replies,
   * both in order.
   */
  lemma RequestContents(history: seq<Turn>, message: string)
    ensures UserContents(RequestMessages(history, message)) == Humans(history) + [message]
    ensures AssistantContents(RequestMessages(history, message)) == Replies(history)
  {
    HistoryUsers(history);
    HistoryAssistants(history);
    UserContentsAppend(HistoryMessages(history), [Message(User, message)]);
    AssistantContentsAppend(HistoryMessages(history), [Message(User, message)]);
  }

  /** Every assistant message comes right after a user message, and no assistant message is empty. */
  predicate WellAlternating(ms: seq<Message>)
  {
    (|ms| > 0 ==> ms[0].role == User)
    && (forall k :: 0 < k < |ms| && ms[k].role == Assistant ==> ms[k - 1].role == User)
    && (forall k :: 0 <= k < |ms| && ms[k].role == Assistant ==> ms[k].content != "")
  }

  /** Appending one turn's messages keeps the list alternating. */
  lemma AlternatingAppendTurn(a: seq<Message>, t: Turn)
    requires WellAlternating(a)
    ensures WellAlternating(a + TurnMessages(t))
  {
  }

  lemma {:induction false} HistoryAlternates(history: seq<Turn>)
    ensures WellAlternating(HistoryMessages(history))
    ensures |HistoryMessages(history)| == |history| + |Replies(history)|
  {
    if history != [] {
      var init := history[..|history| - 1];
      var last := history[|history| - 1];
      HistoryAlternates(init);
      assert history == init + [last];
      RepliesAppend(init, [last]);
      AlternatingAppendTurn(HistoryMessages(init), last);
    }
  }

  /**
   * The request starts with a user message, never has two assistant messages
   * in a row, ends with the new user message, and holds one message per turn,
   * one per truthy reply, and the new one.
   */
  lemma RequestShape(history: seq<Turn>, message: string)
    ensures WellAlternating(RequestMessages(history, message))
    ensures RequestMessages(history, message)[|RequestMessages(history, message)| - 1] == Message(User, message)
    ensures |RequestMessages(history, message)| == |history| + |Replies(history)| + 1
  {
    HistoryAlternates(history);
  }

  /** The messages of a history are those of its first turns followed by those of the rest. */
  lemma {:induction false} HistoryMessagesAppend(a: seq<Turn>, b: seq<Turn>)
    ensures HistoryMessages(a + b) == HistoryMessages(a) + HistoryMessages(b)
    decreases |b|
  {
    if b == [] {
      assert a + b == a;
    } else {
      var init := b[..|b| - 1];
      HistoryMessagesAppend(a, init);
      assert (a + b)[..|a + b| - 1] == a + init;
      assert (a + b)[|a + b| - 1] == b[|b| - 1];
    }
  }

  /** The messages of a history split around one of its turns. */
  lemma HistoryAround(before: seq<Turn>, x: Turn, rest: seq<Turn>)
    ensures HistoryMessages(before + [x] + rest) == HistoryMessages(before) + TurnMessages(x) + HistoryMessages(rest)
  {
    var front := before + [x];
    assert front[..|front| - 1] == before;
    HistoryMessagesAppend(front, rest);
  }

  /**
   * Turn k gives its user message right after the messages of the turns before
   * it, and its reply, when truthy, right after that; so turn k + 1 starts one
   * or two places further on.
   */
  lemma TurnPlacement(history: seq<Turn>, message: string, k: nat)
    requires k < |history|
    ensures k + |Replies(history[..k])| < |RequestMessages(history, message)|
    ensures RequestMessages(history, message)[k + |Replies(history[..k])|] == Message(User, history[k].human)
    ensures HasReply(history[k]) ==>
      k + |Replies(history[..k])| + 1 < |RequestMessages(history, message)|
      && RequestMessages(history, message)[k + |Replies(history[..k])| + 1] == Message(Assistant, history[k].assistant.value)
    ensures |Replies(history[..k + 1])| == |Replies(history[..k])| + (if HasReply(history[k]) then 1 else 0)
  {
    var before := history[..k];
    var turn := TurnMessages(history[k]);
    var after := HistoryMessages(history[k + 1..]) + [Message(User, message)];
    assert history == before + [history[k]] + history[k + 1..];
    HistoryAround(before, history[k], history[k + 1..]);
    HistoryAlternates(before);
    var pre := HistoryMessages(before);
    assert RequestMessages(history, message) == pre + (turn + after);
    assert |pre| == k + |Replies(before)|;
    assert (pre + (turn + after))[|pre|] == turn[0];
    if HasReply(history[k]) {
      assert (pre + (turn + after))[|pre| + 1] == turn[1];
    }
    RepliesStep(history, k);
  }

  /** The truthy replies of the first k + 1 turns: those of the first k, and turn k's own if truthy. */
  lemma RepliesStep(history: seq<Turn>, k: nat)
    requires k < |history|
    ensures |Replies(history[..k + 1])| == |Replies(history[..k])| + (if HasReply(history[k]) then 1 else 0)
  {
    assert history[..k + 1] == history[..k] + [history[k]];
    RepliesAppend(history[..k], [history[k]]);
  }
}
