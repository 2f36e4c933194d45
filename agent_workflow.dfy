/**
 * The agent workflow: it answers group messages that are not its own, drains its
 * message queue, and turns a user input plus prior chat history into the history
 * the chat step receives.
 */
module Workflows {
  import opened Wrappers

  /** A chat turn: `ChatMessage(role=..., content=...)`, also the `{"role", "content"}` dict it is built from. */
  datatype ChatMessage = ChatMessage(role: string, content: string)

  const UserRole: string := "user"

  /** A prior-history entry as a caller passes it to `run`: a dictionary of strings. */
  type HistoryDict = map<string, string>

  /**
   * The `StartEvent` of `prepare_chat_history`: `user_input` (`None` when missing) and
   * `chat_history_dicts` (`None` when missing).
   */
  datatype StartEvent = StartEvent(userInput: Option<string>, chatHistoryDicts: Option<seq<ChatMessage>>)

  datatype WorkflowError =
    | NoUserInput               // ValueError("No `user_input` input provided!")
    | MissingKey(key: string)   // KeyError of a history entry in `run`

  /** The dictionary `run` returns. */
  datatype RunResult = RunResult(response: string, sources: seq<string>)

  /** A message of the group stream: `message.sender_address` and `message.content`. */
  datatype InboundMessage = InboundMessage(sender: string, content: string)

  /** One `conversation.send(text)` on the conversation `get_conversation_by_id(groupId)`. */
  datatype Outgoing = Outgoing(groupId: Option<string>, text: string)

  // ---------------------------------------------------------------------------
  // prepare_chat_history

  /** Python truthiness of `ev.get("user_input")`: present and not the empty string. */
  predicate IsTruthy(input: Option<string>): (r: bool)
    ensures r <==> input != None && input != Some("")
  {
    input.Some? && input.value != ""
  }

  /**
   * `prepare_chat_history` up to the memory buffer: the prior turns in order followed by
   * one `user` turn holding the input, or `ValueError` when the input is missing or empty.
   */
  function PrepareChatHistory(ev: StartEvent): (r: Result<seq<ChatMessage>, WorkflowError>)
    ensures r.Failure? <==> ev.userInput == None || ev.userInput == Some("")
    ensures r.Failure? ==> r.error == NoUserInput
    ensures r.Success? ==>
      var prior := ev.chatHistoryDicts.GetOr([]);
      && |r.value| == |prior| + 1
      && r.value[..|prior|] == prior
      && r.value[|prior|] == ChatMessage(UserRole, ev.userInput.value)
  {
    var chatHistory := ev.chatHistoryDicts.GetOr([]);
    if !IsTruthy(ev.userInput) then Failure(NoUserInput)
    else Success(chatHistory + [ChatMessage(UserRole, ev.userInput.value)])
  }

  /** Every prepared history ends with the user's turn, and dropping it gives back the prior turns. */
  lemma PreparedHistoryRoundTrip(prior: seq<ChatMessage>, input: string)
    requires input != ""
    ensures var r := PrepareChatHistory(StartEvent(Some(input), Some(prior)));
      r.Success? && r.value[..|r.value| - 1] == prior && r.value[|r.value| - 1].role == UserRole
  {
  }

  // ---------------------------------------------------------------------------
  // run

  /**
   * `[{"role": msg["role"], "content": msg["content"]} for msg in (chat_history or [])]`:
   * a `KeyError` for the first entry that lacks `role` or `content`.
   */
  function NormalizeEntries(history: seq<HistoryDict>): (r: Result<seq<ChatMessage>, WorkflowError>)
    ensures r.Success? <==> forall i :: 0 <= i < |history| ==> "role" in history[i] && "content" in history[i]
    ensures r.Success? ==> |r.value| == |history|
    ensures r.Success? ==> forall i :: 0 <= i < |history| ==>
      r.value[i] == ChatMessage(history[i]["role"], history[i]["content"])
    ensures r.Failure? ==> exists i :: (
      && 0 <= i < |history|
      && FirstIncomplete(history, i)
      && r.error == (if "role" !in history[i] then MissingKey("role") else MissingKey("content")))
  {
    if history == [] then Success([])
    else
      var d := history[0];
      if "role" !in d then Failure(MissingKey("role"))
      else if "content" !in d then Failure(MissingKey("content"))
      else
        match NormalizeEntries(history[1..])
        case Failure(e) => Failure(e)
        case Success(rest) => Success([ChatMessage(d["role"], d["content"])] + rest)
  }

  /** `history[i]` is the first entry that lacks `role` or `content`. */
  ghost predicate FirstIncomplete(history: seq<HistoryDict>, i: int)
    requires 0 <= i < |history|
  {
    && !("role" in history[i] && "content" in history[i])
    && forall j :: 0 <= j < i ==> "role" in history[j] && "content" in history[j]
  }

  /** `chat_history or []`: `None` and the empty list both give no entries. */
  function NormalizeHistory(history: Option<seq<HistoryDict>>): (r: Result<seq<ChatMessage>, WorkflowError>)
    ensures history == None ==> r == Success([])
    ensures history.Some? ==> r == NormalizeEntries(history.value)
  {
    NormalizeEntries(history.GetOr([]))
  }

  /** The dictionary form of a chat turn. */
  function AsDict(m: ChatMessage): HistoryDict {
    map["role" := m.role, "content" := m.content]
  }

  /** Normalising the dictionaries of a list of chat turns gives back those turns. */
  lemma {:induction false} NormalizeAsDicts(msgs: seq<ChatMessage>)
    ensures NormalizeEntries(seq(|msgs|, i requires 0 <= i < |msgs| => AsDict(msgs[i]))) == Success(msgs)
  {
    var ds := seq(|msgs|, i requires 0 <= i < |msgs| => AsDict(msgs[i]));
    var r := NormalizeEntries(ds);
    forall i | 0 <= i < |ds| ensures "role" in ds[i] && "content" in ds[i] {
    }
    assert r.Success?;
    assert r.value == msgs;
  }

  /** Extra keys are dropped: normalising twice is normalising once. */
  lemma NormalizeIdempotent(history: seq<HistoryDict>)
    requires NormalizeEntries(history).Success?
    ensures var msgs := NormalizeEntries(history).value;
      NormalizeEntries(seq(|msgs|, i requires 0 <= i < |msgs| => AsDict(msgs[i]))) == NormalizeEntries(history)
  {
    NormalizeAsDicts(NormalizeEntries(history).value);
  }

  /**
   * `run` without its side effects: normalise the history, prepare it, and hand it to
   * the chat step `answer` (memory buffer and model call); `sources` is always empty.
   */
  function RunWorkflow(userInput: Option<string>, chatHistory: Option<seq<HistoryDict>>,
                       answer: seq<ChatMessage> -> string): (r: Result<RunResult, WorkflowError>)
    ensures r.Success? <==> NormalizeHistory(chatHistory).Success? && IsTruthy(userInput)
    ensures NormalizeHistory(chatHistory).Failure? ==> r == Failure(NormalizeHistory(chatHistory).error)
    ensures NormalizeHistory(chatHistory).Success? && !IsTruthy(userInput) ==> r == Failure(NoUserInput)
    ensures r.Success? ==> r.value.sources == []
    ensures r.Success? ==>
      r.value.response == answer(NormalizeHistory(chatHistory).value + [ChatMessage(UserRole, userInput.value)])
  {
    match NormalizeHistory(chatHistory)
    case Failure(e) => Failure(e)
    case Success(dicts) =>
      match PrepareChatHistory(StartEvent(userInput, Some(dicts)))
      case Failure(e) => Failure(e)
      case Success(history) => Success(RunResult(answer(history), []))
  }

  /** A missing history and an empty one run alike. */
  lemma RunNoneHistoryIsEmpty(userInput: Option<string>, answer: seq<ChatMessage> -> string)
    ensures RunWorkflow(userInput, None, answer) == RunWorkflow(userInput, Some([]), answer)
  {
  }

  // ---------------------------------------------------------------------------
  // handle_group_message over a stream

  /** What `handle_group_message` sends for one message: nothing for the agent's own. */
  function Reply(self: Option<string>, groupId: Option<string>, rag: string -> string, m: InboundMessage): (r: seq<Outgoing>)
    ensures self == Some(m.sender) ==> r == []
    ensures self != Some(m.sender) ==> r == [Outgoing(groupId, rag(m.content))]
  {
    if self != Some(m.sender) then [Outgoing(groupId, rag(m.content))] else []
  }

  /** The sends of handling `msgs` one after the other, in arrival order. */
  function Replies(self: Option<string>, groupId: Option<string>, rag: string -> string, msgs: seq<InboundMessage>): (r: seq<Outgoing>)
    ensures |r| <= |msgs|
    ensures forall i :: 0 <= i < |r| ==> r[i].groupId == groupId
  {
    if msgs == [] then [] else Replies(self, groupId, rag, msgs[..|msgs| - 1]) + Reply(self, groupId, rag, msgs[|msgs| - 1])
  }

  /** The messages not sent by the agent itself, in arrival order. */
  function NotFromSelf(self: Option<string>, msgs: seq<InboundMessage>): (r: seq<InboundMessage>)
    ensures |r| <= |msgs|
    ensures forall m :: m in r <==> m in msgs && self != Some(m.sender)
  {
    if msgs == [] then []
    else
      var rest := NotFromSelf(self, msgs[..|msgs| - 1]);
      var last := msgs[|msgs| - 1];
      assert msgs == msgs[..|msgs| - 1] + [last];
      if self != Some(last.sender) then rest + [last] else rest
  }

  /** Dropping the agent's own messages keeps every other message exactly as often as it arrived. */
  lemma {:induction false} NotFromSelfMultiplicity(self: Option<string>, msgs: seq<InboundMessage>)
    ensures forall m :: multiset(NotFromSelf(self, msgs))[m] == if self != Some(m.sender) then multiset(msgs)[m] else 0
  {
    if msgs != [] {
      var init := msgs[..|msgs| - 1];
      NotFromSelfMultiplicity(self, init);
      assert msgs == init + [msgs[|msgs| - 1]];
    }
  }

  /** The filter keeps arrival order: filtering a concatenation concatenates the filtered parts. */
  lemma {:induction false} NotFromSelfAppend(self: Option<string>, a: seq<InboundMessage>, b: seq<InboundMessage>)
    ensures NotFromSelf(self, a + b) == NotFromSelf(self, a) + NotFromSelf(self, b)
  {
    if b == [] {
      assert a + b == a;
    } else {
      assert (a + b)[..|a + b| - 1] == a + b[..|b| - 1];
      assert (a + b)[|a + b| - 1] == b[|b| - 1];
      NotFromSelfAppend(self, a, b[..|b| - 1]);
    }
  }

  /** The sends are the processed contents of the other senders' messages, one each, in order. */
  lemma {:induction false} RepliesAreProcessedOthers(self: Option<string>, groupId: Option<string>, rag: string -> string, msgs: seq<InboundMessage>)
    ensures var sends := Replies(self, groupId, rag, msgs);
      var others := NotFromSelf(self, msgs);
      && |sends| == |others|
      && forall i :: 0 <= i < |sends| ==> sends[i] == Outgoing(groupId, rag(others[i].content))
  {
    if msgs != [] {
      RepliesAreProcessedOthers(self, groupId, rag, msgs[..|msgs| - 1]);
    }
  }

  /** Handling a stream in two parts sends what handling it whole sends. */
  lemma {:induction false} RepliesAppend(self: Option<string>, groupId: Option<string>, rag: string -> string, a: seq<InboundMessage>, b: seq<InboundMessage>)
    ensures Replies(self, groupId, rag, a + b) == Replies(self, groupId, rag, a) + Replies(self, groupId, rag, b)
  {
    if b == [] {
      assert a + b == a;
    } else {
      var init := b[..|b| - 1];
      var last := Reply(self, groupId, rag, b[|b| - 1]);
      calc {
        Replies(self, groupId, rag, a + b);
        { assert (a + b)[..|a + b| - 1] == a + init && (a + b)[|a + b| - 1] == b[|b| - 1]; }
        Replies(self, groupId, rag, a + init) + last;
        { RepliesAppend(self, groupId, rag, a, init); }
        Replies(self, groupId, rag, a) + Replies(self, groupId, rag, init) + last;
        Replies(self, groupId, rag, a) + Replies(self, groupId, rag, b);
      }
    }
  }

  /** A stream of the agent's own messages sends nothing, however long it is. */
  lemma {:induction false} OwnMessagesSendNothing(self: string, groupId: Option<string>, rag: string -> string, msgs: seq<InboundMessage>)
    requires forall i :: 0 <= i < |msgs| ==> msgs[i].sender == self
    ensures Replies(Some(self), groupId, rag, msgs) == []
  {
    if msgs != [] {
      OwnMessagesSendNothing(self, groupId, rag, msgs[..|msgs| - 1]);
    }
  }

  // ---------------------------------------------------------------------------
  // The workflow object

  class AgentWorkflow {
    /** `process_message`: the answer of the RAG sub-workflow to a query, as a string. */
    const rag: string -> string
    /** The chat step after `prepare_chat_history`: memory buffer and model call, giving the response text. */
    const answer: seq<ChatMessage> -> string

    var agentAddress: Option<string>
    var groupId: Option<string>
    var mpcWallet: Option<string>
    /** Whether `xmtp_client` is set. */
    var hasXmtpClient: bool
    /** The contents of `message_queue`, oldest first. */
    var messageQueue: seq<InboundMessage>
    /** Every message sent to the group so far, oldest first. */
    var sent: seq<Outgoing>

    /** `__init__`: nothing is set and the queue is empty. */
    constructor (rag: string -> string, answer: seq<ChatMessage> -> string)
      ensures this.rag == rag && this.answer == answer
      ensures agentAddress == None && groupId == None && mpcWallet == None && !hasXmtpClient
      ensures messageQueue == [] && sent == []
    {
      this.rag := rag;
      this.answer := answer;
      agentAddress := None;
      groupId := None;
      mpcWallet := None;
      hasXmtpClient := false;
      messageQueue := [];
      sent := [];
    }

    /**
     * `initialize`: `address` is the address of the wallet it creates; the agent takes
     * that address as its own and records `groupId`.
     */
    method Initialize(groupId: Option<string>, address: string)
      modifies this
      ensures mpcWallet == Some(address) && agentAddress == Some(address)
      ensures this.groupId == groupId && hasXmtpClient
      ensures messageQueue == old(messageQueue) && sent == old(sent)
    {
      mpcWallet := Some(address);
      hasXmtpClient := true;
      this.groupId := groupId;
      agentAddress := mpcWallet;
    }

    /** `handle_group_message`: answer every sender but the agent itself, with one send each. */
    method HandleGroupMessage(sender: string, content: string)
      requires hasXmtpClient
      modifies this`sent
      ensures sent == old(sent) + Reply(agentAddress, groupId, rag, InboundMessage(sender, content))
    {
      if Some(sender) != agentAddress {
        var response := rag(content);
        SendGroupMessage(response);
      }
    }

    /** `send_group_message`. */
    method SendGroupMessage(message: string)
      requires hasXmtpClient
      modifies this`sent
      ensures sent == old(sent) + [Outgoing(groupId, message)]
    {
      sent := sent + [Outgoing(groupId, message)];
    }

    /** `get_group_messages`: every queued item, oldest first, leaving the queue empty. */
    method GetGroupMessages() returns (messages: seq<InboundMessage>)
      modifies this`messageQueue
      ensures messages == old(messageQueue) && messageQueue == []
    {
      messages := [];
      while messageQueue != []
        invariant messages + messageQueue == old(messageQueue)
        decreases |messageQueue|
      {
        messages := messages + [messageQueue[0]];
        messageQueue := messageQueue[1..];
      }
    }

    /** `run`: the result of `RunWorkflow`; the chat step also sends the response when a client is set. */
    method Run(userInput: Option<string>, chatHistory: Option<seq<HistoryDict>>) returns (r: Result<RunResult, WorkflowError>)
      modifies this`sent
      ensures r == RunWorkflow(userInput, chatHistory, answer)
      ensures sent == old(sent) + (if r.Success? && hasXmtpClient then [Outgoing(groupId, r.value.response)] else [])
    {
      r := RunWorkflow(userInput, chatHistory, answer);
      if r.Success? && hasXmtpClient {
        sent := sent + [Outgoing(groupId, r.value.response)];
      }
    }
  }
}
