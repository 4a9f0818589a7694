/** The chat turn shared by the search screen (src/components/SearchResults.jsx) and the chat
    panel (Cognis-frontend/src/components/ChatAssistant.jsx): both keep a list of messages, an
    input box and a typing flag, append the user's message and log the query at once, and
    append the canned answer and log the response when a timer fires. The two screens differ
    only in how they classify a query and which citations they attach, which is what the type
    parameter `A` (the screen's topics) and the `classify`/`citations` functions stand for. */
module Chat {
  import opened Text
  import opened Audit
  import AppShell

  datatype Sender = FromUser | FromAssistant

  /** A message's text: what the user typed, the screen's opening message, or the canned
      answer for a topic. */
  datatype Content<A> = Typed(text: string) | Intro | Answer(topic: A)

  datatype Message<A> = Message(id: nat, sender: Sender, content: Content<A>, timestamp: string, citations: seq<string>)

  /** A timer that has been started and not yet fired: the query it answers (the input as it
      was when it was sent) and the id the answer will get. */
  datatype PendingReply = PendingReply(query: string, id: nat)

  /** The screen's state: `messages`, `inputMessage`, `isTyping` and the timers in flight. */
  datatype ChatState<A> = ChatState(messages: seq<Message<A>>, input: string, typing: bool, pending: seq<PendingReply>)

  /** A screen as it mounts: the opening message with id 1, an empty input, not typing. */
  function Initial<A>(timestamp: string): ChatState<A> {
    ChatState([Message(1, FromAssistant, Intro, timestamp, [])], "", false, [])
  }

  /** Message ids run 1, 2, ... in list order; a timer is in flight exactly while the typing
      indicator shows, and its answer takes the next id. */
  ghost predicate Valid<A>(s: ChatState<A>) {
    && (forall i :: 0 <= i < |s.messages| ==> s.messages[i].id == i + 1)
    && |s.pending| <= 1
    && (s.typing <==> s.pending != [])
    && (s.pending != [] ==> s.pending[0].id == |s.messages| + 1)
  }

  /** The send button is enabled (and the input accepts keys) only when the input is not
      blank and no answer is being prepared. */
  predicate SendEnabled<A>(s: ChatState<A>) {
    !IsBlank(s.input) && !s.typing
  }

  /** `handleSendMessage` before its timer: a blank input changes nothing; otherwise the typed
      text is appended as the user's message with id `messages.length + 1`, the input is
      cleared, the typing indicator shows, and a reply with id `messages.length + 2` is due. */
  function Send<A>(s: ChatState<A>, timestamp: string): (r: ChatState<A>)
    ensures IsBlank(s.input) ==> r == s
    ensures !IsBlank(s.input) ==>
      && |r.messages| == |s.messages| + 1 && r.messages[..|s.messages|] == s.messages
      && r.messages[|s.messages|] == Message(|s.messages| + 1, FromUser, Typed(s.input), timestamp, [])
      && r.input == "" && r.typing
      && r.pending == s.pending + [PendingReply(s.input, |s.messages| + 2)]
  {
    TrimEmptyIff(s.input);
    if Trim(s.input) == "" then s
    else
      var n := |s.messages|;
      ChatState(s.messages + [Message(n + 1, FromUser, Typed(s.input), timestamp, [])], "", true,
                s.pending + [PendingReply(s.input, n + 2)])
  }

  /** The answer `generateAIResponse` builds for a query: the topic's canned text and
      citations. */
  function AnswerTo<A>(p: PendingReply, classify: string -> A, citations: A -> seq<string>, timestamp: string): (m: Message<A>)
    ensures m.id == p.id && m.sender == FromAssistant
    ensures m.content == Answer(classify(p.query)) && m.citations == citations(classify(p.query))
  {
    var topic := classify(p.query);
    Message(p.id, FromAssistant, Answer(topic), timestamp, citations(topic))
  }

  /** The timer firing: the oldest pending query's answer is appended and the typing
      indicator goes off; the input is left as it is. */
  function Reply<A>(s: ChatState<A>, classify: string -> A, citations: A -> seq<string>, timestamp: string): (r: ChatState<A>)
    requires s.pending != []
    ensures r.messages == s.messages + [AnswerTo(s.pending[0], classify, citations, timestamp)]
    ensures r.input == s.input && !r.typing && r.pending == s.pending[1..]
  {
    ChatState(s.messages + [AnswerTo(s.pending[0], classify, citations, timestamp)], s.input, false, s.pending[1..])
  }

  /** The audit details of the two log calls; both embed the query as typed. */
  function QueryDetails(query: string): string
  {
    "User query: \"" + query + "\""
  }

  function ResponseDetails(query: string): string
  {
    "Response to query about: \"" + query + "\""
  }

  /** A send through the enabled controls keeps the state well formed. */
  lemma SendKeepsValid<A>(s: ChatState<A>, timestamp: string)
    requires Valid(s) && !s.typing
    ensures Valid(Send(s, timestamp))
  {
    var r := Send(s, timestamp);
    if !IsBlank(s.input) {
      forall i | 0 <= i < |r.messages| ensures r.messages[i].id == i + 1 {
        if i < |s.messages| {
          assert r.messages[i] == r.messages[..|s.messages|][i] == s.messages[i];
        }
      }
    }
  }

  /** A timer firing keeps the state well formed. */
  lemma ReplyKeepsValid<A>(s: ChatState<A>, classify: string -> A, citations: A -> seq<string>, timestamp: string)
    requires Valid(s) && s.pending != []
    ensures Valid(Reply(s, classify, citations, timestamp))
  {
  }

  /** A whole turn from an enabled send: the user's message and then its answer are appended
      with the next two ids, the answer is the one for the text that was sent, and the screen is
      ready for the next query. */
  lemma TurnAppendsQueryThenAnswer<A>(s: ChatState<A>, classify: string -> A, citations: A -> seq<string>,
                                      sentAt: string, answeredAt: string)
    requires Valid(s) && SendEnabled(s)
    ensures var r := Reply(Send(s, sentAt), classify, citations, answeredAt);
      var n := |s.messages|;
      && r.messages == s.messages + [Message(n + 1, FromUser, Typed(s.input), sentAt, []),
                                     Message(n + 2, FromAssistant, Answer(classify(s.input)), answeredAt, citations(classify(s.input)))]
      && r.input == "" && !r.typing && r.pending == []
      && Valid(r)
  {
    var t := Send(s, sentAt);
    var n := |s.messages|;
    assert t.messages == s.messages + [Message(n + 1, FromUser, Typed(s.input), sentAt, [])] by {
      assert t.messages == t.messages[..n] + [t.messages[n]];
    }
    SendKeepsValid(s, sentAt);
    ReplyKeepsValid(t, classify, citations, answeredAt);
  }

  /** Logging the query and then the response leaves the response entry at the head with the
      largest id and the query entry right behind it with the id before. */
  lemma QueryLoggedBeforeResponse(logs: seq<AuditEntry>, user: string, query: string, sentAt: string, answeredAt: string)
    requires IdsExact(logs)
    ensures var r := Logged(Logged(logs, "AI Query Sent", user, sentAt, QueryDetails(query)),
                            "AI Response Generated", user, answeredAt, ResponseDetails(query));
      && IdsExact(r) && r[2..] == logs
      && r[0].action == "AI Response Generated" && r[1].action == "AI Query Sent"
      && r[1].id == |logs| + 1 && r[0].id == |logs| + 2
      && forall i :: 0 <= i < |r| ==> r[i].id <= r[0].id
  {
    LoggedTwice(logs, "AI Query Sent", user, sentAt, QueryDetails(query),
                "AI Response Generated", user, answeredAt, ResponseDetails(query));
  }

  lemma LoggedTwice(logs: seq<AuditEntry>, a1: string, u1: string, t1: string, d1: string,
                    a2: string, u2: string, t2: string, d2: string)
    requires IdsExact(logs)
    ensures var r := Logged(Logged(logs, a1, u1, t1, d1), a2, u2, t2, d2);
      && IdsExact(r) && r[2..] == logs
      && r[0].action == a2 && r[1].action == a1
      && r[1].id == |logs| + 1 && r[0].id == |logs| + 2
      && forall i :: 0 <= i < |r| ==> r[i].id <= r[0].id
  {
    var q := Logged(logs, a1, u1, t1, d1);
    LoggedKeepsIdsExact(logs, a1, u1, t1, d1);
    LoggedHeadIsNewest(q, a2, u2, t2, d2);
    LoggedKeepsIdsExact(q, a2, u2, t2, d2);
    var r := Logged(q, a2, u2, t2, d2);
    assert r[1..] == q;
    assert r[2..] == q[1..] == logs;
  }

  /** What the log holds after a send: one "AI Query Sent" entry unless the input was blank. */
  function QueryLogged(logs: seq<AuditEntry>, user: string, input: string, timestamp: string): (r: seq<AuditEntry>)
    ensures IsBlank(input) ==> r == logs
    ensures !IsBlank(input) ==> |r| == |logs| + 1 && r[1..] == logs && r[0].action == "AI Query Sent"
  {
    if IsBlank(input) then logs
    else
      var r := Logged(logs, "AI Query Sent", user, timestamp, QueryDetails(input));
      assert r[1..] == logs;
      r
  }

  /** One chat screen. `classify` and `citations` are the screen's `generateAIResponse`. */
  class Conversation<A> {
    const classify: string -> A
    const citations: A -> seq<string>
    var messages: seq<Message<A>>
    var inputMessage: string
    var isTyping: bool
    var pending: seq<PendingReply>

    function State(): ChatState<A>
      reads this
    {
      ChatState(messages, inputMessage, isTyping, pending)
    }

    constructor (classify: string -> A, citations: A -> seq<string>, timestamp: string)
      ensures this.classify == classify && this.citations == citations
      ensures State() == Initial(timestamp) && Valid(State())
    {
      this.classify := classify;
      this.citations := citations;
      messages := [Message(1, FromAssistant, Intro, timestamp, [])];
      inputMessage := "";
      isTyping := false;
      pending := [];
    }

    /** The input's `onChange`. */
    method SetInputMessage(text: string)
      modifies this`inputMessage
      ensures State() == old(State()).(input := text)
    {
      inputMessage := text;
    }

    /** `handleSendMessage` up to starting the timer: appends the user's message, logs
        "AI Query Sent", clears the input and shows the typing indicator; a blank input does
        nothing at all. */
    method HandleSendMessage(app: AppShell.App, timestamp: string)
      requires app.Valid()
      modifies this`messages, this`inputMessage, this`isTyping, this`pending, app`auditLogs
      ensures app.Valid()
      ensures State() == Send(old(State()), timestamp)
      ensures app.auditLogs == QueryLogged(old(app.auditLogs), app.currentUser.name, old(inputMessage), timestamp)
      ensures old(Valid(State())) && !old(isTyping) ==> Valid(State())
    {
      if Valid(State()) && !isTyping {
        SendKeepsValid(State(), timestamp);
      }
      TrimEmptyIff(inputMessage);
      if Trim(inputMessage) == "" {
        return;
      }
      var query := inputMessage;
      var n := |messages|;
      messages := messages + [Message(n + 1, FromUser, Typed(query), timestamp, [])];
      app.AddAuditLog("AI Query Sent", QueryDetails(query), timestamp);
      inputMessage := "";
      isTyping := true;
      pending := pending + [PendingReply(query, n + 2)];
    }

    /** The timer's callback: appends the answer to the query that started it, hides the
        typing indicator and logs "AI Response Generated" for that query. */
    method DeliverReply(app: AppShell.App, timestamp: string)
      requires app.Valid() && pending != []
      modifies this`messages, this`isTyping, this`pending, app`auditLogs
      ensures app.Valid()
      ensures State() == Reply(old(State()), classify, citations, timestamp)
      ensures app.auditLogs == Logged(old(app.auditLogs), "AI Response Generated", app.currentUser.name, timestamp,
                                      ResponseDetails(old(pending[0].query)))
      ensures old(Valid(State())) ==> Valid(State())
    {
      if Valid(State()) {
        ReplyKeepsValid(State(), classify, citations, timestamp);
      }
      var p := pending[0];
      messages := messages + [AnswerTo(p, classify, citations, timestamp)];
      isTyping := false;
      pending := pending[1..];
      app.AddAuditLog("AI Response Generated", ResponseDetails(p.query), timestamp);
    }

    /** The send button: disabled while the input is blank or an answer is being prepared. */
    method ClickSend(app: AppShell.App, timestamp: string)
      requires app.Valid()
      modifies this`messages, this`inputMessage, this`isTyping, this`pending, app`auditLogs
      ensures app.Valid()
      ensures old(SendEnabled(State())) ==> State() == Send(old(State()), timestamp)
      ensures old(Valid(State())) ==> Valid(State())
      ensures !old(SendEnabled(State())) ==> State() == old(State()) && app.auditLogs == old(app.auditLogs)
      ensures app.auditLogs ==
        if old(SendEnabled(State())) then QueryLogged(old(app.auditLogs), app.currentUser.name, old(inputMessage), timestamp)
        else old(app.auditLogs)
    {
      if !IsBlank(inputMessage) && !isTyping {
        HandleSendMessage(app, timestamp);
      }
    }
  }
}
