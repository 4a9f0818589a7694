/** The floating chat panel's assistant (Cognis-frontend/src/components/ChatAssistant.jsx):
    three topics in a fixed priority, their citations, and sending on Enter. */
module ChatPanel {
  import opened Text
  import opened Chat
  import AppShell
  import SearchScreen

  datatype Topic = Crypto | Timeline | General

  const CryptoWords: seq<string> := ["crypto", "bitcoin"]
  const TimeWords: seq<string> := ["timeline", "time"]

  /** `generateAIResponse`'s choice of answer: the crypto words take precedence over the time
      words; anything else gets the general answer. "when" is not a keyword here. */
  function Classify(query: string): (t: Topic)
    ensures var q := Lower(query);
      && (t == Crypto <==> ContainsAny(q, CryptoWords))
      && (t == Timeline <==> !ContainsAny(q, CryptoWords) && ContainsAny(q, TimeWords))
  {
    var q := Lower(query);
    assert ContainsAny(q, CryptoWords) <==> Contains(q, "crypto") || Contains(q, "bitcoin") by {
      assert CryptoWords[0] == "crypto" && CryptoWords[1] == "bitcoin";
    }
    assert ContainsAny(q, TimeWords) <==> Contains(q, "timeline") || Contains(q, "time") by {
      assert TimeWords[0] == "timeline" && TimeWords[1] == "time";
    }
    if Contains(q, "crypto") || Contains(q, "bitcoin") then Crypto
    else if Contains(q, "timeline") || Contains(q, "time") then Timeline
    else General
  }

  /** The sources each answer cites. */
  function Citations(t: Topic): (c: seq<string>)
    ensures |c| > 0 && "MSG_001" in c
    ensures t == Crypto ==> c == ["MSG_001", "MSG_047", "MSG_089", "TXN_002", "TXN_015"]
    ensures t == Timeline ==> |c| == 6
    ensures t == General ==> c == ["MSG_001", "CALL_001", "CONTACT_001"]
    ensures forall i, j :: 0 <= i < j < |c| ==> c[i] != c[j]
  {
    match t
    case Crypto => ["MSG_001", "MSG_047", "MSG_089", "TXN_002", "TXN_015"]
    case Timeline => ["MSG_001", "MSG_002", "CALL_001", "CALL_002", "LOC_001", "LOC_002"]
    case General => ["MSG_001", "CALL_001", "CONTACT_001"]
  }

  lemma ClassifyIgnoresCase(query: string, other: string)
    requires Lower(query) == Lower(other)
    ensures Classify(query) == Classify(other)
    ensures Classify(query) == Classify(Lower(query))
  {
    LowerIdempotent(query);
  }

  /** The two assistants disagree on "when": a query whose only keyword is "when" gets the
      timeline answer on the search screen and the general answer here. */
  lemma WhenIsOnlyASearchKeyword(query: string)
    requires Contains(Lower(query), "when")
    requires !ContainsAny(Lower(query), CryptoWords + TimeWords + SearchScreen.EvidenceWords)
    ensures Classify(query) == General
    ensures SearchScreen.Classify(query) == SearchScreen.Timeline
  {
    var q := Lower(query);
    var words := CryptoWords + TimeWords + SearchScreen.EvidenceWords;
    forall k | 0 <= k < |CryptoWords| ensures !Contains(q, CryptoWords[k]) {
      assert CryptoWords[k] == words[k];
    }
    forall k | 0 <= k < |TimeWords| ensures !Contains(q, TimeWords[k]) {
      assert TimeWords[k] == words[k + 2];
    }
    forall k | 0 <= k < |SearchScreen.EvidenceWords| ensures !Contains(q, SearchScreen.EvidenceWords[k]) {
      assert SearchScreen.EvidenceWords[k] == words[k + 4];
    }
    assert SearchScreen.TimelineWords[2] == "when";
  }

  method NewConversation(timestamp: string) returns (c: Conversation<Topic>)
    ensures fresh(c) && c.classify == Classify && c.citations == Citations
    ensures c.State() == Initial(timestamp) && Valid(c.State())
  {
    c := new Conversation(Classify, Citations, timestamp);
  }

  /** The input's `onKeyPress`: Enter sends, with or without Shift. The input is disabled while
      an answer is being prepared. */
  method HandleKeyPress(c: Conversation<Topic>, app: AppShell.App, key: string, timestamp: string)
    requires app.Valid()
    modifies c`messages, c`inputMessage, c`isTyping, c`pending, app`auditLogs
    ensures app.Valid()
    ensures old(Valid(c.State())) ==> Valid(c.State())
    ensures var sends := !old(c.isTyping) && key == "Enter";
      && c.State() == (if sends then Send(old(c.State()), timestamp) else old(c.State()))
      && app.auditLogs == if sends then QueryLogged(old(app.auditLogs), app.currentUser.name, old(c.inputMessage), timestamp)
                          else old(app.auditLogs)
  {
    if !c.isTyping && key == "Enter" {
      c.HandleSendMessage(app, timestamp);
    }
  }
}
