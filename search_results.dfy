/** The search screen's assistant (src/components/SearchResults.jsx): `generateAIResponse`
    sorts a query into one of four topics by keywords, in a fixed priority, and attaches that
    topic's citations; the chat turn itself is `Chat.Conversation`, and this screen sends on
    Enter without Shift. */
module SearchScreen {
  import opened Text
  import opened Chat
  import AppShell

  datatype Topic = Evidence | Timeline | Connections | General

  const EvidenceWords: seq<string> := ["evidence", "proof"]
  const TimelineWords: seq<string> := ["timeline", "time", "when"]
  const ConnectionWords: seq<string> := ["connection", "relationship", "network"]

  /** `generateAIResponse`'s choice of answer. The lowercased query is searched for the
      evidence words first, then the timeline words, then the connection words; the first group
      with a word in the query decides, and a query with none of them gets the general answer. */
  function Classify(query: string): (t: Topic)
    ensures var q := Lower(query);
      && (t == Evidence <==> ContainsAny(q, EvidenceWords))
      && (t == Timeline <==> !ContainsAny(q, EvidenceWords) && ContainsAny(q, TimelineWords))
      && (t == Connections <==> !ContainsAny(q, EvidenceWords) && !ContainsAny(q, TimelineWords)
                                && ContainsAny(q, ConnectionWords))
  {
    var q := Lower(query);
    assert ContainsAny(q, EvidenceWords) <==> Contains(q, "evidence") || Contains(q, "proof") by {
      assert EvidenceWords[0] == "evidence" && EvidenceWords[1] == "proof";
    }
    assert ContainsAny(q, TimelineWords) <==> Contains(q, "timeline") || Contains(q, "time") || Contains(q, "when") by {
      assert TimelineWords[0] == "timeline" && TimelineWords[1] == "time" && TimelineWords[2] == "when";
    }
    assert ContainsAny(q, ConnectionWords) <==> Contains(q, "connection") || Contains(q, "relationship") || Contains(q, "network") by {
      assert ConnectionWords[0] == "connection" && ConnectionWords[1] == "relationship" && ConnectionWords[2] == "network";
    }
    if Contains(q, "evidence") || Contains(q, "proof") then Evidence
    else if Contains(q, "timeline") || Contains(q, "time") || Contains(q, "when") then Timeline
    else if Contains(q, "connection") || Contains(q, "relationship") || Contains(q, "network") then Connections
    else General
  }

  /** The sources each answer cites: never empty, always citing the first message and the first
      call, and no source twice. */
  function Citations(t: Topic): (c: seq<string>)
    ensures |c| > 0 && "MSG_001" in c && "CALL_001" in c
    ensures forall i, j :: 0 <= i < j < |c| ==> c[i] != c[j]
  {
    match t
    case Evidence => ["MSG_001", "CALL_001", "LOC_001", "FILE_001"]
    case Timeline => ["MSG_001", "CALL_001", "LOC_001", "TXN_001"]
    case Connections => ["CONTACT_001", "MSG_001", "CALL_001", "LOC_001"]
    case General => ["MSG_001", "CALL_001", "CONTACT_001"]
  }

  /** The topic depends only on the lowercased query: two queries that differ only in the case
      of ASCII letters get the same answer and citations. */
  lemma ClassifyIgnoresCase(query: string, other: string)
    requires Lower(query) == Lower(other)
    ensures Classify(query) == Classify(other)
    ensures Classify(query) == Classify(Lower(query))
  {
    LowerIdempotent(query);
  }

  /** "timeline" is never the deciding word: any text holding it holds "time", so the timeline
      group matches exactly when "time" or "when" occurs. */
  lemma TimelineNeedsOnlyTime(q: string)
    ensures ContainsAny(q, TimelineWords) <==> Contains(q, "time") || Contains(q, "when")
  {
    assert TimelineWords[0] == "timeline" && TimelineWords[1] == "time" && TimelineWords[2] == "when";
    if Contains(q, "timeline") {
      assert OccursAt("timeline", "time", 0);
      ContainsTransitive(q, "timeline", "time");
    }
  }

  /** The screen as it mounts, with its own classifier and citations. */
  method NewConversation(timestamp: string) returns (c: Conversation<Topic>)
    ensures fresh(c) && c.classify == Classify && c.citations == Citations
    ensures c.State() == Initial(timestamp) && Valid(c.State())
  {
    c := new Conversation(Classify, Citations, timestamp);
  }

  /** `handleKeyDown`: Enter without Shift sends; any other key, Shift+Enter included, does not.
      The input is disabled while an answer is being prepared, so it sees no keys then. */
  method HandleKeyDown(c: Conversation<Topic>, app: AppShell.App, key: string, shiftKey: bool, timestamp: string)
    requires app.Valid()
    modifies c`messages, c`inputMessage, c`isTyping, c`pending, app`auditLogs
    ensures app.Valid()
    ensures old(Valid(c.State())) ==> Valid(c.State())
    ensures var sends := !old(c.isTyping) && key == "Enter" && !shiftKey;
      && c.State() == (if sends then Send(old(c.State()), timestamp) else old(c.State()))
      && app.auditLogs == if sends then QueryLogged(old(app.auditLogs), app.currentUser.name, old(c.inputMessage), timestamp)
                          else old(app.auditLogs)
  {
    if !c.isTyping && key == "Enter" && !shiftKey {
      c.HandleSendMessage(app, timestamp);
    }
  }
}
