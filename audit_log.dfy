/** The audit-log screen (Cognis-frontend/src/components/AuditLog.jsx): a text search and an
    action filter over the audit trail, the list of actions offered by the filter, and the
    badge colour of each action. */
module AuditLogScreen {
  import opened Text
  import opened Seqs
  import opened Audit

  /** The text search's test: the lowercased query is a substring of the lowercased action,
      user or details. The query is matched as typed, surrounding spaces included. */
  predicate TextMatches(e: AuditEntry, query: string) {
    var q := Lower(query);
    Contains(Lower(e.action), q) || Contains(Lower(e.user), q) || Contains(Lower(e.details), q)
  }

  /** An entry stays in view when the query is blank or matches it, and the action filter is
      "all" or equals its action exactly (case and all). */
  predicate Kept(e: AuditEntry, query: string, filterAction: string) {
    (IsBlank(query) || TextMatches(e, query)) && (filterAction == "all" || e.action == filterAction)
  }

  /** What the screen shows: the entries that are kept, in the trail's order. */
  function Selected(logs: seq<AuditEntry>, query: string, filterAction: string): (r: seq<AuditEntry>)
    ensures IsSubsequence(r, logs)
    ensures forall i :: 0 <= i < |r| ==> r[i] in logs && Kept(r[i], query, filterAction)
    ensures forall i :: 0 <= i < |logs| && Kept(logs[i], query, filterAction) ==> logs[i] in r
  {
    Filter(logs, e => Kept(e, query, filterAction))
  }

  /** The text search step: the entries the query matches, in order. */
  function ByText(logs: seq<AuditEntry>, query: string): seq<AuditEntry> {
    Filter(logs, e => TextMatches(e, query))
  }

  /** The action filter step: the entries whose action is exactly the filter, in order. */
  function ByAction(logs: seq<AuditEntry>, filterAction: string): seq<AuditEntry> {
    Filter(logs, (e: AuditEntry) => e.action == filterAction)
  }

  /** Applying the two steps in turn, each only when it is switched on, shows exactly the
      entries that pass both tests. */
  lemma SearchInSteps(logs: seq<AuditEntry>, query: string, filterAction: string)
    ensures var byText := if Trim(query) != "" then ByText(logs, query) else logs;
      (if filterAction != "all" then ByAction(byText, filterAction) else byText)
      == Selected(logs, query, filterAction)
  {
    TrimEmptyIff(query);
    if Trim(query) != "" && filterAction != "all" {
      BothSteps(logs, query, filterAction);
    } else if Trim(query) != "" {
      TextStepOnly(logs, query);
    } else if filterAction != "all" {
      ActionStepOnly(logs, query, filterAction);
    } else {
      FilterAll(logs, e => Kept(e, query, filterAction));
    }
  }

  lemma BothSteps(logs: seq<AuditEntry>, query: string, filterAction: string)
    requires !IsBlank(query) && filterAction != "all"
    ensures ByAction(ByText(logs, query), filterAction) == Selected(logs, query, filterAction)
  {
    var text := e => TextMatches(e, query);
    var action := (e: AuditEntry) => e.action == filterAction;
    var kept := e => Kept(e, query, filterAction);
    FilterFilter(logs, text, action, kept);
  }

  lemma TextStepOnly(logs: seq<AuditEntry>, query: string)
    requires !IsBlank(query)
    ensures ByText(logs, query) == Selected(logs, query, "all")
  {
    var text := e => TextMatches(e, query);
    var kept := e => Kept(e, query, "all");
    forall i | 0 <= i < |logs| ensures text(logs[i]) == kept(logs[i]) {
    }
    FilterAgree(logs, text, kept);
  }

  lemma ActionStepOnly(logs: seq<AuditEntry>, query: string, filterAction: string)
    requires IsBlank(query) && filterAction != "all"
    ensures ByAction(logs, filterAction) == Selected(logs, query, filterAction)
  {
    var action := (e: AuditEntry) => e.action == filterAction;
    var kept := e => Kept(e, query, filterAction);
    forall i | 0 <= i < |logs| ensures action(logs[i]) == kept(logs[i]) {
    }
    FilterAgree(logs, action, kept);
  }

  /** A blank query with the "all" filter shows the trail exactly as it is. */
  lemma SelectedShowsAll(logs: seq<AuditEntry>, query: string)
    requires IsBlank(query)
    ensures Selected(logs, query, "all") == logs
  {
    FilterAll(logs, e => Kept(e, query, "all"));
  }

  /** A newly recorded entry that passes the filters heads the view; the rest of the view is
      what was shown before. */
  lemma SelectedAfterLogged(logs: seq<AuditEntry>, action: string, user: string, timestamp: string,
                            details: string, query: string, filterAction: string)
    ensures var r := Logged(logs, action, user, timestamp, details);
      Selected(r, query, filterAction)
      == (if Kept(r[0], query, filterAction) then [r[0]] else []) + Selected(logs, query, filterAction)
  {
    var r := Logged(logs, action, user, timestamp, details);
    FilterConcat([r[0]], logs, e => Kept(e, query, filterAction));
    assert r == [r[0]] + logs;
  }

  /** The filter matches the query as typed: with a trailing space, "login " misses an
      entry whose action is "Login" (and whose user and details hold no "login"), although
      the trimmed query would match it. */
  lemma UntrimmedQueryIsMatched(e: AuditEntry)
    requires e.action == "Login"
    requires !Contains(Lower(e.user), "login") && !Contains(Lower(e.details), "login")
    ensures !Kept(e, "login ", "all")
    ensures TextMatches(e, Trim("login "))
  {
    assert Lower("login ") == "login ";
    assert !IsBlank("login ") by { assert !IsJsSpace("login "[0]); }
    assert Trim("login ") == "login" by {
      assert TrimStart("login ") == "login ";
      assert "login "[..5] == "login";
    }
    assert Lower("login") == "login";
    assert Lower(e.action) == "login";
    assert OccursAt(Lower(e.action), "login", 0);
    NoOccurrenceOfSpaceAfterLogin(Lower(e.user));
    NoOccurrenceOfSpaceAfterLogin(Lower(e.details));
  }

  /** A text without "login" has no "login " either. */
  lemma NoOccurrenceOfSpaceAfterLogin(s: string)
    requires !Contains(s, "login")
    ensures !Contains(s, "login ")
  {
    if Contains(s, "login ") {
      var i :| OccursAt(s, "login ", i);
      assert s[i..i + 5] == s[i..i + 6][..5] == "login";
      assert OccursAt(s, "login", i);
    }
  }

  /** The action of each entry, in order. */
  function Actions(logs: seq<AuditEntry>): (r: seq<string>)
    ensures |r| == |logs| && forall i :: 0 <= i < |logs| ==> r[i] == logs[i].action
  {
    seq(|logs|, i requires 0 <= i < |logs| => logs[i].action)
  }

  /** `uniqueActions`: the distinct actions of the trail. */
  function UniqueActions(logs: seq<AuditEntry>): seq<string> {
    Dedup(Actions(logs))
  }

  /** The filter offers every action of the trail exactly once, and nothing else, in the
      order in which the actions first appear in the trail. */
  lemma UniqueActionsSpec(logs: seq<AuditEntry>)
    ensures var u := UniqueActions(logs);
      var actions := Actions(logs);
      && (forall i :: 0 <= i < |logs| ==> logs[i].action in u)
      && (forall k :: 0 <= k < |u| ==> exists i :: 0 <= i < |logs| && logs[i].action == u[k])
      && (forall k, l :: 0 <= k < l < |u| ==> u[k] != u[l])
      && (forall k, l :: 0 <= k < l < |u| ==> FirstIndex(actions, u[k]) < FirstIndex(actions, u[l]))
  {
    var actions := Actions(logs);
    DedupOrder(actions);
    var u := UniqueActions(logs);
    forall k | 0 <= k < |u| ensures exists i :: 0 <= i < |logs| && logs[i].action == u[k] {
      var i := FirstIndex(actions, u[k]);
      assert logs[i].action == u[k];
    }
  }

  /** The badge colours of the eight actions the screen knows. */
  const ActionColors: map<string, string> := map[
    "Login" := "bg-green-600",
    "File Uploaded" := "bg-blue-600",
    "Search Performed" := "bg-purple-600",
    "AI Query Sent" := "bg-yellow-600",
    "AI Response Generated" := "bg-yellow-500",
    "Report Exported" := "bg-orange-600",
    "Node Selected" := "bg-cyan-600",
    "Network Search" := "bg-indigo-600"
  ]

  /** `getActionColor`: the known actions' colours; grey for every other action, and only
      for those. */
  function ActionColor(action: string): (c: string)
    ensures action in ActionColors ==> c == ActionColors[action]
    ensures c == "bg-gray-600" <==> action !in ActionColors
  {
    match action
    case "Login" => "bg-green-600"
    case "File Uploaded" => "bg-blue-600"
    case "Search Performed" => "bg-purple-600"
    case "AI Query Sent" => "bg-yellow-600"
    case "AI Response Generated" => "bg-yellow-500"
    case "Report Exported" => "bg-orange-600"
    case "Node Selected" => "bg-cyan-600"
    case "Network Search" => "bg-indigo-600"
    case _ => "bg-gray-600"
  }

  /** The screen's state: the trail it is given, the search box, the action filter and the
      entries on show. */
  class AuditLogView {
    var logs: seq<AuditEntry>
    var searchQuery: string
    var filterAction: string
    var filteredLogs: seq<AuditEntry>

    /** Mounting runs the search once, with an empty query and the "all" filter. */
    constructor (logs: seq<AuditEntry>)
      ensures this.logs == logs && searchQuery == "" && filterAction == "all"
      ensures filteredLogs == logs
    {
      this.logs := logs;
      searchQuery := "";
      filterAction := "all";
      filteredLogs := logs;
      new;
      HandleSearch();
      SelectedShowsAll(logs, "");
    }

    /** `handleSearch`: narrows the trail by the text search when the trimmed query is not
        empty, then by the action filter when it is not "all". */
    method HandleSearch()
      modifies this`filteredLogs
      ensures filteredLogs == Selected(logs, searchQuery, filterAction)
    {
      var filtered := logs;
      if Trim(searchQuery) != "" {
        filtered := ByText(filtered, searchQuery);
      }
      if filterAction != "all" {
        filtered := ByAction(filtered, filterAction);
      }
      filteredLogs := filtered;
      SearchInSteps(logs, searchQuery, filterAction);
    }

    /** The shell passes a new trail; `logs` is a dependency of the effect, so the search
        re-runs over it. When the new trail is the old one with an entry in front, and the
        view was up to date, only that entry can join the view, at its head. */
    method ReceiveLogs(newLogs: seq<AuditEntry>)
      modifies this`logs, this`filteredLogs
      ensures logs == newLogs
      ensures filteredLogs == Selected(newLogs, searchQuery, filterAction)
      ensures |newLogs| > 0 && newLogs[1..] == old(logs)
              && old(filteredLogs) == Selected(old(logs), searchQuery, filterAction) ==>
        filteredLogs == (if Kept(newLogs[0], searchQuery, filterAction) then [newLogs[0]] else []) + old(filteredLogs)
    {
      var query, action := searchQuery, filterAction;
      if |newLogs| > 0 && newLogs[1..] == logs {
        assert newLogs == [newLogs[0]] + logs;
        FilterConcat([newLogs[0]], logs, e => Kept(e, query, action));
      }
      logs := newLogs;
      HandleSearch();
    }

    /** Typing in the search box; the effect on `searchQuery` re-runs the search. */
    method SetSearchQuery(query: string)
      modifies this`searchQuery, this`filteredLogs
      ensures searchQuery == query
      ensures filteredLogs == Selected(logs, query, filterAction)
    {
      searchQuery := query;
      HandleSearch();
    }

    /** Choosing an action in the filter; the effect re-runs the search. */
    method SetFilterAction(action: string)
      modifies this`filterAction, this`filteredLogs
      ensures filterAction == action
      ensures filteredLogs == Selected(logs, searchQuery, action)
    {
      filterAction := action;
      HandleSearch();
    }
  }
}
