/** The audit trail kept by the application shell (src/App.jsx): a list of entries, newest
    first, to which `addAuditLog` prepends an entry numbered one past the list's length. */
module Audit {

  datatype AuditEntry = AuditEntry(id: nat, action: string, user: string, timestamp: string, details: string)

  /** The entries the application starts with, in the order it lists them (oldest first). */
  const SeedLogs: seq<AuditEntry> := [
    AuditEntry(1, "Login", "Detective Sarah Chen", "2024-01-15 09:15:23", "User logged into system"),
    AuditEntry(2, "File Uploaded", "Detective Sarah Chen", "2024-01-15 09:22:45", "case_001_whatsapp.zip uploaded successfully"),
    AuditEntry(3, "Search Performed", "Detective Sarah Chen", "2024-01-15 09:25:12", "Search query: \"crypto addresses bitcoin\"")
  ]

  /** `addAuditLog` as seen from the list: a new entry in front of the old list, where the
      new entry's user is the signed-in user's name and its id is the old length plus one. */
  function Logged(logs: seq<AuditEntry>, action: string, user: string, timestamp: string, details: string): seq<AuditEntry> {
    [AuditEntry(|logs| + 1, action, user, timestamp, details)] + logs
  }

  function Ids(logs: seq<AuditEntry>): set<nat> {
    set e | e in logs :: e.id
  }

  /** The set {1, ..., n}. */
  function OneTo(n: nat): (r: set<nat>)
    ensures forall k :: k in r <==> 1 <= k <= n
  {
    if n == 0 then {} else OneTo(n - 1) + {n}
  }

  /** The ids are exactly 1..|logs|, each carried by one entry. */
  ghost predicate IdsExact(logs: seq<AuditEntry>) {
    && Ids(logs) == OneTo(|logs|)
    && forall i, j :: 0 <= i < j < |logs| ==> logs[i].id != logs[j].id
  }

  /** A list numbered 1, 2, ..., n from the front has exactly the ids 1..n. */
  lemma NumberedIdsExact(logs: seq<AuditEntry>)
    requires forall i :: 0 <= i < |logs| ==> logs[i].id == i + 1
    ensures IdsExact(logs)
  {
    forall k | k in OneTo(|logs|) ensures k in Ids(logs) {
      assert logs[k - 1] in logs;
    }
  }

  /** The seed list satisfies the numbering invariant. */
  lemma SeedIdsExact()
    ensures IdsExact(SeedLogs)
  {
    NumberedIdsExact(SeedLogs);
  }

  /** Logging puts the new entry in front and keeps every earlier entry, in order, behind it;
      the new entry carries the arguments and the user. */
  lemma LoggedPrepends(logs: seq<AuditEntry>, action: string, user: string, timestamp: string, details: string)
    ensures var r := Logged(logs, action, user, timestamp, details);
      && |r| == |logs| + 1 && r[1..] == logs
      && r[0].action == action && r[0].user == user && r[0].details == details
      && r[0].timestamp == timestamp
  {
    var r := Logged(logs, action, user, timestamp, details);
    assert r[1..] == logs;
  }

  /** Logging keeps the ids exactly 1..length: the new entry takes the one id not yet used. */
  lemma LoggedKeepsIdsExact(logs: seq<AuditEntry>, action: string, user: string, timestamp: string, details: string)
    requires IdsExact(logs)
    ensures IdsExact(Logged(logs, action, user, timestamp, details))
  {
    var n := |logs|;
    var x := AuditEntry(n + 1, action, user, timestamp, details);
    var r := Logged(logs, action, user, timestamp, details);
    assert forall e :: e in r <==> e == x || e in logs;
    assert Ids(r) == Ids(logs) + {n + 1};
    assert OneTo(n + 1) == OneTo(n) + {n + 1};
    forall j | 0 <= j < n ensures logs[j].id <= n {
      assert logs[j].id in Ids(logs);
    }
    forall i, j | 0 <= i < j < |r| ensures r[i].id != r[j].id {
      if i > 0 {
        assert r[i] == logs[i - 1] && r[j] == logs[j - 1];
      } else {
        assert r[j] == logs[j - 1];
      }
    }
  }

  /** After a log call, the head is the newest entry: its id is the list's length, which is
      the largest id in the list. */
  lemma LoggedHeadIsNewest(logs: seq<AuditEntry>, action: string, user: string, timestamp: string, details: string)
    requires IdsExact(logs)
    ensures var r := Logged(logs, action, user, timestamp, details);
      && r[0].id == |r|
      && forall i :: 0 <= i < |r| ==> r[i].id <= r[0].id
  {
    var r := Logged(logs, action, user, timestamp, details);
    LoggedKeepsIdsExact(logs, action, user, timestamp, details);
    forall i | 0 <= i < |r| ensures r[i].id <= |r| {
      assert r[i].id in Ids(r);
    }
  }
}
