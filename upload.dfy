/** The landing upload screen (Cognis-frontend/src/components/LandingUpload.jsx): the drag
    highlight, the drop and file-picker uploads, and the list of recent ingestions, which keeps
    at most three entries and marks an entry complete when its processing timer fires. */
module Upload {
  import opened Wrappers
  import opened Audit
  import AppShell

  datatype Ingestion = Ingestion(id: nat, name: string, status: string, uploadTime: string)

  /** A dropped or picked file; only its name matters here. */
  datatype File = File(name: string)

  const SeedIngestions: seq<Ingestion> := [
    Ingestion(1, "case_001_whatsapp.zip", "Complete", "2024-01-15 09:22:45"),
    Ingestion(2, "call_logs_export.csv", "Processing", "2024-01-15 09:18:12"),
    Ingestion(3, "contacts_backup.xml", "Error", "2024-01-15 09:15:33")
  ]

  /** The three artifacts of the mock case handed to `onUpload`. */
  const MockArtifacts: seq<AppShell.CaseArtifact> := [
    AppShell.CaseArtifact("MSG_001", "Message", "Meeting at bitcoin address 1A1zP1eP5QGefi2DMPTfTL5SLmv7DivfNa tomorrow",
                          "WhatsApp", "2024-01-14 15:30:22"),
    AppShell.CaseArtifact("CALL_001", "Call Log", "Call to +1-555-0123 duration 5:23", "Phone System", "2024-01-14 14:22:11"),
    AppShell.CaseArtifact("CONTACT_001", "Contact", "John Doe +1-555-0123", "Address Book", "2024-01-14 10:15:00")
  ]

  /** The list after an upload: the new entry in front of the first two old ones. The new
      entry is Processing and numbered one past the old length; at most two old entries
      follow it, in their order, so the list never holds more than three. */
  function Uploaded(items: seq<Ingestion>, name: string, uploadTime: string): (r: seq<Ingestion>)
    ensures |r| <= 3
    ensures |r| == 1 + (if |items| < 2 then |items| else 2)
    ensures r[0] == Ingestion(|items| + 1, name, "Processing", uploadTime)
    ensures r[1..] == items[..|r| - 1]
  {
    var kept := if |items| < 2 then items else items[..2];
    assert ([Ingestion(|items| + 1, name, "Processing", uploadTime)] + kept)[1..] == kept;
    [Ingestion(|items| + 1, name, "Processing", uploadTime)] + kept
  }

  /** The timer's update: every entry whose id is `id` becomes Complete; the others, the
      order and the length stay as they were. */
  function Completed(items: seq<Ingestion>, id: nat): (r: seq<Ingestion>)
    ensures |r| == |items|
    ensures forall i :: 0 <= i < |items| ==>
      r[i].id == items[i].id && r[i].name == items[i].name && r[i].uploadTime == items[i].uploadTime
    ensures forall i :: 0 <= i < |items| ==> r[i].status == if items[i].id == id then "Complete" else items[i].status
  {
    seq(|items|, i requires 0 <= i < |items| =>
      if items[i].id == id then items[i].(status := "Complete") else items[i])
  }

  /** Completing the same id twice is completing it once. */
  lemma CompletedIdempotent(items: seq<Ingestion>, id: nat)
    ensures Completed(Completed(items, id), id) == Completed(items, id)
  {
    var once := Completed(items, id);
    var twice := Completed(once, id);
    forall i | 0 <= i < |items| ensures twice[i] == once[i] {
    }
  }

  /** Ids repeat: the list is capped at three, so from the seed list every upload is numbered
      4, and after two uploads the two newest entries share id 4. Completing either upload's
      timer then marks both of them Complete. */
  lemma RepeatedUploadsShareAnId(a: string, b: string, t1: string, t2: string)
    ensures var once := Uploaded(SeedIngestions, a, t1);
      var twice := Uploaded(once, b, t2);
      && twice[0].id == 4 && twice[1].id == 4 && twice[1].name == a
      && Completed(twice, 4)[0].status == "Complete" && Completed(twice, 4)[1].status == "Complete"
  {
    var once := Uploaded(SeedIngestions, a, t1);
    assert once[0].id == 4 && |once| == 3;
  }

  /** The drag highlight after an event: on for dragenter and dragover, off for dragleave,
      unchanged for any other event. */
  function DragActiveAfter(active: bool, eventType: string): (r: bool)
    ensures eventType in {"dragenter", "dragover"} ==> r
    ensures eventType == "dragleave" ==> !r
    ensures eventType !in {"dragenter", "dragover", "dragleave"} ==> r == active
  {
    if eventType == "dragenter" || eventType == "dragover" then true
    else if eventType == "dragleave" then false
    else active
  }

  function UploadDetails(name: string): string
  {
    name + " uploaded successfully"
  }

  /** The screen's state. `pendingCompletions` holds the ids whose processing timers have not
      fired yet, oldest first. */
  class LandingUpload {
    var dragActive: bool
    var recentIngestions: seq<Ingestion>
    var pendingCompletions: seq<nat>

    predicate Valid()
      reads this
    {
      |recentIngestions| <= 3
    }

    constructor ()
      ensures Valid() && !dragActive && recentIngestions == SeedIngestions && pendingCompletions == []
    {
      dragActive := false;
      recentIngestions := SeedIngestions;
      pendingCompletions := [];
    }

    /** `handleDrag` */
    method HandleDrag(eventType: string)
      modifies this`dragActive
      ensures dragActive == DragActiveAfter(old(dragActive), eventType)
    {
      if eventType == "dragenter" || eventType == "dragover" {
        dragActive := true;
      } else if eventType == "dragleave" {
        dragActive := false;
      }
    }

    /** `handleFileUpload`: hands the mock case to the shell, logs one "File Uploaded", puts
        the file at the head of the recent list and starts its processing timer. */
    method HandleFileUpload(app: AppShell.App, file: File, caseTime: string, listTime: string, timestamp: string)
      requires app.Valid()
      modifies this`recentIngestions, this`pendingCompletions, app`caseData, app`auditLogs
      ensures Valid() && app.Valid()
      ensures app.caseData == Some(AppShell.CaseData(file.name, caseTime, MockArtifacts))
      ensures app.auditLogs == Logged(old(app.auditLogs), "File Uploaded", app.currentUser.name, timestamp, UploadDetails(file.name))
      ensures recentIngestions == Uploaded(old(recentIngestions), file.name, listTime)
      ensures pendingCompletions == old(pendingCompletions) + [|old(recentIngestions)| + 1]
    {
      app.SetCaseData(AppShell.CaseData(file.name, caseTime, MockArtifacts));
      app.AddAuditLog("File Uploaded", UploadDetails(file.name), timestamp);
      var id := |recentIngestions| + 1;
      recentIngestions := Uploaded(recentIngestions, file.name, listTime);
      pendingCompletions := pendingCompletions + [id];
    }

    /** `handleDrop`: the highlight goes off, and the first file, if there is one, is
        uploaded; the other files are ignored. */
    method HandleDrop(app: AppShell.App, files: seq<File>, caseTime: string, listTime: string, timestamp: string)
      requires app.Valid()
      modifies this`dragActive, this`recentIngestions, this`pendingCompletions, app`caseData, app`auditLogs
      ensures app.Valid() && !dragActive
      ensures |files| == 0 ==> recentIngestions == old(recentIngestions) && pendingCompletions == old(pendingCompletions)
                               && app.caseData == old(app.caseData) && app.auditLogs == old(app.auditLogs)
      ensures |files| > 0 ==>
        && recentIngestions == Uploaded(old(recentIngestions), files[0].name, listTime)
        && pendingCompletions == old(pendingCompletions) + [|old(recentIngestions)| + 1]
        && app.caseData == Some(AppShell.CaseData(files[0].name, caseTime, MockArtifacts))
        && app.auditLogs == Logged(old(app.auditLogs), "File Uploaded", app.currentUser.name, timestamp, UploadDetails(files[0].name))
    {
      dragActive := false;
      if |files| > 0 {
        HandleFileUpload(app, files[0], caseTime, listTime, timestamp);
      }
    }

    /** The processing timer of the oldest pending upload fires: every entry now carrying
        that id is marked Complete, in place, one entry at a time. */
    method CompleteProcessing()
      requires pendingCompletions != []
      modifies this`recentIngestions, this`pendingCompletions
      ensures recentIngestions == Completed(old(recentIngestions), old(pendingCompletions[0]))
      ensures pendingCompletions == old(pendingCompletions[1..])
      ensures old(Valid()) ==> Valid()
    {
      var id := pendingCompletions[0];
      var i := 0;
      while i < |recentIngestions|
        invariant 0 <= i <= |recentIngestions| == |old(recentIngestions)|
        invariant forall j :: 0 <= j < i ==> recentIngestions[j] == Completed(old(recentIngestions), id)[j]
        invariant forall j :: i <= j < |recentIngestions| ==> recentIngestions[j] == old(recentIngestions)[j]
        invariant pendingCompletions == old(pendingCompletions)
      {
        if recentIngestions[i].id == id {
          recentIngestions := recentIngestions[i := recentIngestions[i].(status := "Complete")];
        }
        i := i + 1;
      }
      pendingCompletions := pendingCompletions[1..];
    }
  }
}
