/** The report screen (src/components/ReportGeneration.jsx): the evidence table, the colour of
    a significance badge, which is decided by the text before the first " - ", the badge's
    label and description, and the two export buttons. */
module Report {
  import opened Wrappers
  import opened Text
  import opened Audit
  import AppShell

  datatype Evidence = Evidence(id: string, kind: string, content: string, timestamp: string, significance: string)

  /** `reportData.evidenceList`; each significance is spelled as its level, the separator and
      its text. */
  const EvidenceList: seq<Evidence> := [
    Evidence("MSG_001", "WhatsApp Message",
             "Meeting at bitcoin address 1A1zP1eP5QGefi2DMPTfTL5SLmv7DivfNa tomorrow at 3pm",
             "2024-01-14 15:30:22", "Critical" + " - " + "Links suspect to cryptocurrency activity"),
    Evidence("CALL_001", "Phone Call Log", "Outgoing call to +1-555-0123 (John Doe) duration 5:23",
             "2024-01-14 14:22:11", "High" + " - " + "Communication with known associate"),
    Evidence("TXN_002", "Blockchain Transaction", "Transfer of 0.75 BTC to address 1A1zP1eP5QGefi2DMPTfTL5SLmv7DivfNa",
             "2024-01-14 16:15:33", "Critical" + " - " + "Financial evidence of transaction"),
    Evidence("LOC_001", "GPS Location", "Device location: 40.7128,-74.0060 (Financial District, NYC)",
             "2024-01-14 15:45:12", "Medium" + " - " + "Corroborates meeting location")
  ]

  const Levels: set<string> := {"Critical", "High", "Medium", "Low"}

  /** The colour of a level: red, orange, yellow and blue for the four levels, grey for
      anything else and only for that. */
  function LevelColor(level: string): (c: string)
    ensures level == "Critical" ==> c == "bg-red-600"
    ensures level == "High" ==> c == "bg-orange-600"
    ensures level == "Medium" ==> c == "bg-yellow-600"
    ensures level == "Low" ==> c == "bg-blue-600"
    ensures c == "bg-gray-600" <==> level !in Levels
  {
    match level
    case "Critical" => "bg-red-600"
    case "High" => "bg-orange-600"
    case "Medium" => "bg-yellow-600"
    case "Low" => "bg-blue-600"
    case _ => "bg-gray-600"
  }

  /** The badge label: the first piece of the significance split on " - ". */
  function Label(significance: string): string {
    Split(significance, " - ")[0]
  }

  /** The text beside the badge: the second piece of the split, absent (undefined) when the
      significance holds no " - ". A description is a part of the significance with no
      " - " in it. */
  function Description(significance: string): (d: Option<string>)
    ensures d.None? <==> !Contains(significance, " - ")
    ensures d.Some? ==> Contains(significance, d.value) && !Contains(d.value, " - ")
  {
    var parts := Split(significance, " - ");
    SplitWithoutSepIff(significance);
    if |parts| < 2 then None
    else
      JoinSplit(significance, " - ");
      JoinHoldsParts(parts, " - ");
      SplitPiecesAvoidSep(significance, " - ");
      Some(parts[1])
  }

  /** A significance without " - " is a single piece, and one with it is at least two. */
  lemma SplitWithoutSepIff(s: string)
    ensures |Split(s, " - ")| < 2 <==> !Contains(s, " - ")
  {
    if !Contains(s, " - ") {
      SplitWithoutSep(s, " - ");
    }
  }

  /** `getSignificanceColor` */
  function SignificanceColor(significance: string): (c: string)
    ensures c == LevelColor(Label(significance))
    ensures c == "bg-gray-600" <==> Label(significance) !in Levels
  {
    match Split(significance, " - ")[0]
    case "Critical" => "bg-red-600"
    case "High" => "bg-orange-600"
    case "Medium" => "bg-yellow-600"
    case "Low" => "bg-blue-600"
    case _ => "bg-gray-600"
  }

  /** For a significance written "<level> - <text>" with a one-word level, the colour is the
      level's, the label is the level and the description is the text up to any further
      " - ": whatever follows the first separator does not affect the colour. */
  lemma SignificanceOfLevel(level: string, text: string)
    requires forall i :: 0 <= i < |level| ==> level[i] != ' '
    ensures SignificanceColor(level + " - " + text) == LevelColor(level)
    ensures Label(level + " - " + text) == level
    ensures Description(level + " - " + text) == Some(Split(text, " - ")[0])
  {
    SplitFirstPiece(level, " - ", text);
  }

  /** A significance without " - " is its own label, and has no description. */
  lemma SignificanceWithoutSeparator(significance: string)
    requires !Contains(significance, " - ")
    ensures Label(significance) == significance
    ensures Description(significance) == None
    ensures SignificanceColor(significance) == LevelColor(significance)
  {
    SplitWithoutSep(significance, " - ");
  }

  /** Evidence ids are distinct. */
  lemma EvidenceIdsDistinct()
    ensures forall i, j :: 0 <= i < j < |EvidenceList| ==> EvidenceList[i].id != EvidenceList[j].id
  {
  }

  /** The significance is written "<level> - <text>" with one of the four levels. */
  ghost predicate StartsWithLevel(significance: string) {
    exists level, text :: level in Levels && significance == level + " - " + text
  }

  /** Such a significance gets its level's colour, never grey. */
  lemma LevelDecidesColor(significance: string)
    requires StartsWithLevel(significance)
    ensures Label(significance) in Levels
    ensures SignificanceColor(significance) != "bg-gray-600"
  {
    var level, text :| level in Levels && significance == level + " - " + text;
    assert forall i :: 0 <= i < |level| ==> level[i] != ' ';
    SignificanceOfLevel(level, text);
  }

  /** Every significance in the table starts with one of the four levels, so no badge in
      the table is grey (LevelDecidesColor). */
  lemma EvidenceLevelsKnown()
    ensures forall i :: 0 <= i < |EvidenceList| ==> StartsWithLevel(EvidenceList[i].significance)
  {
    Leveled("Critical", "Links suspect to cryptocurrency activity", EvidenceList[0].significance);
    Leveled("High", "Communication with known associate", EvidenceList[1].significance);
    Leveled("Critical", "Financial evidence of transaction", EvidenceList[2].significance);
    Leveled("Medium", "Corroborates meeting location", EvidenceList[3].significance);
  }

  lemma Leveled(level: string, text: string, significance: string)
    requires level in Levels && significance == level + " - " + text
    ensures StartsWithLevel(significance)
  {
  }

  /** `handleExportPDF`: one "Report Exported" entry; the alert is not modelled. */
  method HandleExportPDF(app: AppShell.App, timestamp: string)
    requires app.Valid()
    modifies app`auditLogs
    ensures app.Valid()
    ensures app.auditLogs == Logged(old(app.auditLogs), "Report Exported", app.currentUser.name, timestamp,
                                    "PDF report generated and downloaded")
  {
    app.AddAuditLog("Report Exported", "PDF report generated and downloaded", timestamp);
  }

  /** `handleExportDOCX`: one "Report Exported" entry; the alert is not modelled. */
  method HandleExportDOCX(app: AppShell.App, timestamp: string)
    requires app.Valid()
    modifies app`auditLogs
    ensures app.Valid()
    ensures app.auditLogs == Logged(old(app.auditLogs), "Report Exported", app.currentUser.name, timestamp,
                                    "DOCX report generated and downloaded")
  {
    app.AddAuditLog("Report Exported", "DOCX report generated and downloaded", timestamp);
  }
}
