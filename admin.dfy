/** The admin panel's case management (src/components/AdminPanel.jsx): assigning a case to an
    investigator, creating a case with the next numbered id, and the status badge colours. */
module Admin {
  import opened Wrappers
  import opened Text
  import opened Seqs
  import opened Audit
  import AppShell

  datatype Case = Case(id: string, name: string, status: string, assignedTo: string, createdDate: string, description: string)
  datatype Investigator = Investigator(id: string, name: string, status: string)

  /** The create-case form (`newCase`). */
  datatype CaseForm = CaseForm(name: string, assignedTo: string, description: string)

  const SeedCases: seq<Case> := [
    Case("CASE-2024-001", "WhatsApp Data Analysis", "Active", "Detective Sarah Chen", "2024-01-15",
         "Investigation of suspected fraud involving WhatsApp communications"),
    Case("CASE-2024-002", "Digital Device Forensics", "Pending", "Unassigned", "2024-01-16",
         "Forensic analysis of seized mobile devices"),
    Case("CASE-2024-003", "Network Traffic Analysis", "Completed", "Detective John Martinez", "2024-01-10",
         "Analysis of suspicious network traffic patterns")
  ]

  const Investigators: seq<Investigator> := [
    Investigator("IO_001", "Detective Sarah Chen", "Available"),
    Investigator("IO_002", "Detective John Martinez", "Busy"),
    Investigator("IO_003", "Detective Maria Rodriguez", "Available"),
    Investigator("IO_004", "Detective Michael Brown", "Busy")
  ]

  const EmptyForm := CaseForm("", "unassigned", "")

  /** The first investigator with the given id, if any. */
  function FindInvestigator(investigators: seq<Investigator>, id: string): (r: Option<Investigator>)
    ensures r.Some? ==> r.value in investigators && r.value.id == id
    ensures r.None? <==> forall i :: 0 <= i < |investigators| ==> investigators[i].id != id
  {
    FindBy(investigators, (v: Investigator) => v.id, id)
  }

  // ---------------------------------------------------------------------------------------
  // Assignment

  /** The case list after an assignment: the cases whose id is `caseId` go to the
      investigator and become Active; every other case is kept as it was. */
  function Assigned(cases: seq<Case>, caseId: string, who: Investigator): (r: seq<Case>)
    ensures |r| == |cases|
    ensures forall i :: 0 <= i < |cases| && cases[i].id != caseId ==> r[i] == cases[i]
    ensures forall i :: 0 <= i < |cases| && cases[i].id == caseId ==>
      r[i] == cases[i].(assignedTo := who.name, status := "Active")
  {
    seq(|cases|, i requires 0 <= i < |cases| =>
      if cases[i].id == caseId then cases[i].(assignedTo := who.name, status := "Active") else cases[i])
  }

  /** Assignment keeps every case id where it was. */
  lemma AssignedKeepsIds(cases: seq<Case>, caseId: string, who: Investigator)
    ensures var r := Assigned(cases, caseId, who);
      forall i :: 0 <= i < |cases| ==> r[i].id == cases[i].id
  {
  }

  /** An id that names no case leaves the list as it was. */
  lemma AssignUnknownCase(cases: seq<Case>, caseId: string, who: Investigator)
    requires forall i :: 0 <= i < |cases| ==> cases[i].id != caseId
    ensures Assigned(cases, caseId, who) == cases
  {
  }

  /** Assigning the same case to the same investigator twice is assigning it once. */
  lemma AssignIdempotent(cases: seq<Case>, caseId: string, who: Investigator)
    ensures Assigned(Assigned(cases, caseId, who), caseId, who) == Assigned(cases, caseId, who)
  {
  }

  // ---------------------------------------------------------------------------------------
  // Creation

  /** `CASE-2024-` followed by `String(n).padStart(3, '0')`. */
  function CaseId(n: nat): string {
    "CASE-2024-" + PadStart(DecimalString(n), 3, '0')
  }

  /** A case id is the prefix and at least three digits; numbers from 1000 on are not
      padded. */
  lemma CaseIdShape(n: nat)
    ensures |CaseId(n)| == 10 + (if n < 1000 then 3 else |DecimalString(n)|)
    ensures CaseId(n)[..10] == "CASE-2024-"
    ensures AllDigits(CaseId(n)[10..])
  {
    DecimalStringLength(n);
    assert CaseId(n)[10..] == PadStart(DecimalString(n), 3, '0');
    PaddedNumberReadsBack(n);
  }

  /** The padded number reads back as the number. */
  lemma {:induction false} PaddedNumberReadsBack(n: nat)
    ensures AllDigits(PadStart(DecimalString(n), 3, '0'))
    ensures ParseDecimal(PadStart(DecimalString(n), 3, '0')) == n
  {
    var s := DecimalString(n);
    var p := PadStart(s, 3, '0');
    var z := p[..|p| - |s|];
    assert p == z + s;
    ParseDecimalLeadingZeros(z, s);
    ParseDecimalString(n);
  }

  /** Distinct numbers give distinct case ids. */
  lemma CaseIdInjective(a: nat, b: nat)
    requires CaseId(a) == CaseId(b)
    ensures a == b
  {
    assert CaseId(a)[10..] == PadStart(DecimalString(a), 3, '0');
    assert CaseId(b)[10..] == PadStart(DecimalString(b), 3, '0');
    PaddedNumberReadsBack(a);
    PaddedNumberReadsBack(b);
  }

  /** The ids of the first `n` cases: CaseId(1) .. CaseId(n). */
  function CaseIds(n: nat): (r: set<string>)
    ensures forall k :: 1 <= k <= n ==> CaseId(k) in r
  {
    if n == 0 then {} else CaseIds(n - 1) + {CaseId(n)}
  }

  /** CaseIds(n) holds nothing but CaseId(1) .. CaseId(n). */
  lemma {:induction false} CaseIdsOnly(n: nat, x: string)
    requires x in CaseIds(n)
    ensures exists k :: 1 <= k <= n && x == CaseId(k)
  {
    if x != CaseId(n) {
      CaseIdsOnly(n - 1, x);
    }
  }

  /** The case ids are distinct and each is one of CaseId(1) .. CaseId(length). */
  ghost predicate Numbered(cases: seq<Case>) {
    && (forall i, j :: 0 <= i < j < |cases| ==> cases[i].id != cases[j].id)
    && (forall i :: 0 <= i < |cases| ==> cases[i].id in CaseIds(|cases|))
  }

  /** A one-digit number is padded with two zeros. */
  lemma CaseIdOneDigit(n: nat)
    requires n < 10
    ensures CaseId(n) == "CASE-2024-00" + [DigitChar(n)]
  {
    assert DecimalString(n) == [DigitChar(n)];
    assert PadStart([DigitChar(n)], 3, '0') == "00" + [DigitChar(n)];
  }

  lemma SeedNumbered()
    ensures Numbered(SeedCases)
  {
    CaseIdOneDigit(1);
    CaseIdOneDigit(2);
    CaseIdOneDigit(3);
    assert SeedCases[0].id == CaseId(1);
    assert SeedCases[1].id == CaseId(2);
    assert SeedCases[2].id == CaseId(3);
  }

  /** The id a new case gets is not yet taken. */
  lemma NextCaseIdIsFresh(cases: seq<Case>)
    requires Numbered(cases)
    ensures forall i :: 0 <= i < |cases| ==> cases[i].id != CaseId(|cases| + 1)
  {
    forall i | 0 <= i < |cases| ensures cases[i].id != CaseId(|cases| + 1) {
      CaseIdsOnly(|cases|, cases[i].id);
      var k :| 1 <= k <= |cases| && cases[i].id == CaseId(k);
      if cases[i].id == CaseId(|cases| + 1) {
        CaseIdInjective(k, |cases| + 1);
      }
    }
  }

  /** The case the form creates. It is Active and goes to the chosen assignee exactly when one
      was chosen (not empty, not "unassigned"); otherwise it is Pending and Unassigned. */
  function NewCaseRecord(form: CaseForm, id: string, createdDate: string): (c: Case)
    ensures c.id == id && c.name == form.name && c.description == form.description && c.createdDate == createdDate
    ensures c.status == "Active" <==> form.assignedTo != "" && form.assignedTo != "unassigned"
    ensures c.status == "Active" ==> c.assignedTo == form.assignedTo
    ensures c.status != "Active" ==> c.status == "Pending" && c.assignedTo == "Unassigned"
  {
    var chosen := form.assignedTo != "" && form.assignedTo != "unassigned";
    Case(id, form.name, if chosen then "Active" else "Pending",
         if chosen then form.assignedTo else "Unassigned", createdDate, form.description)
  }

  /** The list after creating a case: the new case in front of the old list. */
  function Created(cases: seq<Case>, form: CaseForm, createdDate: string): (r: seq<Case>)
    ensures |r| == |cases| + 1 && r[1..] == cases
    ensures r[0] == NewCaseRecord(form, CaseId(|cases| + 1), createdDate)
  {
    var r := [NewCaseRecord(form, CaseId(|cases| + 1), createdDate)] + cases;
    assert r[1..] == cases;
    r
  }

  /** Creating a case keeps the ids distinct and numbered. */
  lemma CreatedKeepsNumbered(cases: seq<Case>, form: CaseForm, createdDate: string)
    requires Numbered(cases)
    ensures Numbered(Created(cases, form, createdDate))
  {
    var r := Created(cases, form, createdDate);
    CreatedIdsInRange(cases, form, createdDate);
    CreatedIdsDistinct(cases, form, createdDate);
  }

  lemma CreatedIdsInRange(cases: seq<Case>, form: CaseForm, createdDate: string)
    requires Numbered(cases)
    ensures var r := Created(cases, form, createdDate);
      forall i :: 0 <= i < |r| ==> r[i].id in CaseIds(|r|)
  {
    var r := Created(cases, form, createdDate);
    CaseIdsGrow(|cases|);
    OldIdsKept(cases, form, createdDate);
    assert r[0].id == CaseId(|cases| + 1);
  }

  lemma CaseIdsGrow(n: nat)
    ensures CaseIds(n + 1) == CaseIds(n) + {CaseId(n + 1)}
  {
  }

  lemma OldIdsKept(cases: seq<Case>, form: CaseForm, createdDate: string)
    requires Numbered(cases)
    ensures var r := Created(cases, form, createdDate);
      forall i :: 1 <= i < |r| ==> r[i].id in CaseIds(|cases|)
  {
    var r := Created(cases, form, createdDate);
    forall i | 1 <= i < |r| ensures r[i].id in CaseIds(|cases|) {
      assert r[i] == cases[i - 1];
    }
  }

  lemma CreatedIdsDistinct(cases: seq<Case>, form: CaseForm, createdDate: string)
    requires Numbered(cases)
    ensures var r := Created(cases, form, createdDate);
      forall i, j :: 0 <= i < j < |r| ==> r[i].id != r[j].id
  {
    var r := Created(cases, form, createdDate);
    NextCaseIdIsFresh(cases);
    forall i, j | 0 <= i < j < |r| ensures r[i].id != r[j].id {
      assert r[j] == cases[j - 1];
      if i > 0 {
        assert r[i] == cases[i - 1];
      }
    }
  }

  /** Assignment keeps the ids distinct and numbered. */
  lemma AssignedKeepsNumbered(cases: seq<Case>, caseId: string, who: Investigator)
    requires Numbered(cases)
    ensures Numbered(Assigned(cases, caseId, who))
  {
    AssignedKeepsIds(cases, caseId, who);
  }

  /** Since ids are distinct, an assignment changes at most one case. */
  lemma AssignChangesAtMostOne(cases: seq<Case>, caseId: string, who: Investigator)
    requires Numbered(cases)
    ensures var r := Assigned(cases, caseId, who);
      forall i, j :: 0 <= i < j < |cases| ==> r[i] == cases[i] || r[j] == cases[j]
  {
  }

  /** `getStatusColor`: the four known statuses' colours; grey for every other status, and
      only for those. */
  function StatusColor(status: string): (c: string)
    ensures status == "Active" ==> c == "bg-green-600"
    ensures status == "Pending" ==> c == "bg-yellow-600"
    ensures status == "Completed" ==> c == "bg-blue-600"
    ensures status == "On Hold" ==> c == "bg-red-600"
    ensures c == "bg-gray-600" <==> status !in {"Active", "Pending", "Completed", "On Hold"}
  {
    match status
    case "Active" => "bg-green-600"
    case "Pending" => "bg-yellow-600"
    case "Completed" => "bg-blue-600"
    case "On Hold" => "bg-red-600"
    case _ => "bg-gray-600"
  }

  function AssignmentDetails(caseId: string, who: Investigator): string
  {
    "Case " + caseId + " assigned to " + who.name
  }

  function CreationDetails(caseId: string, name: string): string
  {
    "New case " + caseId + " created: " + name
  }

  /** The panel's state. */
  class AdminPanel {
    var cases: seq<Case>
    var newCase: CaseForm

    ghost predicate Valid()
      reads this
    {
      Numbered(cases)
    }

    constructor ()
      ensures Valid() && cases == SeedCases && newCase == EmptyForm
    {
      cases := SeedCases;
      newCase := EmptyForm;
      SeedNumbered();
    }

    /** `handleAssignCase`: an unknown investigator id changes nothing and logs nothing;
        otherwise the matching case is assigned and one "Case Assignment" is logged, whether
        or not any case has that id. */
    method HandleAssignCase(app: AppShell.App, caseId: string, investigatorId: string, timestamp: string)
      requires Valid() && app.Valid()
      modifies this`cases, app`auditLogs
      ensures Valid() && app.Valid()
      ensures FindInvestigator(Investigators, investigatorId).None? ==>
        cases == old(cases) && app.auditLogs == old(app.auditLogs)
      ensures FindInvestigator(Investigators, investigatorId).Some? ==>
        var who := FindInvestigator(Investigators, investigatorId).value;
        && cases == Assigned(old(cases), caseId, who)
        && app.auditLogs == Logged(old(app.auditLogs), "Case Assignment", app.currentUser.name, timestamp,
                                   AssignmentDetails(caseId, who))
    {
      var found := FindInvestigator(Investigators, investigatorId);
      if found.None? {
        return;
      }
      var who := found.value;
      AssignedKeepsNumbered(cases, caseId, who);
      cases := Assigned(cases, caseId, who);
      app.AddAuditLog("Case Assignment", AssignmentDetails(caseId, who), timestamp);
    }

    /** `handleCreateCase`: a blank name changes nothing and logs nothing; otherwise the new
        case is put in front with the next id, one "Case Created" is logged and the form is
        reset. */
    method HandleCreateCase(app: AppShell.App, createdDate: string, timestamp: string)
      requires Valid() && app.Valid()
      modifies this`cases, this`newCase, app`auditLogs
      ensures Valid() && app.Valid()
      ensures IsBlank(old(newCase.name)) ==>
        cases == old(cases) && newCase == old(newCase) && app.auditLogs == old(app.auditLogs)
      ensures !IsBlank(old(newCase.name)) ==>
        && cases == Created(old(cases), old(newCase), createdDate)
        && newCase == EmptyForm
        && app.auditLogs == Logged(old(app.auditLogs), "Case Created", app.currentUser.name, timestamp,
                                   CreationDetails(CaseId(|old(cases)| + 1), old(newCase.name)))
    {
      TrimEmptyIff(newCase.name);
      if Trim(newCase.name) == "" {
        return;
      }
      var caseId := CaseId(|cases| + 1);
      CreatedKeepsNumbered(cases, newCase, createdDate);
      cases := [NewCaseRecord(newCase, caseId, createdDate)] + cases;
      app.AddAuditLog("Case Created", CreationDetails(caseId, newCase.name), timestamp);
      newCase := EmptyForm;
    }

    method SetName(name: string)
      modifies this`newCase
      ensures newCase == old(newCase).(name := name)
    {
      newCase := newCase.(name := name);
    }

    /** The assignee select: choosing "Unassigned" stores the empty string. */
    method SetAssignedTo(value: string)
      modifies this`newCase
      ensures newCase == old(newCase).(assignedTo := if value == "unassigned" then "" else value)
    {
      newCase := newCase.(assignedTo := if value == "unassigned" then "" else value);
    }

    method SetDescription(description: string)
      modifies this`newCase
      ensures newCase == old(newCase).(description := description)
    {
      newCase := newCase.(description := description);
    }
  }
}
