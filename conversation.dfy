/** The keyword search behind `GET /chat/conv/{ufdr_file_id}`
    (backend/app/api/routes/conversation.py): the query is split into terms, the file's
    artifacts whose extracted text holds any term (ignoring case) are taken up to `limit`,
    any artifacts of the file stand in when none matches, and the answer echoes the query
    and lists one snippet per artifact. The database is a sequence of artifact rows in the
    order the query returns them, and the set of stored file ids. */
module ConversationRoute {
  import opened Wrappers
  import opened Text
  import opened Seqs

  /** The columns of an artifact row the route reads; each may be NULL. */
  datatype Artifact = Artifact(ufdrFileId: Option<string>, kind: Option<string>, extractedText: Option<string>)

  /** The JSON body of a successful reply. */
  datatype Reply = Reply(query: string, ufdrFileId: string, answer: string, numMatches: nat)

  /** A rejected request: the framework's parameter validation (status 422), or an
      `HTTPException` with its status and detail. */
  datatype HttpError = ValidationError | HttpException(status: nat, detail: string)

  const MinQueryLength: nat := 2
  const MaxLimit: nat := 25
  const SnippetLength: nat := 800

  const FileNotFound := HttpException(404, "UFDR file not found")
  const NoTerms := HttpException(400, "Empty query after tokenization")

  /** The declared constraints on the query parameters: `q` has at least two characters and
      `limit` lies in 1..25. */
  predicate ParamsValid(q: string, limit: int) {
    |q| >= MinQueryLength && 1 <= limit <= MaxLimit
  }

  predicate AllSpace(q: string) {
    forall i :: 0 <= i < |q| ==> IsPySpace(q[i])
  }

  predicate InFile(a: Artifact, ufdrFileId: string) {
    a.ufdrFileId == Some(ufdrFileId)
  }

  /** `extracted_text ILIKE '%term%'`: the text holds the term, ignoring case; a NULL text
      holds nothing. */
  predicate TermMatches(a: Artifact, term: string) {
    a.extractedText.Some? && Contains(Lower(a.extractedText.value), Lower(term))
  }

  /** The `or_` of the term conditions. */
  predicate AnyTermMatches(a: Artifact, terms: seq<string>) {
    exists k :: 0 <= k < |terms| && TermMatches(a, terms[k])
  }

  /** The rows of the file. */
  function FileArtifacts(artifacts: seq<Artifact>, ufdrFileId: string): seq<Artifact> {
    Filter(artifacts, a => InFile(a, ufdrFileId))
  }

  /** The rows of the file that match some term. */
  function Matching(artifacts: seq<Artifact>, ufdrFileId: string, terms: seq<string>): seq<Artifact> {
    Filter(artifacts, a => InFile(a, ufdrFileId) && AnyTermMatches(a, terms))
  }

  function Min(a: nat, b: nat): nat {
    if a < b then a else b
  }

  /** The artifacts the answer reports: at most `limit` rows, all of the file; when some row
      of the file matches, only matching rows and as many of them as the limit allows;
      otherwise as many rows of the file as the limit allows, whatever their text. */
  function Selected(artifacts: seq<Artifact>, ufdrFileId: string, terms: seq<string>, limit: nat): (r: seq<Artifact>)
    ensures |r| <= limit
    ensures forall i :: 0 <= i < |r| ==> r[i] in artifacts && InFile(r[i], ufdrFileId)
    ensures Matching(artifacts, ufdrFileId, terms) != [] ==>
      && |r| == Min(limit, |Matching(artifacts, ufdrFileId, terms)|)
      && forall i :: 0 <= i < |r| ==> AnyTermMatches(r[i], terms)
    ensures Matching(artifacts, ufdrFileId, terms) == [] ==>
      |r| == Min(limit, |FileArtifacts(artifacts, ufdrFileId)|)
    ensures Matching(artifacts, ufdrFileId, terms) != [] ==> multiset(r) <= multiset(Matching(artifacts, ufdrFileId, terms))
    ensures Matching(artifacts, ufdrFileId, terms) == [] ==> multiset(r) <= multiset(FileArtifacts(artifacts, ufdrFileId))
  {
    var matches := Take(Matching(artifacts, ufdrFileId, terms), limit);
    if matches != [] then matches else Take(FileArtifacts(artifacts, ufdrFileId), limit)
  }

  /** How an f-string renders the `type` column: its text, or "None" for NULL. */
  function KindText(kind: Option<string>): string {
    match kind
    case None => "None"
    case Some(k) => k
  }

  /** `extracted_text or ""` */
  function TextOrEmpty(text: Option<string>): string {
    match text
    case None => ""
    case Some(t) => t
  }

  function SnippetHead(a: Artifact): string {
    "[" + KindText(a.kind) + "] "
  }

  /** One artifact's snippet: "[type] " and then the start of its text, cut at 800
      characters; a text that fits is shown whole. */
  function Snippet(a: Artifact): (s: string)
    ensures var head := SnippetHead(a);
      var text := TextOrEmpty(a.extractedText);
      && |head| <= |s| <= |head| + SnippetLength
      && s[..|head|] == head
      && s[|head|..] <= text
      && (|text| <= SnippetLength <==> s[|head|..] == text)
  {
    SnippetHead(a) + Take(TextOrEmpty(a.extractedText), SnippetLength)
  }

  function Snippets(matches: seq<Artifact>): (r: seq<string>)
    ensures |r| == |matches|
  {
    seq(|matches|, i requires 0 <= i < |matches| => Snippet(matches[i]))
  }

  const QueryEchoStart := "I searched the UFDR file for: '"
  const CountStart := "'.\nFound "

  /** The first lines of the answer: the query echoed in quotes and the snippet count. */
  function Header(q: string, count: nat): string {
    QueryEchoStart + q + CountStart + DecimalString(count) + " relevant artifacts:\n\n"
  }

  function Answer(q: string, snippets: seq<string>): string {
    Header(q, |snippets|) + Join(snippets, "\n\n")
  }

  /** The whole route as a function of the stored data and the request: validation of the
      parameters (422), the file lookup (404), tokenisation (400), then the reply. */
  function Conv(fileIds: set<string>, artifacts: seq<Artifact>, ufdrFileId: string, q: string, limit: int)
    : Result<Reply, HttpError>
  {
    if !ParamsValid(q, limit) then Failure(ValidationError)
    else if ufdrFileId !in fileIds then Failure(FileNotFound)
    else
      var terms := Tokens(q);
      if terms == [] then Failure(NoTerms)
      else
        var snippets := Snippets(Selected(artifacts, ufdrFileId, terms, limit));
        Success(Reply(q, ufdrFileId, Answer(q, snippets), |snippets|))
  }

  /** The loop over the matches: one snippet per artifact, in order. */
  method BuildSnippets(matches: seq<Artifact>) returns (snippets: seq<string>)
    ensures snippets == Snippets(matches)
  {
    snippets := [];
    for i := 0 to |matches|
      invariant |snippets| == i
      invariant forall j :: 0 <= j < i ==> snippets[j] == Snippet(matches[j])
    {
      var text := Take(TextOrEmpty(matches[i].extractedText), SnippetLength);
      snippets := snippets + ["[" + KindText(matches[i].kind) + "] " + text];
    }
  }

  /** `conv_query`: looks the file up, tokenises the query, runs the search with its fallback
      and builds the snippets one artifact at a time. */
  method ConvQuery(fileIds: set<string>, artifacts: seq<Artifact>, ufdrFileId: string, q: string, limit: int)
    returns (r: Result<Reply, HttpError>)
    ensures r == Conv(fileIds, artifacts, ufdrFileId, q, limit)
  {
    if |q| < MinQueryLength || limit < 1 || limit > MaxLimit {
      return Failure(ValidationError);
    }
    if ufdrFileId !in fileIds {
      return Failure(FileNotFound);
    }
    var terms := Tokens(q);
    if terms == [] {
      return Failure(NoTerms);
    }
    var matches := Take(Matching(artifacts, ufdrFileId, terms), limit);
    if matches == [] {
      matches := Take(FileArtifacts(artifacts, ufdrFileId), limit);
    }
    assert matches == Selected(artifacts, ufdrFileId, terms, limit);
    var snippets := BuildSnippets(matches);
    var answer := Header(q, |snippets|) + Join(snippets, "\n\n");
    return Success(Reply(q, ufdrFileId, answer, |snippets|));
  }

  /** The request fails exactly when a parameter is out of range, the file is unknown or the
      query is all whitespace, and the first of these that applies decides the status. */
  lemma ConvFailures(fileIds: set<string>, artifacts: seq<Artifact>, ufdrFileId: string, q: string, limit: int)
    ensures var r := Conv(fileIds, artifacts, ufdrFileId, q, limit);
      && (r.Failure? <==> !ParamsValid(q, limit) || ufdrFileId !in fileIds || AllSpace(q))
      && (!ParamsValid(q, limit) ==> r == Failure(ValidationError))
      && (ParamsValid(q, limit) && ufdrFileId !in fileIds ==> r == Failure(FileNotFound))
      && (ParamsValid(q, limit) && ufdrFileId in fileIds && AllSpace(q) ==> r == Failure(NoTerms))
  {
    TokensEmptyIff(q);
  }

  /** A reply echoes the request, reports no more artifacts than the limit (itself at most
      25), counts its snippets, and holds the snippet of every selected artifact. */
  lemma ConvReply(fileIds: set<string>, artifacts: seq<Artifact>, ufdrFileId: string, q: string, limit: int)
    requires Conv(fileIds, artifacts, ufdrFileId, q, limit).Success?
    ensures var reply := Conv(fileIds, artifacts, ufdrFileId, q, limit).value;
      var selected := Selected(artifacts, ufdrFileId, Tokens(q), limit);
      && reply.query == q && reply.ufdrFileId == ufdrFileId
      && reply.numMatches == |selected| <= limit <= MaxLimit
      && Header(q, reply.numMatches) <= reply.answer
      && forall i :: 0 <= i < |selected| ==> Contains(reply.answer, Snippet(selected[i]))
  {
    var selected := Selected(artifacts, ufdrFileId, Tokens(q), limit);
    var snippets := Snippets(selected);
    AnswerHoldsSnippets(q, snippets);
    forall i | 0 <= i < |selected| ensures snippets[i] == Snippet(selected[i]) {
    }
  }

  /** Every snippet can be found in the answer. */
  lemma AnswerHoldsSnippets(q: string, snippets: seq<string>)
    ensures forall i :: 0 <= i < |snippets| ==> Contains(Answer(q, snippets), snippets[i])
  {
    var answer := Answer(q, snippets);
    var body := Join(snippets, "\n\n");
    JoinHoldsParts(snippets, "\n\n");
    assert OccursAt(answer, body, |Header(q, |snippets|)|);
    forall i | 0 <= i < |snippets| ensures Contains(answer, snippets[i]) {
      ContainsTransitive(answer, body, snippets[i]);
    }
  }

  /** The count in the answer's second line reads back as the number of snippets. */
  lemma AnswerCountReadsBack(q: string, snippets: seq<string>)
    ensures var answer := Answer(q, snippets);
      var start := |QueryEchoStart + q + CountStart|;
      var digits := DecimalString(|snippets|);
      && start + |digits| <= |answer|
      && answer[..start] == QueryEchoStart + q + CountStart
      && AllDigits(answer[start..start + |digits|])
      && ParseDecimal(answer[start..start + |digits|]) == |snippets|
  {
    var start := |QueryEchoStart + q + CountStart|;
    var digits := DecimalString(|snippets|);
    var answer := Answer(q, snippets);
    assert answer == (QueryEchoStart + q + CountStart) + digits
      + (" relevant artifacts:\n\n" + Join(snippets, "\n\n"));
    assert answer[start..start + |digits|] == digits;
    ParseDecimalString(|snippets|);
  }

  /** Rows of other files never decide the outcome: the search over the file's own rows
      selects the same artifacts. */
  lemma SelectedSeesOnlyTheFile(artifacts: seq<Artifact>, ufdrFileId: string, terms: seq<string>, limit: nat)
    ensures Selected(FileArtifacts(artifacts, ufdrFileId), ufdrFileId, terms, limit)
      == Selected(artifacts, ufdrFileId, terms, limit)
  {
    var own := FileArtifacts(artifacts, ufdrFileId);
    var inFile := (a: Artifact) => InFile(a, ufdrFileId);
    var matching := a => InFile(a, ufdrFileId) && AnyTermMatches(a, terms);
    FilterFilter(artifacts, inFile, matching, matching);
    FilterFilter(artifacts, inFile, inFile, inFile);
  }
}
