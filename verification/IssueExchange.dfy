/** What the issue handlers store as a response document, and what a replay decodes from it. */
module IssueExchange {
  import opened Wrappers
  import opened Json

  datatype Issue = Issue(number: int, title: string, htmlURL: string)
  datatype Transport = Http | Mcp

  /** How an attempt on one item ended, before it is recorded. */
  datatype Outcome = Created(issue: Issue) | DryRun | GitHubError

  /** The fields of the request the stored documents show. */
  datatype IssueForm = IssueForm(repo: string, title: string, body: string, labels: seq<string>)

  /** The value a decoder starts from. */
  const ZERO_ISSUE := Issue(0, "", "")

  function IssueJson(i: Issue): Json {
    Obj([Member("number", Num(i.number)), Member("title", Str(i.title)), Member("html_url", Str(i.htmlURL))])
  }

  function OutcomeJson(o: Outcome): Json {
    if o.Created? then IssueJson(o.issue) else Null
  }

  function PreviewJson(f: IssueForm): Json {
    Obj([Member("repo", Str(f.repo)), Member("title", Str(f.title)), Member("body", Str(f.body))]
        + if f.labels == [] then [] else [Member("labels", Arr(Strings(f.labels)))])
  }

  /** MCP stores the issue itself; HTTP wraps it next to a preview. */
  function ResponseJson(t: Transport, f: IssueForm, o: Outcome): Json {
    match t
    case Mcp => OutcomeJson(o)
    case Http => Obj([Member("issue", OutcomeJson(o)), Member("preview", PreviewJson(f))])
  }

  // ---------- decoding into an issue ----------

  /** One object member; unknown names are ignored, null leaves the field alone, other types are errors. */
  function DecodeMember(i: Issue, m: Member): Option<Issue> {
    if m.name == "number" then
      match m.value case Num(n) => Some(i.(number := n)) case Null => Some(i) case _ => None
    else if m.name == "title" then
      match m.value case Str(s) => Some(i.(title := s)) case Null => Some(i) case _ => None
    else if m.name == "html_url" then
      match m.value case Str(s) => Some(i.(htmlURL := s)) case Null => Some(i) case _ => None
    else Some(i)
  }

  function DecodeMembers(i: Issue, ms: seq<Member>): Option<Issue>
    decreases ms
  {
    if ms == [] then Some(i)
    else
      match DecodeMember(i, ms[0])
      case None => None
      case Some(next) => DecodeMembers(next, ms[1..])
  }

  function DecodeIssue(text: string): Option<Issue> {
    match Parse(text)
    case Some(Null) => Some(ZERO_ISSUE)
    case Some(Obj(ms)) => DecodeMembers(ZERO_ISSUE, ms)
    case _ => None
  }

  lemma DecodeMembersStep(i: Issue, m: Member, ms: seq<Member>)
    requires DecodeMember(i, m).Some?
    ensures DecodeMembers(i, [m] + ms) == DecodeMembers(DecodeMember(i, m).value, ms)
  {
    assert ([m] + ms)[0] == m && ([m] + ms)[1..] == ms;
  }

  lemma DecodeIssueJson(i: Issue)
    ensures DecodeIssue(Encode(IssueJson(i))) == Some(i)
  {
    ParseEncode(IssueJson(i));
    var m0, m1, m2 := Member("number", Num(i.number)), Member("title", Str(i.title)), Member("html_url", Str(i.htmlURL));
    assert [m0] + ([m1] + ([m2] + [])) == [m0, m1, m2];
    DecodeMembersStep(ZERO_ISSUE, m0, [m1] + ([m2] + []));
    DecodeMembersStep(Issue(i.number, "", ""), m1, [m2] + []);
    DecodeMembersStep(Issue(i.number, i.title, ""), m2, []);
  }

  lemma DecodeWrapper(issue: Json, preview: Json)
    ensures DecodeIssue(Encode(Obj([Member("issue", issue), Member("preview", preview)]))) == Some(ZERO_ISSUE)
  {
    var m0, m1 := Member("issue", issue), Member("preview", preview);
    ParseEncode(Obj([m0, m1]));
    assert [m0] + ([m1] + []) == [m0, m1];
    DecodeMembersStep(ZERO_ISSUE, m0, [m1] + []);
    DecodeMembersStep(ZERO_ISSUE, m1, []);
  }

  /** Main result: the issue a replay hands back, for every request, outcome and transport the call was
      recorded over; the one that asks makes no difference. Recorded over MCP the created issue comes back;
      over HTTP a wrapper was stored, and decoding that as an issue always gives an empty one, as does a
      dry run over either. */
  lemma ReplayedIssue(t: Transport, f: IssueForm, o: Outcome)
    ensures DecodeIssue(Encode(ResponseJson(t, f, o)))
            == Some(if t == Mcp && o.Created? then o.issue else ZERO_ISSUE)
  {
    match t
    case Mcp =>
      if o.Created? { DecodeIssueJson(o.issue); } else { ParseEncode(Null); }
    case Http => DecodeWrapper(OutcomeJson(o), PreviewJson(f));
  }

  /** Replay is faithful exactly when the call was recorded over MCP, or there was nothing to lose. */
  lemma ReplayFaithful(t: Transport, f: IssueForm, i: Issue)
    ensures DecodeIssue(Encode(ResponseJson(t, f, Created(i)))) == Some(i) <==> t == Mcp || i == ZERO_ISSUE
  {
    ReplayedIssue(t, f, Created(i));
  }

  /** A concrete issue that is lost by recording it over HTTP. */
  lemma HttpReplayLosesIssue(f: IssueForm)
    ensures DecodeIssue(Encode(ResponseJson(Http, f, Created(Issue(7, "t", "u"))))) == Some(Issue(0, "", ""))
  {
    ReplayedIssue(Http, f, Created(Issue(7, "t", "u")));
  }
}
