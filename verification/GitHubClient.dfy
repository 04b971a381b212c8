/** The GitHub client's two loops: creating an issue with retries, and listing the files of a pull
    request page by page. */
module GitHubClient {
  import opened Wrappers
  import opened IssueExchange

  // ---------- creating an issue ----------

  /** What becomes of one POST: no response, a status other than 201, or 201 with a body that may not
      decode. A failing POST may still have created the issue. */
  datatype Reply = Lost(cancelled: bool, took: bool) | Refused(code: int, took: bool) | Confirmed(issue: Option<Issue>)

  datatype ApiError = NoResponse | BadStatus(code: int) | Undecodable | ContextDone

  /** Replies by attempt, and whether the context outlives the wait after each. */
  datatype Server = Server(replies: seq<Reply>, waits: seq<bool>)

  const MAX_ATTEMPTS := 4

  function ReplyAt(s: Server, attempt: nat): Reply {
    if attempt < |s.replies| then s.replies[attempt] else Lost(true, false)
  }

  predicate Waits(s: Server, attempt: nat) { attempt < |s.waits| && s.waits[attempt] }

  predicate RetryableStatus(code: int) { code == 429 || 500 <= code <= 599 }

  predicate Retryable(r: Reply) {
    match r
    case Lost(cancelled, _) => !cancelled
    case Refused(code, _) => RetryableStatus(code)
    case Confirmed(_) => false
  }

  /** No response though the context lives on, too many requests, or an error of the server's. */
  predicate AsksForRetry(r: Reply) {
    (r.Lost? && !r.cancelled) || (r.Refused? && (r.code == 429 || r.code / 100 == 5))
  }

  function ErrorOf(r: Reply): ApiError {
    match r
    case Lost(_, _) => NoResponse
    case Refused(code, _) => BadStatus(code)
    case Confirmed(_) => Undecodable
  }

  predicate Succeeds(r: Reply) { r.Confirmed? && r.issue.Some? }

  /** Did this POST create an issue? */
  predicate Took(r: Reply) {
    match r
    case Lost(_, took) => took
    case Refused(_, took) => took
    case Confirmed(_) => true
  }

  /** Issues the first n POSTs created. */
  function IssuesCreated(s: Server, n: nat): nat {
    if n == 0 then 0 else IssuesCreated(s, n - 1) + if Took(ReplyAt(s, n - 1)) then 1 else 0
  }

  lemma {:induction false} CreatedBounds(s: Server, n: nat)
    ensures IssuesCreated(s, n) <= n
    ensures IssuesCreated(s, n) == 0 <==> forall k | 0 <= k < n :: !Took(ReplyAt(s, k))
  {
    if n > 0 { CreatedBounds(s, n - 1); }
  }

  /** A call that retries: the first reply asks for it and the context outlives the wait. */
  predicate Retries(s: Server) { Retryable(ReplyAt(s, 0)) && Waits(s, 0) }

  /** How many POSTs a call makes, from the given attempt on. */
  function AttemptsFrom(s: Server, attempt: nat): (n: nat)
    requires attempt < MAX_ATTEMPTS
    ensures attempt < n <= MAX_ATTEMPTS
    decreases MAX_ATTEMPTS - attempt
  {
    if attempt + 1 == MAX_ATTEMPTS || !Retryable(ReplyAt(s, attempt)) || !Waits(s, attempt) then attempt + 1
    else AttemptsFrom(s, attempt + 1)
  }

  /** Every POST before the last is one that asks for a retry, and the result is the last one's. A success
      reports one of at least one issue created, and the only one exactly when no retried POST took effect;
      an error hides none exactly when no POST took effect. A call that does not retry creates at most one. */
  method CreateIssue(s: Server) returns (r: Result<Issue, ApiError>, attempts: nat)
    ensures attempts == AttemptsFrom(s, 0)
    ensures forall k | 0 <= k < attempts - 1 :: Retryable(ReplyAt(s, k)) && Waits(s, k)
    ensures var last := ReplyAt(s, attempts - 1);
            && (r.Ok? <==> Succeeds(last)) && (r.Ok? ==> Some(r.value) == last.issue)
            && (r.Err? ==> if attempts < MAX_ATTEMPTS && Retryable(last) then r.error == ContextDone && !Waits(s, attempts - 1)
                           else r.error == ErrorOf(last))
    ensures r.Ok? ==> 1 <= IssuesCreated(s, attempts) <= attempts
    ensures r.Ok? ==> (IssuesCreated(s, attempts) == 1 <==> forall k | 0 <= k < attempts - 1 :: !Took(ReplyAt(s, k)))
    ensures r.Err? ==> IssuesCreated(s, attempts) <= attempts
    ensures r.Err? ==> (IssuesCreated(s, attempts) == 0 <==> forall k | 0 <= k < attempts :: !Took(ReplyAt(s, k)))
    ensures !Retries(s) ==> attempts == 1 && IssuesCreated(s, attempts) <= 1
    ensures 1 <= attempts <= 4 && forall k | 0 <= k < attempts - 1 :: AsksForRetry(ReplyAt(s, k))
    ensures attempts == 4 || !AsksForRetry(ReplyAt(s, attempts - 1)) || !Waits(s, attempts - 1)
  {
    for attempt := 0 to MAX_ATTEMPTS
      invariant forall k | 0 <= k < attempt :: Retryable(ReplyAt(s, k)) && Waits(s, k)
      invariant attempt < MAX_ATTEMPTS && AttemptsFrom(s, attempt) == AttemptsFrom(s, 0)
    {
      CreatedBounds(s, attempt);
      CreatedBounds(s, attempt + 1);
      var reply := ReplyAt(s, attempt);
      if Succeeds(reply) {
        return Ok(reply.issue.value), attempt + 1;
      }
      if attempt + 1 == MAX_ATTEMPTS || !Retryable(reply) {
        return Err(ErrorOf(reply)), attempt + 1;
      }
      if !Waits(s, attempt) {
        return Err(ContextDone), attempt + 1;
      }
    }
    assert false;
  }

  lemma {:induction false} EarlierAttemptsRetried(s: Server, attempt: nat, k: nat)
    requires attempt < MAX_ATTEMPTS && attempt <= k < AttemptsFrom(s, attempt) - 1
    ensures Retryable(ReplyAt(s, k)) && Waits(s, k)
    decreases MAX_ATTEMPTS - attempt
  {
    if attempt < k { EarlierAttemptsRetried(s, attempt + 1, k); }
  }

  /** A call creates as many issues as it reports exactly when no POST it saw fail took effect. */
  lemma OneIssueACall(s: Server)
    ensures var n := AttemptsFrom(s, 0);
            IssuesCreated(s, n) == (if Succeeds(ReplyAt(s, n - 1)) then 1 else 0)
            <==> forall k | 0 <= k < n && !Succeeds(ReplyAt(s, k)) :: !Took(ReplyAt(s, k))
  {
    var n := AttemptsFrom(s, 0);
    CreatedBounds(s, n - 1);
    CreatedBounds(s, n);
    forall k | 0 <= k < n - 1 ensures !Succeeds(ReplyAt(s, k)) { EarlierAttemptsRetried(s, 0, k); }
  }

  // ---------- what the caller can know ----------

  /** The reply as the caller sees it: whether a failing POST took effect does not show. */
  function Seen(r: Reply): Reply {
    match r
    case Lost(cancelled, _) => Lost(cancelled, false)
    case Refused(code, _) => Refused(code, false)
    case Confirmed(_) => r
  }

  /** Servers no call can tell apart. */
  ghost predicate LookAlike(s: Server, t: Server) {
    s.waits == t.waits && forall k | 0 <= k < MAX_ATTEMPTS :: Seen(ReplyAt(s, k)) == Seen(ReplyAt(t, k))
  }

  lemma {:induction false} SameAttempts(s: Server, t: Server, attempt: nat)
    requires LookAlike(s, t) && attempt < MAX_ATTEMPTS
    ensures AttemptsFrom(s, attempt) == AttemptsFrom(t, attempt)
    decreases MAX_ATTEMPTS - attempt
  {
    assert Seen(ReplyAt(s, attempt)) == Seen(ReplyAt(t, attempt));
    if attempt + 1 < MAX_ATTEMPTS { SameAttempts(s, t, attempt + 1); }
  }

  function TakeEffect(r: Reply): Reply {
    match r
    case Lost(cancelled, _) => Lost(cancelled, true)
    case Refused(code, _) => Refused(code, true)
    case Confirmed(_) => r
  }

  /** The look-alike on which every POST takes effect. */
  function Worst(s: Server): Server {
    Server(seq(MAX_ATTEMPTS, k requires 0 <= k < MAX_ATTEMPTS => TakeEffect(ReplyAt(s, k))), s.waits)
  }

  lemma {:induction false} AllTake(s: Server, n: nat)
    requires forall k | 0 <= k < n :: Took(ReplyAt(s, k))
    ensures IssuesCreated(s, n) == n
  {
    if n > 0 { AllTake(s, n - 1); }
  }

  lemma WorstTakesAll(s: Server)
    ensures LookAlike(s, Worst(s)) && AttemptsFrom(Worst(s), 0) == AttemptsFrom(s, 0)
    ensures IssuesCreated(Worst(s), AttemptsFrom(s, 0)) == AttemptsFrom(s, 0)
  {
    SameAttempts(s, Worst(s), 0);
    AllTake(Worst(s), AttemptsFrom(s, 0));
  }

  /** Main result: when a call is sure to create at most one issue, whatever the server hides: exactly when
      it does not retry, that is, when its first reply does not ask for a retry or the first wait fails. */
  lemma AtMostOneIssueForSure(s: Server)
    ensures (forall t | LookAlike(s, t) :: IssuesCreated(t, AttemptsFrom(t, 0)) <= 1) <==> !Retries(s)
  {
    WorstTakesAll(s);
    if !Retries(s) {
      forall t | LookAlike(s, t) ensures IssuesCreated(t, AttemptsFrom(t, 0)) <= 1 {
        SameAttempts(s, t, 0);
        CreatedBounds(t, 1);
      }
    } else {
      assert AttemptsFrom(s, 0) == AttemptsFrom(s, 1) > 1;
    }
  }

  /** A concrete call that creates two issues and reports one: the first POST's response was lost. */
  lemma LostResponseCreatesTwo(issue: Issue)
    ensures var s := Server([Lost(false, true), Confirmed(Some(issue))], [true]);
            AttemptsFrom(s, 0) == 2 && Succeeds(ReplyAt(s, 1)) && IssuesCreated(s, 2) == 2
  {
    var s := Server([Lost(false, true), Confirmed(Some(issue))], [true]);
    assert AttemptsFrom(s, 0) == AttemptsFrom(s, 1);
    AllTake(s, 2);
  }

  // ---------- listing files ----------

  const PAGE := 100
  const PAGES := 10

  function Least(a: nat, b: nat): nat { if a < b then a else b }

  /** The page with the given index, as GitHub cuts the list. */
  function PageOf<T>(all: seq<T>, page: nat): seq<T> {
    all[Least(page * PAGE, |all|)..Least((page + 1) * PAGE, |all|)]
  }

  /** The first ten pages: the whole list exactly when it has at most 1000 files. It is had exactly when
      all pages answer up to the first short one, or to the tenth: those that start within the list. */
  method ListPullRequestFiles<T>(all: seq<T>, pageOk: seq<bool>) returns (r: Option<seq<T>>)
    ensures r.Some? ==> r.value == if |all| <= 1000 then all else all[..1000]
    ensures r.Some? ==> (r.value == all <==> |all| <= 1000)
    ensures r.Some? <==> forall k | 0 <= k < 10 && k * 100 <= |all| :: k < |pageOk| && pageOk[k]
  {
    var files: seq<T> := [];
    for page := 0 to PAGES
      invariant files == all[..Least(page * PAGE, |all|)] && page * PAGE <= |all|
      invariant forall k | 0 <= k < page :: k < |pageOk| && pageOk[k]
    {
      if page >= |pageOk| || !pageOk[page] {
        return None;
      }
      var pageFiles := PageOf(all, page);
      assert all[..Least((page + 1) * PAGE, |all|)] == all[..Least(page * PAGE, |all|)] + pageFiles;
      files := files + pageFiles;
      if |pageFiles| < PAGE {
        break;
      }
    }
    return Some(files);
  }
}
