/**
 One call of `importUsers(token, requestNumber, attemptNumber)`: fetch one
 page of users, post every user's email to the destination in order, and
 compute the next `(token, requestNumber, attemptNumber)` or finish.

 The directory call `listUsers` is represented by its outcome (a
 `FetchOutcome` given as input) and the destination call by the oracle
 `post`. The timer module is represented by a wait level that the step resets
 on success and increases on failure.
 */
module Import {
  import opened Js
  import opened Config
  import opened MailChimp

  /** A directory attribute `{Name, Value}`. */
  datatype Attribute = Attribute(name: string, value: string)

  /** A directory user, through its `Attributes` list. */
  datatype User = User(attributes: seq<Attribute>)

  /** The settled `listUsers` promise: `{Users, PaginationToken}`, or a
      rejection carrying the provider's `code`. */
  datatype FetchOutcome =
    | Fetched(users: seq<User>, paginationToken: Option<string>)
    | FetchFailed(code: Option<string>)

  /** The arguments of one `importUsers` call, plus the timer's wait level
      (number of increases since the last reset). */
  datatype ImportState = ImportState(token: Option<string>, requestNumber: int, attemptNumber: int, waitLevel: nat)

  /** One line of terminal output. */
  datatype LogEntry =
    | Added(email: string)
    | NotAdded(email: string, reason: string)
    | RequestFailed(requestNumber: int, attemptNumber: int, code: Option<string>)
    | ImportComplete

  /** The first call, `importUsers()`: no token, both counters default to 1. */
  const Initial := ImportState(None, 1, 1, 0)

  /** Both counters at least 1, as their defaults and updates keep them. */
  predicate Valid(s: ImportState)
  {
    s.requestNumber >= 1 && s.attemptNumber >= 1
  }

  /** Position of the first attribute called `name`, or -1. */
  function FirstNamed(attrs: seq<Attribute>, name: string): (k: int)
    ensures -1 <= k < |attrs|
    ensures k == -1 <==> forall i :: 0 <= i < |attrs| ==> attrs[i].name != name
    ensures 0 <= k ==> attrs[k].name == name && forall j :: 0 <= j < k ==> attrs[j].name != name
    decreases |attrs|
  {
    if |attrs| == 0 then -1
    else if attrs[0].name == name then 0
    else
      var k := FirstNamed(attrs[1..], name);
      if k == -1 then -1 else k + 1
  }

  /** `attrs.filter(attr => attr.Name === name)`. */
  function Named(attrs: seq<Attribute>, name: string): (matches: seq<Attribute>)
    ensures forall i :: 0 <= i < |matches| ==> matches[i].name == name
    ensures |matches| == 0 <==> FirstNamed(attrs, name) == -1
    ensures |matches| > 0 ==> matches[0] == attrs[FirstNamed(attrs, name)]
    decreases |attrs|
  {
    if |attrs| == 0 then []
    else (if attrs[0].name == name then [attrs[0]] else []) + Named(attrs[1..], name)
  }

  /** The email of a user: the value of its first attribute called "email",
      or None when it has none. */
  function EmailOf(u: User): Option<string>
  {
    var k := FirstNamed(u.attributes, "email");
    if k < 0 then None else Some(u.attributes[k].value)
  }

  /** `user.Attributes.filter(attr => attr.Name === "email")[0].Value` is
      the email: the filter keeps the attributes in order, so its head is the
      first attribute called "email", and an empty filter result (where
      `.Value` throws) is exactly a user with no such attribute. */
  lemma EmailIsFilterHead(u: User)
    ensures var matches := Named(u.attributes, "email");
            && (EmailOf(u).None? <==> |matches| == 0)
            && (EmailOf(u).Some? ==> EmailOf(u).value == matches[0].value)
            && (EmailOf(u).None? <==> forall i :: 0 <= i < |u.attributes| ==> u.attributes[i].name != "email")
  {
  }

  /** The line logged for one user whose email was found: the outcome of
      posting that email. */
  function UserEntry(cfg: Importer, email: string, post: Request -> SyncResult): (entry: LogEntry)
    ensures (entry.Added? || entry.NotAdded?) && entry.email == email
    ensures entry.Added? <==> post(SubscribeRequest(cfg.apiKey, cfg.listId, email)).Created?
    ensures entry.NotAdded? ==> entry.reason == FailureReason(post(SubscribeRequest(cfg.apiKey, cfg.listId, email)).error)
  {
    match post(SubscribeRequest(cfg.apiKey, cfg.listId, email))
    case Created => Added(email)
    case Rejected(e) => NotAdded(email, FailureReason(e))
  }

  /** `log` starts with one line per user of `users`, in order, each the
      outcome of posting that user's email. */
  predicate LogsUsers(cfg: Importer, log: seq<LogEntry>, users: seq<User>, post: Request -> SyncResult)
  {
    && |users| <= |log|
    && forall i :: 0 <= i < |users| ==>
         EmailOf(users[i]).Some? && log[i] == UserEntry(cfg, EmailOf(users[i]).value, post)
  }

  /** The lines of two pages logged one after the other. */
  lemma LogsUsersConcat(cfg: Importer, a: seq<LogEntry>, page: seq<User>, b: seq<LogEntry>, later: seq<User>, post: Request -> SyncResult)
    requires |a| == |page| && LogsUsers(cfg, a, page, post) && LogsUsers(cfg, b, later, post)
    ensures LogsUsers(cfg, a + b, page + later, post)
  {
    var users := page + later;
    forall i | |page| <= i < |users|
      ensures EmailOf(users[i]).Some? && (a + b)[i] == UserEntry(cfg, EmailOf(users[i]).value, post)
    {
      assert users[i] == later[i - |page|];
      assert (a + b)[i] == b[i - |page|];
    }
  }

  /** The lines a page produced, and whether the loop finished (false when a
      user without email made the loop throw). */
  datatype PageRun = PageRun(log: seq<LogEntry>, finished: bool)

  /** True when every user of the page has an email attribute. */
  predicate AllHaveEmail(users: seq<User>)
  {
    forall i :: 0 <= i < |users| ==> EmailOf(users[i]).Some?
  }

  /** The `for` loop over a page as a reference definition: users in order,
      one line each, stopping at the first user without email. A rejected
      post never stops the loop. */
  function ProcessUsers(cfg: Importer, users: seq<User>, post: Request -> SyncResult): (run: PageRun)
    ensures |run.log| <= |users|
    ensures forall i :: 0 <= i < |run.log| ==>
              EmailOf(users[i]).Some? && run.log[i] == UserEntry(cfg, EmailOf(users[i]).value, post)
    ensures run.finished <==> |run.log| == |users|
    ensures !run.finished ==> EmailOf(users[|run.log|]).None?
    decreases |users|
  {
    if |users| == 0 then PageRun([], true)
    else
      match EmailOf(users[0])
      case None => PageRun([], false)
      case Some(email) =>
        var rest := ProcessUsers(cfg, users[1..], post);
        EntriesCons(cfg, users, rest.log, post);
        PageRun([UserEntry(cfg, email, post)] + rest.log, rest.finished)
  }

  /** The entries of the rest of a page, preceded by the first user's entry,
      are the entries of the whole page. */
  lemma EntriesCons(cfg: Importer, users: seq<User>, log: seq<LogEntry>, post: Request -> SyncResult)
    requires |users| >= 1 && EmailOf(users[0]).Some? && |log| <= |users| - 1
    requires forall i :: 0 <= i < |log| ==>
               EmailOf(users[1..][i]).Some? && log[i] == UserEntry(cfg, EmailOf(users[1..][i]).value, post)
    ensures var whole := [UserEntry(cfg, EmailOf(users[0]).value, post)] + log;
            forall i :: 0 <= i < |whole| ==>
              EmailOf(users[i]).Some? && whole[i] == UserEntry(cfg, EmailOf(users[i]).value, post)
  {
    var whole := [UserEntry(cfg, EmailOf(users[0]).value, post)] + log;
    forall i | 1 <= i < |whole|
      ensures EmailOf(users[i]).Some? && whole[i] == UserEntry(cfg, EmailOf(users[i]).value, post)
    {
      assert users[i] == users[1..][i - 1];
      assert whole[i] == log[i - 1];
    }
  }

  /** A page runs to the end exactly when every user has an email. */
  lemma FinishedIffAllHaveEmail(cfg: Importer, users: seq<User>, post: Request -> SyncResult)
    ensures ProcessUsers(cfg, users, post).finished <==> AllHaveEmail(users)
  {
  }

  /** The reference definition is pinned down by its contract: a log that
      covers a prefix of the page user by user and stops at the end of the
      page or at a user without email is the one `ProcessUsers` returns. */
  lemma ProcessUsersUnique(cfg: Importer, users: seq<User>, log: seq<LogEntry>, post: Request -> SyncResult)
    requires |log| <= |users|
    requires forall j :: 0 <= j < |log| ==>
               EmailOf(users[j]).Some? && log[j] == UserEntry(cfg, EmailOf(users[j]).value, post)
    requires |log| < |users| ==> EmailOf(users[|log|]).None?
    ensures ProcessUsers(cfg, users, post) == PageRun(log, |log| == |users|)
  {
    var run := ProcessUsers(cfg, users, post);
    assert |run.log| == |log|;
    assert run.log == log;
  }

  /** The loop as written: `for (const user in Users)`, where a missing email
      leaves the loop (the throw) with the lines logged so far. */
  method ProcessPage(cfg: Importer, users: seq<User>, post: Request -> SyncResult)
    returns (log: seq<LogEntry>, finished: bool)
    ensures PageRun(log, finished) == ProcessUsers(cfg, users, post)
  {
    log := [];
    var i := 0;
    while i < |users|
      invariant 0 <= i <= |users|
      invariant |log| == i
      invariant forall j :: 0 <= j < i ==>
                  EmailOf(users[j]).Some? && log[j] == UserEntry(cfg, EmailOf(users[j]).value, post)
    {
      var email := EmailOf(users[i]);
      if email.None? {
        ProcessUsersUnique(cfg, users, log, post);
        finished := false;
        return;
      }
      log := log + [UserEntry(cfg, email.value, post)];
      i := i + 1;
    }
    ProcessUsersUnique(cfg, users, log, post);
    finished := true;
  }

  /** A fetch whose page was processed to the end. */
  predicate PageSucceeded(f: FetchOutcome)
  {
    f.Fetched? && AllHaveEmail(f.users)
  }

  /** The result of one step: the lines logged, the arguments for the next
      call, and whether the step ended the import instead of continuing. */
  datatype StepResult = StepResult(log: seq<LogEntry>, next: ImportState, complete: bool)

  /** One `importUsers` call given the settled fetch. A page processed to the
      end moves to its `PaginationToken` with the next request number and
      attempt 1; a rejected fetch, or a page whose loop threw on a missing
      email, keeps token and request number and counts one more attempt.
      The import completes exactly when the next token is `undefined`, which
      includes a failed first fetch. */
  function Step(cfg: Importer, s: ImportState, f: FetchOutcome, post: Request -> SyncResult): (r: StepResult)
    ensures PageSucceeded(f) ==> r.next == ImportState(f.paginationToken, s.requestNumber + 1, 1, 0)
    ensures !PageSucceeded(f) ==> r.next == ImportState(s.token, s.requestNumber, s.attemptNumber + 1, s.waitLevel + 1)
    ensures r.complete <==> r.next.token.None?
    ensures r.complete <==> ImportComplete in r.log
    ensures r.complete ==> r.log[|r.log| - 1] == ImportComplete
  {
    var retry := ImportState(s.token, s.requestNumber, s.attemptNumber + 1, s.waitLevel + 1);
    match f
    case FetchFailed(code) =>
      assert !PageSucceeded(f);
      Finish([RequestFailed(s.requestNumber, s.attemptNumber, code)], retry)
    case Fetched(users, paginationToken) =>
      var run := ProcessUsers(cfg, users, post);
      assert ImportComplete !in run.log;
      FinishedIffAllHaveEmail(cfg, users, post);
      if run.finished then
        Finish(run.log, ImportState(paginationToken, s.requestNumber + 1, 1, 0))
      else
        Finish(run.log + [RequestFailed(s.requestNumber, s.attemptNumber, None)], retry)
  }

  /** The tail of a step: log "Import Complete" and stop when the next token
      is `undefined`, otherwise continue with the next arguments. */
  function Finish(log: seq<LogEntry>, next: ImportState): (r: StepResult)
    ensures r.next == next
    ensures r.complete <==> next.token.None?
    ensures |r.log| == |log| + (if r.complete then 1 else 0) && r.log[..|log|] == log
    ensures r.complete ==> r.log[|log|] == ImportComplete
  {
    if next.token.None? then StepResult(log + [ImportComplete], next, true)
    else StepResult(log, next, false)
  }

  /** On a page processed to the end, the step logs one line per user, in
      page order, each the outcome of posting that user's email. */
  lemma StepLogOnSuccess(cfg: Importer, s: ImportState, f: FetchOutcome, post: Request -> SyncResult)
    requires PageSucceeded(f)
    ensures var r := Step(cfg, s, f, post);
            && |r.log| == |f.users| + (if r.complete then 1 else 0)
            && LogsUsers(cfg, r.log, f.users, post)
  {
    FinishedIffAllHaveEmail(cfg, f.users, post);
  }

  /** On a rejected fetch, the step logs the failed request with its request
      and attempt numbers and the provider's error code. */
  lemma StepLogOnFetchFailure(cfg: Importer, s: ImportState, f: FetchOutcome, post: Request -> SyncResult)
    requires f.FetchFailed?
    ensures var r := Step(cfg, s, f, post);
            && |r.log| == 1 + (if r.complete then 1 else 0)
            && r.log[0] == RequestFailed(s.requestNumber, s.attemptNumber, f.code)
  {
  }

  /** On a page with a user lacking an email, the users before the first such
      user are posted and logged, and then the page counts as a failed
      request whose error has no code. */
  lemma StepLogOnMissingEmail(cfg: Importer, s: ImportState, f: FetchOutcome, post: Request -> SyncResult)
    requires f.Fetched? && !PageSucceeded(f)
    ensures var r := Step(cfg, s, f, post);
            var k := |r.log| - 1 - (if r.complete then 1 else 0);
            && 0 <= k < |f.users|
            && EmailOf(f.users[k]).None?
            && (forall i :: 0 <= i < k ==>
                  EmailOf(f.users[i]).Some? && r.log[i] == UserEntry(cfg, EmailOf(f.users[i]).value, post))
            && r.log[k] == RequestFailed(s.requestNumber, s.attemptNumber, None)
  {
    FinishedIffAllHaveEmail(cfg, f.users, post);
  }

  /** A step keeps both counters at least 1. */
  lemma StepKeepsValid(cfg: Importer, s: ImportState, f: FetchOutcome, post: Request -> SyncResult)
    requires Valid(s)
    ensures Valid(Step(cfg, s, f, post).next)
  {
  }
}
