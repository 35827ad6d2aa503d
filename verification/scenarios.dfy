/**
 Concrete runs of the model: a mixed page, a retried fetch that then ends
 the listing, a failed first fetch, a first page whose first user has no
 email, the data centre and routing of a sample API key, and the region of a
 sample pool id.
 */
module Scenarios {
  import opened Js
  import opened Config
  import opened MailChimp
  import opened Import
  import opened Session

  const Throttled := FetchFailed(Some("TooManyRequestsException"))

  function WithEmail(email: string): User
  {
    User([Attribute("sub", "id-" + email), Attribute("email", email)])
  }

  /** The destination accepts `a@x.com` and rejects everything else with the
      title "Invalid Resource". */
  function Destination(req: Request): SyncResult
  {
    if req.body.emailAddress == "a@x.com" then Created
    else Rejected(SyncError(Some(ErrorResponse(Some(ErrorData(Some("Invalid Resource"))))),
                            "Error: Request failed with status code 400"))
  }

  /** The destination's answer to the second user is logged with the
      provider's title. */
  lemma RejectedUserLogged(cfg: Importer)
    ensures ProcessUsers(cfg, [WithEmail("b@x.com")], Destination)
            == PageRun([NotAdded("b@x.com", "Invalid Resource")], true)
  {
    assert [WithEmail("b@x.com")][1..] == [];
  }

  /** A page with one accepted and one rejected user logs a success and the
      provider's title, in page order. */
  lemma MixedPageLogged(cfg: Importer)
    ensures ProcessUsers(cfg, [WithEmail("a@x.com"), WithEmail("b@x.com")], Destination)
            == PageRun([Added("a@x.com"), NotAdded("b@x.com", "Invalid Resource")], true)
  {
    var users := [WithEmail("a@x.com"), WithEmail("b@x.com")];
    assert users[1..] == [WithEmail("b@x.com")];
    RejectedUserLogged(cfg);
  }

  /** The mixed page as a whole step: both lines are logged and the import
      continues with the page's token "T1". */
  lemma MixedPage(cfg: Importer)
    ensures Step(cfg, Initial, Fetched([WithEmail("a@x.com"), WithEmail("b@x.com")], Some("T1")), Destination)
            == StepResult([Added("a@x.com"), NotAdded("b@x.com", "Invalid Resource")], ImportState(Some("T1"), 2, 1, 0), false)
  {
    MixedPageLogged(cfg);
  }

  /** Two throttled fetches of page 2 are logged with attempts 1 and 2; the
      empty last page then ends the import after three fetches, ignoring any
      further outcome. */
  lemma RetryThenComplete(cfg: Importer, more: seq<FetchOutcome>)
    ensures Run(cfg, ImportState(Some("T1"), 2, 1, 0), [Throttled, Throttled, Fetched([], None)] + more, Destination)
            == Trace([RequestFailed(2, 1, Some("TooManyRequestsException")),
                      RequestFailed(2, 2, Some("TooManyRequestsException")),
                      ImportComplete],
                     ImportState(None, 3, 1, 0), 3, true)
  {
    var s := ImportState(Some("T1"), 2, 1, 0);
    var script := [Throttled, Throttled, Fetched([], None)];
    var s2 := ImportState(Some("T1"), 2, 2, 1);
    var s3 := ImportState(Some("T1"), 2, 3, 2);
    assert Step(cfg, s, Throttled, Destination)
           == StepResult([RequestFailed(2, 1, Some("TooManyRequestsException"))], s2, false);
    assert Step(cfg, s2, Throttled, Destination)
           == StepResult([RequestFailed(2, 2, Some("TooManyRequestsException"))], s3, false);
    assert PageSucceeded(Fetched([], None));
    assert Step(cfg, s3, Fetched([], None), Destination)
           == StepResult([ImportComplete], ImportState(None, 3, 1, 0), true);
    assert script[1..] == [Throttled, Fetched([], None)];
    assert script[1..][1..] == [Fetched([], None)];
    assert Run(cfg, s3, script[1..][1..], Destination).complete;
    assert Run(cfg, s2, script[1..], Destination).complete;
    assert Run(cfg, s, script, Destination).complete;
    NoFetchAfterComplete(cfg, s, script, more, Destination);
  }

  /** A failed first fetch has no token to retry with, so the import logs
      the failure and completes after that single fetch. */
  lemma FailedFirstFetchCompletes(cfg: Importer, script: seq<FetchOutcome>, post: Request -> SyncResult)
    requires |script| >= 1 && script[0].FetchFailed?
    ensures ImportAll(cfg, script, post)
            == Trace([RequestFailed(1, 1, script[0].code), ImportComplete], ImportState(None, 1, 2, 1), 1, true)
  {
  }

  /** On the first page there is no token to retry with: a first user
      without email makes the page fail with no code, and since the token
      stays `undefined` the import logs "Import Complete" and stops, without
      importing anyone. */
  lemma MissingEmailOnFirstPageCompletes(cfg: Importer, users: seq<User>, token: Option<string>, post: Request -> SyncResult)
    requires |users| >= 1 && EmailOf(users[0]).None?
    ensures Step(cfg, Initial, Fetched(users, token), post)
            == StepResult([RequestFailed(1, 1, None), ImportComplete], ImportState(None, 1, 2, 1), true)
  {
    assert !AllHaveEmail(users);
    assert ProcessUsers(cfg, users, post) == PageRun([], false);
  }

  /** The data-centre code of the key "abcd-us6" is "us6". The key is
      written as a concatenation so that the solver reasons about its parts
      instead of evaluating `Split` character by character. */
  lemma SampleKeyDataCentre()
    ensures DataCentre("abcd" + "-" + "us6") == Some("us6")
  {
    DataCentreOfKey("abcd", "us6");
  }

  /** The key "abcd-us6" (written as a concatenation, as above) sends every
      contact to us6.api.mailchimp.com. */
  lemma SampleKeyRoute(email: string)
    ensures ParseHttpsUrl(SubscribeRequest("abcd" + "-" + "us6", "list1", email).url)
            == Some(Url("us6" + HostSuffix, "/3.0/lists/" + "list1" + "/members"))
  {
    SubscribeRequestRoute("abcd", "us6", "list1", email);
  }

  /** A pool id "us-east-1_abc" (written as a concatenation, as above)
      gives region "us-east-1". */
  lemma SamplePoolRegion()
    ensures Construct(Text("us-east-1" + "_" + "abc"), Text("abcd-us6"), Text("list1"))
            == Ok(Importer("us-east-1" + "_" + "abc", "abcd-us6", "list1", "us-east-1"))
  {
    RegionOfPoolId("us-east-1", "abc");
  }
}
