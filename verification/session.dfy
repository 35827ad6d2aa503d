/**
 A whole import: the chain of `importUsers` calls, each fed the next settled
 fetch of a finite script of directory outcomes.

 The source continues at index.js:109 with `this.getUsers(...)`, a method the
 prototype does not define; `ImportUsersAsWritten` models that call as
 written (the continuation throws), and `Run` models the evidently intended
 continuation, a call of `importUsers` with the next arguments, as a loop
 over the script.
 */
module Session {
  import opened Js
  import opened Config
  import opened MailChimp
  import opened Import

  /** What a run produced: every line logged, the arguments of the call that
      would come next, the number of fetches made, and whether the import
      completed. */
  datatype Trace = Trace(log: seq<LogEntry>, final: ImportState, fetches: nat, complete: bool)

  /** The intended pagination loop: step after step until the import
      completes or the script of fetch outcomes runs out. */
  function Run(cfg: Importer, s: ImportState, script: seq<FetchOutcome>, post: Request -> SyncResult): (t: Trace)
    ensures t.fetches <= |script|
    ensures t.complete ==> 1 <= t.fetches && t.final.token.None?
    ensures !t.complete ==> t.fetches == |script|
    ensures |script| == 0 ==> t == Trace([], s, 0, false)
    decreases |script|
  {
    if |script| == 0 then Trace([], s, 0, false)
    else
      var r := Step(cfg, s, script[0], post);
      if r.complete then Trace(r.log, r.next, 1, true)
      else
        var t := Run(cfg, r.next, script[1..], post);
        Trace(r.log + t.log, t.final, t.fetches + 1, t.complete)
  }

  /** The import started by the module's own `importUsers()` call. */
  function ImportAll(cfg: Importer, script: seq<FetchOutcome>, post: Request -> SyncResult): Trace
  {
    Run(cfg, Initial, script, post)
  }

  /** The run as written: after one step that does not complete, the call of
      the undefined `this.getUsers` throws a TypeError, rejecting the
      promise, so no second fetch is ever made. */
  datatype WrittenTrace = WrittenTrace(log: seq<LogEntry>, fetches: nat, complete: bool, crashed: bool)

  function ImportUsersAsWritten(cfg: Importer, s: ImportState, script: seq<FetchOutcome>, post: Request -> SyncResult): (w: WrittenTrace)
    ensures w.fetches <= 1
    ensures w.crashed <==> w.fetches == 1 && !w.complete
    ensures |script| >= 1 ==> w.fetches == 1 && w.log == Step(cfg, s, script[0], post).log
    ensures |script| >= 1 ==> w.complete == Step(cfg, s, script[0], post).complete
    ensures |script| == 0 ==> w.fetches == 0 && !w.complete
  {
    if |script| == 0 then WrittenTrace([], 0, false, false)
    else
      var r := Step(cfg, s, script[0], post);
      WrittenTrace(r.log, 1, r.complete, !r.complete)
  }

  /** The discrepancy: whenever the first step continues and another fetch
      outcome is available, the code as written stops with a TypeError after
      one fetch, while the intended loop makes the next fetch. */
  lemma AsWrittenStopsAfterOnePage(cfg: Importer, s: ImportState, script: seq<FetchOutcome>, post: Request -> SyncResult)
    requires |script| >= 2
    requires !Step(cfg, s, script[0], post).complete
    ensures ImportUsersAsWritten(cfg, s, script, post).crashed
    ensures ImportUsersAsWritten(cfg, s, script, post).fetches == 1
    ensures Run(cfg, s, script, post).fetches >= 2
  {
  }

  /** Completion is final: once a run completes, no further fetch outcome is
      consumed, so appending outcomes to the script changes nothing. */
  lemma {:induction false} NoFetchAfterComplete(cfg: Importer, s: ImportState, script: seq<FetchOutcome>, more: seq<FetchOutcome>, post: Request -> SyncResult)
    requires Run(cfg, s, script, post).complete
    ensures Run(cfg, s, script + more, post) == Run(cfg, s, script, post)
    decreases |script|
  {
    var r := Step(cfg, s, script[0], post);
    assert (script + more)[0] == script[0];
    assert |script + more| > 0;
    if !r.complete {
      assert (script + more)[1..] == script[1..] + more;
      NoFetchAfterComplete(cfg, r.next, script[1..], more, post);
    }
  }

  /** A run uses exactly the fetch outcomes it counts: cutting the script
      after them gives the same run. */
  lemma {:induction false} RunUsesOnlyItsFetches(cfg: Importer, s: ImportState, script: seq<FetchOutcome>, post: Request -> SyncResult)
    ensures Run(cfg, s, script[..Run(cfg, s, script, post).fetches], post) == Run(cfg, s, script, post)
    decreases |script|
  {
    var t := Run(cfg, s, script, post);
    if |script| > 0 {
      var r := Step(cfg, s, script[0], post);
      var cut := script[..t.fetches];
      assert cut[0] == script[0];
      if !r.complete {
        var t' := Run(cfg, r.next, script[1..], post);
        assert cut[1..] == script[1..][..t'.fetches];
        RunUsesOnlyItsFetches(cfg, r.next, script[1..], post);
      }
    }
  }

  /** Number of fetch outcomes whose page was processed to the end. */
  function Successes(script: seq<FetchOutcome>): (n: nat)
    ensures n <= |script|
  {
    if |script| == 0 then 0
    else (if PageSucceeded(script[0]) then 1 else 0) + Successes(script[1..])
  }

  /** The request number counts pages: it grows by one for every page
      processed to the end among the fetches made, and by nothing else. */
  lemma {:induction false} RequestNumberCountsPages(cfg: Importer, s: ImportState, script: seq<FetchOutcome>, post: Request -> SyncResult)
    ensures var t := Run(cfg, s, script, post);
            t.final.requestNumber == s.requestNumber + Successes(script[..t.fetches])
    decreases |script|
  {
    var t := Run(cfg, s, script, post);
    if |script| > 0 {
      var r := Step(cfg, s, script[0], post);
      var cut := script[..t.fetches];
      assert cut[0] == script[0];
      if r.complete {
        assert cut == [script[0]];
        assert cut[1..] == [];
      } else {
        var t' := Run(cfg, r.next, script[1..], post);
        assert cut[1..] == script[1..][..t'.fetches];
        RequestNumberCountsPages(cfg, r.next, script[1..], post);
      }
    }
  }

  /** Counters stay at least 1 for the whole run. */
  lemma {:induction false} RunKeepsValid(cfg: Importer, s: ImportState, script: seq<FetchOutcome>, post: Request -> SyncResult)
    requires Valid(s)
    ensures Valid(Run(cfg, s, script, post).final)
    decreases |script|
  {
    if |script| > 0 {
      var r := Step(cfg, s, script[0], post);
      StepKeepsValid(cfg, s, script[0], post);
      if !r.complete {
        RunKeepsValid(cfg, r.next, script[1..], post);
      }
    }
  }

  /** "Import Complete" is logged exactly when the run completes. */
  lemma {:induction false} CompletionLogged(cfg: Importer, s: ImportState, script: seq<FetchOutcome>, post: Request -> SyncResult)
    ensures var t := Run(cfg, s, script, post);
            t.complete <==> ImportComplete in t.log
    decreases |script|
  {
    if |script| > 0 {
      var r := Step(cfg, s, script[0], post);
      if !r.complete {
        var t' := Run(cfg, r.next, script[1..], post);
        CompletionLogged(cfg, r.next, script[1..], post);
        assert ImportComplete in r.log + t'.log <==> ImportComplete in t'.log;
      }
    }
  }

  /** A completed run ends with the "Import Complete" line. */
  lemma {:induction false} CompletionLoggedLast(cfg: Importer, s: ImportState, script: seq<FetchOutcome>, post: Request -> SyncResult)
    ensures var t := Run(cfg, s, script, post);
            t.complete ==> |t.log| >= 1 && t.log[|t.log| - 1] == ImportComplete
    decreases |script|
  {
    var t := Run(cfg, s, script, post);
    if t.complete {
      var r := Step(cfg, s, script[0], post);
      if r.complete {
        assert t.log == r.log;
        assert ImportComplete in r.log;
      } else {
        var t' := Run(cfg, r.next, script[1..], post);
        assert t.log == r.log + t'.log && t'.complete;
        CompletionLoggedLast(cfg, r.next, script[1..], post);
        assert t.log[|t.log| - 1] == t'.log[|t'.log| - 1];
      }
    }
  }


  /** Unbounded retry: from a state that has a token, a run of failures
      (rejected fetches or pages with a user lacking email) never completes
      and never advances; it keeps token and request number, and counts one
      attempt and one wait increase per failure. */
  lemma {:induction false} FailuresNeverAdvance(cfg: Importer, s: ImportState, script: seq<FetchOutcome>, post: Request -> SyncResult)
    requires s.token.Some?
    requires forall i :: 0 <= i < |script| ==> !PageSucceeded(script[i])
    ensures var t := Run(cfg, s, script, post);
            && !t.complete
            && t.fetches == |script|
            && t.final == ImportState(s.token, s.requestNumber, s.attemptNumber + |script|, s.waitLevel + |script|)
    decreases |script|
  {
    if |script| > 0 {
      var r := Step(cfg, s, script[0], post);
      assert !PageSucceeded(script[0]);
      FailuresNeverAdvance(cfg, r.next, script[1..], post);
    }
  }

  /** The lines of a run of rejected fetches: one failed-request line per
      fetch, same request number, attempt numbers counting up, each with the
      provider's code. */
  lemma {:induction false} FailedFetchesLog(cfg: Importer, s: ImportState, script: seq<FetchOutcome>, post: Request -> SyncResult)
    requires s.token.Some?
    requires forall i :: 0 <= i < |script| ==> script[i].FetchFailed?
    ensures var t := Run(cfg, s, script, post);
            && |t.log| == |script|
            && forall i :: 0 <= i < |script| ==>
                 t.log[i] == RequestFailed(s.requestNumber, s.attemptNumber + i, script[i].code)
    decreases |script|
  {
    if |script| > 0 {
      var r := Step(cfg, s, script[0], post);
      assert !PageSucceeded(script[0]);
      StepLogOnFetchFailure(cfg, s, script[0], post);
      FailedFetchesLog(cfg, r.next, script[1..], post);
      var t := Run(cfg, s, script, post);
      var t' := Run(cfg, r.next, script[1..], post);
      assert t.log == r.log + t'.log;
      forall i | 1 <= i < |script|
        ensures t.log[i] == RequestFailed(s.requestNumber, s.attemptNumber + i, script[i].code)
      {
        assert t.log[i] == t'.log[i - 1];
        assert script[1..][i - 1] == script[i];
      }
    }
  }

  /** A complete listing: every fetch succeeds and every page is processed
      to the end, every page but the last hands out a token, and the last
      hands out none. */
  predicate Listing(script: seq<FetchOutcome>)
  {
    && |script| >= 1
    && (forall i :: 0 <= i < |script| ==> PageSucceeded(script[i]))
    && (forall i :: 0 <= i < |script| - 1 ==> script[i].paginationToken.Some?)
    && script[|script| - 1].paginationToken.None?
  }

  /** Every listing but the last page is again a listing. */
  lemma ListingTail(script: seq<FetchOutcome>)
    requires Listing(script) && |script| >= 2
    ensures Listing(script[1..])
  {
    var rest := script[1..];
    assert forall i :: 0 <= i < |rest| ==> rest[i] == script[i + 1];
  }

  /** All users of all pages, in fetch order. */
  function AllUsers(script: seq<FetchOutcome>): (users: seq<User>)
    requires forall i :: 0 <= i < |script| ==> script[i].Fetched?
  {
    if |script| == 0 then [] else script[0].users + AllUsers(script[1..])
  }

  /** The last page of a listing: the step logs its users and "Import
      Complete", and the run completes with that one fetch. */
  lemma LastPage(cfg: Importer, s: ImportState, f: FetchOutcome, post: Request -> SyncResult)
    requires PageSucceeded(f) && f.paginationToken.None?
    ensures var r := Step(cfg, s, f, post);
            && Run(cfg, s, [f], post) == Trace(r.log, ImportState(None, s.requestNumber + 1, 1, 0), 1, true)
            && |r.log| == |f.users| + 1
            && r.log[|f.users|] == ImportComplete
  {
    StepLogOnSuccess(cfg, s, f, post);
  }

  /** A page with a token: the step logs one line per user and the run
      continues from the token with the next request number and attempt 1. */
  lemma PageThenRest(cfg: Importer, s: ImportState, script: seq<FetchOutcome>, post: Request -> SyncResult)
    requires |script| >= 1 && PageSucceeded(script[0]) && script[0].paginationToken.Some?
    ensures var r := Step(cfg, s, script[0], post);
            var t' := Run(cfg, ImportState(script[0].paginationToken, s.requestNumber + 1, 1, 0), script[1..], post);
            && Run(cfg, s, script, post) == Trace(r.log + t'.log, t'.final, t'.fetches + 1, t'.complete)
            && |r.log| == |script[0].users|
  {
    var r := Step(cfg, s, script[0], post);
    StepLogOnSuccess(cfg, s, script[0], post);
    assert !r.complete && r.next == ImportState(script[0].paginationToken, s.requestNumber + 1, 1, 0);
  }

  /** A complete listing is imported to the end: the run completes after
      exactly one fetch per page, with the request number grown by the
      number of pages and the attempt number back at 1. */
  lemma {:induction false} ImportsWholeListing(cfg: Importer, s: ImportState, script: seq<FetchOutcome>, post: Request -> SyncResult)
    requires Listing(script)
    ensures var t := Run(cfg, s, script, post);
            && t.complete
            && t.fetches == |script|
            && t.final.requestNumber == s.requestNumber + |script|
            && t.final.attemptNumber == 1
    decreases |script|
  {
    if |script| == 1 {
      LastPage(cfg, s, script[0], post);
      assert script == [script[0]];
    } else {
      var next := ImportState(script[0].paginationToken, s.requestNumber + 1, 1, 0);
      PageThenRest(cfg, s, script, post);
      ListingTail(script);
      ImportsWholeListing(cfg, next, script[1..], post);
    }
  }

  /** The log of a complete listing has one line per user of every page and
      one more line, "Import Complete". */
  lemma {:induction false} ListingLogLength(cfg: Importer, s: ImportState, script: seq<FetchOutcome>, post: Request -> SyncResult)
    requires Listing(script)
    ensures |Run(cfg, s, script, post).log| == |AllUsers(script)| + 1
    decreases |script|
  {
    var page := script[0].users;
    if |script| == 1 {
      LastPage(cfg, s, script[0], post);
      assert script == [script[0]];
      assert AllUsers(script) == page;
    } else {
      var rest := script[1..];
      PageThenRest(cfg, s, script, post);
      ListingTail(script);
      ListingLogLength(cfg, ImportState(script[0].paginationToken, s.requestNumber + 1, 1, 0), rest, post);
      assert |AllUsers(script)| == |page| + |AllUsers(rest)|;
    }
  }

  /** The log of a complete listing holds, in order, one line per user of
      every page, each the outcome of posting that user's email. */
  lemma {:induction false} ListingLogsEveryUser(cfg: Importer, s: ImportState, script: seq<FetchOutcome>, post: Request -> SyncResult)
    requires Listing(script)
    ensures LogsUsers(cfg, Run(cfg, s, script, post).log, AllUsers(script), post)
    decreases |script|
  {
    var page := script[0].users;
    StepLogOnSuccess(cfg, s, script[0], post);
    if |script| == 1 {
      LastPage(cfg, s, script[0], post);
      assert script == [script[0]];
      assert AllUsers(script) == page;
    } else {
      var rest := script[1..];
      var next := ImportState(script[0].paginationToken, s.requestNumber + 1, 1, 0);
      PageThenRest(cfg, s, script, post);
      ListingTail(script);
      ListingLogsEveryUser(cfg, next, rest, post);
      var r := Step(cfg, s, script[0], post);
      var t' := Run(cfg, next, rest, post);
      assert AllUsers(script) == page + AllUsers(rest);
      LogsUsersConcat(cfg, r.log, page, t'.log, AllUsers(rest), post);
    }
  }
}
