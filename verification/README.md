# Cognito to Mailchimp import, modelled in Dafny

`mailchimp-cognito-import` copies the users of an AWS Cognito user pool into a
Mailchimp audience list. `CognitoToMailChimp` checks its three arguments, then
derives the AWS region from the user-pool id. `importUsers(token, requestNumber, attemptNumber)`
fetches one page of users with `listUsers` and posts each user's email to
Mailchimp with `addContactMailChimp`, logging one line per user. It then
computes the next arguments: the page's `PaginationToken` after a page
processed to the end, or the same token with one more attempt after a
failure. It logs "Import Complete" when the next token is `undefined`, and
otherwise means to continue with the next arguments. As written, that
continuation calls a method that does not exist (see "## Findings").

The model is six modules, one concept per file:

- `js.dfy` (`Js`): the JavaScript pieces the code relies on. These are
  loose `!=` against `undefined` (so `null` fails too), `indexOf`,
  `substring` with its clamping and argument swap, and `split` on one
  character, with `Option` and `Result`.
- `config.dfy` (`Config`): the constructor's three assertions, their
  messages and order, and the region prefix of the pool id.
- `mailchimp.dfy` (`MailChimp`): `addContactMailChimp` as the request it
  builds. That is the data-centre code `split("-")[1]`, the members URL, the
  `{email_address, status: "subscribed"}` body and the basic-auth
  credentials. It also holds the reason logged for a rejected contact.
- `import.dfy` (`Import`): one `importUsers` call as a pure `Step`. The
  settled `listUsers` promise is an input (`FetchOutcome`). Each HTTP POST is
  an oracle `post: Request -> SyncResult`. The timer module becomes a wait
  level that is reset on success and increased on failure. The per-user loop
  is both a recursive function (`ProcessUsers`) and a loop method
  (`ProcessPage`) proved equal to it.
- `session.dfy` (`Session`): the chain of calls over a finite script of
  fetch outcomes (`Run`). It also has the code as written, which stops after
  one call (see Findings), and the multi-page properties.
- `scenarios.dfy` (`Scenarios`): concrete runs. These are a mixed page, a
  throttled fetch retried until the last page, a failed first fetch, a
  first page whose first user has no email, the key
  `abcd-us6` routed to `us6`, and the pool id `us-east-1_abc`.

### Quirks of the code

The model keeps these behaviours of `index.js` as they are:

- **Missing email.** At line 68, `filter(...)[0].Value` throws a TypeError
  for a user without an `email` attribute. The throw happens inside the
  page-level `try`. The users before that user have been posted and logged.
  The page then counts as a failed request whose error has no `code`
  (line 96), and line 101 keeps the current token. On a later page that
  token is defined. In the intended chain (`Session.Run`) the same page is
  then fetched again, and if the directory returns the same page again, the
  import never advances (`Session.FailuresNeverAdvance`). As written, line
  109 throws first (see "## Findings"). On the first page the token is
  `undefined`, so lines 106-107 log "Import Complete" and the import stops
  after posting only the users before that user. When that user is the
  first on the page, no one is imported
  (`Scenarios.MissingEmailOnFirstPageCompletes`).
- **Data-centre code.** Line 131 takes the second `-`-separated segment of
  the key, so anything after a second hyphen is dropped
  (`MailChimp.DataCentreStopsAtSecondHyphen`). A key with no hyphen yields
  `undefined`, and the URL at line 139 prints it as the host label
  `undefined`.
- **Failed first fetch.** When the first `listUsers` call is rejected,
  line 101 sets the next token to the current one, which is `undefined`.
  Lines 106-107 then log "Import Complete", so nothing is retried
  (`Scenarios.FailedFirstFetchCompletes`).
- **Failure reason.** The `&&` chain at line 80 uses the provider's title
  only when it is truthy. An empty title falls back to the stringified
  error (`MailChimp.FailureReason`).

## Model

| member | source | states |
|---|---|---|
| `Js.Split` | index.js:131 | `split` on one character: at least one part, no part contains the separator, joining the parts gives back the string, and there is exactly one part iff the separator does not occur |
| `Js.SplitJoin` | index.js:131 | splitting the join of separator-free parts gives back exactly those parts |
| `Js.SplitAtFirstSeparator` | index.js:131 | a string cut at its first separator splits into its first segment followed by the split of the rest |
| `Js.LooselyDefined` | index.js:28-30 | no contract of its own: `undefined` and `null` fail the loose `!= undefined` test and every string passes; `Config.Construct` states what the constructor does with it |
| `Js.Clamp` | index.js:45 | an index is kept when it lies in `[0, len]`; a negative one becomes 0 and one past the end becomes `len` |
| `Js.Substring` | index.js:45 | the result is never longer than the string; in-range indices `start <= end` give exactly `s[start..end]`, and a negative end with an in-range start gives the prefix up to `start` (the `substring(0, -1)` case of a pool id without `_`) |
| `Js.SubstringSymmetric` | index.js:45 | swapping the two indices of `substring` gives the same result |
| `Js.IndexOf` | index.js:45 | `indexOf` is -1 iff the character is absent; otherwise it is the position of its first occurrence |
| `Js.IndexOfAfterPrefix` | index.js:45 | a character absent from a prefix and starting the suffix is found at the prefix's length |
| `MailChimp.IndexOfAny` | index.js:139 | the first position of any of a set of characters is -1 iff none occurs, otherwise it is the first position holding one of them (where a URL parser ends the host) |
| `MailChimp.IndexOfAnyAfterPrefix` | index.js:139 | when a prefix holds none of the characters and the suffix starts with one, that first position is the prefix's length |
| `Config.Region` | index.js:45 | the region holds no underscore and is a prefix of the pool id; it stops right at the first underscore, and it is empty when the pool id has none |
| `Config.RegionOfPoolId` | index.js:45 | a pool id `<region>_<rest>` yields exactly `<region>` |
| `Config.Construct` | index.js:25-45 | an importer is built iff all three arguments are loosely unequal to `undefined`; otherwise the error is the message of the first failing argument in the order pool id, key, list; the importer keeps the arguments and the region of the pool id |
| `MailChimp.DataCentre` | index.js:131 | the data-centre code is `undefined` iff the key has no hyphen, and it never contains a hyphen |
| `MailChimp.DataCentreOfKey` | index.js:131 | a key `<secret>-<dc>` yields `<dc>` |
| `MailChimp.DataCentreStopsAtSecondHyphen` | index.js:131 | only the second segment is taken: `<secret>-<dc>-<rest>` yields `<dc>` |
| `MailChimp.HostLabel` | index.js:139 | no contract of its own: an `undefined` data-centre code prints as `undefined`, any other as itself; `MailChimp.MembersUrlRoute` states the host it yields |
| `MailChimp.MembersUrl` | index.js:139 | no contract of its own: the template literal of the members URL; `MailChimp.MembersUrlRoute` states the host and path it reads back as |
| `MailChimp.ParseHttpsUrlOf` | index.js:139 | an `https://` URL whose host holds no `/`, `?`, `#`, `\`, `@` or `:` and whose path starts with `/` reads back as that host and that path |
| `MailChimp.PlainHostSuffix` | index.js:139 | appending `.api.mailchimp.com` to a host label that holds none of those characters keeps the host free of them |
| `MailChimp.MembersUrlRoute` | index.js:139 | when the host label holds none of those characters, the members URL reads back as host `<dc>.api.mailchimp.com` and path `/3.0/lists/<listId>/members` |
| `MailChimp.SubscribeRequest` | index.js:128-146 | the posted body carries the user's email with status "subscribed", the password is the API key, and the URL is the members URL of the key's data centre |
| `MailChimp.SubscribeRequestRoute` | index.js:128-146 | for a key `<secret>-<dc>` whose `<dc>` holds none of those characters, the request goes to `<dc>.api.mailchimp.com`, to the list's members, as user "anystring" with the key as password |
| `MailChimp.FailureReason` | index.js:79-85 | the reason is the provider's title when it is present and non-empty, and the stringified error in every other case |
| `Import.FirstNamed` | index.js:68 | the position of the first attribute with the given name, or -1 iff no attribute has that name |
| `Import.Named` | index.js:68 | the `filter` keeps only attributes with the given name; it is empty iff none has that name, and otherwise its head is the first such attribute |
| `Import.EmailOf` | index.js:68 | no contract of its own: the `Value` of the head of the filter, or none when the filter is empty (the TypeError case); `Import.EmailIsFilterHead` states it |
| `Import.EmailIsFilterHead` | index.js:68 | the email read from the head of the attribute filter is the first `email` attribute's value; the filter is empty exactly when the user has no `email` attribute |
| `Import.UserEntry` | index.js:71-85 | every user whose email is found gets one line naming that email; it is a success line iff the POST resolves, and on a rejection it is a failure line carrying `FailureReason` of the error |
| `Import.ProcessUsers` | index.js:67-86 | the loop logs, in page order, the outcome of posting each user's email; it stops at the first user without email, and it finishes exactly when it logged every user |
| `Import.EntriesCons` | index.js:67-86 | the first user's line followed by the rest of the page's lines are the lines of the whole page, index by index |
| `Import.FinishedIffAllHaveEmail` | index.js:67-86 | the loop finishes the page iff every user on it has an email |
| `Import.ProcessUsersUnique` | index.js:67-86 | a log of the page's users in order, ending at the first user without email or at the end of the page, is the one the loop produces |
| `Import.ProcessPage` | index.js:67-86 | the `for ... in` loop with its early exit computes the same lines and finished flag as `ProcessUsers` |
| `Import.Step` | index.js:50-111 | a page processed to the end moves to its token with the next request number, attempt 1 and a reset wait; anything else keeps token and request number, adds one attempt and one wait; the step completes iff the next token is `undefined`, and it logs "Import Complete" iff it completes, as its last line |
| `Import.Finish` | index.js:106-110 | the next arguments are passed on unchanged; the call completes iff the next token is `undefined`, and then the log gains exactly one last line, "Import Complete", and is otherwise unchanged |
| `Import.StepLogOnSuccess` | index.js:67-94 | after a page processed to the end, the log has one line per user in page order, plus "Import Complete" when the step completes |
| `Import.StepLogOnFetchFailure` | index.js:95-104 | a rejected fetch logs one failed-request line with the request number, the attempt number and the provider's code |
| `Import.StepLogOnMissingEmail` | index.js:61-104 | on a page with a user lacking email, the users before the first such user are logged, then one failed-request line without a code |
| `Import.StepKeepsValid` | index.js:50 | a step keeps request and attempt numbers at least 1 |
| `Import.LogsUsersConcat` | index.js:67-86 | the lines of one page followed by the lines of later pages log the users of both in order |
| `Session.Run` | index.js:106-110 | the import never makes more fetches than it is given; it makes every fetch unless it completes; completing needs a fetch and leaves no next token |
| `Session.ImportUsersAsWritten` | index.js:106-110 | as written, the chain makes at most one fetch; with no fetch outcome it makes none and does not complete; otherwise it makes one fetch, its log and completion are exactly those of that first step, and it has crashed iff that step did not complete |
| `Session.AsWrittenStopsAfterOnePage` | index.js:106-110 | when the first call continues, the code as written crashes after one fetch while the intended chain makes a second fetch |
| `Session.NoFetchAfterComplete` | index.js:106-107 | once the import completes, further fetch outcomes change nothing |
| `Session.RunUsesOnlyItsFetches` | index.js:106-110 | the run over the fetches it counts equals the run over the whole script |
| `Session.RequestNumberCountsPages` | index.js:91-102 | the request number grows by exactly the number of pages processed to the end |
| `Session.RunKeepsValid` | index.js:50-103 | request and attempt numbers stay at least 1 over a whole run |
| `Session.CompletionLogged` | index.js:106-107 | "Import Complete" appears in the log of a run iff the run completes |
| `Session.CompletionLoggedLast` | index.js:106-107 | a completed run's last line is "Import Complete"; with `Session.ListingLogLength` and `Session.ImportsWholeListing`, a complete listing logs it right after the last user's line |
| `Session.FailuresNeverAdvance` | index.js:95-110 | from a call with a token, failures never complete the import; they keep token and request number and add one attempt and one wait each |
| `Session.FailedFetchesLog` | index.js:95-103 | from a call with a token, a run of rejected fetches logs one line per fetch, with the same request number, attempt numbers counting up and each fetch's code |
| `Session.ListingTail` | index.js:106-110 | a complete listing without its first page is still a complete listing |
| `Session.LastPage` | index.js:67-107 | the last page of a listing logs its users and "Import Complete", and completes after one fetch |
| `Session.PageThenRest` | index.js:67-110 | a page with a token logs one line per user, and the import continues with the token, the next request number and attempt 1 |
| `Session.ImportsWholeListing` | index.js:50-111 | a complete listing completes after exactly one fetch per page, with the request number grown by the page count and the attempt number back at 1 |
| `Session.ListingLogLength` | index.js:67-107 | the log of a complete listing has exactly one line per user of every page plus one more line |
| `Session.ListingLogsEveryUser` | index.js:50-111 | the log of a complete listing holds, in order, one line per user of every page, each the outcome of posting that user's email |
| `Scenarios.RejectedUserLogged` | index.js:79-81 | for any importer, a contact rejected with title "Invalid Resource" is logged with that title |
| `Scenarios.MixedPageLogged` | index.js:67-86 | for any importer, a page with an accepted and a rejected user logs a success and the title, in order |
| `Scenarios.MixedPage` | index.js:50-111 | that page, as the first call, continues to token "T1" with request 2 and attempt 1 |
| `Scenarios.RetryThenComplete` | index.js:95-107 | two throttled fetches are logged as attempts 1 and 2 of request 2, and an empty last page then completes the import |
| `Scenarios.FailedFirstFetchCompletes` | index.js:95-107 | a failed first fetch logs the failure and then "Import Complete", after one fetch |
| `Scenarios.MissingEmailOnFirstPageCompletes` | index.js:61-107 | on the first page, a first user without email logs a failed request 1, attempt 1 with no code and then "Import Complete"; the import completes with no user imported |
| `Scenarios.SampleKeyDataCentre` | index.js:131 | the key `abcd-us6` has data-centre code `us6` |
| `Scenarios.SampleKeyRoute` | index.js:128-146 | the key `abcd-us6` routes every contact to `us6.api.mailchimp.com`, to the members of the list |
| `Scenarios.SamplePoolRegion` | index.js:25-47 | the pool id `us-east-1_abc` builds an importer for region `us-east-1` |

## Left out

- The AWS `listUsers` call is not modelled. Its settled result, a page or a rejection with a `code`, is an input (`FetchOutcome`). Credentials, pagination limits and the SDK client are not modelled.
- The HTTP transport (`axios.post`) is the oracle `post`. The same request always gets the same answer. So answers that change between retries of a page are not modelled. Neither is a destination that answers a repeated email differently, whether it repeats on one page or on a later page.
- `timer.js` is not part of this model. Its reset, wait and increase are modelled only as a wait-level counter, without durations or real waiting.
- The terminal colours and the spacing of printed lines are left out. Each line is a `LogEntry` value.
- The command-line entry point is left out: `meow` help text, `cli.showHelp` and the argument checks after line 152. The module-level call at line 167, as written, is `Session.ImportUsersAsWritten` from `Import.Initial`. `Session.ImportAll` is the intended chain from that call; it has no contract of its own.
- Promises and `bluebird` are left out. Each call is modelled after its fetch has settled, and the crash at line 109 is a `crashed` flag, not a rejected promise.
- `e.toLocaleString()` is the error's `text` field, not derived from its parts.
- `MailChimp.ParseHttpsUrl` reads only the host, up to the first `/`, `?`, `#` or `\`, and the rest of the URL as one piece. It does not split off user info, port, query or fragment. So the route lemmas require a data-centre code without `@` and `:`. Their "path" is everything after the host. Host validation and normalisation are not modelled either: a host with a space, `%`, `<`, `>`, `[`, `]`, `^` or `|` is invalid, tab and newline are stripped, and upper case is lowered. So the route lemmas describe where the request goes only for a data-centre code that is already a valid lower-case host label.
- `Session.Run` runs over a finite script of fetch outcomes. A session that never completes shows up as a run that uses up its script without completing.

## Findings

| source | as written | input that shows it | evidently intended | confidence | as-written member | corrected member |
|---|---|---|---|---|---|---|
| index.js:109 | after a call that does not complete, the code calls `this.getUsers(nextToken, nextRequestNumber, nextAttemptNumber)`; the prototype defines no `getUsers`, so the call throws a TypeError and no second page is ever fetched | a first page with users and a `PaginationToken` of "T1" | call `importUsers` again with the next token, request number and attempt number, until "Import Complete" | high; not executed | `Session.AsWrittenStopsAfterOnePage` | `Session.ImportsWholeListing` |
