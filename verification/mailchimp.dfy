/**
 The destination side (`addContactMailChimp` and the failure handler around
 it): the data-centre code taken from the API key, the members URL and how
 an https URL parser reads its host back, the request body and credentials,
 and the reason logged for a rejected contact.
 The HTTP round trip itself is an oracle of type `Request -> SyncResult`.
 */
module MailChimp {
  import opened Js

  const Username := "anystring"
  const Subscribed := "subscribed"
  const HostSuffix := ".api.mailchimp.com"

  /** The JSON body `{email_address, status}`. */
  datatype Contact = Contact(emailAddress: string, status: string)

  /** One `axios.post`: URL, JSON body, and basic-auth user name and password. */
  datatype Request = Request(url: string, body: Contact, username: string, password: string)

  /** The parts of an axios error the failure handler looks at: `e.response`,
      `e.response.data`, `e.response.data.title`, and `e.toLocaleString()`. */
  datatype ErrorData = ErrorData(title: Option<string>)
  datatype ErrorResponse = ErrorResponse(data: Option<ErrorData>)
  datatype SyncError = SyncError(response: Option<ErrorResponse>, text: string)

  /** What one POST does: resolves, or rejects with an error. */
  datatype SyncResult = Created | Rejected(error: SyncError)

  /** `apiKey.split("-")[1]`: the second `-`-separated segment, `undefined`
      when the key has no `-`. */
  function DataCentre(apiKey: string): (dc: Option<string>)
    ensures dc.None? <==> '-' !in apiKey
    ensures dc.Some? ==> '-' !in dc.value
  {
    var parts := Split(apiKey, '-');
    if |parts| > 1 then Some(parts[1]) else None
  }

  /** A key `<secret>-<dc>` yields `<dc>`. */
  lemma DataCentreOfKey(secret: string, dc: string)
    requires '-' !in secret && '-' !in dc
    ensures DataCentre(secret + "-" + dc) == Some(dc)
  {
    SplitAtFirstSeparator(secret, dc, '-');
    SplitWithoutSeparator(dc, '-');
  }

  /** Only the second segment is used: whatever follows a second `-` is
      dropped from the data-centre code. */
  lemma DataCentreStopsAtSecondHyphen(secret: string, dc: string, rest: string)
    requires '-' !in secret && '-' !in dc
    ensures DataCentre(secret + "-" + dc + "-" + rest) == Some(dc)
  {
    assert secret + "-" + dc + "-" + rest == secret + ['-'] + (dc + ['-'] + rest);
    SplitAtFirstSeparator(secret, dc + ['-'] + rest, '-');
    SplitAtFirstSeparator(dc, rest, '-');
  }

  /** A template-literal interpolation of the code: `undefined` prints as
      the text "undefined". */
  function HostLabel(dc: Option<string>): string
  {
    match dc
    case Some(d) => d
    case None => "undefined"
  }

  /** `https://${dc}.api.mailchimp.com/3.0/lists/${listId}/members` */
  function MembersUrl(dc: Option<string>, listId: string): string
  {
    "https://" + HostLabel(dc) + HostSuffix + "/3.0/lists/" + listId + "/members"
  }

  /** The first position in `s` of any character of `cs`, or -1. */
  function IndexOfAny(s: string, cs: set<char>): (i: int)
    ensures -1 <= i < |s|
    ensures i == -1 <==> forall k :: 0 <= k < |s| ==> s[k] !in cs
    ensures 0 <= i ==> s[i] in cs && forall k :: 0 <= k < i ==> s[k] !in cs
    decreases |s|
  {
    if |s| == 0 then -1
    else if s[0] in cs then 0
    else
      var j := IndexOfAny(s[1..], cs);
      if j == -1 then -1 else j + 1
  }

  /** The first character of `cs` in `a + b` is just after `a` when `a` has
      none and `b` starts with one. */
  lemma IndexOfAnyAfterPrefix(a: string, b: string, cs: set<char>)
    requires forall k :: 0 <= k < |a| ==> a[k] !in cs
    requires |b| > 0 && b[0] in cs
    ensures IndexOfAny(a + b, cs) == |a|
  {
    var s := a + b;
    assert s[|a|] == b[0];
    assert forall k :: 0 <= k < |a| ==> s[k] == a[k];
  }

  /** The characters that end the host of a special URL such as `https:`:
      the path, query and fragment delimiters and the backslash, which the
      WHATWG URL parser treats like `/`. */
  const HostDelimiters: set<char> := {'/', '?', '#', '\\'}

  /** A host label the URL parser takes as it stands: none of the host
      delimiters, and neither `@` (which would split off user info) nor `:`
      (which would split off a port). */
  predicate PlainHost(h: string)
  {
    forall k :: 0 <= k < |h| ==> h[k] !in HostDelimiters && h[k] != '@' && h[k] != ':'
  }

  /** An HTTPS URL split into its host and everything after it (path, query
      and fragment). */
  datatype Url = Url(host: string, path: string)

  /** Reads an `https://` URL back into its host, which runs up to the first
      host delimiter, and the rest. */
  function ParseHttpsUrl(url: string): Option<Url>
  {
    if |url| >= 8 && url[..8] == "https://" then
      var rest := url[8..];
      var i := IndexOfAny(rest, HostDelimiters);
      if i < 0 then Some(Url(rest, "")) else Some(Url(rest[..i], rest[i..]))
    else None
  }

  /** An `https://` URL whose host is plain and whose path starts with `/`
      reads back as that host and that path. */
  lemma ParseHttpsUrlOf(host: string, path: string)
    requires PlainHost(host) && |path| >= 1 && path[0] == '/'
    ensures ParseHttpsUrl("https://" + (host + path)) == Some(Url(host, path))
  {
    var url := "https://" + (host + path);
    assert url[..8] == "https://";
    assert url[8..] == host + path;
    IndexOfAnyAfterPrefix(host, path, HostDelimiters);
    assert (host + path)[..|host|] == host;
    assert (host + path)[|host|..] == path;
  }

  /** The fixed part of the host is plain. */
  lemma PlainHostSuffix(hostLabel: string)
    requires PlainHost(hostLabel)
    ensures PlainHost(hostLabel + HostSuffix)
  {
    var h := hostLabel + HostSuffix;
    forall k | 0 <= k < |h|
      ensures h[k] !in HostDelimiters && h[k] != '@' && h[k] != ':'
    {
      if k >= |hostLabel| {
        assert h[k] == HostSuffix[k - |hostLabel|];
      }
    }
  }

  /** The members URL routes to the data centre's host and to the list's
      members collection. */
  lemma MembersUrlRoute(dc: Option<string>, listId: string)
    requires PlainHost(HostLabel(dc))
    ensures ParseHttpsUrl(MembersUrl(dc, listId))
            == Some(Url(HostLabel(dc) + HostSuffix, "/3.0/lists/" + listId + "/members"))
  {
    var host := HostLabel(dc) + HostSuffix;
    var path := "/3.0/lists/" + listId + "/members";
    assert MembersUrl(dc, listId) == "https://" + (host + path);
    PlainHostSuffix(HostLabel(dc));
    ParseHttpsUrlOf(host, path);
  }

  /** `addContactMailChimp(apiKey, listId, {email})` as the request it posts:
      the contact is always subscribed and authenticates with the key. */
  function SubscribeRequest(apiKey: string, listId: string, email: string): (req: Request)
    ensures req.body.emailAddress == email && req.body.status == "subscribed"
    ensures req.password == apiKey
    ensures req.url == MembersUrl(DataCentre(apiKey), listId)
  {
    Request(MembersUrl(DataCentre(apiKey), listId), Contact(email, Subscribed), Username, apiKey)
  }

  /** A key `<secret>-<dc>` sends the request to `<dc>.api.mailchimp.com`,
      to the members of the given list, with body
      `{email_address: email, status: "subscribed"}`. */
  lemma SubscribeRequestRoute(secret: string, dc: string, listId: string, email: string)
    requires '-' !in secret && '-' !in dc && PlainHost(dc)
    ensures var req := SubscribeRequest(secret + "-" + dc, listId, email);
            && ParseHttpsUrl(req.url) == Some(Url(dc + HostSuffix, "/3.0/lists/" + listId + "/members"))
            && req.body == Contact(email, "subscribed")
            && req.username == "anystring"
            && req.password == secret + "-" + dc
  {
    DataCentreOfKey(secret, dc);
    MembersUrlRoute(Some(dc), listId);
  }

  /** `e.response.data.title` when the three are all present (absent
      otherwise). */
  function ProviderTitle(e: SyncError): Option<string>
  {
    if e.response.Some? && e.response.value.data.Some? then e.response.value.data.value.title else None
  }

  /** The reason logged for a rejected contact: the provider's title when the
      `&&` chain at the failure handler is truthy (present and non-empty),
      otherwise the stringified error. */
  function FailureReason(e: SyncError): (reason: string)
    ensures ProviderTitle(e).Some? && ProviderTitle(e).value != "" ==> reason == ProviderTitle(e).value
    ensures ProviderTitle(e).None? || ProviderTitle(e).value == "" ==> reason == e.text
  {
    match e.response
    case Some(ErrorResponse(Some(ErrorData(Some(title))))) =>
      if title != "" then title else e.text
    case _ => e.text
  }
}
