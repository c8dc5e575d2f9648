/**
  The connect router (routes/connect/router.py): the module-level dict
  `user_credentials` that the OAuth callback fills, every mailbox read checks
  and revoke empties, and the loop that turns Gmail message metadata into
  summaries.

  The provider is outside the model: the authorization-code exchange is a
  function from the code to its outcome, and the Gmail `messages().list` and
  `messages().get` calls are functions of the rebuilt credentials.
 */
module Connect {
  import opened Wrappers

  /** The user id the callback stores under, and the endpoints' default. */
  const DefaultUserId := "user_123"

  const AuthorizedMessage := "Authorization successful! You can now read emails."
  const AuthorizationFailedPrefix := "Authorization failed: "
  const NotAuthorizedDetail := "User not authorized. Please visit /gmail/authorize first."
  const ContentNotAuthorizedDetail := "User not authorized"
  const FetchEmailsPrefix := "Error fetching emails: "
  const FetchEmailPrefix := "Error fetching email: "
  const RevokedMessage := "Access revoked successfully"
  const UserNotFoundDetail := "User not found"

  /** An `HTTPException`. */
  datatype HttpError = HttpError(status: int, detail: string)

  /** The provider's credentials object (`flow.credentials`, or one built with `Credentials(...)`). */
  datatype Credentials = Credentials(
    token: string,
    refreshToken: Option<string>,
    tokenUri: string,
    clientId: string,
    clientSecret: string,
    scopes: Option<seq<string>>,
    idToken: Option<string>,
    expiry: Option<int>)

  /** The dict stored in `user_credentials`: exactly six fields. */
  datatype CredRecord = CredRecord(
    token: string,
    refreshToken: Option<string>,
    tokenUri: string,
    clientId: string,
    clientSecret: string,
    scopes: Option<seq<string>>)

  /** The outcome of `flow.fetch_token(code=code)`: a raised error or the credentials. */
  datatype Exchange = ExchangeFailed(reason: string) | Exchanged(credentials: Credentials)

  /** `Credentials(token=..., ..., scopes=...)` built from a stored record. */
  function Rebuild(rec: CredRecord): (c: Credentials)
    ensures c.idToken.None? && c.expiry.None?
  {
    Credentials(rec.token, rec.refreshToken, rec.tokenUri, rec.clientId, rec.clientSecret, rec.scopes, None, None)
  }

  /**
    The record the callback stores: the six fields copied from the exchanged
    credentials, so that the credentials rebuilt from it differ from the
    exchanged ones only in what the record does not keep.
   */
  function RecordOf(c: Credentials): (rec: CredRecord)
    ensures Rebuild(rec) == c.(idToken := None, expiry := None)
  {
    CredRecord(c.token, c.refreshToken, c.tokenUri, c.clientId, c.clientSecret, c.scopes)
  }

  lemma RecordRebuildRoundTrip(rec: CredRecord)
    ensures RecordOf(Rebuild(rec)) == rec
  {
  }

  /** A `{name, value}` entry of `msg['payload']['headers']`. */
  datatype Header = Header(name: string, value: string)

  /** The metadata `messages().get(format='metadata')` returns for one message. */
  datatype Metadata = Metadata(id: string, snippet: string, headers: seq<Header>)

  /** One entry of `emails`: `id` and `snippet` always, the three headers when present. */
  datatype Summary = Summary(
    id: string,
    snippet: string,
    from: Option<string>,
    subject: Option<string>,
    date: Option<string>)

  /** The body of a successful `get_emails` response. */
  datatype EmailsReply =
    | NoEmails                                  // {"emails": [], "message": "No emails found"}
    | Emails(total: nat, emails: seq<Summary>)  // {"total": len(emails), "emails": emails}

  /** What `messages().get(format='full')` returns. */
  datatype FullMessage = FullMessage(
    id: string,
    threadId: string,
    snippet: string,
    payload: string,
    labelIds: seq<string>)

  /** The body of a successful `get_email_content` response. */
  datatype EmailContent = EmailContent(id: string, threadId: string, snippet: string, payload: string)

  datatype CallbackReply = CallbackReply(message: string, userId: string)

  /** The value of the last header called exactly `name`, if any. */
  function LastValue(headers: seq<Header>, name: string): Option<string> {
    if headers == [] then None
    else if headers[|headers| - 1].name == name then Some(headers[|headers| - 1].value)
    else LastValue(headers[..|headers| - 1], name)
  }

  /** The summary the header loop builds for one message. */
  function SummaryOf(msg: Metadata): Summary {
    Summary(msg.id, msg.snippet,
      LastValue(msg.headers, "From"), LastValue(msg.headers, "Subject"), LastValue(msg.headers, "Date"))
  }

  /** No header called `name` means no value; a header called `name` means some value. */
  lemma {:induction false} LastValueAbsent(headers: seq<Header>, name: string)
    ensures LastValue(headers, name).None? <==> forall i :: 0 <= i < |headers| ==> headers[i].name != name
  {
    if headers != [] {
      var init := headers[..|headers| - 1];
      LastValueAbsent(init, name);
      if headers[|headers| - 1].name != name {
        forall i | 0 <= i < |init| ensures init[i] == headers[i] { }
      }
    }
  }

  /** The value kept is that of the last header called `name`. */
  lemma {:induction false} LastValueIsLast(headers: seq<Header>, name: string, i: nat)
    requires i < |headers| && headers[i].name == name
    requires forall j :: i < j < |headers| ==> headers[j].name != name
    ensures LastValue(headers, name) == Some(headers[i].value)
  {
    if i < |headers| - 1 {
      var init := headers[..|headers| - 1];
      assert init[i] == headers[i];
      LastValueIsLast(init, name, i);
    }
  }

  /** A header whose name is none of `From`, `Subject`, `Date` leaves the summary as it was. */
  lemma SummaryIgnoresOtherHeaders(msg: Metadata, k: nat, h: Header)
    requires k <= |msg.headers|
    requires h.name != "From" && h.name != "Subject" && h.name != "Date"
    ensures SummaryOf(msg.(headers := msg.headers[..k] + [h] + msg.headers[k..])) == SummaryOf(msg)
  {
    var hs := msg.headers;
    var hs' := hs[..k] + [h] + hs[k..];
    LastValueSkips(hs[..k], h, hs[k..], "From");
    LastValueSkips(hs[..k], h, hs[k..], "Subject");
    LastValueSkips(hs[..k], h, hs[k..], "Date");
    assert hs[..k] + hs[k..] == hs;
  }

  lemma {:induction false} LastValueSkips(a: seq<Header>, h: Header, b: seq<Header>, name: string)
    requires h.name != name
    ensures LastValue(a + [h] + b, name) == LastValue(a + b, name)
    decreases |b|
  {
    if b == [] {
      assert a + [h] + b == a + [h];
      assert (a + [h])[..|a|] == a;
      assert a + b == a;
    } else {
      var s := a + [h] + b;
      var t := a + b;
      assert s[|s| - 1] == b[|b| - 1] && t[|t| - 1] == b[|b| - 1];
      assert s[..|s| - 1] == a + [h] + b[..|b| - 1];
      assert t[..|t| - 1] == a + b[..|b| - 1];
      LastValueSkips(a, h, b[..|b| - 1], name);
    }
  }

  /**
    The header loop of `get_emails`: start from `id` and `snippet` and, header
    by header, record the value of a `From`, `Subject` or `Date` header,
    overwriting any earlier one.
   */
  method Summarize(msg: Metadata) returns (s: Summary)
    ensures s == SummaryOf(msg)
  {
    s := Summary(msg.id, msg.snippet, None, None, None);
    var i := 0;
    while i < |msg.headers|
      invariant 0 <= i <= |msg.headers|
      invariant s.id == msg.id && s.snippet == msg.snippet
      invariant s.from == LastValue(msg.headers[..i], "From")
      invariant s.subject == LastValue(msg.headers[..i], "Subject")
      invariant s.date == LastValue(msg.headers[..i], "Date")
    {
      var header := msg.headers[i];
      if header.name == "From" {
        s := s.(from := Some(header.value));
      } else if header.name == "Subject" {
        s := s.(subject := Some(header.value));
      } else if header.name == "Date" {
        s := s.(date := Some(header.value));
      }
      assert msg.headers[..i + 1][..i] == msg.headers[..i];
      i := i + 1;
    }
    assert msg.headers[..i] == msg.headers;
  }

  /**
    Fetching the metadata of each listed message in turn: the first failed
    fetch is the outcome, otherwise one summary per message, in list order.
   */
  function FetchSummaries(creds: Credentials, ids: seq<string>, get: (Credentials, string) -> Result<Metadata, string>)
    : (r: Result<seq<Summary>, string>)
    ensures r.Success? <==> forall k :: 0 <= k < |ids| ==> get(creds, ids[k]).Success?
    ensures r.Success? ==> |r.value| == |ids|
    ensures r.Success? ==> forall k :: 0 <= k < |ids| ==> r.value[k] == SummaryOf(get(creds, ids[k]).value)
    ensures r.Failure? ==>
      exists k :: 0 <= k < |ids| && get(creds, ids[k]) == Failure(r.error) &&
        forall j :: 0 <= j < k ==> get(creds, ids[j]).Success?
  {
    if ids == [] then Success([])
    else
      match get(creds, ids[0])
      case Failure(e) => Failure(e)
      case Success(msg) =>
        match FetchSummaries(creds, ids[1..], get)
        case Failure(e) =>
          ghost var k :| 0 <= k < |ids[1..]| && get(creds, ids[1..][k]) == Failure(e) &&
            forall j :: 0 <= j < k ==> get(creds, ids[1..][j]).Success?;
          assert get(creds, ids[k + 1]) == Failure(e);
          Failure(e)
        case Success(rest) => Success([SummaryOf(msg)] + rest)
  }

  /**
    What `get_emails` answers for an authorized user: a failed listing or
    fetch is a 500 error, no listed message is the "No emails found" reply,
    and otherwise one summary per listed message with `total` their count.
   */
  function EmailsReplyFor(
    creds: Credentials, maxResults: int,
    list: (Credentials, int) -> Result<Option<seq<string>>, string>,
    get: (Credentials, string) -> Result<Metadata, string>)
    : (r: Result<EmailsReply, HttpError>)
    ensures list(creds, maxResults).Failure? ==>
      r == Failure(HttpError(500, FetchEmailsPrefix + list(creds, maxResults).error))
    ensures r == Success(NoEmails) <==>
      list(creds, maxResults).Success? && list(creds, maxResults).value.GetOr([]) == []
    ensures r.Success? && r.value.Emails? ==>
      var ids := list(creds, maxResults).value.value;
      && r.value.total == |r.value.emails| == |ids| > 0
      && forall k :: 0 <= k < |ids| ==>
           get(creds, ids[k]).Success? && r.value.emails[k] == SummaryOf(get(creds, ids[k]).value)
    ensures list(creds, maxResults).Success? && list(creds, maxResults).value.GetOr([]) != [] ==>
      var ids := list(creds, maxResults).value.value;
      && (r.Success? <==> forall k :: 0 <= k < |ids| ==> get(creds, ids[k]).Success?)
      && (r.Success? ==> r.value.Emails?)
      && (r.Failure? ==>
            (exists k :: 0 <= k < |ids| && get(creds, ids[k]).Failure? &&
               r.error == HttpError(500, FetchEmailsPrefix + get(creds, ids[k]).error) &&
               forall j :: 0 <= j < k ==> get(creds, ids[j]).Success?))
    ensures r.Failure? ==> r.error.status == 500
  {
    match list(creds, maxResults)
    case Failure(e) => Failure(HttpError(500, FetchEmailsPrefix + e))
    case Success(listed) =>
      if listed.None? || listed.value == [] then Success(NoEmails)
      else
        match FetchSummaries(creds, listed.value, get)
        case Failure(e) => Failure(HttpError(500, FetchEmailsPrefix + e))
        case Success(emails) => Success(Emails(|emails|, emails))
  }

  /**
    What `get_email_content` answers for an authorized user: the four fields
    of the fetched message, or a 500 error when the fetch fails.
   */
  function EmailContentFor(
    creds: Credentials, messageId: string,
    getFull: (Credentials, string) -> Result<FullMessage, string>)
    : (r: Result<EmailContent, HttpError>)
    ensures getFull(creds, messageId).Failure? ==>
      r == Failure(HttpError(500, FetchEmailPrefix + getFull(creds, messageId).error))
    ensures getFull(creds, messageId).Success? ==>
      var m := getFull(creds, messageId).value;
      r.Success? && r.value.id == m.id && r.value.threadId == m.threadId &&
      r.value.snippet == m.snippet && r.value.payload == m.payload
  {
    match getFull(creds, messageId)
    case Failure(e) => Failure(HttpError(500, FetchEmailPrefix + e))
    case Success(m) => Success(EmailContent(m.id, m.threadId, m.snippet, m.payload))
  }

  /** The router's module state: the in-memory credential registry. */
  class ConnectRouter {
    /** `user_credentials`: user id to stored record. */
    var userCredentials: map<string, CredRecord>

    /** `user_credentials = {}` at import time. */
    constructor()
      ensures userCredentials == map[]
    {
      userCredentials := map[];
    }

    /**
      `oauth_callback`: a successful exchange stores its record under
      `"user_123"`, replacing any earlier one and leaving every other user
      as it was; a failed exchange is a 400 error and stores nothing.
      `state` is accepted and not used.
     */
    method OAuthCallback(code: string, state: string, fetchToken: string -> Exchange)
      returns (r: Result<CallbackReply, HttpError>)
      modifies this
      ensures fetchToken(code).ExchangeFailed? ==>
        && r == Failure(HttpError(400, AuthorizationFailedPrefix + fetchToken(code).reason))
        && userCredentials == old(userCredentials)
      ensures fetchToken(code).Exchanged? ==>
        && r == Success(CallbackReply(AuthorizedMessage, DefaultUserId))
        && DefaultUserId in userCredentials
        && userCredentials[DefaultUserId] == RecordOf(fetchToken(code).credentials)
      ensures forall u :: u != DefaultUserId ==>
        (u in userCredentials <==> u in old(userCredentials)) &&
        (u in userCredentials ==> userCredentials[u] == old(userCredentials)[u])
    {
      match fetchToken(code)
      case ExchangeFailed(reason) =>
        r := Failure(HttpError(400, AuthorizationFailedPrefix + reason));
      case Exchanged(credentials) =>
        userCredentials := userCredentials[DefaultUserId := RecordOf(credentials)];
        r := Success(CallbackReply(AuthorizedMessage, DefaultUserId));
    }

    /**
      `get_emails`: 401 for a user with no record, whatever the provider
      would answer; otherwise the provider is asked with the credentials
      rebuilt from the record. The registry is only read.
     */
    method GetEmails(
      userId: string, maxResults: int,
      list: (Credentials, int) -> Result<Option<seq<string>>, string>,
      get: (Credentials, string) -> Result<Metadata, string>)
      returns (r: Result<EmailsReply, HttpError>)
      ensures userId !in userCredentials ==> r == Failure(HttpError(401, NotAuthorizedDetail))
      ensures userId in userCredentials ==>
        r == EmailsReplyFor(Rebuild(userCredentials[userId]), maxResults, list, get)
    {
      if userId !in userCredentials {
        return Failure(HttpError(401, NotAuthorizedDetail));
      }
      var creds := Rebuild(userCredentials[userId]);
      var listed := list(creds, maxResults);
      if listed.Failure? {
        return Failure(HttpError(500, FetchEmailsPrefix + listed.error));
      }
      if listed.value.None? || listed.value.value == [] {
        return Success(NoEmails);
      }
      var ids := listed.value.value;
      var emails: seq<Summary> := [];
      var i := 0;
      while i < |ids|
        invariant 0 <= i <= |ids| && |emails| == i
        invariant forall k :: 0 <= k < i ==>
          get(creds, ids[k]).Success? && emails[k] == SummaryOf(get(creds, ids[k]).value)
      {
        var msg := get(creds, ids[i]);
        if msg.Failure? {
          return Failure(HttpError(500, FetchEmailsPrefix + msg.error));
        }
        var summary := Summarize(msg.value);
        emails := emails + [summary];
        i := i + 1;
      }
      assert FetchSummaries(creds, ids, get).value == emails;
      return Success(Emails(|emails|, emails));
    }

    /** `get_email_content`: 401 for a user with no record; the registry is only read. */
    method GetEmailContent(
      messageId: string, userId: string,
      getFull: (Credentials, string) -> Result<FullMessage, string>)
      returns (r: Result<EmailContent, HttpError>)
      ensures userId !in userCredentials ==> r == Failure(HttpError(401, ContentNotAuthorizedDetail))
      ensures userId in userCredentials ==>
        r == EmailContentFor(Rebuild(userCredentials[userId]), messageId, getFull)
    {
      if userId !in userCredentials {
        return Failure(HttpError(401, ContentNotAuthorizedDetail));
      }
      return EmailContentFor(Rebuild(userCredentials[userId]), messageId, getFull);
    }

    /**
      `revoke_access`: removes exactly the given user's record when there is
      one; otherwise a 404 error and nothing changes.
     */
    method RevokeAccess(userId: string) returns (r: Result<string, HttpError>)
      modifies this
      ensures r.Success? <==> userId in old(userCredentials)
      ensures r.Success? ==> r.value == RevokedMessage
      ensures r.Failure? ==> r.error == HttpError(404, UserNotFoundDetail)
      ensures userCredentials == old(userCredentials) - {userId}
    {
      if userId in userCredentials {
        userCredentials := userCredentials - {userId};
        return Success(RevokedMessage);
      }
      return Failure(HttpError(404, UserNotFoundDetail));
    }
  }

  /**
    The registry's life cycle for the default user, from a fresh import:
    unauthorized, authorized by a successful callback (mail is then read with
    the exchanged tokens), revoked, unauthorized again, and a second revoke
    finds nothing.
   */
  method Lifecycle(
    code: string, state: string, fetchToken: string -> Exchange, maxResults: int,
    list: (Credentials, int) -> Result<Option<seq<string>>, string>,
    get: (Credentials, string) -> Result<Metadata, string>)
    returns (
      before: Result<EmailsReply, HttpError>, during: Result<EmailsReply, HttpError>,
      revoked: Result<string, HttpError>, after: Result<EmailsReply, HttpError>,
      again: Result<string, HttpError>)
    requires fetchToken(code).Exchanged?
    ensures before == Failure(HttpError(401, NotAuthorizedDetail))
    ensures during == EmailsReplyFor(
      fetchToken(code).credentials.(idToken := None, expiry := None), maxResults, list, get)
    ensures revoked == Success(RevokedMessage)
    ensures after == Failure(HttpError(401, NotAuthorizedDetail))
    ensures again == Failure(HttpError(404, UserNotFoundDetail))
  {
    var router := new ConnectRouter();
    before := router.GetEmails(DefaultUserId, maxResults, list, get);
    var _ := router.OAuthCallback(code, state, fetchToken);
    during := router.GetEmails(DefaultUserId, maxResults, list, get);
    revoked := router.RevokeAccess(DefaultUserId);
    after := router.GetEmails(DefaultUserId, maxResults, list, get);
    again := router.RevokeAccess(DefaultUserId);
  }
}
