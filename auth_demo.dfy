/**
 * The access-token lifecycle of the `AuthDemo` web component (auth-demo.js).
 *
 * The component holds four fields: `error`, `files`, `accessToken` and
 * `tokenExpiresAt`. The Google Identity Services SDK and `fetch` are outside
 * the model: what they deliver (a token response, an error object, an HTTP
 * status with a file list) and the wall-clock time arrive as parameters.
 *
 * Each event handler is given twice: as a pure function on a `State` value,
 * whose contract says how the event changes the state, and as a method of the
 * class `AuthDemo`, which assigns the fields in place and is proved to agree
 * with that function.
 */
module AuthDemo {

  datatype Option<T> = None | Some(value: T)

  /** The one scope both authorization variants ask for (auth-demo.js:90, request-authorization.js:2). */
  const DriveReadonlyScope := "https://www.googleapis.com/auth/drive.readonly"

  /** The file-listing endpoint and its fixed query parameters (auth-demo.js:126-130). */
  const FilesEndpoint := "https://www.googleapis.com/drive/v3/files"
  const OrderByModifiedDesc := "modifiedTime desc"
  const PageSizeTen := "10"

  /** The `type` an SDK error carries when the user closed the popup. */
  const PopupClosed := "popup_closed"

  /** The messages the component shows; note the full stop on the first one only. */
  const ScopeMissingMessage := "Authorization required."
  const PopupClosedMessage := "Authorization required"
  const UnexpectedErrorMessage := "An unexpected error occurred"
  const FetchFailedMessage := "Unable to fetch files"

  /** One entry of the `files` array of the Drive response. */
  datatype File = File(id: string, name: string)

  /**
   * What the SDK passes to `callback`. `accessToken` is `None` when the
   * response has no `access_token`; `scopeGranted` is the SDK's answer to
   * `hasGrantedAnyScope(response, scope)`.
   */
  datatype TokenResponse = TokenResponse(accessToken: Option<string>, expiresIn: int, scopeGranted: bool)

  /** What the SDK passes to `error_callback`; `kind` is the error's `type`. */
  datatype SdkError = SdkError(kind: string)

  /** The SDK's answer to one authorization request: one of the two callbacks, with its time. */
  datatype SdkReply =
    | CallbackWith(at: int, response: Option<TokenResponse>)
    | ErrorCallbackWith(err: SdkError)

  /** The HTTP answer to the file-list request; `files` is `None` when the body has no `files` field. */
  datatype HttpResponse = HttpResponse(status: int, files: Option<seq<File>>)

  /** The configuration handed to `initTokenClient`. */
  datatype TokenClientConfig = TokenClientConfig(clientId: Option<string>, scope: string)

  /** The GET request `_fetchFileList` issues. */
  datatype FileListRequest = FileListRequest(endpoint: string, orderBy: string, pageSize: string, authorization: string)

  /** How the promise of an authorization request ends: resolved, rejected, or never settled. */
  datatype AuthOutcome = Resolved(token: Option<string>) | Rejected(err: SdkError) | Unsettled

  /** The component's fields as one value; `None` stands for JavaScript's null (or undefined). */
  datatype State = State(error: Option<string>, files: Option<seq<File>>, accessToken: Option<string>, tokenExpiresAt: int)

  /** A new state together with how the pending authorization promise ends. */
  datatype Reaction = Reaction(state: State, outcome: AuthOutcome)

  /** How a `_fetchFiles` call ends. */
  datatype FetchResult = Completed | AuthRejected(err: SdkError) | AuthUnsettled

  /** Everything one `_fetchFiles` call does: new state, authorization asked for, request sent, result. */
  datatype Fetch = Fetch(state: State, authorization: Option<TokenClientConfig>, request: Option<FileListRequest>, result: FetchResult)

  /** The state the constructor sets up (auth-demo.js:31-37). */
  const Initial := State(None, Some([]), None, 0)

  /** JavaScript truthiness of a token: null, undefined and "" are falsy. */
  predicate Truthy(token: Option<string>) {
    token.Some? && token.value != ""
  }

  /** The guard of `_fetchFiles`: authorize when there is no token or it expired strictly before `now`. */
  predicate NeedsAuthorization(s: State, now: int) {
    !Truthy(s.accessToken) || s.tokenExpiresAt < now
  }

  /** Freshness read the other way round: a non-empty token whose expiry `now` has not passed. */
  predicate Usable(s: State, now: int) {
    match s.accessToken
    case None => false
    case Some(t) => |t| > 0 && now <= s.tokenExpiresAt
  }

  /** What the fields hold in every reachable state: never an empty token, and no expiry without a token. */
  predicate Consistent(s: State) {
    && s.accessToken != Some("")
    && (s.accessToken.None? ==> s.tokenExpiresAt == 0)
  }

  /** The success test of `callback`: a response, with a non-empty token, whose scope was granted. */
  predicate Accepted(response: Option<TokenResponse>) {
    response.Some? && Truthy(response.value.accessToken) && response.value.scopeGranted
  }

  /** `callback` of `_requestAuthorization` (auth-demo.js:95-109), run at time `now`. */
  function OnCallback(s: State, now: int, response: Option<TokenResponse>): (r: Reaction)
    ensures r.state.files == s.files
    ensures r.outcome.Resolved? <==> Accepted(response)
    ensures Accepted(response) ==>
      && r.state.error == None
      && r.state.accessToken == response.value.accessToken
      && r.state.tokenExpiresAt == now + response.value.expiresIn * 1000
      && r.outcome == Resolved(r.state.accessToken)
      && Truthy(r.outcome.token)
    ensures !Accepted(response) ==>
      && r.state.error == Some(ScopeMissingMessage)
      && r.state.accessToken == s.accessToken
      && r.state.tokenExpiresAt == s.tokenExpiresAt
      && r.outcome == Unsettled
  {
    if Accepted(response) then
      var granted := response.value;
      Reaction(State(None, s.files, granted.accessToken, now + granted.expiresIn * 1000), Resolved(granted.accessToken))
    else
      Reaction(s.(error := Some(ScopeMissingMessage)), Unsettled)
  }

  /** `error_callback` of `_requestAuthorization` (auth-demo.js:110-119). */
  function OnErrorCallback(s: State, err: SdkError): (r: Reaction)
    ensures r.outcome == Rejected(err)
    ensures r.state.accessToken == s.accessToken && r.state.tokenExpiresAt == s.tokenExpiresAt
    ensures r.state.files == s.files
    ensures err.kind == PopupClosed ==> r.state.error == Some(PopupClosedMessage)
    ensures err.kind != PopupClosed ==> r.state.error == Some(UnexpectedErrorMessage)
  {
    var message := if err.kind == PopupClosed then PopupClosedMessage else UnexpectedErrorMessage;
    Reaction(s.(error := Some(message)), Rejected(err))
  }

  /** Hands the SDK's reply to the callback it is meant for. */
  function Deliver(s: State, reply: SdkReply): (r: Reaction)
    ensures r.state.files == s.files
    ensures r.outcome.Resolved? <==> reply.CallbackWith? && Accepted(reply.response)
    ensures r.outcome.Rejected? <==> reply.ErrorCallbackWith?
    ensures r.outcome.Rejected? ==> r.outcome.err == reply.err
    ensures !r.outcome.Resolved? ==>
      r.state.accessToken == s.accessToken && r.state.tokenExpiresAt == s.tokenExpiresAt
    ensures reply.CallbackWith? ==> r == OnCallback(s, reply.at, reply.response)
    ensures reply.ErrorCallbackWith? ==> r == OnErrorCallback(s, reply.err)
  {
    match reply
    case CallbackWith(at, response) => OnCallback(s, at, response)
    case ErrorCallbackWith(err) => OnErrorCallback(s, err)
  }

  /** The `Authorization` header value for a token, as the template literal renders it. */
  function BearerOf(token: Option<string>): string {
    "Bearer " + match token
                case Some(t) => t
                case None => "null"
  }

  /** The request `_fetchFileList` sends while the component holds `token` (auth-demo.js:126-134). */
  function FileListRequestFor(token: Option<string>): (q: FileListRequest)
    ensures q.endpoint == FilesEndpoint
    ensures q.orderBy == OrderByModifiedDesc && q.pageSize == PageSizeTen
    ensures token.Some? ==> q.authorization == "Bearer " + token.value
  {
    FileListRequest(FilesEndpoint, OrderByModifiedDesc, PageSizeTen, BearerOf(token))
  }

  /** How `_fetchFileList` folds the response into the state (auth-demo.js:135-139). */
  function OnFileListResponse(s: State, http: HttpResponse): (r: State)
    ensures r.files == http.files
    ensures r.accessToken == s.accessToken && r.tokenExpiresAt == s.tokenExpiresAt
    ensures http.status >= 400 ==> r.error == Some(FetchFailedMessage)
    ensures http.status < 400 ==> r.error == s.error
  {
    var error := if http.status >= 400 then Some(FetchFailedMessage) else s.error;
    s.(error := error, files := http.files)
  }

  /**
   * One `_fetchFiles` call (auth-demo.js:73-78) started at time `now`: the
   * guard, then, when it fires, an authorization request answered by `reply`,
   * and, unless that request failed, the file-list request answered by `http`.
   */
  function FetchFlow(s: State, clientId: Option<string>, now: int, reply: SdkReply, http: HttpResponse): (f: Fetch)
    ensures f.authorization.Some? <==> NeedsAuthorization(s, now)
    ensures f.authorization.Some? ==> f.authorization.value == TokenClientConfig(clientId, DriveReadonlyScope)
    ensures f.request.Some? <==> f.result == Completed
    ensures f.request.Some? ==>
      && Truthy(f.state.accessToken)
      && f.request.value == FileListRequestFor(f.state.accessToken)
      && f.state.files == http.files
    ensures !NeedsAuthorization(s, now) ==> f.state == OnFileListResponse(s, http) && f.result == Completed
    ensures f.result.AuthRejected? ==> reply.ErrorCallbackWith? && f.result.err == reply.err
    ensures NeedsAuthorization(s, now) && reply.CallbackWith? && Accepted(reply.response) ==>
      && f.result == Completed
      && f.state == OnFileListResponse(OnCallback(s, reply.at, reply.response).state, http)
      && f.request == Some(FileListRequestFor(reply.response.value.accessToken))
    ensures NeedsAuthorization(s, now) && reply.ErrorCallbackWith? ==>
      f.result == AuthRejected(reply.err) && f.state == OnErrorCallback(s, reply.err).state
    ensures NeedsAuthorization(s, now) && reply.CallbackWith? && !Accepted(reply.response) ==>
      f.result == AuthUnsettled && f.state == OnCallback(s, reply.at, reply.response).state
    ensures f.result != Completed ==>
      && f.state.files == s.files
      && f.state.accessToken == s.accessToken
      && f.state.tokenExpiresAt == s.tokenExpiresAt
  {
    if !NeedsAuthorization(s, now) then
      Fetch(OnFileListResponse(s, http), None, Some(FileListRequestFor(s.accessToken)), Completed)
    else
      var config := TokenClientConfig(clientId, DriveReadonlyScope);
      var a := Deliver(s, reply);
      match a.outcome
      case Resolved(_) =>
        Fetch(OnFileListResponse(a.state, http), Some(config), Some(FileListRequestFor(a.state.accessToken)), Completed)
      case Rejected(err) => Fetch(a.state, Some(config), None, AuthRejected(err))
      case Unsettled => Fetch(a.state, Some(config), None, AuthUnsettled)
  }

  /** The freshly constructed component has to authorize on its first `_fetchFiles`, whatever the time. */
  lemma InitialNeedsAuthorization(now: int)
    ensures Consistent(Initial)
    ensures NeedsAuthorization(Initial, now)
    ensures Initial.error == None && Initial.files == Some([])
  {
  }

  /** The guard re-authorizes exactly when the held token is not usable at `now`. */
  lemma NeedsAuthorizationIffUnusable(s: State, now: int)
    ensures NeedsAuthorization(s, now) <==> !Usable(s, now)
  {
  }

  /**
   * A token accepted at time `at` with lifetime `expiresIn` seconds is reused
   * by every later guard up to and including `at + expiresIn * 1000`, and
   * replaced by a new authorization from the next millisecond on.
   */
  lemma AcceptedTokenLifetime(s: State, at: int, response: Option<TokenResponse>, now: int)
    requires Accepted(response)
    ensures var granted := OnCallback(s, at, response).state;
      NeedsAuthorization(granted, now) <==> now > at + response.value.expiresIn * 1000
  {
  }

  /** The strict `<` of the guard: a token whose expiry is exactly `now` is still used. */
  lemma ExpiryInstantStillUsable(s: State)
    requires Truthy(s.accessToken)
    ensures !NeedsAuthorization(s, s.tokenExpiresAt)
    ensures NeedsAuthorization(s, s.tokenExpiresAt + 1)
  {
  }

  /** Both SDK callbacks keep `Consistent`: the only token ever stored is a truthy one, stored with its expiry. */
  lemma DeliverPreservesConsistent(s: State, reply: SdkReply)
    requires Consistent(s)
    ensures Consistent(Deliver(s, reply).state)
  {
  }

  /** The file-list response keeps `Consistent`: it never touches the token fields. */
  lemma FileListResponsePreservesConsistent(s: State, http: HttpResponse)
    requires Consistent(s)
    ensures Consistent(OnFileListResponse(s, http))
  {
  }

  /** A whole `_fetchFiles` call keeps `Consistent`. */
  lemma FetchFlowPreservesConsistent(s: State, clientId: Option<string>, now: int, reply: SdkReply, http: HttpResponse)
    requires Consistent(s)
    ensures Consistent(FetchFlow(s, clientId, now, reply, http).state)
  {
    DeliverPreservesConsistent(s, reply);
    FileListResponsePreservesConsistent(s, http);
    FileListResponsePreservesConsistent(Deliver(s, reply).state, http);
  }

  /**
   * A token obtained at time 0 for 3600 seconds expires at 3600000; a call at
   * 1000000 reuses it without asking the SDK, and the reply is ignored.
   */
  lemma ScenarioTokenReused(reply: SdkReply, http: HttpResponse)
    ensures var granted := OnCallback(Initial, 0, Some(TokenResponse(Some("tok1"), 3600, true)));
      && granted.state.tokenExpiresAt == 3600000
      && granted.outcome == Resolved(Some("tok1"))
      && var f := FetchFlow(granted.state, None, 1000000, reply, http);
         && f.authorization == None
         && f.request == Some(FileListRequest(FilesEndpoint, OrderByModifiedDesc, PageSizeTen, "Bearer tok1"))
  {
    assert BearerOf(Some("tok1")) == "Bearer tok1";
  }

  /** A 403 answer sets the error message but keeps the token, and still takes the body's `files`. */
  lemma ScenarioForbiddenKeepsToken(s: State, files: Option<seq<File>>)
    ensures var r := OnFileListResponse(s, HttpResponse(403, files));
      && r.error == Some(FetchFailedMessage)
      && r.accessToken == s.accessToken && r.tokenExpiresAt == s.tokenExpiresAt
      && r.files == files
  {
  }

  /** The component itself: its four fields, assigned in place by the handlers. */
  class AuthDemo {
    var error: Option<string>
    var files: Option<seq<File>>
    var accessToken: Option<string>
    var tokenExpiresAt: int

    /** The fields as one value. */
    function Snapshot(): State
      reads this
    {
      State(error, files, accessToken, tokenExpiresAt)
    }

    constructor ()
      ensures Snapshot() == Initial
      ensures Consistent(Snapshot())
    {
      error := None;
      files := Some([]);
      accessToken := None;
      tokenExpiresAt := 0;
    }

    /** `callback`: stores an accepted token with its absolute expiry, or only sets the error. */
    method Callback(now: int, response: Option<TokenResponse>) returns (outcome: AuthOutcome)
      modifies this`error, this`accessToken, this`tokenExpiresAt
      ensures Snapshot() == OnCallback(old(Snapshot()), now, response).state
      ensures outcome == OnCallback(old(Snapshot()), now, response).outcome
    {
      if response.Some? && Truthy(response.value.accessToken) && response.value.scopeGranted {
        error := None;
        accessToken := response.value.accessToken;
        // the SDK reports a lifetime in seconds; the field keeps an absolute time
        tokenExpiresAt := now + response.value.expiresIn * 1000;
        outcome := Resolved(accessToken);
        return;
      }
      error := Some(ScopeMissingMessage);
      outcome := Unsettled;
    }

    /** `error_callback`: maps the error's type to a message and rejects; only `error` may change. */
    method ErrorCallback(err: SdkError) returns (outcome: AuthOutcome)
      modifies this`error
      ensures Snapshot() == OnErrorCallback(old(Snapshot()), err).state
      ensures outcome == Rejected(err)
    {
      if err.kind == PopupClosed {
        error := Some(PopupClosedMessage);
      } else {
        error := Some(UnexpectedErrorMessage);
      }
      outcome := Rejected(err);
    }

    /**
     * `_requestAuthorization`: configures the token client with the fixed
     * scope, and delivers the SDK's `reply` to the callback it names.
     */
    method RequestAuthorization(clientId: Option<string>, reply: SdkReply) returns (config: TokenClientConfig, outcome: AuthOutcome)
      modifies this`error, this`accessToken, this`tokenExpiresAt
      ensures config == TokenClientConfig(clientId, DriveReadonlyScope)
      ensures Snapshot() == Deliver(old(Snapshot()), reply).state
      ensures outcome == Deliver(old(Snapshot()), reply).outcome
    {
      config := TokenClientConfig(clientId, DriveReadonlyScope);
      match reply
      case CallbackWith(at, response) =>
        outcome := Callback(at, response);
      case ErrorCallbackWith(err) =>
        outcome := ErrorCallback(err);
    }

    /** `_fetchFileList`: sends the request with the current token, then folds `http` into the fields. */
    method FetchFileList(http: HttpResponse) returns (request: FileListRequest)
      modifies this`error, this`files
      ensures request == FileListRequestFor(old(accessToken))
      ensures Snapshot() == OnFileListResponse(old(Snapshot()), http)
    {
      request := FileListRequest(FilesEndpoint, OrderByModifiedDesc, PageSizeTen, BearerOf(accessToken));
      if http.status >= 400 {
        error := Some(FetchFailedMessage);
      }
      files := http.files;
    }

    /**
     * `_fetchFiles`: authorizes first when the guard fires, and reaches
     * `_fetchFileList` only when that authorization resolved.
     */
    method FetchFiles(clientId: Option<string>, now: int, reply: SdkReply, http: HttpResponse)
      returns (authorization: Option<TokenClientConfig>, request: Option<FileListRequest>, result: FetchResult)
      modifies this
      ensures var f := FetchFlow(old(Snapshot()), clientId, now, reply, http);
        Snapshot() == f.state && authorization == f.authorization && request == f.request && result == f.result
    {
      authorization := None;
      if !Truthy(accessToken) || tokenExpiresAt < now {
        var config, outcome := RequestAuthorization(clientId, reply);
        authorization := Some(config);
        match outcome
        case Rejected(err) =>
          request, result := None, AuthRejected(err);
          return;
        case Unsettled =>
          request, result := None, AuthUnsettled;
          return;
        case Resolved(_) =>
      }
      var sent := FetchFileList(http);
      request, result := Some(sent), Completed;
    }

    /** `_revoke`: hands the current token to the SDK's revoke call and changes no field. */
    method Revoke() returns (revoked: Option<string>)
      ensures revoked == accessToken
      ensures Snapshot() == old(Snapshot())
    {
      revoked := accessToken;
    }
  }
}
