/**
 * The older, unused `requestAuthorization` of request-authorization.js. Its
 * `callback` stores whatever token the SDK returns, with no check that the
 * token is non-empty or that the scope was granted; its `error_callback` only
 * rejects. Both act on the same two fields of an `AuthDemo.AuthDemo` object
 * that the current callback writes.
 */
module RequestAuthorization {
  import opened AuthDemo

  /**
   * `callback` of the older variant (request-authorization.js:7-11), run at
   * time `now`. A missing response makes `response.access_token` throw before
   * anything is assigned, so the state stays and the promise never settles.
   */
  function OnLegacyCallback(s: State, now: int, response: Option<TokenResponse>): (r: Reaction)
    ensures r.state.error == s.error && r.state.files == s.files
    ensures response.None? ==> r.state == s && r.outcome == Unsettled
    ensures response.Some? ==>
      && r.state.accessToken == response.value.accessToken
      && r.state.tokenExpiresAt == now + response.value.expiresIn * 1000
      && r.outcome == Resolved(r.state.accessToken)
  {
    match response
    case None => Reaction(s, Unsettled)
    case Some(granted) =>
      Reaction(s.(accessToken := granted.accessToken, tokenExpiresAt := now + granted.expiresIn * 1000),
               Resolved(granted.accessToken))
  }

  /** Hands the SDK's reply to the older variant's callbacks; `error_callback` only rejects. */
  function DeliverLegacy(s: State, reply: SdkReply): (r: Reaction)
    ensures r.state.error == s.error && r.state.files == s.files
    ensures reply.ErrorCallbackWith? ==> r.state == s && r.outcome == Rejected(reply.err)
    ensures reply.CallbackWith? ==> r == OnLegacyCallback(s, reply.at, reply.response)
  {
    match reply
    case CallbackWith(at, response) => OnLegacyCallback(s, at, response)
    case ErrorCallbackWith(err) => Reaction(s, Rejected(err))
  }

  /**
   * On a response the current callback accepts, both variants store the same
   * token and expiry and resolve alike; only the current one also clears `error`.
   */
  lemma AgreesOnAcceptedResponse(s: State, now: int, response: Option<TokenResponse>)
    requires Accepted(response)
    ensures var legacy := OnLegacyCallback(s, now, response);
      var current := OnCallback(s, now, response);
      && legacy.state == current.state.(error := s.error)
      && legacy.outcome == current.outcome
  {
  }

  /**
   * On a response the current callback refuses, the older one still stores
   * its token and resolves, while the current one keeps the old token.
   */
  lemma DivergesOnRefusedResponse(s: State, now: int, response: TokenResponse)
    requires !Accepted(Some(response))
    ensures OnLegacyCallback(s, now, Some(response)).state.accessToken == response.accessToken
    ensures OnLegacyCallback(s, now, Some(response)).outcome == Resolved(response.accessToken)
    ensures OnCallback(s, now, Some(response)).state.accessToken == s.accessToken
    ensures OnCallback(s, now, Some(response)).outcome == Unsettled
  {
  }

  /**
   * The older callback breaks what the current component keeps: a response
   * with no token over a held one clears it, leaves an expiry behind, and
   * resolves with nothing, so the next `_fetchFiles` authorizes again.
   */
  lemma LegacyCanClearToken()
    ensures var held := State(None, Some([]), Some("tok1"), 3600000);
      var after := OnLegacyCallback(held, 1000, Some(TokenResponse(None, 3600, false)));
      && Consistent(held)
      && !Consistent(after.state)
      && after.outcome == Resolved(None)
      && NeedsAuthorization(after.state, 1000)
      && !NeedsAuthorization(OnCallback(held, 1000, Some(TokenResponse(None, 3600, false))).state, 1000)
  {
  }

  /**
   * `callback` of the older variant, writing the two token fields of `host`
   * in place and nothing else.
   */
  method Callback(host: AuthDemo, now: int, response: Option<TokenResponse>) returns (outcome: AuthOutcome)
    modifies host`accessToken, host`tokenExpiresAt
    ensures host.Snapshot() == OnLegacyCallback(old(host.Snapshot()), now, response).state
    ensures outcome == OnLegacyCallback(old(host.Snapshot()), now, response).outcome
  {
    if response.None? {
      outcome := Unsettled;
      return;
    }
    host.accessToken := response.value.accessToken;
    host.tokenExpiresAt := now + response.value.expiresIn * 1000;
    outcome := Resolved(host.accessToken);
  }

  /** `error_callback` of the older variant: rejects with the SDK's own error and changes nothing. */
  method ErrorCallback(err: SdkError) returns (outcome: AuthOutcome)
    ensures outcome == Rejected(err)
  {
    outcome := Rejected(err);
  }

  /**
   * `requestAuthorization` (request-authorization.js:1-16): configures the
   * token client with the fixed scope and delivers the SDK's `reply`.
   */
  method RequestAuthorization(host: AuthDemo, clientId: Option<string>, reply: SdkReply)
    returns (config: TokenClientConfig, outcome: AuthOutcome)
    modifies host`accessToken, host`tokenExpiresAt
    // the older variant names the same drive.readonly scope (request-authorization.js:2)
    ensures config == TokenClientConfig(clientId, DriveReadonlyScope)
    ensures host.Snapshot() == DeliverLegacy(old(host.Snapshot()), reply).state
    ensures outcome == DeliverLegacy(old(host.Snapshot()), reply).outcome
  {
    config := TokenClientConfig(clientId, DriveReadonlyScope);
    match reply
    case CallbackWith(at, response) =>
      outcome := Callback(host, at, response);
    case ErrorCallbackWith(err) =>
      outcome := ErrorCallback(err);
  }
}
