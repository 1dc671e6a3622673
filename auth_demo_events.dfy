/**
 * The `AuthDemo` component over a whole session: every event the SDK or
 * `fetch` delivers, in the order it arrives, applied to the fields one after
 * the other. The lemmas say which events can change which field.
 */
module AuthDemoEvents {
  import opened AuthDemo

  /** One delivery to the component: an SDK callback, a file-list response, or a revoke. */
  datatype Event =
    | Sdk(reply: SdkReply)
    | Http(response: HttpResponse)
    | RevokeRequested

  /** The effect of one event on the fields; revoking changes none of them (auth-demo.js:80-84). */
  function Step(s: State, e: Event): State {
    match e
    case Sdk(reply) => Deliver(s, reply).state
    case Http(response) => OnFileListResponse(s, response)
    case RevokeRequested => s
  }

  /** The state after the events `es`, delivered in order, starting from `s`. */
  function Run(s: State, es: seq<Event>): State
    decreases |es|
  {
    if es == [] then s else Step(Run(s, es[..|es| - 1]), es[|es| - 1])
  }

  /** A `callback` delivery that the component accepts and stores. */
  predicate IsGrant(e: Event) {
    e.Sdk? && e.reply.CallbackWith? && Accepted(e.reply.response)
  }

  /** With no accepted grant among the events, the token and its expiry stay as they were. */
  lemma {:induction false} RunTokenUntouchedWithoutGrant(s: State, es: seq<Event>)
    requires forall i :: 0 <= i < |es| ==> !IsGrant(es[i])
    ensures Run(s, es).accessToken == s.accessToken
    ensures Run(s, es).tokenExpiresAt == s.tokenExpiresAt
  {
    if es != [] {
      var front := es[..|es| - 1];
      assert forall i :: 0 <= i < |front| ==> front[i] == es[i];
      RunTokenUntouchedWithoutGrant(s, front);
    }
  }

  /**
   * The token and its expiry are those of the last accepted grant: its token,
   * and its callback time plus its lifetime in milliseconds.
   */
  lemma {:induction false} RunTokenFromLastGrant(s: State, es: seq<Event>, i: int)
    requires 0 <= i < |es| && IsGrant(es[i])
    requires forall j :: i < j < |es| ==> !IsGrant(es[j])
    ensures Run(s, es).accessToken == es[i].reply.response.value.accessToken
    ensures Run(s, es).tokenExpiresAt == es[i].reply.at + es[i].reply.response.value.expiresIn * 1000
  {
    var front := es[..|es| - 1];
    assert forall j :: 0 <= j < |front| ==> front[j] == es[j];
    if i < |es| - 1 {
      RunTokenFromLastGrant(s, front, i);
    }
  }

  /** With no file-list response among the events, `files` stays as it was. */
  lemma {:induction false} RunFilesUntouchedWithoutResponse(s: State, es: seq<Event>)
    requires forall i :: 0 <= i < |es| ==> !es[i].Http?
    ensures Run(s, es).files == s.files
  {
    if es != [] {
      var front := es[..|es| - 1];
      assert forall i :: 0 <= i < |front| ==> front[i] == es[i];
      RunFilesUntouchedWithoutResponse(s, front);
    }
  }

  /** `files` is exactly the `files` of the last file-list response, whatever its status. */
  lemma {:induction false} RunFilesFromLastResponse(s: State, es: seq<Event>, i: int)
    requires 0 <= i < |es| && es[i].Http?
    requires forall j :: i < j < |es| ==> !es[j].Http?
    ensures Run(s, es).files == es[i].response.files
  {
    var front := es[..|es| - 1];
    assert forall j :: 0 <= j < |front| ==> front[j] == es[j];
    if i < |es| - 1 {
      RunFilesFromLastResponse(s, front, i);
    }
  }

  /** Every session keeps `Consistent`; in particular the component never holds an empty token. */
  lemma {:induction false} RunPreservesConsistent(s: State, es: seq<Event>)
    requires Consistent(s)
    ensures Consistent(Run(s, es))
  {
    if es != [] {
      RunPreservesConsistent(s, es[..|es| - 1]);
      var before := Run(s, es[..|es| - 1]);
      match es[|es| - 1]
      case Sdk(reply) => DeliverPreservesConsistent(before, reply);
      case Http(response) => FileListResponsePreservesConsistent(before, response);
      case RevokeRequested =>
    }
  }

  /** Once the component holds a token, no event clears it: not a failure, not an HTTP error, not a revoke. */
  lemma {:induction false} RunNeverClearsToken(s: State, es: seq<Event>)
    requires Truthy(s.accessToken)
    ensures Truthy(Run(s, es).accessToken)
  {
    if es != [] {
      RunNeverClearsToken(s, es[..|es| - 1]);
    }
  }

  /** A `_fetchFiles` call is the events it delivers, in order: the SDK's reply if the guard fired, then the response. */
  function FetchEvents(s: State, now: int, reply: SdkReply, http: HttpResponse): seq<Event> {
    if !NeedsAuthorization(s, now) then [Http(http)]
    else if Deliver(s, reply).outcome.Resolved? then [Sdk(reply), Http(http)]
    else [Sdk(reply)]
  }

  /** The state a `_fetchFiles` call leaves is the session state after the events it delivers. */
  lemma FetchFlowIsRun(s: State, clientId: Option<string>, now: int, reply: SdkReply, http: HttpResponse)
    ensures FetchFlow(s, clientId, now, reply, http).state == Run(s, FetchEvents(s, now, reply, http))
  {
  }
}
