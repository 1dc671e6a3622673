# Access-token lifecycle of the `AuthDemo` component

`AuthDemo` is a browser web component. It gets a Google Drive read-only
access token through the Google Identity Services token client. It keeps
the token in memory with an absolute expiry time and lists the ten most
recently modified files with it. It can also ask Google to revoke the token.
Its whole state is four fields:

- `error`: the message shown, or null;
- `files`: the last file list;
- `accessToken`: the token, or null;
- `tokenExpiresAt`: the expiry, in epoch milliseconds.

The model has three modules:

- `AuthDemo` (auth_demo.dfy): the data the component sees, one pure function
  per event handler on a `State` value, and the class `AuthDemo` with the four
  fields. Each of its methods assigns the fields in place and is proved to
  leave exactly the state the matching function gives. The SDK and `fetch`
  are not called: what they deliver (a token response, an error object, a
  status with a file list) and the current time are parameters. Times are
  integer milliseconds; `expires_in` is integer seconds.
- `AuthDemoEvents` (auth_demo_events.dfy): a session as a sequence of
  deliveries (SDK callbacks, file-list responses, revokes) folded over the
  state. Lemmas, proved by induction, say which deliveries can change which
  field.
- `RequestAuthorization` (request_authorization.dfy): the older, unused
  `requestAuthorization`. Its callback stores any token with no check. The
  module holds that callback and lemmas that contrast it with the current one.

JavaScript values are modelled as follows. A token is `Option<string>`, with
`None` for null or undefined. "Truthy" means `Some` of a non-empty string.
`files` is `Option<seq<File>>`, with `None` when the response body has no
`files` field (the field then becomes undefined).

The model keeps these behaviours of the code, which a reader might not expect:

- the freshness guard is `tokenExpiresAt < now`, so a token whose expiry
  equals `now` is still used, not treated as expired;
- a failed or refused authorization leaves the token fields as they were,
  instead of clearing them;
- `_revoke` changes no local field;
- nothing checks that the client id is configured: `CLIENT_ID` goes unchecked
  into the token-client configuration, and no "configuration missing" error
  exists;
- an HTTP status of 400 or more sets the message but is not an error result,
  and `files` is still replaced by the body's `files`;
- a refused token response (no token, or scope not granted) leaves the
  authorization promise unsettled, so `_fetchFiles` never reaches the file
  list.

## Model

| member | source | states |
|---|---|---|
| AuthDemo.InitialNeedsAuthorization | auth-demo.js:31-37 | the constructed state has no error, an empty file list, no token and expiry 0; it is consistent, and the guard fires at every time |
| AuthDemo.AuthDemo.constructor | auth-demo.js:31-37 | the new object's fields are null, empty list, null and 0, and they are consistent |
| AuthDemo.NeedsAuthorizationIffUnusable | auth-demo.js:74 | the guard fires exactly when the token is missing, empty, or its expiry lies strictly before now |
| AuthDemo.ExpiryInstantStillUsable | auth-demo.js:74 | with a token held, the guard does not fire at the expiry instant itself; it does fire one millisecond later |
| AuthDemo.AcceptedTokenLifetime | auth-demo.js:74-76 | after accepting a token at time `at` with lifetime L seconds, the guard asks for a new one iff now > at + L*1000 |
| AuthDemo.OnCallback | auth-demo.js:95-109 | resolves iff the response exists, has a non-empty token and its scope was granted; it then clears the error, stores the token and expiry now + expires_in*1000, and resolves with that token; otherwise only the error changes, to 'Authorization required.', and nothing settles; files never change |
| AuthDemo.AuthDemo.Callback | auth-demo.js:95-109 | assigns only error, accessToken and tokenExpiresAt, leaving the state and outcome given by OnCallback |
| AuthDemo.OnErrorCallback | auth-demo.js:110-119 | rejects with the SDK's own error; the message is 'Authorization required' for type popup_closed and 'An unexpected error occurred' otherwise; token, expiry and files unchanged |
| AuthDemo.AuthDemo.ErrorCallback | auth-demo.js:110-119 | may assign only error, leaving the state given by OnErrorCallback; rejects with the original error |
| AuthDemo.Deliver | auth-demo.js:91-122 | a callback reply acts exactly as OnCallback and an error reply exactly as OnErrorCallback; so a reply resolves iff it is an accepted callback and rejects iff it is an error callback, with its error; when not resolved the token fields are unchanged; files never change |
| AuthDemo.AuthDemo.RequestAuthorization | auth-demo.js:89-123 | configures the token client with the given client id and the fixed drive.readonly scope, and leaves the state and outcome given by Deliver |
| AuthDemo.FileListRequestFor | auth-demo.js:125-134 | the request goes to the Drive files endpoint with orderBy 'modifiedTime desc', pageSize '10' and header 'Bearer ' + the current token |
| AuthDemo.OnFileListResponse | auth-demo.js:135-139 | files become the body's files exactly; token fields unchanged; status >= 400 sets 'Unable to fetch files'; status < 400 keeps the error as it was |
| AuthDemo.AuthDemo.FetchFileList | auth-demo.js:125-140 | sends the request built from the token held before the response, assigns only error and files, as OnFileListResponse says |
| AuthDemo.ScenarioForbiddenKeepsToken | auth-demo.js:135-139 | a 403 answer sets the fetch-failure message, keeps the token and expiry, and still stores the body's files |
| AuthDemo.FetchFlow | auth-demo.js:73-78 | authorization is requested iff the guard fires, with the fixed scope; the file list is requested iff the call completes, and then with a truthy token held and the request built from it; with no guard the reply is ignored; when the guard fires, an accepted callback completes the call, folds the response into the callback's new state and sends the request with the new token, an error reply gives AuthRejected with that error and the error callback's state, and a refused callback leaves the call unsettled with the callback's state; an unfinished call changes neither files nor token |
| AuthDemo.AuthDemo.FetchFiles | auth-demo.js:73-78 | the fields, the authorization asked for, the request sent and the result are those of FetchFlow |
| AuthDemo.ScenarioTokenReused | auth-demo.js:73-78 | a token granted at 0 for 3600 s expires at 3600000; a call at 1000000 asks for no authorization and sends 'Bearer tok1' |
| AuthDemo.DeliverPreservesConsistent | auth-demo.js:96-118 | both SDK callbacks keep the fields consistent: no empty token, and expiry 0 while no token is held |
| AuthDemo.FileListResponsePreservesConsistent | auth-demo.js:135-139 | the file-list response keeps the fields consistent, since it leaves the token fields alone |
| AuthDemo.FetchFlowPreservesConsistent | auth-demo.js:73-78 | a whole _fetchFiles call keeps the fields consistent |
| AuthDemo.AuthDemo.Revoke | auth-demo.js:80-84 | passes the current token to the revoke call and leaves every field as it was |
| AuthDemoEvents.RunTokenUntouchedWithoutGrant | auth-demo.js:96-119 | in a session with no accepted grant, refusals, SDK errors, HTTP errors and revokes leave the token and its expiry as they were |
| AuthDemoEvents.RunTokenFromLastGrant | auth-demo.js:99-103 | after any session, token and expiry are those of the last accepted grant: its token, and its callback time + expires_in*1000 |
| AuthDemoEvents.RunFilesUntouchedWithoutResponse | auth-demo.js:135-139 | in a session with no file-list response, files stay as they were |
| AuthDemoEvents.RunFilesFromLastResponse | auth-demo.js:139 | after any session, files are exactly the files of the last file-list response, whatever its status |
| AuthDemoEvents.RunPreservesConsistent | auth-demo.js:96-108 | every session keeps the fields consistent, so the component never holds an empty token |
| AuthDemoEvents.RunNeverClearsToken | auth-demo.js:80-139 | once a truthy token is held, no later delivery makes it falsy |
| AuthDemoEvents.FetchFlowIsRun | auth-demo.js:73-78 | one _fetchFiles call leaves the state a session of its deliveries gives: the SDK reply if the guard fired, then the file-list response if authorization resolved |
| RequestAuthorization.OnLegacyCallback | request-authorization.js:7-11 | stores the response's token and expiry now + expires_in*1000 with no check, and resolves with the stored token; error and files unchanged; a missing response throws before any assignment, so nothing changes or settles |
| RequestAuthorization.Callback | request-authorization.js:7-11 | assigns only the host's accessToken and tokenExpiresAt, with the state and outcome given by OnLegacyCallback |
| RequestAuthorization.ErrorCallback | request-authorization.js:12 | rejects with the SDK's own error and changes no field |
| RequestAuthorization.DeliverLegacy | request-authorization.js:3-15 | an error reply rejects with its error and changes nothing; a callback reply acts as OnLegacyCallback; error and files never change |
| RequestAuthorization.RequestAuthorization | request-authorization.js:1-16 | configures the token client with the given client id and the same drive.readonly scope as the component, and changes only the host's token fields, as DeliverLegacy says |
| RequestAuthorization.AgreesOnAcceptedResponse | request-authorization.js:7-11 | on a response the component accepts, both callbacks store the same token and expiry and resolve alike; only the component's clears the error |
| RequestAuthorization.DivergesOnRefusedResponse | request-authorization.js:7-10 | on a response the component refuses, the older callback still stores and resolves with its token, while the component keeps its old token and does not settle |
| RequestAuthorization.LegacyCanClearToken | request-authorization.js:8-9 | a token-less response replaces a held token with nothing and leaves an expiry behind; it resolves with nothing, and the guard fires again; the component would keep the token |

## Left out

- Rendering, templates, styles and the custom-element registration
  (auth-demo.js:39-71, auth-demo.js:142-153): view code with no effect on the
  token lifecycle.
- The Google Identity Services SDK itself (`initTokenClient`,
  `requestAccessToken`, `hasGrantedAnyScope`, `revoke`): foreign code. Its
  outcomes are parameters, and `hasGrantedAnyScope` is the boolean
  `scopeGranted`. The acknowledgement that `revoke` passes to its callback
  (`done`) is not modelled.
- `fetch` as transport: the URL query-string encoding, a network failure
  (which rejects before any field is assigned) and a body that is not JSON
  (which rejects once the status has been handled, before `files` is assigned).
  The model keeps only the status and the body's `files`.
- Promises and `async` scheduling, and overlapping `_fetchFiles` calls: the
  model delivers events one at a time, in order. A promise that never
  settles is the outcome `Unsettled`.
- `Date.now()` and JavaScript numbers: times and lifetimes are unbounded
  integers, so there is no floating-point rounding and no NaN from a missing
  `expires_in`.
- `import.meta.env.VITE_CLIENT_ID` (auth-demo.js:19): the environment value is
  a parameter, passed unchecked into the token-client configuration. test.js
  expects an error 'VITE_CLIENT_ID is not defined in .env file' (test.js:19),
  but no code raises it, so the model has no such error.
- The `Authorization` header renders a missing token as 'null'. That is what the
  template literal gives for the component's null. An undefined token, which
  only the older variant can store, would render as 'undefined'.
- RequestAuthorization.RequestAuthorization: takes the client id as a parameter, although `CLIENT_ID` is not declared in request-authorization.js (auth-demo.js:19 declares it module-scoped, invisible there). Unless a global of that name exists, evaluating `client_id: CLIENT_ID` throws a ReferenceError, the promise rejects, and no token client is configured; the model assumes the value is supplied.
- The `this` that request-authorization.js writes is unbound in that file. The
  model takes it to be an `AuthDemo` object and writes the same two fields.
