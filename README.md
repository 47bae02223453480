# scaler.pics client core in Dafny

This project models the logic of the scaler.pics Python client (`Scaler` in
`scaler_pics/scaler.py`) that does not depend on the network. The client sends
images to a remote transformation service. It works in three phases: sign,
upload, retrieve. All concurrent calls share one expiring access token.

- `common.dfy` (module `Common`): option and result values, and Python
  truthiness for optional strings and byte buffers (`None`, `""` and `b''`
  are false). It also holds `str(n)` for the `Content-Length` header and a
  reader that parses it back.
- `wire.dfy` (module `Wire`): the JSON bodies built by the `to_dict` methods
  of `Fit`, `ApiOutput` and `ApiTransformOptions`. Each has a decoder, with a
  lemma that decoding the encoding gives back the original value.
- `token_broker.dfy` (module `TokenBroker`): `refreshAccessTokenIfNeeded`.
  It is split at its suspension points into three atomic steps, written as
  functions on a `BrokerState` value:
  - `Request`: the expiry check, then either enqueue a waiter or become the
    refresher;
  - `Succeed`: the successful settlement;
  - `Fail`: the failed settlement.

  Class `Scaler` holds `accessToken`, `isRefreshingAccessToken` and
  `refreshPromises`, plus `futures`: the state of every future the broker
  has created. A future is an index into `futures`. The class methods perform
  the three steps in place and are proved equal to the functions. The lemmas
  cover any run of callers: at most one refresher, and every waiter gets the
  refresher's outcome. `ConcurrentCallers` replays K callers against one
  object.
- `transform.dfy` (module `Transform`): the data shaping around the network
  calls of `transform`:
  - turning the `output` argument into a list;
  - building the signing request;
  - choosing the upload body and its headers;
  - planning each retrieval (`Plan`, and `PlanRetrievals`, the loop that
    builds the task list);
  - gathering the artifacts;
  - the list of `fileId`s to delete;
  - assembling a result shaped like the request.

  `TransformCall` chains these steps into one `transform` call. The token
  outcome, the service's replies, file contents and download replies are
  parameters.

Three behaviours of the code are easy to miss:

- When a download fails, `asyncio.gather` raises at line 191, so the cleanup
  DELETE at lines 194-197 is never sent. See
  `Transform.DownloadFailureSkipsCleanup`.
- The upload POST at line 160 is sent even when the input is a remote URL.
  When only a remote URL is given, it has no body and no headers; a buffer
  or local path given alongside the URL is still posted.
- A stored token is decoded at lines 217-220 before its expiry is compared.
  If `jwt.decode` raises, or the decoded claims have no `exp`, the check
  raises and the whole call fails. The model does not represent that
  failure: its token always carries an `exp`.

## Model

| member | source | states |
|---|---|---|
| `Common.Decimal` | scaler_pics/scaler.py:151 | `str(len(...))` for the `Content-Length` header is a non-empty string of decimal digits with no leading zero |
| `Common.ParseDecimalOfDecimal` | scaler_pics/scaler.py:151 | reading the decimal header back gives the number written |
| `Wire.FitRoundTrip` | scaler_pics/scaler.py:87-92 | `Fit.to_dict` keeps width, height and upscale: decoding its dict gives the same fit |
| `Wire.ApiOutputRoundTrip` | scaler_pics/scaler.py:19-26 | `ApiOutput.to_dict` keeps all five fields (fit, type, quality, upload, crop); `None` becomes null |
| `Wire.OutputsRoundTrip` | scaler_pics/scaler.py:37 | the output list is encoded element by element and decodes to the same outputs in the same order |
| `Wire.SignBodyRoundTrip` | scaler_pics/scaler.py:34-38 | the signing body loses nothing: decoding it gives back the input string and every output in order |
| `TokenBroker.Request` | scaler_pics/scaler.py:212-232 | the call takes part in a refresh exactly when the token is absent or empty, or `now >= exp`; otherwise nothing changes. While a refresh runs it appends exactly one fresh pending future; otherwise it only sets the flag. It never touches the token, and it preserves the broker invariant |
| `TokenBroker.Settle` | scaler_pics/scaler.py:241-243 | settling the listed futures gives each of them the outcome and leaves every other future as it was |
| `TokenBroker.Succeed` | scaler_pics/scaler.py:239-244 | on success the token becomes the new one, every queued future is resolved, the list is empty and the flag is false; no future is left pending |
| `TokenBroker.Fail` | scaler_pics/scaler.py:245-250 | on failure the token is unchanged, every queued future is rejected with the same error, the list is empty and the flag is false |
| `TokenBroker.NeedsRefresh` | scaler_pics/scaler.py:213-221 | the test that decides whether to refresh: no token, an empty token, or `now >= exp` |
| `TokenBroker.UsableTokenSkipsRefresh` | scaler_pics/scaler.py:213-224 | the check returns without refreshing exactly when a non-empty token is held and `now < exp`, and then it changes nothing |
| `TokenBroker.NeedsRefreshLater` | scaler_pics/scaler.py:219-221 | a token that needs refreshing at some time still needs it at every later time |
| `TokenBroker.IssuanceOutcome` | scaler_pics/scaler.py:234-240 | the refresh succeeds exactly on a 200 reply that carries `accessToken`; a 200 reply without it fails as a missing token; a non-200 reply fails with that status and text; any raised exception fails |
| `TokenBroker.SingleFlight` | scaler_pics/scaler.py:226-232 | among callers that arrive before a refresh completes, at most one becomes the refresher, none does if a refresh is already running, and the token is unchanged |
| `TokenBroker.EnqueuedStayQueued` | scaler_pics/scaler.py:226-230 | every caller enqueued during a run, and every future that was waiting at its start, is still on the waiting list at its end |
| `TokenBroker.WaitersShareSuccess` | scaler_pics/scaler.py:226-244 | after any run of callers and a successful refresh, the new token is held and every enqueued caller's future is resolved |
| `TokenBroker.WaitersShareFailure` | scaler_pics/scaler.py:226-250 | after any run of callers and a failed refresh, the token is unchanged and every enqueued caller's future is rejected with the refresher's error |
| `TokenBroker.Scaler.constructor` | scaler_pics/scaler.py:112-116 | a new client has no token, no refresh in flight and no waiters |
| `TokenBroker.Scaler.RequestRefresh` | scaler_pics/scaler.py:212-232 | the in-place check-and-enqueue or check-and-set-flag performs `Request` and keeps the invariant |
| `TokenBroker.Scaler.CompleteSuccess` | scaler_pics/scaler.py:240-244 | storing the token and the loop that resolves every future in `refreshPromises` perform `Succeed` |
| `TokenBroker.Scaler.CompleteFailure` | scaler_pics/scaler.py:245-250 | the loop that rejects every future performs `Fail` and hands back the same error to re-raise |
| `TokenBroker.Scaler.FinishRefresh` | scaler_pics/scaler.py:233-250 | the refresher's settlement from the issuance reply returns that reply's outcome and leaves the state `Succeed` or `Fail` gives |
| `TokenBroker.ConcurrentCallers` | scaler_pics/scaler.py:212-250 | K callers that find no token cause exactly one issuance call (counted as the callers that become the refresher), and all K end with the same outcome, the refresher's |
| `Transform.NormalizeOutputs` | scaler_pics/scaler.py:122-126 | a missing output or an empty list is the "No output provided" error; a single output becomes a one-element list; a non-empty list is kept |
| `Transform.ToApiOutput` | scaler_pics/scaler.py:127-128 | each wire output keeps fit, type, quality and crop, and takes `upload` from the output's delivery, or null when there is none |
| `Transform.SignInput` | scaler_pics/scaler.py:129-130 | the signing input is the remote URL when one is given (non-empty), otherwise `"body"` |
| `Transform.SignOptions` | scaler_pics/scaler.py:122-130 | the signing request exists exactly when there are outputs; it has one wire output per requested output, in order |
| `Transform.UploadRequestFor` | scaler_pics/scaler.py:145-157 | the upload body is the buffer if non-empty, else the whole local file if a path is given, else none; headers are empty exactly when there is no body |
| `Transform.ContentLengthMatchesBody` | scaler_pics/scaler.py:148-157 | whenever a body is sent, its `Content-Length` header parses to the body's length |
| `Transform.PlanOne` | scaler_pics/scaler.py:178-189 | a server output with a URL is downloaded to the matching requested output's save path, or into memory; one with a null or empty URL is the `uploaded` sentinel, as corrected under Findings; a missing `downloadUrl` key is an error, and so is an extra server output (beyond the requested outputs) whose URL is non-empty; an extra output with a null or empty URL is the sentinel too |
| `Transform.Plan` | scaler_pics/scaler.py:177-189 | the task list has one entry per server output, in server order, each as `PlanOne` says (with the corrected sentinel); otherwise it is the error of the first output that cannot be planned |
| `Transform.PlanRetrievals` | scaler_pics/scaler.py:177-189 | the loop that appends tasks computes `Plan`, with the corrected sentinel |
| `Transform.PlanStopsAtFirstError` | scaler_pics/scaler.py:178-185 | when every earlier output plans and output `i` fails, planning fails with output `i`'s error |
| `Transform.Retrieve` | scaler_pics/scaler.py:252-272 | a non-200 download fails with its status and text; a 200 download gives the bytes, or the save path when saving |
| `Transform.Gather` | scaler_pics/scaler.py:191 | gathering succeeds exactly when every retrieval does, giving their artifacts in task order; a failure is one of the retrievals' errors |
| `Transform.FileIds` | scaler_pics/scaler.py:194-195 | the ids named for deletion are exactly the present, non-empty `fileId`s, no more of them than outputs |
| `Transform.FileIdsAppend` | scaler_pics/scaler.py:194-195 | ids are collected in server order: the ids of a concatenation are the ids of the first part followed by those of the second |
| `Transform.DeleteBody` | scaler_pics/scaler.py:194-196 | the cleanup body is `{"images": [...]}` listing those ids as strings, in order |
| `Transform.Assemble` | scaler_pics/scaler.py:200-203 | a list request gives a list with one image per server output, pairing output i's fit and pixel size with artifact i; a single request gives image 0, or an error when there are none |
| `Transform.TransformCall` | scaler_pics/scaler.py:118-210 | order of steps and of errors: the refresh error comes first, then the missing-output error (nothing is sent), then a signing error (no upload), then an upload error (no cleanup), then the first planning error, then a retrieval error (no cleanup in either case). When every retrieval succeeds the cleanup is sent and the result is the artifacts shaped like the request, or the shaping error. Cleanup is sent only after every retrieval was planned and succeeded, to the server's delete URL, naming its file ids. Uploaded outputs use the corrected sentinel |
| `Transform.ResultFollowsServerOrder` | scaler_pics/scaler.py:177-201 | for a list request, successful result image i is server output i's fit and pixel size with the artifact retrieved for it |
| `Transform.SingleOutputYieldsOneImage` | scaler_pics/scaler.py:200-203 | for a single-output request, a successful result is one image, built from the server's first output: its fit and pixel size, and the artifact retrieved for it |
| `Transform.DownloadFailureSkipsCleanup` | scaler_pics/scaler.py:191-197 | a failed download fails the call with a download error, and no cleanup request is sent |
| `Transform.PlanAsWritten` | scaler_pics/scaler.py:177-189 | as written, the task list fails exactly when `Plan` does; otherwise it holds `None` exactly at the outputs with a null or empty URL, and `Plan`'s task elsewhere |
| `Transform.GatherAsWritten` | scaler_pics/scaler.py:191 | as written, `gather` fails with `TypeError` if any task is `None`; otherwise it succeeds exactly when every retrieval does, giving their artifacts in order |
| `Transform.SentinelAsWrittenFails` | scaler_pics/scaler.py:189 | as written, any server output without a download URL makes `gather` raise, so the whole call fails |
| `Transform.SentinelCorrected` | scaler_pics/scaler.py:189 | with an awaitable sentinel, such an output is delivered as `Uploaded` and cannot fail |
| `Transform.SentinelExample` | scaler_pics/scaler.py:178-191 | a concrete request where the code as written fails and the corrected code returns `[Uploaded]` |
| `Transform.LocalFileExample` | scaler_pics/scaler.py:118-210 | one local file and one in-memory output: the signing body names `"body"`, the file's 3 bytes are uploaded with `Content-Length: 3`, the result is one image with the downloaded bytes, and the cleanup names `f1` |

## Left out

- Network calls and the parsing of their replies. Their outcomes are
  parameters: the token outcome, the signing reply, the upload reply, and a
  function from URL to download reply.
- Response parsing beyond `downloadUrl`. The keys `url`, `inputImage`,
  `outputImages`, `deleteUrl`, `timeStats`, `fit` and `pixelSize` are assumed
  present in the replies. Their absence (a `KeyError`) is not modelled.
- Exceptions raised by the HTTP library during signing, upload, download or
  the cleanup DELETE at line 196. They propagate unchanged and fail the call;
  this failure is not modelled, so a run that reaches the cleanup is taken to
  send it without error. During the token refresh
  they are modelled as `Transport`, because the refresher catches them.
- `jwt.decode` is a foreign library. The token is held as its raw string plus
  its `exp` claim. A token that cannot be decoded, or has no `exp`, makes
  lines 217-220 raise and the call fail. That failure is not modelled.
- `time.time()` is a float of seconds; `now` and `exp` are integers here.
  All timing fields (`signMs`, `sendImageMs`, `transformMs`, `getImagesMs`,
  `totalMs`) are wall-clock arithmetic and are not modelled, so
  `TransformResponse` carries no timing record.
- File reads and writes, including the chunked download loop. The body of a
  local path is `readFile(path)`; a saved download yields its path.
- The asyncio machinery: futures, `gather` and the event loop. Futures are
  entries of `futures`; each suspension-free stretch of code is one atomic
  step. Interleavings beyond that, task cancellation, and `set_result` on a
  cancelled future are not modelled.
- The reply to the cleanup DELETE is ignored by the client, and not modelled.
- `TransformResponse.to_dict` and module-level configuration (`REFRESH_URL`,
  `SIGN_URL`) hold no logic.
- `Transform.PlanOne`, `Transform.Plan`, `Transform.PlanRetrievals` and
  `Transform.TransformCall` model line 189 as corrected under Findings: a
  server output delivered by upload becomes a finished `Uploaded` task. The
  code as written is modelled by `Transform.PlanAsWritten` and
  `Transform.GatherAsWritten`.
- `Transform.Gather`: on failure it returns the error of the lowest-index
  failing retrieval. The real `gather` raises the error of whichever failing
  download finishes first, and completion order is not modelled.
- `TokenBroker.Scaler.CompleteSuccess`: requires the waiting indices to be in
  range, and so do `CompleteFailure` and `FinishRefresh`. This holds in
  every reachable state: the constructor establishes the broker invariant and
  `RequestRefresh` preserves it.

## Findings

| source | as written | input that shows it | evidently intended | confidence | as-written member | corrected member |
|---|---|---|---|---|---|---|
| scaler_pics/scaler.py:189 | `asyncio.Future().set_result('uploaded')` returns `None`, so `None` is appended to the task list and `asyncio.gather` raises `TypeError` | one requested output whose server descriptor has `downloadUrl: null` (delivered by upload) | a task that is already done with the value `'uploaded'` | high; not executed | `Transform.SentinelAsWrittenFails` | `Transform.SentinelCorrected` |
