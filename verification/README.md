# wombo-dream-api: token cache and picture-generation driver

A Dafny model of the two pieces of sequential logic in the wombo-dream-api
TypeScript client:

- **The token cache of `GoogleAuthentifier`.** It holds one record
  `{ token?, expiration }`, which starts as `{ undefined, 0 }`. A token request
  reuses the record while `expiration > now`. Otherwise it asks the Google
  identity provider once and replaces the whole record with the answer. The
  answer's lifetime in seconds becomes an absolute expiry in milliseconds.
- **The `generatePicture` driver of `WomboDream`.** It creates a task in two
  requests (initialise, then configure). It then polls the task until it is
  `completed`: one status fetch, one progress callback and one `sleep` per
  round. It stops with a rejection on a `failed` snapshot or on a failed fetch.

The clock, the identity provider and the Dream API are inputs:

- `now` is the clock reading taken when validity is checked.
- A `Grant` is the provider's answer. It carries the clock reading taken when
  the answer arrived.
- A `Reply` is how one Dream API request settled. The token could not be
  obtained (`AuthRejected`), the HTTP call failed (`HttpRejected`), or the
  server answered with a task snapshot (`Answered`).
- The polling loop reads one `Reply` per status fetch from a finite sequence.
  When the sequence runs out, the run ends as `Unsettled` ("still polling").
  This stands in for the loop's missing bound.

The progress callback and `sleep` are recorded in an event trace together with
the requests. `Fetches`, `FetchedIds`, `Callbacks` and `Sleeps` project that
trace.

Modules:

- `Errors`: `Option`, `Result`, and the rejection values `Failure`.
- `Types`: the task record of `src/types.ts`.
- `GoogleAuthentifier`: the cache, the token request, and sequences of token
  requests (`Session`).
- `WomboDream`: the request wrappers, `createTask`, and the loop. The loop
  appears twice: as the recursive function `Poll` and as the `while` loop of
  the method `GeneratePicture`, which is proved equal to it.
- `GenerationProperties`: the behaviour for whole families of server replies.

Points of the code that shape the model:

- `GoogleAuthentifier` always re-authenticates through one sign-up request
  with the API key. Its cache holds only the identity token and its expiry,
  with no refresh token. `src/GoogleAuthentifier.test.ts` exercises `signUp`,
  `signIn`, `refreshAuthorisationToken` and `expirationDate`, which this class
  does not define, so those tests are not part of this model.
- Each request builds its token before its `try`. So an authentication failure
  in `initTask`, `configureTask` or `fetchTaskInfos` is not wrapped with that
  request's reason. `createTask` and `generatePicture` still wrap it with
  their own.
- `createTask` is awaited outside the `try` of `generatePicture`. So a creation
  failure reaches the caller without a progress callback and without the
  'Failed to generate picture' wrapper.
- The failed-snapshot exit is taken only when the fetched snapshot already
  says `failed`. There the forced copy `{ ...task, state: 'failed' }` equals
  the snapshot, so the callback receives the same snapshot twice. The copy
  changes anything only on the fetch-error exit, where it is the previously
  held task. `PollStopsOnFailedSnapshot` and `PollStopsOnFetchError` state
  both cases.
- The loop has no cancellation signal, so the model has none.

## Model

| member | source | states |
|---|---|---|
| GoogleAuthentifier.FetchAuthorisationData | src/GoogleAuthentifier.ts:30-42 | A provider answer becomes a cache record holding its token that is valid exactly while less than `expiresIn` seconds, counted in milliseconds, have passed since the answer arrived; a provider rejection is passed on unchanged |
| GoogleAuthentifier.EnsureCacheValidity | src/GoogleAuthentifier.ts:55-60 | The provider is asked exactly when the cache is not valid at `now`; a valid cache is kept with no request; a successful answer replaces the whole cache; a rejection propagates and leaves the cache as it was |
| GoogleAuthentifier.ObtainAuthorisationToken | src/GoogleAuthentifier.ts:44-53 | The returned token is the token in the cache after the validity step; the request rejects exactly when the cache was expired and the provider rejected, with the provider's own failure and the cache unchanged |
| GoogleAuthentifier.InitialCacheForcesFetch | src/GoogleAuthentifier.ts:16-19 | The initial cache (no token, expiry 0) is invalid at every instant, so the first token request asks the provider |
| GoogleAuthentifier.ValidityBoundary | src/GoogleAuthentifier.ts:62-64 | Validity is strict: valid one millisecond before the expiry, invalid at the expiry itself |
| GoogleAuthentifier.ExpiryIsFinal | src/GoogleAuthentifier.ts:62-64 | A cache that is not valid at some instant is not valid at any later instant, and one valid at some instant was valid at every earlier one: only a fetch makes an expired cache usable again |
| GoogleAuthentifier.TokenAlwaysPresent | src/GoogleAuthentifier.ts:44-53 | From the initial cache or any cache filled by the provider, a successful token request yields an actual token, and the cache stays of that kind: the initial cache's missing token is never handed out, because that cache always forces a fetch |
| GoogleAuthentifier.AtMostOneFetchPerInstant | src/GoogleAuthentifier.ts:55-64 | When the first request succeeds with a positive lifetime and the clock has not gone back, a second request at the same instant does not ask the provider |
| GoogleAuthentifier.RejectionIsRetried | src/GoogleAuthentifier.ts:57-59 | A rejected request leaves the cache expired, so the next request asks the provider again |
| GoogleAuthentifier.ExpirationAdvances | src/GoogleAuthentifier.ts:35-38 | After a positive-lifetime answer received no earlier than the check, the expiry lies after `now` and, when a fetch happened, strictly after the old expiry |
| GoogleAuthentifier.Session | src/GoogleAuthentifier.ts:44-60 | A sequence of token requests gets one outcome per request and asks the provider at most once per request; from a reachable cache every successful outcome carries a token and the cache stays reachable |
| GoogleAuthentifier.ValidCacheServesSession | src/GoogleAuthentifier.ts:57-58 | While the cache is valid at every request's instant, the provider is never asked, the cache never changes and every request gets the cached token |
| GoogleAuthentifier.OneFetchCoversLifetime | src/GoogleAuthentifier.ts:35-38 | From an expired cache, a successful first answer serves every later request that falls inside its lifetime: exactly one fetch for the whole sequence, and every request gets that token |
| Types.MarkedFailed | src/WomboDream.ts:289 | The copy `{ ...task, state: 'failed' }` has state `failed`, agrees with the task on every other field, and equals the task exactly when the task was already `failed` |
| WomboDream.CreateTask | src/WomboDream.ts:207-231 | Creation succeeds exactly when both requests are answered, and returns the configured snapshot; configuring targets the initialised task's id with the prompt, style, image and display frequency; an initialisation failure sends no configure request; every failure is rethrown as 'Failed to create task' around the step's own failure |
| WomboDream.CreateFailureNamesItsStep | src/WomboDream.ts:132-231 | A failed creation step reaches the caller of `createTask` as 'Failed to create task' around 'Failed to initialize task' or 'Failed to configure task' and the HTTP failure when the HTTP call failed, and directly around the token failure otherwise; an HTTP failure of initialising never looks like one of configuring |
| WomboDream.Poll | src/WomboDream.ts:280-294 | A task already `completed` is returned with no effect; the loop only ever resolves with a `completed` task; a failed snapshot rejects with 'Failed to generate picture' around a blank error; a failed fetch rejects with 'Failed to generate picture' |
| WomboDream.PollIteration | src/WomboDream.ts:281-286 | A round on a snapshot that is not `failed` fetches the held task's id, calls back with the new snapshot, sleeps for the check frequency, and the loop goes on from that snapshot |
| WomboDream.PollTally | src/WomboDream.ts:281-293 | At most one fetch per server reply, all of them consumed while still polling; callbacks = fetches, plus one on the failed-snapshot exit; sleeps = fetches, minus one on either rejection |
| WomboDream.PollSleepsAtCheckFrequency | src/WomboDream.ts:285 | Every delay the loop requests is the check frequency |
| WomboDream.PollShape | src/WomboDream.ts:281-293 | The trace is whole fetch-callback-sleep rounds followed by nothing, by a fetch whose callback got a `failed` task with the fetched id (the held task forced to `failed`), or by a fetch whose callback got a `failed` snapshot and then its forced copy |
| WomboDream.Generation | src/WomboDream.ts:270-295 | `generatePicture` rejects before polling exactly when creation fails, with the 'Failed to create task' failure and no fetch, callback or sleep; it resolves only with a `completed` task; the two polling failures carry 'Failed to generate picture' |
| WomboDream.FetchFailureNamesItsStep | src/WomboDream.ts:244-293 | A failed status fetch reaches the caller of `generatePicture` as 'Failed to generate picture' around 'Failed to fetch task info' and the HTTP failure when the HTTP call failed, and directly around the token failure otherwise |
| WomboDream.GeneratePicture | src/WomboDream.ts:278-294 | The `while` loop over the held task produces the same outcome and the same trace as the recursive reference `Generation` |
| GenerationProperties.RoundsProjections | src/WomboDream.ts:282-285 | In a sequence of rounds, each fetch asks for the id of the task held at that moment, the callbacks receive the snapshots in fetch order, and each round sleeps once for the check frequency |
| GenerationProperties.PollThroughRunning | src/WomboDream.ts:281-286 | A run of snapshots that are neither `completed` nor `failed` gives one round per snapshot, and the loop then continues from the last snapshot with the remaining replies |
| GenerationProperties.PollRunsToCompletion | src/WomboDream.ts:281-287 | N running snapshots then `completed`: N+1 fetches of the held ids, N+1 callbacks in fetch order, N+1 sleeps of the check frequency, and the completed snapshot is returned |
| GenerationProperties.PollStopsOnFailedSnapshot | src/WomboDream.ts:283-293 | N running snapshots then `failed`: N+1 fetches and no more, N sleeps, callbacks are the snapshots then the failed one twice (the forced copy equals it), the last event is that callback, and the run rejects with 'Failed to generate picture' |
| GenerationProperties.PollStopsOnFetchError | src/WomboDream.ts:282-293 | N running snapshots then a failed fetch: N+1 fetches and no more, N sleeps, the last callback gets the previously held task (the created one if nothing was fetched) with only its state forced to `failed`, and the fetch failure is propagated inside 'Failed to generate picture' |
| GenerationProperties.PollOrdersEffects | src/WomboDream.ts:282-285 | The loop starts by fetching the held task's id; every fetch is followed at once by a callback; every sleep comes right after a fetch and its callback |
| GenerationProperties.CompletedAtCreation | src/WomboDream.ts:278-287 | A task that is already `completed` when created is returned with no fetch, callback or sleep |
| GenerationProperties.GenerationCompletes | src/WomboDream.ts:270-295 | End to end: one initialise and one configure request, then with N running snapshots followed by `completed`, N+1 fetches, callbacks and sleeps, and the completed snapshot is returned |
| GenerationProperties.TenGeneratingThenCompleted | src/WomboDream.test.ts:84-113 | The test's scenario: a `generating` task, ten `generating` snapshots, then `completed`, with zero delay: eleven fetches, eleven callbacks in order, eleven zero-length sleeps, and the completed task is returned |
| GenerationProperties.DefaultArguments | src/WomboDream.ts:270-278 | Without an input image and with the default frequencies, configuring asks for a display frequency of 10 and every delay between status fetches is 1000 milliseconds |

## Left out

- URL builders (`buildApiTaskUrl` and the others, `buildAuthorisationUrl`): they are thin `sprintf` templates over a library outside this model.
- Request-agent construction and headers (`buildHttpRequestAgent*`): the model keeps only how each request's token step and HTTP step settle (`Reply`).
- Upload, styles, shop URL, gallery operations and `setUsername`: one-shot request/response pass-throughs with no logic of their own.
- `Authentifier` (a run-time guard against instantiating the abstract class) and the `index.ts` factory: they hold no logic to verify.
- Wall-clock time: `sleep` is recorded as the requested delay, and the clock is an input, not a running clock.
- The provider's `expiresIn` is a string that the code converts with unary `+`; the model takes it as an integer. The `NaN` and fractional cases of that conversion are not modelled.
- A progress callback that throws, and a `sleep` that rejects: the model takes both to return normally.
- The loop has no bound. The model gives it a finite sequence of server replies, and the `Unsettled` outcome marks a run that is still polling when the replies run out.
- Concurrent token requests on one shared cache: the code awaits every call in turn, so the model is sequential.
- Each Dream API request also obtains a token through the cache. The driver model abstracts that step to how it settled (`AuthRejected` or not) and does not thread the cache through `generatePicture`.
- GoogleAuthentifier.TokenAlwaysPresent: a successful provider answer is taken to carry `idToken` (`Grant.idToken` is a string). The code stores `res.data.idToken` unchecked, so an answer without it would cache `undefined` as a valid token and hand it out; the lemma does not cover that case.
- The progress callback receives the live task object (src/WomboDream.ts:283), which the loop then reads and spreads; the model records snapshots by value and takes the callback not to mutate the task it receives.
