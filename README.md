# Microblink recognition client: HTTP layer

A Dafny model of `MicroblinkApi` from microblink-js, the class that sends image-recognition
requests to the Microblink API and tracks the transfers it has started.

The model has three parts, all in module `MicroblinkApiService` (`microblink_api.dfy`):

- **Client state.** `MicroblinkApi` is a class with the source's three fields:
  - `endpoint`, which defaults to `https://api.microblink.com`;
  - `authorizationHeader`, which defaults to `""`;
  - `activeRequests`, the handles of started transfers in submission order.

  A fourth field, `created`, counts the transfers created so far. It stands for the identity
  of each new `XMLHttpRequest` object: a new handle is the current count, so it differs from
  every tracked handle. `Valid()` states that the tracked handles are strictly increasing.
  The fields change only through five members: the constructor, `SetEndpoint`,
  `SetAuthorization`, `TerminateAll` and `Recognize`. `TerminateAll` returns the handles it
  aborted, in order. `Recognize` models what happens when its observable is subscribed to:
  the request is built and sent, and the new handle is appended. Completion never removes a
  handle.
- **Request construction.** These are pure functions:
  - the JSON body (`imageBase64` plus exactly one of `recognizer` or `recognizers`);
  - the URL (`endpoint + "/recognize/execute"`);
  - the headers (`Content-Type` always; `Authorization` only when the stored value starts
    with `"Bearer "`, passed to the transport unchanged);
  - `BuildRequest`, which puts them together.

  `ReadBody` is an independent reading of the two wire shapes. The round-trip lemma ties the
  body back to its inputs through it.
- **Completion.** `OnReadyStateChange` maps a ready state and the outcome of `JSON.parse`
  (an `Option<Json>`) to the observer's signals. `Emitted` folds it over the sequence of
  ready states one transfer passes through. The lemmas about `Emitted` show that the DONE
  event is the only one that ends the stream.

Module `Json` (`json.dfy`) holds the JSON value type and lookup by key. Module `Wrappers`
(`wrappers.dfy`) holds `Option`.

The TypeScript type `string | string[]` allows an empty list, and `Recognize` does not check
for one, so the model accepts an empty list too.

## Model

| member | source | states |
|---|---|---|
| `MicroblinkApiService.RequestBody` | src/microblinkApi.service.ts:55-64 | The body is an object with `imageBase64` equal to the image. A single name gives `recognizer` with that name and no `recognizers`. A list gives `recognizers` with the same names in the same order and no `recognizer`. There are no other keys. |
| `MicroblinkApiService.ReadRequestBody` | src/microblinkApi.service.ts:55-64 | Reading the body in the wire format gives back exactly the recognizers argument, with its shape, and the image it was built from. |
| `MicroblinkApiService.RequestUrl` | src/microblinkApi.service.ts:72 | The URL is the endpoint followed by `/recognize/execute`. |
| `MicroblinkApiService.RequestUrlInjective` | src/microblinkApi.service.ts:72 | Two requests have the same URL only if they were built from the same endpoint. |
| `MicroblinkApiService.IsAuthorizationHeaderValid` | src/microblinkApi.service.ts:117-122 | True exactly when the first seven characters are `Bearer `. |
| `MicroblinkApiService.AuthorizationValidIffBearerToken` | src/microblinkApi.service.ts:117-122 | A value is accepted if and only if it is `Bearer ` followed by some token. Both directions are proved. |
| `MicroblinkApiService.AuthorizationPrefixIsLiteral` | src/microblinkApi.service.ts:117-122 | The empty default, `Bearer` without the space and the lower-case `bearer ` are rejected. `Bearer ` followed by any token is accepted. |
| `MicroblinkApiService.RequestHeaders` | src/microblinkApi.service.ts:73-78 | `Content-Type: application/json` is always present. `Authorization` is present if and only if the stored value passes the prefix check, and then it is the stored value unchanged. |
| `MicroblinkApiService.BuildRequest` | src/microblinkApi.service.ts:67-78 | The request is a credentialed POST to the endpoint plus `/recognize/execute`, with the headers above. Its body reads back as the given recognizers and image. |
| `MicroblinkApiService.OnReadyStateChange` | src/microblinkApi.service.ts:80-97 | Any ready state other than 4 signals nothing. At 4 exactly one terminal signal is sent, and nothing follows it. A parsed value gives exactly two signals: one `next` carrying that value, then `complete`. An error is sent only when parsing failed, and it carries the fixed message, the `ResultIsNotValidJSON` code and the raw response text. |
| `MicroblinkApiService.EmittedTerminals` | src/microblinkApi.service.ts:80-97 | Over any sequence of ready-state events, the number of terminal signals equals the number of DONE events. |
| `MicroblinkApiService.EmittedBeforeDone` | src/microblinkApi.service.ts:80-97 | Events before DONE signal nothing. |
| `MicroblinkApiService.EmittedWhenDoneLast` | src/microblinkApi.service.ts:80-97 | A transfer whose ready states end in one DONE signals exactly what that DONE event signals, and its signals are well formed. |
| `MicroblinkApiService.MicroblinkApi.constructor` | src/microblinkApi.service.ts:12-18 | A new client has the default endpoint, an empty authorization header and no active requests. |
| `MicroblinkApiService.MicroblinkApi.TerminateAll` | src/microblinkApi.service.ts:23-29 | Aborts every tracked handle once, in list order. The aborted handles are strictly increasing, so no handle is aborted twice. Afterwards the list is empty. Endpoint and authorization are unchanged. On an empty list it aborts nothing. |
| `MicroblinkApiService.MicroblinkApi.SetAuthorization` | src/microblinkApi.service.ts:34-36 | Stores the argument verbatim. Endpoint and active requests are unchanged. |
| `MicroblinkApiService.MicroblinkApi.SetEndpoint` | src/microblinkApi.service.ts:41-43 | Stores the argument verbatim. Authorization and active requests are unchanged. |
| `MicroblinkApiService.MicroblinkApi.Recognize` | src/microblinkApi.service.ts:48-111 | The request is built from the endpoint and authorization at call time. Exactly one new handle, distinct from every handle issued before (tracked or already terminated), is appended at the end. Earlier handles keep their order. Endpoint and authorization are unchanged. |
| `MicroblinkApiService.EndpointChangeAfterSubmission` | src/microblinkApi.service.ts:41-43 | A request keeps the URL it was built with. The one submitted before `SetEndpoint` uses the default endpoint, and the one submitted after uses the new endpoint. |
| `MicroblinkApiService.HandleNotReusedAfterTerminate` | src/microblinkApi.service.ts:69 | A handle aborted by `TerminateAll` is never given to a later request: every call creates a new transfer. |
| `MicroblinkApiService.ThreeRequestsThenTerminate` | src/microblinkApi.service.ts:23-29 | After three submissions, a first `TerminateAll` aborts three distinct handles. A second one aborts nothing. |

## Left out

- The network: `open`, `send` and the effect of `abort` on the transfer. An abort is modelled only as the handle appearing in `TerminateAll`'s result. `withCredentials` is a flag on the request value.
- The `onerror` path, which passes the transport's error object to the observer unchanged. That object is opaque. Under the XMLHttpRequest Living Standard's request-error steps, a failed or aborted transfer first fires `readystatechange` at state 4 with an empty `responseText`. The subscriber therefore receives the "Result is not valid JSON" error, which is `OnReadyStateChange(Done, None, "")` here, and on a network failure the later `observer.error` call is ignored. An abort fires an `abort` event rather than `error`, so `onerror` does not run at all. An abort from `TerminateAll` on a transfer still in flight does not end silently.
- The upload-progress listener. It only attaches the caller's callback and states no behaviour.
- RxJS: the laziness of `Observable.create`, and the observer ignoring calls after a terminal one. `Recognize` is the work done at subscription, and `OnReadyStateChange` returns the calls the listener makes.
- `JSON.stringify` and `JSON.parse`. The body is a `Json` value, and the parse outcome is an `Option<Json>` input.
- The numeric value of `StatusCodes.ResultIsNotValidJSON`. It is defined in `src/microblink.types`, which is not part of this model, so the code is a symbolic constant.
- `MicroblinkApiService.MicroblinkApi.Recognize` assumes that `open`, `setRequestHeader` and `send` return normally. In the source, an endpoint that is not a valid URL makes `open` throw, and so does an authorization value with a forbidden character such as a CR or LF inside the value in `setRequestHeader`. Then the exception reaches the subscriber as an error, and no handle is appended to `activeRequests`. The model always appends one.
- `setRequestHeader` trims leading and trailing whitespace from the value, so `"Bearer abc "` is sent as `"Bearer abc"`. The model gives the value as it is passed to `setRequestHeader`, before the transport trims it.
- JSON numbers are integers in `Json`. A response with a fractional number (`{"a":1.5}`) has no exact parse outcome here. Nothing in the client inspects a number.
- The run-time `typeof` test on the recognizers argument. The argument is a tagged union, `One` or `Many`, which matches the TypeScript type `string | string[]`.
