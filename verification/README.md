# weights.gg-api: admission, routing and polling, modelled in Dafny

The service takes a text prompt and produces an image. A request either goes to an
external generation provider, which the handler submits to, polls and downloads from,
or it goes onto an image queue that a browser worker drains. Callers then poll for the
result by image id. A Python client drives the service: it submits a prompt and polls
the status route, reporting progress through a callback.

This project models the sequential decision logic of three parts:

- `ImageRoute` (`image_controller.dfy`) covers `GET /generateImage`.
  - It models validation of the prompt and the module-level cooldown counter.
  - It models the capacity check against `MAX_QUEUE_SIZE`.
  - It models the choice between the provider and the queue, and the provider poll loop.
  - It models the effects on the queue and on the status store.
  - `ImageController` is a class whose fields are:
    - the counter;
    - the queue's items;
    - the status store's status per id;
    - the ids drawn from the image service;
    - the downloads requested from it.
  - `GenerateImage` states the complete new state on every path.
  - The poll loop `AwaitOutput` runs over a finite trace of provider answers.
- `StatusRoute` (`status_controller.dfy`) covers `GET /status/:imageId`. It is a
  read-only function over the store's records.
- `WeightsApi` (`weights_api.dfy`) and `ProgressivePolling` (`progressive.dfy`) cover
  the Python client.
  - `WeightsApi` has the request that `api_call` builds: the URL, the headers, and the
    query parameters with `None` dropped and the rest stringified. It also has the
    response-type dispatch and the rewrapping of errors, and the requests of the public
    calls.
  - `ProgressivePolling` has `generate_progressive_image` as a loop over a finite trace
    of status answers. It yields the callbacks made and the outcome: returned, raised,
    or no result yet.
- `Types` (`types.dfy`) holds the shared records `StatusUpdate`, `Job` and `QueueItem`.

Services whose code is not part of this model are represented only by what the
controllers call on them:

- `size` and `enqueue` on the queue;
- `updateImageStatus` and `getImageStatus` on the status store;
- `generateImageId` and `downloadImage` on the image service.

The model does not give the queue an order of delivery. It does not protect terminal
statuses and does not keep timestamps.

## Model

| member | source | states |
|---|---|---|
| `ImageRoute.PromptErrors` | src/controllers/ImageController.ts:17-20 | the prompt passes exactly when it is present and at least 10 characters long; "Prompt is required" is reported exactly for an absent or empty prompt, and "Prompt is too short" exactly for a present prompt under 10 characters |
| `ImageRoute.Throttle` | src/controllers/ImageController.ts:44-51 | the cooldown step admits exactly when the counter is not negative; a counter of 0 becomes exactly 100 and other non-negative values stay; a negative counter drops the request and becomes exactly one less |
| `ImageRoute.TimerIsZeroOrHundred` | src/controllers/ImageController.ts:44-51 | starting from its initial 0 (line 15), the counter holds 0 before the first validated request and 100 after any number of them, and every request is admitted; the `while (generateTimer < 0)` branch is unreachable |
| `ImageRoute.ProviderPathExact` | src/controllers/ImageController.ts:62-65 | the provider path is taken iff FOOOCUS_ENABLED is set (non-empty) and `loraName` is absent, not a string, or the empty string; otherwise the queue path is taken |
| `ImageRoute.JobLoraName` | src/controllers/ImageController.ts:123-123 | the job's `loraName` is the query value exactly when that value is a string, otherwise null |
| `ImageRoute.FirstDelivery` | src/controllers/ImageController.ts:86-105 | the URL the poll loop ends with is never empty (a falsy `output[0]` keeps the loop going) |
| `ImageRoute.FirstDeliveryIsEarliest` | src/controllers/ImageController.ts:86-105 | if answer k is the first whose `output[0]` is truthy, the loop's URL is that answer's `output[0]` |
| `ImageRoute.FirstDeliveryNone` | src/controllers/ImageController.ts:86-105 | the loop yields no URL exactly when no answer in the trace has a truthy `output[0]` |
| `ImageRoute.AwaitOutput` | src/controllers/ImageController.ts:86-105 | the provider poll loop stops right after the first answer with a truthy `output[0]` and returns it, having read no other delivering answer; with none in the trace it reads the whole trace and returns nothing |
| `ImageRoute.ImageController.constructor` | src/controllers/ImageController.ts:15-32 | the counter starts at 0; the queue and store are the injected services' contents; no ids or downloads yet |
| `ImageRoute.ImageController.GenerateImage` | src/controllers/ImageController.ts:35-136 | the counter stays 0 or 100 and no request is dropped. An invalid prompt gives 400 with the details and changes nothing. A queue at or over MAX_QUEUE_SIZE gives 429 before any id is drawn, on either path, and leaves queue and store alone. The provider path leaves the queue alone; it downloads the first delivered URL and only then writes COMPLETED and answers `{success, imageId}`; with no delivery in the trace it has not answered. The queue path writes QUEUED and appends exactly one item `{id, data: {prompt}, job}`. The queue grows by at most one and only below the maximum, so a queue within capacity stays within it |
| `StatusRoute.ImageIdErrors` | src/controllers/StatusController.ts:9-11 | the `imageId` parameter passes exactly when it is present and non-empty; otherwise the one message is "imageId is required" |
| `StatusRoute.GetImageStatus` | src/controllers/StatusController.ts:20-37 | 400 with the validation details exactly when `imageId` fails validation; 404 exactly when it is valid and the store has no record for it; otherwise the stored record, unchanged |
| `WeightsApi.Digits` | libs/weights_api.py:49-49 | the decimal form `str()` gives a natural number is a canonical numeral (digits only, no leading zero except "0") whose decimal value is the number |
| `WeightsApi.DigitsOfDecimal` | libs/weights_api.py:49-49 | every canonical numeral is the decimal form of its own value, so the decimal form of n is the only canonical numeral denoting n |
| `WeightsApi.PyStrOf` | libs/weights_api.py:49-49 | `str(value)` of a string is the string; of a non-negative integer the canonical numeral whose value it is; of a negative integer "-" followed by the canonical numeral of its magnitude; of a boolean "True" or "False" |
| `WeightsApi.QueryParams` | libs/weights_api.py:45-49 | the query never has more entries than the body |
| `WeightsApi.QueryParamsMembers` | libs/weights_api.py:45-49 | a (key, text) pair is in the query exactly when the body maps that key to a value other than None whose `str()` is the text |
| `WeightsApi.QueryParamsDropNone` | libs/weights_api.py:45-49 | every query key comes from a body item whose value is not None, and a body with no None value loses no item |
| `WeightsApi.QueryParamsDistinct` | libs/weights_api.py:45-49 | a body whose keys are distinct, as a dict's are, gives a query whose keys are distinct, so the pairs are exactly the `params` dict |
| `WeightsApi.BuildQueryParams` | libs/weights_api.py:46-49 | the loop that fills `params` produces exactly the query: the non-None items, stringified, in the body's order |
| `WeightsApi.Headers` | libs/weights_api.py:37-40 | every request carries the JSON content type and `x-api-key`; a missing API key is sent as the text "None" |
| `WeightsApi.ShapeApiCall` | libs/weights_api.py:42-56 | the URL is `endpoint + path`; a GET with a non-empty body sends the body as query parameters; every other request (a GET with an empty or no body included) sends the method and body as they are |
| `WeightsApi.DecodeAs` | libs/weights_api.py:95-100 | a response is decoded exactly when the response type is 'json' (parsed as JSON) or 'text' (read as text); any other type raises "Unsupported response type: " followed by the type |
| `WeightsApi.ApiCallWrapper` | libs/weights_api.py:89-101 | the call succeeds exactly when the health check passes, the request succeeds and the response type is 'json' or 'text'. A health failure, a client error and an unsupported response type each raise a message with the generic "Weights API Error: The API is not reachable" prefix; the unsupported type is detected only after the request was sent |
| `WeightsApi.GenerateImageQuery` | libs/weights_api.py:122-127 | `generate_image` sends a GET to `endpoint + "/generateImage"` whose query is the prompt, plus `loraName` only when one is given |
| `WeightsApi.GetStatusRequest` | libs/weights_api.py:104-108 | `get_status` sends a GET to `endpoint + "/status/" + imageId` with no body and reads the answer as JSON |
| `WeightsApi.QuotaAndSearchRequests` | libs/weights_api.py:110-120 | `get_quota` sends a bodiless GET to `/quota` and reads the answer as text; `search_loras` sends the query as its one query parameter |
| `ProgressivePolling.FailureMessage` | libs/weights_api.py:159-160 | the message raised for a FAILED status is "Image generation failed: " followed by the record's error, or by "None" when it has none |
| `ProgressivePolling.GenerateProgressiveImage` | libs/weights_api.py:130-161 | the client loop makes exactly the callbacks and reaches exactly the outcome of the fold `Progressive` over the submission, the first status and the poll trace |
| `ProgressivePolling.StopIndex` | libs/weights_api.py:145-161 | the loop ends at the first answer that raised or is COMPLETED or FAILED; every earlier answer is none of these |
| `ProgressivePolling.FiredShift` | libs/weights_api.py:149-154 | after the first polled answer, its `lastModifiedDate` is the last seen value for the rest of the trace |
| `ProgressivePolling.WatchMatchesReference` | libs/weights_api.py:144-161 | inside the loop the callback fires exactly at the answers whose `lastModifiedDate` differs from the previous answer's, the first compared with None, up to and including the terminal record; the outcome is fixed by the first terminal answer |
| `ProgressivePolling.CompletedAtOnce` | libs/weights_api.py:139-143 | a first status of COMPLETED is returned after exactly one callback |
| `ProgressivePolling.ProgressiveMatchesReference` | libs/weights_api.py:137-161 | otherwise the first status gets one callback, followed by the loop's callbacks and outcome as the reference gives them |
| `ProgressivePolling.InitialFailureKeepsPolling` | libs/weights_api.py:139-145 | a first status of FAILED raises nothing: the outcome is decided by the polled answers, and with none there is no result yet |
| `ProgressivePolling.ReturnsFirstCompleted` | libs/weights_api.py:156-161 | the loop returns the first polled COMPLETED record when no earlier answer ended it |
| `ProgressivePolling.RaisesFirstFailed` | libs/weights_api.py:159-160 | the loop raises with the record's error at the first polled FAILED status when no earlier answer ended it |

## Left out

- HTTP and network I/O are replaced by their outcomes, given as inputs.
  - The provider's prediction submission is left out: its request body, its constants and the prediction id.
  - The poll answers are a trace of `Prediction` values.
  - The client's HTTP results are a raw body or a client-error message.
  - A `fetch` or `res.json()` that throws in the provider path is not modelled.
- The unawaited asset check after the provider loop (src/controllers/ImageController.ts:107-115) is not modelled. It can send a 500 after the success answer.
- Timing is not modelled: the 200 ms provider delay and the client's 0.1 s delay have no effect on outcomes.
- Both poll loops have no attempt bound. They run over finite traces, and a trace with no terminal answer gives `StillPolling` or `NoResult`. Termination of the real loops is not claimed.
- The queue, status, image and browser services are not part of this model.
  - Queue delivery order and the browser worker are not modelled.
  - Status timestamps and terminal-state protection are not modelled.
  - `ImageController` tracks only the status value per id, not the whole record.
  - `downloadImage` succeeding or throwing is an input.
- Validation is reduced to the prompt and `imageId` rules.
  - yup's type check on `loraName` is not modelled. yup answers 400 for an array value, while the model routes it as "not a string".
  - For an empty prompt the model lists "Prompt is too short" before "Prompt is required". The order in which yup reports the two is not modelled.
  - Lengths count characters, where JavaScript counts UTF-16 code units.
  - Non-yup validation errors, which the handlers swallow, are not modelled.
- The provider's `output` is modelled as an array of strings. Other truthy shapes are not modelled.
- The job's notification emitter and response handle are not modelled, nor the API-key middleware or dependency wiring.
- Concurrent requests sharing the cooldown counter and the queue are not modelled; calls run one at a time.
- Python client details left out:
  - session creation and closing;
  - the health-check request itself (its failure message is an input);
  - JSON parsing of a response (a payload is its raw text);
  - an `endpoint` of None;
  - a missing `imageId` or `status` key in an answer.
