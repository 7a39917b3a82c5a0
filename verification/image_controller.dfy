/** The `/generateImage` route: request validation, the module-level cooldown counter,
    the queue capacity check, and the choice between the external provider (submit,
    poll, download) and the image queue.  The queue, the status store and the image
    service are modelled by the state the controller observes through them. */
module ImageRoute {
  import opened Types

  const PromptRequired := "Prompt is required"
  const PromptTooShort := "Prompt is too short"
  const MinPromptLength := 10

  /** A query-string value as the route sees it: absent, a string, or some other
      value (an array or an object, as the query parser builds for repeated keys). */
  datatype QueryValue = Missing | Text(s: string) | NonText

  datatype Query = Query(prompt: Option<string>, loraName: QueryValue)

  /** What the handler does with the HTTP response. */
  datatype Response =
    | BadRequest(details: seq<string>)  // 400, `{error: "Validation error", details}`
    | Busy                              // 429, "Server is busy. Please try again later."
    | Accepted(imageId: string)         // `{success: true, imageId}`
    | Dropped                           // the cooldown branch returns without answering
    | StillPolling                      // the provider produced no output within the trace
    | Rejected                          // downloadImage threw; the handler's promise rejects

  /** One answer of the provider's prediction endpoint: `output` is null or absent
      (None) or an array of asset URLs. */
  datatype Prediction = Prediction(output: Option<seq<string>>)

  /** One call of the image service's downloadImage(url, imageId). */
  datatype Download = Download(url: string, imageId: string)

  // ---------------------------------------------------------------- validation

  /** The messages the query schema reports for the prompt: it is required (absent
      and empty strings fail) and must be at least ten characters long. */
  function PromptErrors(prompt: Option<string>): (errs: seq<string>)
    ensures errs == [] <==> prompt.Some? && |prompt.value| >= MinPromptLength
    ensures PromptRequired in errs <==> prompt == None || prompt == Some("")
    ensures PromptTooShort in errs <==> prompt.Some? && |prompt.value| < MinPromptLength
  {
    match prompt
    case None => [PromptRequired]
    case Some(s) =>
      (if |s| < MinPromptLength then [PromptTooShort] else [])
      + (if s == "" then [PromptRequired] else [])
  }

  // ---------------------------------------------------------------- cooldown counter

  /** The counter after the cooldown step, and whether the request goes on. */
  datatype ThrottleStep = ThrottleStep(timer: int, admitted: bool)

  /** The cooldown step run by every request that passed validation: a zero counter
      is set to 100; a negative one is decremented and the handler returns without
      answering (the loop body returns on its first iteration); any other value is
      left alone. */
  function Throttle(timer: int): (step: ThrottleStep)
    ensures step.admitted <==> timer >= 0
    ensures step.admitted ==> step.timer > 0 && (timer != 0 ==> step.timer == timer)
    ensures timer == 0 ==> step.timer == 100
    ensures !step.admitted ==> step.timer == timer - 1
  {
    if timer == 0 then ThrottleStep(100, true)
    else if timer < 0 then ThrottleStep(timer - 1, false)
    else ThrottleStep(timer, true)
  }

  /** The counter after `n` validated requests, starting from its initial value 0. */
  function TimerAfter(n: nat): int
  {
    if n == 0 then 0 else Throttle(TimerAfter(n - 1)).timer
  }

  /** The counter only ever holds 0 or 100, so the cooldown step admits every request. */
  lemma {:induction false} TimerIsZeroOrHundred(n: nat)
    ensures TimerAfter(n) == (if n == 0 then 0 else 100)
    ensures Throttle(TimerAfter(n)).admitted
  {
    if n > 0 {
      TimerIsZeroOrHundred(n - 1);
    }
  }

  // ---------------------------------------------------------------- routing

  /** JavaScript truthiness of an environment variable: set and not empty. */
  predicate EnvFlagSet(env: Option<string>)
  {
    env.Some? && env.value != ""
  }

  /** JavaScript truthiness of a query value. */
  predicate Truthy(v: QueryValue)
  {
    match v
    case Missing => false
    case Text(s) => s != ""
    case NonText => true
  }

  /** The route condition: the provider flag is set and `loraName` is falsy or not a string. */
  predicate TakesProviderPath(fooocusEnabled: Option<string>, loraName: QueryValue)
  {
    EnvFlagSet(fooocusEnabled) && (!Truthy(loraName) || !loraName.Text?)
  }

  /** The provider path is taken exactly when the flag is set and no non-empty
      `loraName` string was given; an empty `loraName` goes to the provider. */
  lemma ProviderPathExact(fooocusEnabled: Option<string>, loraName: QueryValue)
    ensures TakesProviderPath(fooocusEnabled, loraName)
        <==> EnvFlagSet(fooocusEnabled) && (loraName == Missing || loraName == NonText || loraName == Text(""))
    ensures !TakesProviderPath(fooocusEnabled, loraName)
        <==> !EnvFlagSet(fooocusEnabled) || (loraName.Text? && loraName.s != "")
  {
  }

  /** The job's `loraName`: the query value when it is a string, otherwise null. */
  function JobLoraName(loraName: QueryValue): (name: Option<string>)
    ensures name.Some? <==> loraName.Text?
    ensures name.Some? ==> name.value == loraName.s
  {
    if loraName.Text? then Some(loraName.s) else None
  }

  // ---------------------------------------------------------------- provider polling

  /** JavaScript truthiness of the loop's `output` variable (None is null or undefined). */
  predicate JsTruthy(output: Option<string>)
  {
    output.Some? && output.value != ""
  }

  /** `data.output[0]` when `data.output` is truthy: undefined (None) for an empty array. */
  function OutputHead(p: Prediction): Option<string>
    requires p.output.Some?
  {
    if |p.output.value| > 0 then Some(p.output.value[0]) else None
  }

  /** A poll answer that ends the loop: its `output[0]` is a non-empty string. */
  predicate Delivers(p: Prediction)
  {
    p.output.Some? && JsTruthy(OutputHead(p))
  }

  function DeliveredUrl(p: Prediction): string
    requires Delivers(p)
  {
    p.output.value[0]
  }

  /** The asset URL taken from the first answer that delivers one, if any does. */
  function FirstDelivery(polls: seq<Prediction>): (url: Option<string>)
    ensures url.Some? ==> url.value != ""
  {
    if polls == [] then None
    else if Delivers(polls[0]) then Some(DeliveredUrl(polls[0]))
    else FirstDelivery(polls[1..])
  }

  /** FirstDelivery picks the earliest delivering answer and finds one whenever one exists. */
  lemma {:induction false} FirstDeliveryIsEarliest(polls: seq<Prediction>, k: nat)
    requires k < |polls| && Delivers(polls[k])
    requires forall j :: 0 <= j < k ==> !Delivers(polls[j])
    ensures FirstDelivery(polls) == Some(DeliveredUrl(polls[k]))
  {
    if k > 0 {
      FirstDeliveryIsEarliest(polls[1..], k - 1);
    }
  }

  /** No delivering answer in the trace means no asset URL. */
  lemma {:induction false} FirstDeliveryNone(polls: seq<Prediction>)
    ensures FirstDelivery(polls).None? <==> forall j :: 0 <= j < |polls| ==> !Delivers(polls[j])
  {
    if polls != [] {
      FirstDeliveryNone(polls[1..]);
      assert forall j :: 1 <= j < |polls| ==> polls[j] == polls[1..][j - 1];
    }
  }

  /** The provider poll loop over a finite trace of answers: it stops at the first
      answer whose `output[0]` is truthy and returns that URL; `consumed` is the
      number of answers read.  An exhausted trace gives None. */
  method AwaitOutput(polls: seq<Prediction>) returns (output: Option<string>, consumed: nat)
    ensures consumed <= |polls|
    ensures output == FirstDelivery(polls)
    ensures output.Some? ==>
      0 < consumed && Delivers(polls[consumed - 1]) && output.value == DeliveredUrl(polls[consumed - 1])
      && forall j :: 0 <= j < consumed - 1 ==> !Delivers(polls[j])
    ensures output.None? ==> consumed == |polls| && forall j :: 0 <= j < |polls| ==> !Delivers(polls[j])
  {
    output := None;
    consumed := 0;
    while !JsTruthy(output) && consumed < |polls|
      invariant consumed <= |polls|
      invariant !JsTruthy(output) ==> forall j :: 0 <= j < consumed ==> !Delivers(polls[j])
      invariant !JsTruthy(output) ==> FirstDelivery(polls) == FirstDelivery(polls[consumed..])
      invariant JsTruthy(output) ==>
        0 < consumed && Delivers(polls[consumed - 1]) && output.value == DeliveredUrl(polls[consumed - 1])
        && (forall j :: 0 <= j < consumed - 1 ==> !Delivers(polls[j]))
        && FirstDelivery(polls) == output
    {
      var answer := polls[consumed];
      assert polls[consumed..][1..] == polls[consumed + 1..];
      if answer.output.Some? {
        output := OutputHead(answer);
      }
      consumed := consumed + 1;
    }
    if !JsTruthy(output) {
      output := None;
    }
  }

  // ---------------------------------------------------------------- the controller

  class ImageController {
    /** The module-level cooldown counter. */
    var generateTimer: int
    /** The image queue's items, in the order they were enqueued. */
    var queue: seq<QueueItem>
    /** The status store's current status per image id. */
    var statuses: map<string, Status>
    /** The ids handed out by the image service's generateImageId, in order. */
    var issuedIds: seq<string>
    /** The image service's downloadImage calls, in order. */
    var downloads: seq<Download>
    /** The configured MAX_QUEUE_SIZE. */
    const maxQueueSize: int

    /** The counter has only ever been set to 100. */
    ghost predicate Valid()
      reads this
    {
      generateTimer == 0 || generateTimer == 100
    }

    constructor (maxQueueSize: int, queue: seq<QueueItem>, statuses: map<string, Status>)
      ensures Valid() && generateTimer == 0
      ensures this.maxQueueSize == maxQueueSize && this.queue == queue && this.statuses == statuses
      ensures issuedIds == [] && downloads == []
    {
      this.maxQueueSize := maxQueueSize;
      this.queue := queue;
      this.statuses := statuses;
      generateTimer := 0;
      issuedIds := [];
      downloads := [];
    }

    /** GET /generateImage.  `fooocusEnabled` is the FOOOCUS_ENABLED environment
        variable, `freshId` the id generateImageId returns, `polls` the provider's
        answers in order, `downloadSucceeds` whether downloadImage resolves. */
    method GenerateImage(query: Query, fooocusEnabled: Option<string>, freshId: string,
                         polls: seq<Prediction>, downloadSucceeds: bool) returns (r: Response)
      requires Valid()
      modifies this
      ensures Valid()
      ensures r != Dropped
      // an invalid prompt is answered with 400 and nothing changes
      ensures PromptErrors(query.prompt) != [] ==>
        r == BadRequest(PromptErrors(query.prompt)) && unchanged(this)
      ensures PromptErrors(query.prompt) == [] ==> generateTimer == 100
      // a full queue is answered with 429 before any id is drawn, on either path
      ensures PromptErrors(query.prompt) == [] && |old(queue)| >= maxQueueSize ==>
        r == Busy && queue == old(queue) && statuses == old(statuses)
        && issuedIds == old(issuedIds) && downloads == old(downloads)
      ensures PromptErrors(query.prompt) == [] && |old(queue)| < maxQueueSize ==>
        issuedIds == old(issuedIds) + [freshId]
      // the provider path leaves the queue alone and writes COMPLETED after the download
      ensures PromptErrors(query.prompt) == [] && |old(queue)| < maxQueueSize
              && TakesProviderPath(fooocusEnabled, query.loraName) ==>
        queue == old(queue) &&
        match FirstDelivery(polls)
        case None => r == StillPolling && statuses == old(statuses) && downloads == old(downloads)
        case Some(url) =>
          downloads == old(downloads) + [Download(url, freshId)] &&
          if downloadSucceeds then r == Accepted(freshId) && statuses == old(statuses)[freshId := Completed]
          else r == Rejected && statuses == old(statuses)
      // the queue path marks the id QUEUED and appends exactly one item
      ensures PromptErrors(query.prompt) == [] && |old(queue)| < maxQueueSize
              && !TakesProviderPath(fooocusEnabled, query.loraName) ==>
        r == Accepted(freshId) && statuses == old(statuses)[freshId := Queued]
        && queue == old(queue) + [QueueItem(freshId, ItemData(query.prompt.value),
                                            Job(query.prompt.value, JobLoraName(query.loraName), freshId))]
        && downloads == old(downloads)
      // capacity: the queue grows by at most one item, and only below the maximum
      ensures |queue| == |old(queue)| || (|queue| == |old(queue)| + 1 && |old(queue)| < maxQueueSize)
      ensures |old(queue)| <= maxQueueSize ==> |queue| <= maxQueueSize
    {
      var errs := PromptErrors(query.prompt);
      if errs != [] {
        r := BadRequest(errs);
        return;
      }
      var step := Throttle(generateTimer);
      generateTimer := step.timer;
      if !step.admitted {
        r := Dropped;
        return;
      }
      if |queue| >= maxQueueSize {
        r := Busy;
        return;
      }
      var prompt := query.prompt.value;
      var imageId := freshId;
      issuedIds := issuedIds + [imageId];
      if TakesProviderPath(fooocusEnabled, query.loraName) {
        var output, _ := AwaitOutput(polls);
        if output.None? {
          r := StillPolling;
          return;
        }
        downloads := downloads + [Download(output.value, imageId)];
        if !downloadSucceeds {
          r := Rejected;
          return;
        }
        statuses := statuses[imageId := Completed];
        r := Accepted(imageId);
      } else {
        statuses := statuses[imageId := Queued];
        var job := Job(prompt, JobLoraName(query.loraName), imageId);
        queue := queue + [QueueItem(imageId, ItemData(prompt), job)];
        r := Accepted(imageId);
      }
    }
  }
}
