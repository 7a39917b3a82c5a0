/** The Python client's `generate_progressive_image`: submit a prompt, read the status
    once, then keep polling, reporting every change of `lastModifiedDate` to the
    caller's callback, until the status is COMPLETED (return it) or FAILED (raise).
    The poll answers are a finite trace; a trace that ends before a terminal answer
    means the call has not returned yet. */
module ProgressivePolling {
  import opened Types

  const GenerationFailed := "Image generation failed: "

  /** One `get_status` call: the decoded record, or the message of the exception it raised. */
  datatype Poll = Reply(update: StatusUpdate) | CallFailed(message: string)

  /** The submission: the id the server answered `generate_image` with, or the message of
      the exception raised before any callback, either by `_check_health` (which runs
      first) or by the `generate_image` call itself. */
  datatype Submission = Submitted(imageId: string) | SubmitFailed(message: string)

  /** One call of the caller's callback: `callback(status, {'imageId': imageId})`. */
  datatype Callback = Callback(status: Status, imageId: string)

  datatype Outcome =
    | Returned(response: StatusUpdate)  // the COMPLETED record is returned
    | Raised(message: string)           // an exception escapes with this message
    | NoResult                          // the trace ended before a terminal answer

  /** The callbacks made, in order, and how the call ended. */
  datatype Run = Run(callbacks: seq<Callback>, outcome: Outcome)

  /** The message raised for a FAILED status; a missing error prints as None. */
  function FailureMessage(error: Option<string>): (m: string)
    ensures |m| >= |GenerationFailed| && m[..|GenerationFailed|] == GenerationFailed
    ensures error.Some? ==> m[|GenerationFailed|..] == error.value
    ensures error.None? ==> m[|GenerationFailed|..] == "None"
  {
    GenerationFailed + (if error.Some? then error.value else "None")
  }

  // ---------------------------------------------------------------- the state machine

  /** The polling loop as a fold: `seen` is the last `lastModifiedDate` reported. */
  function Watch(imageId: string, polls: seq<Poll>, seen: Option<string>, callbacks: seq<Callback>): Run
    decreases |polls|
  {
    if polls == [] then Run(callbacks, NoResult)
    else match polls[0]
      case CallFailed(m) => Run(callbacks, Raised(m))
      case Reply(u) =>
        var fired := if seen != u.lastModifiedDate then callbacks + [Callback(u.status, imageId)] else callbacks;
        if u.status == Completed then Run(fired, Returned(u))
        else if u.status == Failed then Run(fired, Raised(FailureMessage(u.error)))
        else Watch(imageId, polls[1..], u.lastModifiedDate, fired)
  }

  /** The whole call: submission, the first status read, then the loop with nothing seen. */
  function Progressive(submission: Submission, first: Poll, polls: seq<Poll>): Run
  {
    match submission
    case SubmitFailed(m) => Run([], Raised(m))
    case Submitted(imageId) =>
      match first
      case CallFailed(m) => Run([], Raised(m))
      case Reply(u) =>
        if u.status == Completed then Run([Callback(u.status, imageId)], Returned(u))
        else Watch(imageId, polls, None, [Callback(u.status, imageId)])
  }

  /** The client-side loop over the trace of poll answers. */
  method GenerateProgressiveImage(submission: Submission, first: Poll, polls: seq<Poll>)
    returns (callbacks: seq<Callback>, outcome: Outcome)
    ensures Run(callbacks, outcome) == Progressive(submission, first, polls)
  {
    if submission.SubmitFailed? {
      return [], Raised(submission.message);
    }
    var imageId := submission.imageId;
    if first.CallFailed? {
      return [], Raised(first.message);
    }
    var statusResponse := first.update;
    callbacks := [Callback(statusResponse.status, imageId)];
    if statusResponse.status == Completed {
      return callbacks, Returned(statusResponse);
    }
    var oldModifiedDate: Option<string> := None;
    outcome := NoResult;
    var i := 0;
    while i < |polls|
      invariant i <= |polls|
      invariant Progressive(submission, first, polls) == Watch(imageId, polls[i..], oldModifiedDate, callbacks)
    {
      var poll := polls[i];
      assert polls[i..][1..] == polls[i + 1..];
      if poll.CallFailed? {
        return callbacks, Raised(poll.message);
      }
      statusResponse := poll.update;
      var lastModifiedDate := statusResponse.lastModifiedDate;
      if oldModifiedDate != lastModifiedDate {
        oldModifiedDate := lastModifiedDate;
        callbacks := callbacks + [Callback(statusResponse.status, imageId)];
      }
      if statusResponse.status == Completed {
        outcome := Returned(statusResponse);
        break;
      }
      if statusResponse.status == Failed {
        return callbacks, Raised(FailureMessage(statusResponse.error));
      }
      i := i + 1;
    }
  }

  // ---------------------------------------------------------------- a reference by index

  /** An answer that ends the loop: a raised call, COMPLETED or FAILED. */
  predicate Terminal(p: Poll)
  {
    p.CallFailed? || p.update.status == Completed || p.update.status == Failed
  }

  /** The index of the first answer that ends the loop, or the trace length if none does. */
  function StopIndex(polls: seq<Poll>): (k: nat)
    ensures k <= |polls|
    ensures forall j :: 0 <= j < k ==> !Terminal(polls[j])
    ensures k < |polls| ==> Terminal(polls[k])
  {
    if polls == [] || Terminal(polls[0]) then 0 else 1 + StopIndex(polls[1..])
  }

  /** How the loop ends, read off the answer at StopIndex. */
  function StopOutcome(polls: seq<Poll>): Outcome
  {
    var k := StopIndex(polls);
    if k == |polls| then NoResult
    else match polls[k]
      case CallFailed(m) => Raised(m)
      case Reply(u) => if u.status == Completed then Returned(u) else Raised(FailureMessage(u.error))
  }

  /** How many answers reach the callback check: the non-terminal ones, and the terminal
      one too when it is a record rather than a raised call. */
  function Processed(polls: seq<Poll>): (n: nat)
    ensures n <= |polls|
  {
    var k := StopIndex(polls);
    if k < |polls| && polls[k].Reply? then k + 1 else k
  }

  function Date(p: Poll): Option<string>
  {
    if p.Reply? then p.update.lastModifiedDate else None
  }

  /** The callback fires at answer k when its date differs from the date of answer
      k - 1, or from `prev` for the first answer. */
  predicate FiresAt(polls: seq<Poll>, prev: Option<string>, k: nat)
    requires k < |polls|
  {
    polls[k].Reply? && Date(polls[k]) != (if k == 0 then prev else Date(polls[k - 1]))
  }

  /** The callbacks fired by the first n answers, by index. */
  function Fired(imageId: string, polls: seq<Poll>, prev: Option<string>, n: nat): seq<Callback>
    requires n <= |polls|
  {
    if n == 0 then []
    else Fired(imageId, polls, prev, n - 1)
         + (if FiresAt(polls, prev, n - 1) then [Callback(polls[n - 1].update.status, imageId)] else [])
  }

  /** Dropping the first answer makes its date the `prev` of the rest. */
  lemma {:induction false} FiredShift(imageId: string, polls: seq<Poll>, prev: Option<string>, n: nat)
    requires n < |polls| && polls[0].Reply?
    ensures Fired(imageId, polls, prev, n + 1)
         == (if FiresAt(polls, prev, 0) then [Callback(polls[0].update.status, imageId)] else [])
            + Fired(imageId, polls[1..], Date(polls[0]), n)
  {
    if n > 0 {
      FiredShift(imageId, polls, prev, n - 1);
      assert FiresAt(polls, prev, n) == FiresAt(polls[1..], Date(polls[0]), n - 1);
    }
  }

  /** The fold agrees with the reference: the callbacks are exactly those of the answers
      whose date changed, up to and including the terminal record, and the outcome is
      decided by the first terminal answer. */
  lemma {:induction false} WatchMatchesReference(imageId: string, polls: seq<Poll>, prev: Option<string>,
                                                 callbacks: seq<Callback>)
    ensures Watch(imageId, polls, prev, callbacks)
         == Run(callbacks + Fired(imageId, polls, prev, Processed(polls)), StopOutcome(polls))
    decreases |polls|
  {
    if polls != [] && !Terminal(polls[0]) {
      var u := polls[0].update;
      var fired := if prev != u.lastModifiedDate then callbacks + [Callback(u.status, imageId)] else callbacks;
      WatchMatchesReference(imageId, polls[1..], u.lastModifiedDate, fired);
      assert StopIndex(polls) == 1 + StopIndex(polls[1..]);
      assert Processed(polls) == 1 + Processed(polls[1..]);
      FiredShift(imageId, polls, prev, Processed(polls[1..]));
    } else if polls != [] {
      assert StopIndex(polls) == 0;
    }
  }

  /** With the first status COMPLETED the call returns it after exactly one callback. */
  lemma CompletedAtOnce(imageId: string, u: StatusUpdate, polls: seq<Poll>)
    requires u.status == Completed
    ensures Progressive(Submitted(imageId), Reply(u), polls) == Run([Callback(Completed, imageId)], Returned(u))
  {
  }

  /** Otherwise the first status is reported once, and then the callbacks and outcome are
      those the reference gives for the polled answers. */
  lemma ProgressiveMatchesReference(imageId: string, u: StatusUpdate, polls: seq<Poll>)
    requires u.status != Completed
    ensures Progressive(Submitted(imageId), Reply(u), polls)
         == Run([Callback(u.status, imageId)] + Fired(imageId, polls, None, Processed(polls)), StopOutcome(polls))
  {
    WatchMatchesReference(imageId, polls, None, [Callback(u.status, imageId)]);
  }

  /** An initial FAILED status raises nothing by itself: the loop polls again, and with no
      further answer there is no result yet. */
  lemma InitialFailureKeepsPolling(imageId: string, u: StatusUpdate, polls: seq<Poll>)
    requires u.status == Failed
    ensures Progressive(Submitted(imageId), Reply(u), polls).outcome == StopOutcome(polls)
    ensures Progressive(Submitted(imageId), Reply(u), []).outcome == NoResult
  {
    WatchMatchesReference(imageId, polls, None, [Callback(u.status, imageId)]);
  }

  /** The loop returns the first polled COMPLETED record when no earlier answer ended it. */
  lemma {:induction false} ReturnsFirstCompleted(polls: seq<Poll>, k: nat)
    requires k < |polls| && polls[k].Reply? && polls[k].update.status == Completed
    requires forall j :: 0 <= j < k ==> !Terminal(polls[j])
    ensures StopOutcome(polls) == Returned(polls[k].update)
  {
    assert StopIndex(polls) == k;
  }

  /** The loop raises with the record's error at the first polled FAILED status when no
      earlier answer ended it. */
  lemma {:induction false} RaisesFirstFailed(polls: seq<Poll>, k: nat)
    requires k < |polls| && polls[k].Reply? && polls[k].update.status == Failed
    requires forall j :: 0 <= j < k ==> !Terminal(polls[j])
    ensures StopOutcome(polls) == Raised(FailureMessage(polls[k].update.error))
  {
    assert StopIndex(polls) == k;
  }
}
