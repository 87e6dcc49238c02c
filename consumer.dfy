/**
 * The consumer (RedisPipelineConsumer): one poll takes the lock, checks
 * the stopped sentinel, pops the head message, runs the handler and then
 * either resets the retry count or requeues the message at the head and
 * escalates the retry count. The lock, the handler's outcome and the clock
 * are inputs of each poll.
 */
module Consumer {
  import opened Wrappers
  import opened StateCodec
  import opened Extensions
  import opened Store

  /** The retry limit a consumer gets when none is configured: `int.MaxValue`. */
  const DEFAULT_MAX_RETRIES: int := INT_MAX

  /** What the handler did with the message it was given. */
  datatype Outcome = Returned(success: bool) | Threw(error: string)

  /** The environment of one poll: lock acquisition, handler outcome, current ticks. */
  datatype PollInput = PollInput(lockAcquired: bool, outcome: Outcome, now: int)

  /** What one poll reports, which message the handler saw, and the store after it. */
  datatype PollResult = PollResult(progress: bool, handled: Option<string>, after: Snapshot)

  /**
   * The value written to the state slot after a failed handling, given the
   * state read before the pop, or `None` when nothing is written: an absent
   * state gets "1", a parsable count is incremented (32-bit) and written as
   * the sentinel once it reaches `maxRetries`; other text is not touched.
   */
  function FailureWrite(observed: Option<string>, maxRetries: int): (written: Option<string>)
    ensures written.None? <==> observed.Some? && TryParseInt(observed.value).None?
    ensures observed.None? ==> written == Some("1")
    ensures written.Some? ==> IsStopped(written) || TryParseInt(written.value).Some?
  {
    match observed
    case None => Some(FormatInt(1))
    case Some(raw) =>
      match TryParseInt(raw)
      case Some(count) =>
        var next := WrappingIncrement(count);
        ParseFormatRoundTrip(next);
        if next >= maxRetries then Some(STATE_STOPPED) else Some(FormatInt(next))
      case None => None
  }

  /** The state slot after a failed handling that read `observed`. */
  function FailureState(observed: Option<string>, maxRetries: int): (after: Option<string>)
    ensures after.Some?
    ensures observed.Some? && TryParseInt(observed.value).None? ==> after == observed
    ensures IsStopped(after) && !IsStopped(observed) ==> observed.Some? && TryParseInt(observed.value).Some?
  {
    var written := FailureWrite(observed, maxRetries);
    if written.Some? then written else observed
  }

  /** The whole effect of one poll on the store, as one atomic step. */
  function PollStep(s: Snapshot, input: PollInput, maxRetries: int): (r: PollResult)
    ensures r.handled.None? ==> !r.progress && r.after == s
    ensures r.handled.Some? ==> input.lockAcquired && !IsStopped(s.state) && s.messages != [] && r.handled.value == s.messages[0]
    ensures !input.lockAcquired || IsStopped(s.state) || s.messages == [] ==> r.handled.None?
    ensures r.after.messages == if r.progress then s.messages[1..] else s.messages
    ensures r.progress <==> r.handled.Some? && input.outcome == Returned(true)
    ensures r.progress ==> r.after.state == Some("0") && r.after.failure == None
  {
    if !input.lockAcquired || IsStopped(s.state) || s.messages == [] then
      PollResult(false, None, s)
    else
      var message := s.messages[0];
      var rest := s.messages[1..];
      match input.outcome
      case Returned(true) =>
        PollResult(true, Some(message), Snapshot(rest, Some(FormatInt(0)), None))
      case Returned(false) =>
        PollResult(false, Some(message), Snapshot([message] + rest, FailureState(s.state, maxRetries), s.failure))
      case Threw(error) =>
        PollResult(false, Some(message),
          Snapshot([message] + rest, FailureState(s.state, maxRetries), Some(Failure(error, message, input.now))))
  }

  /** The polls of a consumer loop run until cancellation, one input per poll. */
  function Run(s: Snapshot, inputs: seq<PollInput>, maxRetries: int): (polls: seq<PollResult>)
    ensures |polls| == |inputs|
    decreases |inputs|
  {
    if inputs == [] then []
    else
      var first := PollStep(s, inputs[0], maxRetries);
      [first] + Run(first.after, inputs[1..], maxRetries)
  }

  /** The store after a sequence of polls that started from `s`. */
  function Final(s: Snapshot, polls: seq<PollResult>): Snapshot {
    if polls == [] then s else polls[|polls| - 1].after
  }

  class Consumer {
    const maxRetries: int
    const store: Store

    constructor (maxRetries: int, store: Store)
      requires IsInt32(maxRetries)
      ensures this.maxRetries == maxRetries && this.store == store
    {
      this.maxRetries := maxRetries;
      this.store := store;
    }

    /** One poll; `progress` is true exactly when a message was handled successfully. */
    method Poll(lockAcquired: bool, outcome: Outcome, now: int) returns (progress: bool)
      modifies store
      ensures var r := PollStep(old(store.Snap()), PollInput(lockAcquired, outcome, now), maxRetries);
        progress == r.progress && store.Snap() == r.after
    {
      if !lockAcquired {
        return false;
      }
      var observed := store.state;
      if IsStopped(observed) {
        return false;
      }
      if store.messages == [] {
        return false;
      }
      var message := store.messages[0];
      store.messages := store.messages[1..];
      var success := HandleMessage(message, outcome, now);
      if success {
        HandleSuccess();
        return true;
      }
      HandleFailure(message, observed);
      return false;
    }

    /** Runs the handler; a throw is recorded in the failure slot and counts as failure. */
    method HandleMessage(message: string, outcome: Outcome, now: int) returns (success: bool)
      modifies store
      ensures success <==> outcome == Returned(true)
      ensures store.messages == old(store.messages) && store.state == old(store.state)
      ensures store.failure == if outcome.Threw? then Some(Failure(outcome.error, message, now)) else old(store.failure)
    {
      success := false;
      match outcome {
        case Returned(b) =>
          success := b;
        case Threw(error) =>
          StoreFailure(message, error, now);
      }
    }

    /** Overwrites the failure slot with the latest failure. */
    method StoreFailure(message: string, error: string, now: int)
      modifies store
      ensures store.failure == Some(Failure(error, message, now))
      ensures store.messages == old(store.messages) && store.state == old(store.state)
    {
      store.failure := Some(Failure(error, message, now));
    }

    /** One transaction: the retry count goes back to "0" and the failure slot is deleted. */
    method HandleSuccess()
      modifies store
      ensures store.state == Some(FormatInt(0)) && store.failure == None
      ensures store.messages == old(store.messages)
    {
      store.state, store.failure := Some(FormatInt(0)), None;
    }

    /** Requeues the message at the head and escalates the count read before the pop. */
    method HandleFailure(message: string, observed: Option<string>)
      modifies store
      ensures store.messages == [message] + old(store.messages)
      ensures var written := FailureWrite(observed, maxRetries);
        store.state == if written.Some? then written else old(store.state)
      ensures store.failure == old(store.failure)
    {
      store.messages := [message] + store.messages;
      if observed.None? {
        store.state := Some(FormatInt(1));
      } else {
        var parsed := TryParseInt(observed.value);
        if parsed.Some? {
          var count := WrappingIncrement(parsed.value);
          var shouldStop := count >= maxRetries;
          store.state := if shouldStop then Some(STATE_STOPPED) else Some(FormatInt(count));
        }
      }
    }

    /**
     * The consumer loop, cancelled after `|inputs|` polls; `delayed[i]`
     * says whether the loop waited the pull interval after poll `i`.
     */
    method Execute(inputs: seq<PollInput>) returns (delayed: seq<bool>)
      modifies store
      ensures var polls := Run(old(store.Snap()), inputs, maxRetries);
        store.Snap() == Final(old(store.Snap()), polls) &&
        |delayed| == |inputs| &&
        forall i :: 0 <= i < |inputs| ==> (delayed[i] <==> !polls[i].progress)
    {
      ghost var start := store.Snap();
      ghost var done: seq<PollResult> := [];
      delayed := [];
      var i := 0;
      while i < |inputs|
        invariant 0 <= i <= |inputs|
        invariant |done| == i && |delayed| == i
        invariant done + Run(store.Snap(), inputs[i..], maxRetries) == Run(start, inputs, maxRetries)
        invariant store.Snap() == Final(start, done)
        invariant forall j :: 0 <= j < i ==> (delayed[j] <==> !done[j].progress)
      {
        ghost var r := PollStep(store.Snap(), inputs[i], maxRetries);
        assert inputs[i..][1..] == inputs[i + 1..];
        var success := Poll(inputs[i].lockAcquired, inputs[i].outcome, inputs[i].now);
        delayed := delayed + [!success];
        done := done + [r];
        i := i + 1;
      }
      assert inputs[i..] == [];
    }
  }
}
