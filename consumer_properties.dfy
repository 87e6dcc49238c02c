/** What one poll, and a run of polls, does to the pipeline's three slots. */
module ConsumerProperties {
  import opened Wrappers
  import opened StateCodec
  import opened Extensions
  import opened Store
  import opened Consumer

  /** Without the lock a poll reports no progress and touches nothing. */
  lemma PollWithoutLock(s: Snapshot, outcome: Outcome, now: int, maxRetries: int)
    ensures PollStep(s, PollInput(false, outcome, now), maxRetries) == PollResult(false, None, s)
  {
  }

  /** A stopped pipeline is not consumed: no pop, no handler call, no write. */
  lemma PollWhileStopped(s: Snapshot, input: PollInput, maxRetries: int)
    requires IsStopped(s.state)
    ensures PollStep(s, input, maxRetries) == PollResult(false, None, s)
  {
  }

  /** An empty queue gives no progress and no write. */
  lemma PollOnEmptyQueue(s: Snapshot, input: PollInput, maxRetries: int)
    requires s.messages == []
    ensures PollStep(s, input, maxRetries) == PollResult(false, None, s)
  {
  }

  /** A handled message is consumed, the count is reset to "0" and the failure slot is cleared. */
  lemma PollSuccess(s: Snapshot, now: int, maxRetries: int)
    requires !IsStopped(s.state) && s.messages != []
    ensures PollStep(s, PollInput(true, Returned(true), now), maxRetries)
      == PollResult(true, Some(s.messages[0]), Snapshot(s.messages[1..], Some("0"), None))
  {
  }

  /**
   * A failed handling (returned false or threw) reports no progress and
   * puts the popped message back at the head: the queue is as before.
   */
  lemma PollFailureRequeuesHead(s: Snapshot, input: PollInput, maxRetries: int)
    requires input.lockAcquired && !IsStopped(s.state) && s.messages != []
    requires input.outcome != Returned(true)
    ensures var r := PollStep(s, input, maxRetries);
      !r.progress && r.handled == Some(s.messages[0]) &&
      r.after.messages == s.messages && r.after.state == FailureState(s.state, maxRetries)
  {
  }

  /**
   * The failure slot is written only when the handler throws; a handler
   * that returns false leaves the previous record in place.
   */
  lemma FailureRecordOnlyWhenThrown(s: Snapshot, input: PollInput, maxRetries: int)
    requires input.lockAcquired && !IsStopped(s.state) && s.messages != []
    ensures var r := PollStep(s, input, maxRetries);
      match input.outcome
      case Threw(error) => r.after.failure == Some(Failure(error, s.messages[0], input.now))
      case Returned(false) => r.after.failure == s.failure
      case Returned(true) => r.after.failure == None
  {
  }

  /** After a failed poll, the next poll that gets through handles the same message again. */
  lemma HeadOfLineRetry(s: Snapshot, first: PollInput, second: PollInput, maxRetries: int)
    requires first.lockAcquired && !IsStopped(s.state) && s.messages != []
    requires first.outcome != Returned(true)
    requires second.lockAcquired
    requires !IsStopped(PollStep(s, first, maxRetries).after.state)
    ensures PollStep(PollStep(s, first, maxRetries).after, second, maxRetries).handled == Some(s.messages[0])
  {
  }

  /** An absent state becomes "1" on failure, whatever `maxRetries` is. */
  lemma FailureFromAbsent(maxRetries: int)
    ensures FailureState(None, maxRetries) == Some("1")
  {
  }

  /**
   * A count `n` becomes the sentinel once its 32-bit successor reaches
   * `maxRetries`, and that successor otherwise.
   */
  lemma FailureFromCount(n: int, maxRetries: int)
    requires IsInt32(n)
    ensures var next := WrappingIncrement(n);
      FailureState(Some(FormatInt(n)), maxRetries)
        == if next >= maxRetries then Some(STATE_STOPPED) else Some(FormatInt(next))
  {
    ParseFormatRoundTrip(n);
    FailureFromParsable(FormatInt(n), n, maxRetries);
  }

  /**
   * The same rule for any text `int.TryParse` accepts, canonical or not
   * ("007", "+5", "-0"): it is replaced by the sentinel once the 32-bit
   * successor of its value reaches `maxRetries`, and by that successor otherwise.
   */
  lemma FailureFromParsable(raw: string, n: int, maxRetries: int)
    requires TryParseInt(raw) == Some(n)
    ensures var next := WrappingIncrement(n);
      FailureState(Some(raw), maxRetries)
        == if next >= maxRetries then Some(STATE_STOPPED) else Some(FormatInt(next))
  {
  }

  /** A non-canonical count is incremented like any other: "007" fails to "8", and "+5" under limit 6 stops. */
  lemma FailureFromNonCanonical()
    ensures FailureState(Some("007"), 100) == Some("8")
    ensures FailureState(Some("+5"), 6) == Some(STATE_STOPPED)
  {
    ParseExamples();
    FailureFromParsable("007", 7, 100);
    FailureFromParsable("+5", 5, 6);
    assert FormatInt(8) == "8";
  }

  /**
   * Under the default limit a failing count stops the pipeline only when it
   * reaches `int.MaxValue`; a count already at `int.MaxValue` wraps to
   * `int.MinValue` instead of stopping.
   */
  lemma DefaultLimitStopsOnlyAtIntMax(n: int)
    requires IsInt32(n)
    ensures IsStopped(FailureState(Some(FormatInt(n)), DEFAULT_MAX_RETRIES)) <==> n == INT_MAX - 1
    ensures n == INT_MAX ==> FailureState(Some(FormatInt(n)), DEFAULT_MAX_RETRIES) == Some(FormatInt(INT_MIN))
  {
    FailureFromCount(n, DEFAULT_MAX_RETRIES);
    NumericNeverStopped(WrappingIncrement(n));
  }

  /** Text that is neither absent nor a count is left as it is. */
  lemma FailureKeepsUnparsable(raw: string, maxRetries: int)
    requires TryParseInt(raw).None?
    ensures FailureState(Some(raw), maxRetries) == Some(raw)
  {
  }

  /** Every poll is locked and the handler fails (returns false or throws). */
  predicate AllFailing(inputs: seq<PollInput>) {
    forall i :: 0 <= i < |inputs| ==> inputs[i].lockAcquired && inputs[i].outcome != Returned(true)
  }

  lemma AllFailingTail(inputs: seq<PollInput>)
    requires inputs != [] && AllFailing(inputs)
    ensures AllFailing(inputs[1..])
  {
    forall i | 0 <= i < |inputs[1..]| ensures inputs[1..][i] == inputs[i + 1] { }
  }

  /** Every poll is locked and the handler succeeds. */
  predicate AllSucceeding(inputs: seq<PollInput>) {
    forall i :: 0 <= i < |inputs| ==> inputs[i].lockAcquired && inputs[i].outcome == Returned(true)
  }

  /** The state slot after `n` consecutive failures counted from zero, with limit `k`. */
  function CountState(n: nat, k: int): Option<string> {
    if n >= k then Some(STATE_STOPPED) else Some(FormatInt(n))
  }

  /** A run that has at least one poll starts with that poll. */
  lemma RunUnfolds(s: Snapshot, inputs: seq<PollInput>, maxRetries: int)
    requires inputs != []
    ensures Run(s, inputs, maxRetries)[0] == PollStep(s, inputs[0], maxRetries)
    ensures forall i :: 1 <= i < |inputs| ==>
      Run(s, inputs, maxRetries)[i] == Run(PollStep(s, inputs[0], maxRetries).after, inputs[1..], maxRetries)[i - 1]
  {
  }

  /** Each poll of a run starts from the store the previous poll left. */
  lemma {:induction false} RunChainsPolls(s: Snapshot, inputs: seq<PollInput>, maxRetries: int, i: nat)
    requires 0 < i < |inputs|
    ensures Run(s, inputs, maxRetries)[i] == PollStep(Run(s, inputs, maxRetries)[i - 1].after, inputs[i], maxRetries)
    decreases |inputs|
  {
    RunUnfolds(s, inputs, maxRetries);
    var first := PollStep(s, inputs[0], maxRetries);
    if i > 1 {
      RunChainsPolls(first.after, inputs[1..], maxRetries, i - 1);
    }
  }

  /** One failing poll at count `j` below the limit `k` moves the count to `j+1`. */
  lemma FailingPollAtCount(s: Snapshot, input: PollInput, k: int, j: nat)
    requires IsInt32(k) && j < k
    requires s.state == Some(FormatInt(j)) && s.messages != []
    requires input.lockAcquired && input.outcome != Returned(true)
    ensures var r := PollStep(s, input, k);
      !r.progress && r.handled == Some(s.messages[0]) &&
      r.after.messages == s.messages && r.after.state == CountState(j + 1, k)
  {
    NumericNeverStopped(j);
    PollFailureRequeuesHead(s, input, k);
    FailureFromCount(j, k);
  }

  /**
   * A run of failing polls retries the same head every time and keeps the
   * queue; given the states each failure writes in turn (`states[i + 1]` is
   * `FailureState` of `states[i]`), none of them the sentinel before the last
   * poll, the i-th poll leaves `states[i + 1]`.
   */
  lemma {:induction false} FailingRun(s: Snapshot, inputs: seq<PollInput>, k: int, states: seq<Option<string>>)
    requires s.messages != [] && AllFailing(inputs)
    requires |states| == |inputs| + 1 && states[0] == s.state
    requires forall i :: 0 <= i < |inputs| ==> !IsStopped(states[i]) && states[i + 1] == FailureState(states[i], k)
    ensures forall i :: 0 <= i < |inputs| ==>
      !Run(s, inputs, k)[i].progress && Run(s, inputs, k)[i].handled == Some(s.messages[0]) &&
      Run(s, inputs, k)[i].after.messages == s.messages && Run(s, inputs, k)[i].after.state == states[i + 1]
    decreases |inputs|
  {
    if inputs != [] {
      var first := PollStep(s, inputs[0], k);
      PollFailureRequeuesHead(s, inputs[0], k);
      RunUnfolds(s, inputs, k);
      if |inputs| > 1 {
        AllFailingTail(inputs);
        FailingRun(first.after, inputs[1..], k, states[1..]);
      }
    }
  }

  /**
   * Retry escalation from a count `j` below the limit `k`: each failing poll
   * retries the same head message, the i-th one leaves the count at `j+i+1`,
   * and the poll that brings it to `k` writes the sentinel.
   */
  lemma EscalateFrom(s: Snapshot, inputs: seq<PollInput>, k: int, j: nat)
    requires IsInt32(k) && j < k
    requires s.state == Some(FormatInt(j)) && s.messages != []
    requires AllFailing(inputs) && j + |inputs| <= k
    ensures forall i :: 0 <= i < |inputs| ==>
      !Run(s, inputs, k)[i].progress && Run(s, inputs, k)[i].handled == Some(s.messages[0]) &&
      Run(s, inputs, k)[i].after.messages == s.messages && Run(s, inputs, k)[i].after.state == CountState(j + i + 1, k)
  {
    var states := CountStates(j, |inputs|, k);
    CountStatesChain(j, |inputs|, k);
    FailingRun(s, inputs, k, states);
  }

  /** The counts `j, j+1, ..., j+n` as state slots, the last one the sentinel if it reaches `k`. */
  function CountStates(j: nat, n: nat, k: int): (states: seq<Option<string>>)
    ensures |states| == n + 1
    ensures forall i :: 0 <= i <= n ==> states[i] == CountState(j + i, k)
  {
    seq(n + 1, i requires 0 <= i => CountState(j + i, k))
  }

  /** Below the limit each count of `CountStates` is the failure state of the one before, and none but the last is the sentinel. */
  lemma CountStatesChain(j: nat, n: nat, k: int)
    requires IsInt32(k) && j < k && j + n <= k
    ensures CountStates(j, n, k)[0] == Some(FormatInt(j))
    ensures forall i :: 0 <= i < n ==>
      !IsStopped(CountStates(j, n, k)[i]) && CountStates(j, n, k)[i + 1] == FailureState(CountStates(j, n, k)[i], k)
  {
    var states := CountStates(j, n, k);
    forall i | 0 <= i < n ensures !IsStopped(states[i]) && states[i + 1] == FailureState(states[i], k) {
      assert states[i] == Some(FormatInt(j + i));
      NumericNeverStopped(j + i);
      FailureFromCount(j + i, k);
    }
  }

  /** One failing poll on an absent state keeps the queue and writes "1". */
  lemma FailingPollFromAbsent(s: Snapshot, input: PollInput, k: int)
    requires s.state == None && s.messages != []
    requires input.lockAcquired && input.outcome != Returned(true)
    ensures var r := PollStep(s, input, k);
      r.after.messages == s.messages && r.after.state == Some(FormatInt(1))
  {
    PollFailureRequeuesHead(s, input, k);
  }

  /**
   * With limit `k >= 1` and a handler that always fails, a pipeline at
   * count "0" stops after exactly `k` failures: before that it is never stopped.
   */
  lemma EscalationFromZero(s: Snapshot, inputs: seq<PollInput>, k: int)
    requires IsInt32(k) && k >= 1
    requires s.state == Some("0") && s.messages != []
    requires AllFailing(inputs) && |inputs| == k
    ensures Final(s, Run(s, inputs, k)).state == Some(STATE_STOPPED)
    ensures forall i :: 0 <= i < k - 1 ==> !IsStopped(Run(s, inputs, k)[i].after.state)
  {
    assert FormatInt(0) == "0";
    EscalateFrom(s, inputs, k, 0);
    var polls := Run(s, inputs, k);
    assert polls[k - 1].after.state == CountState(k, k);
    forall i | 0 <= i < k - 1 ensures !IsStopped(polls[i].after.state) {
      assert polls[i].after.state == CountState(i + 1, k);
      NumericNeverStopped(i + 1);
    }
  }

  /**
   * From an absent state with limit `k >= 2` an always-failing handler
   * also stops the pipeline after exactly `k` failures.
   */
  lemma EscalationFromAbsent(s: Snapshot, inputs: seq<PollInput>, k: int)
    requires IsInt32(k) && k >= 2
    requires s.state == None && s.messages != []
    requires AllFailing(inputs) && |inputs| == k
    ensures Final(s, Run(s, inputs, k)).state == Some(STATE_STOPPED)
    ensures forall i :: 0 <= i < k - 1 ==> !IsStopped(Run(s, inputs, k)[i].after.state)
  {
    var polls := Run(s, inputs, k);
    AbsentRunStates(s, inputs, k);
    assert polls[k - 1].after.state == CountState(k, k);
    NumericNeverStopped(1);
    forall i | 0 <= i < k - 1 ensures !IsStopped(polls[i].after.state) {
      if i > 0 {
        assert polls[i].after.state == CountState(i + 1, k);
        NumericNeverStopped(i + 1);
      }
    }
  }

  /** The states a run of failures from an absent state goes through: "1", then the counts of `CountState`. */
  lemma AbsentRunStates(s: Snapshot, inputs: seq<PollInput>, k: int)
    requires IsInt32(k) && k >= 2
    requires s.state == None && s.messages != []
    requires AllFailing(inputs) && |inputs| == k
    ensures Run(s, inputs, k)[0].after.state == Some(FormatInt(1))
    ensures forall i :: 1 <= i < k ==> Run(s, inputs, k)[i].after.state == CountState(i + 1, k)
  {
    var polls := Run(s, inputs, k);
    var first := PollStep(s, inputs[0], k);
    FailingPollFromAbsent(s, inputs[0], k);
    AllFailingTail(inputs);
    EscalateFrom(first.after, inputs[1..], k, 1);
    RunUnfolds(s, inputs, k);
    var rest := Run(first.after, inputs[1..], k);
    forall i | 1 <= i < k ensures polls[i].after.state == CountState(i + 1, k) {
      assert polls[i] == rest[i - 1];
    }
  }

  /**
   * With limit 1 the absent state needs two failures: the first writes "1"
   * without consulting the limit, the second stops.
   */
  lemma EscalationFromAbsentLimitOne(s: Snapshot, inputs: seq<PollInput>)
    requires s.state == None && s.messages != []
    requires AllFailing(inputs) && |inputs| == 2
    ensures var polls := Run(s, inputs, 1);
      polls[0].after.state == Some("1") && !IsStopped(polls[0].after.state) &&
      polls[1].after.state == Some(STATE_STOPPED)
  {
    var first := PollStep(s, inputs[0], 1);
    PollFailureRequeuesHead(s, inputs[0], 1);
    assert first.after.state == Some(FormatInt(1));
    NumericNeverStopped(1);
    PollFailureRequeuesHead(first.after, inputs[1], 1);
    FailureFromCount(1, 1);
    RunUnfolds(s, inputs, 1);
  }

  /** While the state is the sentinel, no poll of a run pops, handles or writes anything. */
  lemma {:induction false} StoppedBlocksRun(s: Snapshot, inputs: seq<PollInput>, maxRetries: int)
    requires IsStopped(s.state)
    ensures forall i :: 0 <= i < |inputs| ==> Run(s, inputs, maxRetries)[i] == PollResult(false, None, s)
    decreases |inputs|
  {
    if inputs != [] {
      PollWhileStopped(s, inputs[0], maxRetries);
      StoppedBlocksRun(s, inputs[1..], maxRetries);
      RunUnfolds(s, inputs, maxRetries);
    }
  }

  /**
   * Draining with a handler that always succeeds hands the queued messages
   * to the handler in FIFO order and removes them from the head.
   */
  lemma {:induction false} DrainInOrder(s: Snapshot, inputs: seq<PollInput>, maxRetries: int)
    requires !IsStopped(s.state)
    requires AllSucceeding(inputs) && |inputs| <= |s.messages|
    ensures forall i :: 0 <= i < |inputs| ==>
      Run(s, inputs, maxRetries)[i].progress && Run(s, inputs, maxRetries)[i].handled == Some(s.messages[i])
    ensures Final(s, Run(s, inputs, maxRetries)).messages == s.messages[|inputs|..]
    decreases |inputs|
  {
    if inputs != [] {
      var first := PollStep(s, inputs[0], maxRetries);
      PollSuccess(s, inputs[0].now, maxRetries);
      NumericNeverStopped(0);
      assert AllSucceeding(inputs[1..]) by {
        forall i | 0 <= i < |inputs[1..]| ensures inputs[1..][i] == inputs[i + 1] { }
      }
      DrainInOrder(first.after, inputs[1..], maxRetries);
      var rest := Run(first.after, inputs[1..], maxRetries);
      RunUnfolds(s, inputs, maxRetries);
      forall i | 1 <= i < |inputs| ensures rest[i - 1].handled == Some(s.messages[i]) {
        assert first.after.messages[i - 1] == s.messages[i];
      }
      assert s.messages[1..][|inputs| - 1..] == s.messages[|inputs|..];
    }
  }
}
