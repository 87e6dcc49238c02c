/** What the admin operations do to the three slots, alone and together with polls. */
module AdminProperties {
  import opened Wrappers
  import opened StateCodec
  import opened Extensions
  import opened Store
  import opened Consumer
  import opened ConsumerProperties
  import opened Admin

  /** Push needs no lock, appends at the tail and leaves state and failure alone. */
  lemma PushAppendsAtTail(s: Snapshot, payload: string)
    ensures Pushed(s, payload).messages == s.messages + [payload]
    ensures Pushed(s, payload).state == s.state && Pushed(s, payload).failure == s.failure
  {
  }

  /** Pushing several payloads in turn, starting from `s`. */
  function PushAll(s: Snapshot, payloads: seq<string>): Snapshot
    decreases |payloads|
  {
    if payloads == [] then s else PushAll(Pushed(s, payloads[0]), payloads[1..])
  }

  /** Successive pushes append the payloads in order and touch nothing else. */
  lemma {:induction false} PushAllAppends(s: Snapshot, payloads: seq<string>)
    ensures PushAll(s, payloads) == s.(messages := s.messages + payloads)
    decreases |payloads|
  {
    if payloads != [] {
      PushAllAppends(Pushed(s, payloads[0]), payloads[1..]);
      assert s.messages + [payloads[0]] + payloads[1..] == s.messages + payloads;
    }
  }

  /**
   * FIFO: payloads pushed onto an empty running queue are handed to an
   * always-succeeding handler in the order they were pushed, and the queue ends empty.
   */
  lemma PushThenDrainIsFifo(s: Snapshot, payloads: seq<string>, inputs: seq<PollInput>, maxRetries: int)
    requires s.messages == [] && !IsStopped(s.state)
    requires AllSucceeding(inputs) && |inputs| == |payloads|
    ensures forall i :: 0 <= i < |inputs| ==>
      Run(PushAll(s, payloads), inputs, maxRetries)[i].handled == Some(payloads[i])
    ensures Final(PushAll(s, payloads), Run(PushAll(s, payloads), inputs, maxRetries)).messages == []
  {
    PushAllAppends(s, payloads);
    assert PushAll(s, payloads).messages == payloads;
    DrainInOrder(PushAll(s, payloads), inputs, maxRetries);
  }

  /** Stop writes the sentinel whatever the state was, touches nothing else, and is idempotent. */
  lemma StopStopsIdempotently(s: Snapshot)
    ensures IsStopped(Stopped(s).state)
    ensures Stopped(s).messages == s.messages && Stopped(s).failure == s.failure
    ensures Stopped(Stopped(s)) == Stopped(s)
  {
  }

  /** Clean without the lock raises and changes nothing. */
  lemma CleanWithoutLock(s: Snapshot)
    ensures Cleaned(s, false) == Raised(LockNotAcquired)
  {
  }

  /** Clean with the lock empties all three slots; a second Clean gives the same store. */
  lemma CleanWipesIdempotently(s: Snapshot)
    ensures Cleaned(s, true) == Done(Snapshot([], None, None))
    ensures Cleaned(Cleaned(s, true).after, true) == Cleaned(s, true)
  {
  }

  /** Resume without the lock raises. */
  lemma ResumeWithoutLock(s: Snapshot, skip: nat)
    ensures Resumed(s, false, skip) == Raised(LockNotAcquired)
  {
  }

  /** Resume of a pipeline that is not stopped, absent or counting included, raises. */
  lemma ResumeRequiresStopped(s: Snapshot, skip: nat)
    requires !IsStopped(s.state)
    ensures Resumed(s, true, skip) == Raised(NotStopped)
  {
  }

  /** Resume from a running count "n" is refused. */
  lemma ResumeRefusedWhileCounting(s: Snapshot, n: int, skip: nat)
    requires s.state == Some(FormatInt(n))
    ensures Resumed(s, true, skip) == Raised(NotStopped)
  {
    NumericNeverStopped(n);
  }

  /**
   * Resume from the sentinel drops the first `skip` messages (all of them
   * when fewer are queued), resets the count to "0" and keeps the failure record.
   */
  lemma ResumeFromStopped(s: Snapshot, skip: nat)
    requires IsStopped(s.state)
    ensures Resumed(s, true, skip).Done?
    ensures var after := Resumed(s, true, skip).after;
      after.messages == s.messages[if skip <= |s.messages| then skip else |s.messages|..] &&
      after.state == Some("0") && after.failure == s.failure
  {
    assert FormatInt(0) == "0";
  }

  /** The worked cases: skip 1 drops the poison message, skip 0 keeps the queue. */
  lemma ResumeExamples(failure: Option<Failure>)
    ensures Resumed(Snapshot(["m1", "m2", "m3"], Some("STOPPED"), failure), true, 1)
      == Done(Snapshot(["m2", "m3"], Some("0"), failure))
    ensures Resumed(Snapshot(["m1", "m2", "m3"], Some("STOPPED"), failure), true, 0)
      == Done(Snapshot(["m1", "m2", "m3"], Some("0"), failure))
  {
    ResumeFromStopped(Snapshot(["m1", "m2", "m3"], Some("STOPPED"), failure), 1);
    ResumeFromStopped(Snapshot(["m1", "m2", "m3"], Some("STOPPED"), failure), 0);
  }

  /**
   * After a successful Resume the next locked poll on a non-empty queue is
   * not blocked by the stopped check: it hands the new head to the handler.
   */
  lemma ResumeUnblocksPoll(s: Snapshot, skip: nat, input: PollInput, maxRetries: int)
    requires Resumed(s, true, skip).Done?
    requires Resumed(s, true, skip).after.messages != []
    requires input.lockAcquired
    ensures var after := Resumed(s, true, skip).after;
      PollStep(after, input, maxRetries).handled == Some(after.messages[0])
  {
    NumericNeverStopped(0);
  }

  /**
   * A pipeline stopped by Stop stays stopped under any number of polls
   * until Resume; Resume then lets the next poll reach the handler.
   */
  lemma StopBlocksUntilResume(s: Snapshot, inputs: seq<PollInput>, maxRetries: int, skip: nat, next: PollInput)
    requires next.lockAcquired && |s.messages| > skip
    ensures forall i :: 0 <= i < |inputs| ==>
      Run(Stopped(s), inputs, maxRetries)[i] == PollResult(false, None, Stopped(s))
    ensures Resumed(Stopped(s), true, skip).Done?
    ensures PollStep(Resumed(Stopped(s), true, skip).after, next, maxRetries).handled == Some(s.messages[skip])
  {
    StoppedBlocksRun(Stopped(s), inputs, maxRetries);
    ResumeFromStopped(Stopped(s), skip);
    ResumeUnblocksPoll(Stopped(s), skip, next, maxRetries);
  }
}
