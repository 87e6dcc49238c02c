/**
 * Key derivation and the stopped sentinel shared by the consumer and the
 * admin (RedisPipelineExtensions).
 */
module Extensions {
  import opened Wrappers
  import opened StateCodec

  /** The literal stored in the state slot of a stopped pipeline. */
  const STATE_STOPPED: string := "STOPPED"

  /** A raw state slot reads as stopped: present and equal to the sentinel. */
  predicate IsStopped(value: Option<string>)
    ensures IsStopped(value) ==> value == Some("STOPPED")
    ensures value == Some("STOPPED") ==> IsStopped(value)
  {
    value.Some? && value.value == STATE_STOPPED
  }

  /** `{resource}:messages`: the resource name followed by the slot suffix. */
  function MessagesKey(resource: string): (key: string)
    ensures |key| == |resource| + 9 && key[..|resource|] == resource && key[|resource|..] == ":messages"
  {
    resource + ":messages"
  }

  /** `{resource}:state`: the resource name followed by the slot suffix. */
  function StateKey(resource: string): (key: string)
    ensures |key| == |resource| + 6 && key[..|resource|] == resource && key[|resource|..] == ":state"
  {
    resource + ":state"
  }

  /** `{resource}:failure`: the resource name followed by the slot suffix. */
  function FailureKey(resource: string): (key: string)
    ensures |key| == |resource| + 8 && key[..|resource|] == resource && key[|resource|..] == ":failure"
  {
    resource + ":failure"
  }

  /** Exactly the present sentinel is stopped; an absent slot never is. */
  lemma IsStoppedExactly(value: Option<string>)
    ensures IsStopped(value) <==> value == Some("STOPPED")
    ensures !IsStopped(None)
  {
  }

  /** A state holding a retry count written by the pipeline is never the sentinel. */
  lemma {:induction false} NumericNeverStopped(n: int)
    ensures !IsStopped(Some(FormatInt(n)))
  {
    var s := FormatInt(n);
    if n >= 0 {
      assert IsDigit(s[0]);
    }
    assert s[0] != 'S';
  }

  /** Any state text the consumer can parse as a count is not the sentinel. */
  lemma ParsableNeverStopped(raw: string)
    requires TryParseInt(raw).Some?
    ensures !IsStopped(Some(raw))
  {
  }

  /** Removing a common suffix: the key functions lose no information. */
  lemma {:induction false} SuffixCancels(a: string, b: string, suffix: string)
    requires a + suffix == b + suffix
    ensures a == b
  {
    assert |a| == |b|;
    assert a == (a + suffix)[..|a|];
    assert b == (b + suffix)[..|b|];
  }

  lemma MessagesKeyInjective(r1: string, r2: string)
    requires MessagesKey(r1) == MessagesKey(r2)
    ensures r1 == r2
  {
    SuffixCancels(r1, r2, ":messages");
  }

  lemma StateKeyInjective(r1: string, r2: string)
    requires StateKey(r1) == StateKey(r2)
    ensures r1 == r2
  {
    SuffixCancels(r1, r2, ":state");
  }

  lemma FailureKeyInjective(r1: string, r2: string)
    requires FailureKey(r1) == FailureKey(r2)
    ensures r1 == r2
  {
    SuffixCancels(r1, r2, ":failure");
  }

  /**
   * Keys of different slots never coincide, whatever the two resources:
   * a messages key ends in 's', a state key in "te", a failure key in "re".
   */
  lemma {:induction false} SlotKeysDisjoint(r1: string, r2: string)
    ensures MessagesKey(r1) != StateKey(r2)
    ensures MessagesKey(r1) != FailureKey(r2)
    ensures StateKey(r1) != FailureKey(r2)
  {
    var m, s, f := MessagesKey(r1), StateKey(r2), FailureKey(r2);
    assert m[|m| - 1] == 's' && s[|s| - 1] == 'e' && f[|f| - 1] == 'e';
    var s1 := StateKey(r1);
    assert s1[|s1| - 2] == 't' && f[|f| - 2] == 'r';
  }

  /** For one resource the three derived keys are pairwise distinct. */
  lemma KeysOfResourceDistinct(resource: string)
    ensures MessagesKey(resource) != StateKey(resource)
    ensures MessagesKey(resource) != FailureKey(resource)
    ensures StateKey(resource) != FailureKey(resource)
  {
    SlotKeysDisjoint(resource, resource);
  }
}
