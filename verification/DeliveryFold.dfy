/**
 The life of one event as a pure fold over the sink's answers: what both backends must make of them when nothing
 crashes and one consumer runs at a time.
 */
module DeliveryFold {
  import opened Options
  import opened DeliveryPolicy

  /** What a status request shows. */
  datatype Progress = Progress(status: EventStatus, attempts: nat)

  type Classifier = Response -> Option<ErrorClass>

  function Next(classify: Classifier, maximum: int, s: Progress, r: Response): Progress {
    if Terminal(s.status) then s
    else
      match classify(r)
      case None => Progress(Delivered, s.attempts + 1)
      case Some(error) =>
        Progress(if ShouldDeadLetter(error, s.attempts + 1, maximum) then DeadLetter else RetryScheduled,
                 s.attempts + 1)
  }

  /** The progress after the answers `rs`. */
  function After(classify: Classifier, maximum: int, rs: seq<Response>): Progress {
    if rs == [] then Progress(Queued, 0)
    else Next(classify, maximum, After(classify, maximum, rs[..|rs| - 1]), rs[|rs| - 1])
  }

  lemma AfterMore(classify: Classifier, maximum: int, rs: seq<Response>, k: nat)
    requires k < |rs|
    ensures After(classify, maximum, rs[..k + 1]) == Next(classify, maximum, After(classify, maximum, rs[..k]), rs[k])
  {
    assert rs[..k + 1][..k] == rs[..k];
  }

  /** Answers worth another attempt, by their codes: no answer at all, 429, and everything from 500 on. */
  predicate WorthRetrying(r: Response) { r.TimedOut? || r.ConnectionFailed? || r.code == 429 || r.code >= 500 }

  predicate TwoHundreds(r: Response) { r.Status? && 200 <= r.code < 300 }

  /**
   What one answer makes of an event that has not ended, told by its code alone, in the Cloudflare backend: delivered
   by the two hundreds, retried while attempts are left when worth it, and dead-lettered else.
   */
  lemma CloudflareNextByCode(maximum: int, s: Progress, r: Response)
    requires !Terminal(s.status)
    ensures var next := Next(CloudflareClassify, maximum, s, r);
            && next.attempts == s.attempts + 1
            && (next.status == Delivered <==> TwoHundreds(r))
            && (next.status == RetryScheduled <==> WorthRetrying(r) && s.attempts + 1 < maximum)
            && (next.status == DeadLetter <==> !TwoHundreds(r) && !(WorthRetrying(r) && s.attempts + 1 < maximum))
  {
  }

  /** The same in the Redis backend, where a code below 100 also counts as delivered. */
  lemma RedisNextByCode(maximum: int, s: Progress, r: Response)
    requires !Terminal(s.status)
    ensures var next := Next(RedisClassify, maximum, s, r);
            var taken := TwoHundreds(r) || (r.Status? && r.code < 100);
            && next.attempts == s.attempts + 1
            && (next.status == Delivered <==> taken)
            && (next.status == RetryScheduled <==> WorthRetrying(r) && s.attempts + 1 < maximum)
            && (next.status == DeadLetter <==> !taken && !(WorthRetrying(r) && s.attempts + 1 < maximum))
  {
  }

  /** `trace` shows the progress before the first and after each answer; `called` says which runs called the sink. */
  ghost predicate Follows(classify: Classifier, maximum: int, responses: seq<Response>, trace: seq<Progress>,
                          called: seq<bool>)
  {
    && |trace| == |called| + 1 && |called| <= |responses|
    && (forall k :: 0 <= k < |trace| ==> trace[k] == After(classify, maximum, responses[..k]))
    && (forall k :: 0 <= k < |called| ==> (called[k] <==> !Terminal(trace[k].status)))
  }

  lemma FollowsFromStart(classify: Classifier, maximum: int, responses: seq<Response>)
    ensures Follows(classify, maximum, responses, [Progress(Queued, 0)], [])
  {
    assert responses[..0] == [];
  }

  lemma FollowsMore(classify: Classifier, maximum: int, responses: seq<Response>, trace: seq<Progress>,
                    called: seq<bool>, next: Progress, call: bool)
    requires Follows(classify, maximum, responses, trace, called) && |called| < |responses|
    requires next == Next(classify, maximum, trace[|called|], responses[|called|])
    requires call <==> !Terminal(trace[|called|].status)
    ensures Follows(classify, maximum, responses, trace + [next], called + [call])
  {
    AfterMore(classify, maximum, responses, |called|);
  }

  /** What has followed the fold so far still has attempts left, or has ended. */
  lemma FollowsWithin(classify: Classifier, maximum: int, responses: seq<Response>, trace: seq<Progress>,
                      called: seq<bool>)
    requires maximum >= 1 && Follows(classify, maximum, responses, trace, called)
    ensures Terminal(trace[|called|].status) || trace[|called|].attempts < maximum
  {
    AttemptsAreAnswers(classify, maximum, responses[..|called|]);
  }

  // ---------------------------------------------------------------- its properties

  /** Until the end every answer costs one attempt; the end comes at the latest with attempt `maximum`. */
  lemma {:induction false} AttemptsAreAnswers(classify: Classifier, maximum: int, rs: seq<Response>)
    requires maximum >= 1
    ensures var s := After(classify, maximum, rs);
            && s.attempts <= maximum && s.attempts <= |rs| && s.status != Delivering
            && (!Terminal(s.status) ==> s.attempts == |rs| < maximum)
            && (s.status == Queued <==> rs == [])
  {
    if rs != [] {
      AttemptsAreAnswers(classify, maximum, rs[..|rs| - 1]);
    }
  }

  /** Once terminal, no further answer changes anything. */
  lemma {:induction false} TerminalAbsorbs(classify: Classifier, maximum: int, rs: seq<Response>, k: nat)
    requires k <= |rs| && Terminal(After(classify, maximum, rs[..k]).status)
    ensures After(classify, maximum, rs) == After(classify, maximum, rs[..k])
  {
    if k == |rs| {
      assert rs[..k] == rs;
    } else {
      assert rs[..|rs| - 1][..k] == rs[..k];
      TerminalAbsorbs(classify, maximum, rs[..|rs| - 1], k);
    }
  }

  /** The first `k` answers are failures that may be retried. */
  ghost predicate Retried(classify: Classifier, rs: seq<Response>, k: nat)
    requires k <= |rs|
  {
    forall j :: 0 <= j < k ==> classify(rs[j]).Some? && Retryable(classify(rs[j]).value)
  }

  /** An event still waits exactly when it had fewer answers than attempts allowed, all of them retryable. */
  lemma {:induction false} WaitsIffRetried(classify: Classifier, maximum: int, rs: seq<Response>)
    requires maximum >= 1
    ensures !Terminal(After(classify, maximum, rs).status) <==> |rs| < maximum && Retried(classify, rs, |rs|)
  {
    if rs != [] {
      var front := rs[..|rs| - 1];
      WaitsIffRetried(classify, maximum, front);
      AttemptsAreAnswers(classify, maximum, front);
      assert Retried(classify, rs, |rs|) <==>
             && Retried(classify, front, |front|)
             && classify(rs[|rs| - 1]).Some? && Retryable(classify(rs[|rs| - 1]).value) by {
        assert forall j :: 0 <= j < |front| ==> front[j] == rs[j];
      }
    }
  }

  /** The answer number `k` is the one that delivers. */
  ghost predicate DeliversAt(classify: Classifier, maximum: int, rs: seq<Response>, k: nat) {
    k < |rs| && k < maximum && Retried(classify, rs, k) && classify(rs[k]) == None
  }

  /** An event is delivered exactly when an acceptance comes within the maximum and after retryable failures only. */
  lemma {:induction false} DeliveredIffAccepted(classify: Classifier, maximum: int, rs: seq<Response>)
    requires maximum >= 1
    ensures After(classify, maximum, rs).status == Delivered <==> exists k: nat :: DeliversAt(classify, maximum, rs, k)
  {
    if rs != [] {
      var n := |rs| - 1;
      var front := rs[..n];
      DeliveredIffAccepted(classify, maximum, front);
      WaitsIffRetried(classify, maximum, front);
      assert forall j :: 0 <= j < n ==> front[j] == rs[j];
      forall k: nat | k < n ensures DeliversAt(classify, maximum, front, k) <==> DeliversAt(classify, maximum, rs, k) {
        assert front[k] == rs[k];
      }
      assert Retried(classify, front, n) <==> Retried(classify, rs, n);
      if After(classify, maximum, rs).status == Delivered {
        if After(classify, maximum, front).status == Delivered {
          var k: nat :| DeliversAt(classify, maximum, front, k);
          assert DeliversAt(classify, maximum, rs, k);
        } else {
          assert DeliversAt(classify, maximum, rs, n);
        }
      }
      if k: nat :| DeliversAt(classify, maximum, rs, k) {
        if k < n {
          assert DeliversAt(classify, maximum, front, k);
        }
      }
    }
  }

  // ---------------------------------------------------------------- two classifiers

  /** Every answer that still counts is one that RFC 9110 allows. */
  ghost predicate ConsumedConform(maximum: int, rs: seq<Response>) {
    forall k :: 0 <= k < |rs| ==> Terminal(After(RedisClassify, maximum, rs[..k]).status) || Conforming(rs[k])
  }

  ghost predicate SameTrace(maximum: int, rs: seq<Response>) {
    forall k :: 0 <= k <= |rs| ==> After(RedisClassify, maximum, rs[..k]) == After(CloudflareClassify, maximum, rs[..k])
  }

  /**
   The two backends' classifiers make the same of a list of answers, after every attempt, exactly when every answer
   that comes before the end is one that section 15 of RFC 9110 allows.
   */
  lemma {:induction false} TracesAgreeIffConforming(maximum: int, rs: seq<Response>)
    requires maximum >= 1
    ensures SameTrace(maximum, rs) <==> ConsumedConform(maximum, rs)
  {
    if rs == [] {
      assert rs[..0] == rs;
    } else {
      var n := |rs| - 1;
      var front := rs[..n];
      TracesAgreeIffConforming(maximum, front);
      SameTraceMore(maximum, rs);
      ConsumedMore(maximum, rs);
      NextAgrees(maximum, After(RedisClassify, maximum, front), rs[n]);
    }
  }

  lemma SameTraceMore(maximum: int, rs: seq<Response>)
    requires rs != []
    ensures var front := rs[..|rs| - 1];
            SameTrace(maximum, rs) <==>
              SameTrace(maximum, front) && After(RedisClassify, maximum, rs) == After(CloudflareClassify, maximum, rs)
    ensures var front := rs[..|rs| - 1];
            SameTrace(maximum, front) ==>
              After(RedisClassify, maximum, front) == After(CloudflareClassify, maximum, front)
  {
    hide After;
    var n := |rs| - 1;
    assert forall k :: 0 <= k <= n ==> rs[..n][..k] == rs[..k];
    assert rs[..n + 1] == rs && rs[..n][..n] == rs[..n];
  }

  lemma ConsumedMore(maximum: int, rs: seq<Response>)
    requires rs != []
    ensures var front := rs[..|rs| - 1];
            ConsumedConform(maximum, rs) <==>
              && ConsumedConform(maximum, front)
              && (Terminal(After(RedisClassify, maximum, front).status) || Conforming(rs[|rs| - 1]))
  {
    hide After, Conforming, Terminal;
    var n := |rs| - 1;
    assert forall k :: 0 <= k <= n ==> rs[..n][..k] == rs[..k];
    assert forall k :: 0 <= k < n ==> rs[..n][k] == rs[k];
  }

  /** One answer moves both alike exactly when the event has ended or the answer conforms. */
  lemma NextAgrees(maximum: int, s: Progress, r: Response)
    ensures Next(RedisClassify, maximum, s, r) == Next(CloudflareClassify, maximum, s, r)
            <==> Terminal(s.status) || Conforming(r)
  {
    ClassifiersAgree(r);
  }
}
