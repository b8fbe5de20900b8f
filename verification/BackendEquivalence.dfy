/** The two backends side by side on the same event and the same sink answers. */
module BackendEquivalence {
  import opened Options
  import opened DeliveryPolicy
  import opened DeliveryFold
  import Chunker
  import RedisStore
  import RedisWorld
  import RedisWorker
  import D1Store
  import D1Services

  /** How many of the runs called the sink. */
  function Calls(called: seq<bool>): nat {
    if called == [] then 0 else Calls(called[..|called| - 1]) + (if called[|called| - 1] then 1 else 0)
  }

  /** The sink was called in exactly the runs before the end. */
  ghost predicate CalledUntilEnd(classify: Classifier, maximum: int, responses: seq<Response>, called: seq<bool>) {
    && |called| == |responses|
    && forall k :: 0 <= k < |responses| ==>
         (called[k] <==> !Terminal(After(classify, maximum, responses[..k]).status))
  }

  /** Every attempt is one sink call: nothing is sent after the end, and nothing is counted without being sent. */
  lemma {:induction false} CallsAreAttempts(classify: Classifier, maximum: int, responses: seq<Response>,
                                            called: seq<bool>)
    requires CalledUntilEnd(classify, maximum, responses, called)
    ensures Calls(called) == After(classify, maximum, responses).attempts
  {
    if responses != [] {
      var n := |responses| - 1;
      ButLast(classify, maximum, responses, called);
      CallsAreAttempts(classify, maximum, responses[..n], called[..n]);
      hide CalledUntilEnd;
      AfterMore(classify, maximum, responses, n);
      assert responses[..n + 1] == responses;
    }
  }

  lemma ButLast(classify: Classifier, maximum: int, responses: seq<Response>, called: seq<bool>)
    requires CalledUntilEnd(classify, maximum, responses, called) && responses != []
    ensures var n := |responses| - 1;
            && |called| == n + 1 && CalledUntilEnd(classify, maximum, responses[..n], called[..n])
            && (called[n] <==> !Terminal(After(classify, maximum, responses[..n]).status))
  {
    hide After, Terminal;
    var n := |responses| - 1;
    assert forall k :: 0 <= k < n ==> responses[..n][..k] == responses[..k] && called[..n][k] == called[k];
  }

  /**
   For every maximum of at least one and every list of sink answers, both backends run the same event: the statuses
   and attempt counts they show after every attempt are the same, sink call for sink call, exactly when every answer
   that comes before the end is one that RFC 9110 allows. In any case each makes one call for each attempt.
   */
  method RunBoth(cfg: RedisWorld.Config, p: nat, maximum: int, e: string, c: RedisStore.Content,
                 request: D1Store.Request,
                 limit: nat, fingerprint: string, responses: seq<Response>,
                 delay: nat -> nat, gap: nat -> nat, minIdle: int, redisClock: nat -> nat, workerClock: nat -> int)
    returns (redis: seq<Progress>, redisCalls: nat, cloudflare: seq<Progress>, cloudflareCalls: nat)
    requires maximum >= 1 && cfg.policy(p) == RedisWorld.Policy(Some(maximum), true)
    requires RedisStore.IsUuid(e) && cfg.decodes(RedisStore.Encode(e, c))
    requires Chunker.Valid(request.payload) && request.payload != [] && limit >= 4
    ensures |redis| == |cloudflare| == |responses| + 1
    ensures redis == cloudflare <==> ConsumedConform(maximum, responses)
    ensures redis[0] == cloudflare[0] == Progress(Queued, 0)
    ensures redis[|responses|] == After(RedisClassify, maximum, responses)
    ensures redisCalls == redis[|responses|].attempts && cloudflareCalls == cloudflare[|responses|].attempts
    ensures |responses| >= maximum ==> Terminal(redis[|responses|].status) && Terminal(cloudflare[|responses|].status)
  {
    Chunker.RoundTrip(request.payload, limit);
    var redisCalled, cloudflareCalled;
    redis, redisCalled := RedisWorker.RunAll(cfg, p, maximum, e, c, responses, delay, gap, minIdle, redisClock);
    cloudflare, cloudflareCalled := D1Services.RunAll(maximum, e, request, fingerprint, limit, responses, workerClock);
    redisCalls, cloudflareCalls := Calls(redisCalled), Calls(cloudflareCalled);
    assert responses[..|responses|] == responses;
    CallsAreAttempts(RedisClassify, maximum, responses, redisCalled);
    CallsAreAttempts(CloudflareClassify, maximum, responses, cloudflareCalled);
    TracesAgreeIffConforming(maximum, responses);
    AttemptsAreAnswers(RedisClassify, maximum, responses);
    AttemptsAreAnswers(CloudflareClassify, maximum, responses);
    if redis == cloudflare {
      assert SameTrace(maximum, responses);
    }
  }
}
