/** `main`: the launch retry loop. Each call of `create_instance` is one entry of a script of
    outcomes; sleeping and notifying are recorded as effects instead of being performed. */
module Controller {
  import opened Wrappers
  import Discord
  import Oracle

  /** What `create_instance` raises: a connection-level `RequestException`, or a service
      error carrying an HTTP status and its text `str(e)`. */
  datatype Failure = RequestFailure | ServiceFailure(status: int, text: string)

  /** One call of `create_instance`: it returns (the instance was launched) or raises. */
  datatype Attempt = Launched | Raised(failure: Failure)

  /** What the loop does besides calling `create_instance`: `sleep(seconds)` or
      `send_to_discord(success, response)` (always with `continued` left false). */
  datatype Effect = Sleep(seconds: nat) | Notify(success: bool, response: string)

  /** The handling of one attempt: go round again with the new counter, or return. */
  datatype Decision = Retry(effects: seq<Effect>, counter: nat) | Stop(effects: seq<Effect>)

  /** A run over a script: its effects, whether `main` returned, the counter when the script
      ran out, and the number of `create_instance` calls made. */
  datatype Log = Log(effects: seq<Effect>, stopped: bool, counter: nat, launches: nat)

  /** `str(None)`: `create_instance` returns nothing, and that is what the success notice reports. */
  const NoneText: string := "None"

  /** Lines 13-36: the `try`/`except` chain for one attempt, in its order: the request
      exception first, then statuses 500, 429 and 502, then anything else. */
  function Step(counter: nat, a: Attempt): Decision
  {
    match a
    case Launched => Stop([Notify(true, NoneText)])
    case Raised(RequestFailure) => Retry([Sleep(60 * (counter + 1))], counter + 1)
    case Raised(ServiceFailure(status, text)) =>
      if status == 500 then Retry([Sleep(30)], 0)
      else if status == 429 then Retry([Sleep(30 * (counter + 1))], counter + 1)
      else if status == 502 then Retry([Notify(false, text), Sleep(60)], 0)
      else Stop([Notify(false, text)])
  }

  /** What one attempt leads to: `main` returns exactly on a launch or an unclassified status;
      a notice goes out exactly on a launch, a 502 or an unclassified status, and it reports
      success only for the launch; no sleep is shorter than 30 seconds. */
  lemma StepMeaning(counter: nat, a: Attempt)
    ensures var d := Step(counter, a);
      && (d.Stop? <==> Terminal(a))
      && (forall e | e in d.effects :: e.Sleep? ==> e.seconds >= 30)
      && |Notices(d.effects)| ==
           (if a.Launched? || (a.failure.ServiceFailure? && a.failure.status != 500 && a.failure.status != 429) then 1 else 0)
      && (forall e | e in d.effects :: e.Notify? ==> (e.success <==> a.Launched?))
  {
    var es := Step(counter, a).effects;
    if |es| == 2 {
      assert es[1..] == [Sleep(60)] && es[1..][1..] == [];
      assert Notices(es[1..]) == [];
    }
  }

  /** The outcomes after which `main` returns. */
  predicate Terminal(a: Attempt)
  {
    a.Launched? || (a.failure.ServiceFailure? && a.failure.status != 500 && a.failure.status != 429 && a.failure.status != 502)
  }

  /** The loop from `counter` over the remaining script. */
  function Trace(counter: nat, script: seq<Attempt>): Log
    decreases |script|
  {
    if script == [] then Log([], false, counter, 0)
    else match Step(counter, script[0])
      case Stop(es) => Log(es, true, counter, 1)
      case Retry(es, next) =>
        var rest := Trace(next, script[1..]);
        Log(es + rest.effects, rest.stopped, rest.counter, rest.launches + 1)
  }

  /** `log` preceded by `effects` and `launches` earlier calls. */
  function After(effects: seq<Effect>, launches: nat, log: Log): Log
  {
    Log(effects + log.effects, log.stopped, log.counter, launches + log.launches)
  }

  lemma AfterAfter(e1: seq<Effect>, n1: nat, e2: seq<Effect>, n2: nat, log: Log)
    ensures After(e1, n1, After(e2, n2, log)) == After(e1 + e2, n1 + n2, log)
  {
    assert e1 + (e2 + log.effects) == (e1 + e2) + log.effects;
  }

  /** One turn of the loop: the first attempt's decision, then the rest of the script. */
  lemma TraceFirst(counter: nat, script: seq<Attempt>)
    requires script != []
    ensures var d := Step(counter, script[0]);
      Trace(counter, script) == if d.Stop? then Log(d.effects, true, counter, 1)
                                else After(d.effects, 1, Trace(d.counter, script[1..]))
  {
  }

  /** Lines 8-36, with the script standing for the successive `create_instance` calls. */
  method RetryLoop(script: seq<Attempt>) returns (effects: seq<Effect>, stopped: bool, launches: nat)
    ensures var log := Trace(0, script);
      effects == log.effects && stopped == log.stopped && launches == log.launches
  {
    var counter: nat := 0;
    var i := 0;
    effects := [];
    while i < |script|
      invariant 0 <= i <= |script|
      invariant Trace(0, script) == After(effects, i, Trace(counter, script[i..]))
    {
      var a := script[i];
      ghost var prior, d := effects, Step(counter, a);
      TraceFirst(counter, script[i..]);
      assert script[i..][0] == a && script[i..][1..] == script[i + 1..];
      i := i + 1;
      match a {
        case Launched =>
          effects := effects + [Notify(true, NoneText)];
          return effects, true, i;
        case Raised(RequestFailure) =>
          counter := counter + 1;
          effects := effects + [Sleep(60 * counter)];
        case Raised(ServiceFailure(status, text)) =>
          if status == 500 {
            effects := effects + [Sleep(30)];
            counter := 0;
          } else if status == 429 {
            counter := counter + 1;
            effects := effects + [Sleep(30 * counter)];
          } else if status == 502 {
            effects := effects + [Notify(false, text), Sleep(60)];
            counter := 0;
          } else {
            effects := effects + [Notify(false, text)];
            return effects, true, i;
          }
      }
      assert d.Retry? && effects == prior + d.effects && counter == d.counter;
      AfterAfter(prior, i - 1, d.effects, 1, Trace(counter, script[i..]));
    }
    stopped := false;
    launches := i;
  }

  /** Attempts none of which makes `main` return. */
  predicate Retryable(script: seq<Attempt>)
  {
    forall i | 0 <= i < |script| :: !Terminal(script[i])
  }

  /** Running two scripts in turn: once `main` has returned the second is never attempted;
      otherwise it picks up with the counter the first left. */
  lemma {:induction false} TraceSplit(counter: nat, p: seq<Attempt>, q: seq<Attempt>)
    ensures Trace(counter, p).stopped ==> Trace(counter, p + q) == Trace(counter, p)
    ensures !Trace(counter, p).stopped ==>
      var l := Trace(counter, p); Trace(counter, p + q) == After(l.effects, l.launches, Trace(l.counter, q))
    decreases |p|
  {
    if p == [] {
      assert p + q == q;
    } else {
      var pq := p + q;
      assert pq[0] == p[0] && pq[1..] == p[1..] + q;
      TraceFirst(counter, p);
      TraceFirst(counter, pq);
      var d := Step(counter, p[0]);
      if d.Retry? {
        var rest := Trace(d.counter, p[1..]);
        TraceSplit(d.counter, p[1..], q);
        if !rest.stopped {
          AfterAfter(d.effects, 1, rest.effects, rest.launches, Trace(rest.counter, q));
        }
      }
    }
  }

  /** `main` returns exactly at the first terminal outcome, after that many calls, and only
      if there is one. */
  lemma {:induction false} StopsAtFirstTerminal(counter: nat, script: seq<Attempt>)
    ensures var l := Trace(counter, script);
      && (!l.stopped <==> Retryable(script))
      && (!l.stopped ==> l.launches == |script|)
      && (l.stopped ==> 1 <= l.launches <= |script| && Terminal(script[l.launches - 1])
                        && Retryable(script[..l.launches - 1]))
    decreases |script|
  {
    if script != [] {
      TraceFirst(counter, script);
      var d := Step(counter, script[0]);
      if d.Retry? {
        var rest := script[1..];
        StopsAtFirstTerminal(d.counter, rest);
        var l := Trace(d.counter, rest);
        assert Retryable(script) <==> Retryable(rest) by {
          assert forall i | 1 <= i < |script| :: script[i] == rest[i - 1];
        }
        if l.stopped {
          assert script[..l.launches] == [script[0]] + rest[..l.launches - 1];
          assert script[l.launches] == rest[l.launches - 1];
        }
      } else {
        assert !Retryable(script) by { assert Terminal(script[0]); }
        assert script[..0] == [];
      }
    }
  }

  /** Before `main` returns, every notice it sends reports a failure. */
  lemma {:induction false} RetriesNotifyOnlyFailures(counter: nat, script: seq<Attempt>)
    requires Retryable(script)
    ensures forall e | e in Trace(counter, script).effects :: e.Notify? ==> !e.success
    decreases |script|
  {
    if script != [] {
      TraceFirst(counter, script);
      var d := Step(counter, script[0]);
      assert !Terminal(script[0]);
      assert Retryable(script[1..]) by {
        assert forall i | 1 <= i < |script| :: script[i] == script[1..][i - 1];
      }
      RetriesNotifyOnlyFailures(d.counter, script[1..]);
    }
  }

  /** Lines 13-15: after any run of retried failures, a launch sends the one success notice,
      carrying `None`, as the last thing `main` does; later outcomes are never attempted. */
  lemma SuccessEndsRun(counter: nat, p: seq<Attempt>, q: seq<Attempt>)
    requires Retryable(p)
    ensures var l := Trace(counter, p + [Launched] + q);
      && l.stopped && l.launches == |p| + 1
      && l.effects == Trace(counter, p).effects + [Notify(true, NoneText)]
      && forall i | 0 <= i < |l.effects| - 1 :: !(l.effects[i].Notify? && l.effects[i].success)
  {
    StopsAtFirstTerminal(counter, p);
    RetriesNotifyOnlyFailures(counter, p);
    var l := Trace(counter, p);
    TraceSplit(counter, p, [Launched] + q);
    assert p + [Launched] + q == p + ([Launched] + q);
    TraceFirst(l.counter, [Launched] + q);
    var e := Trace(counter, p + [Launched] + q).effects;
    assert forall i | 0 <= i < |e| - 1 :: e[i] == l.effects[i];
  }

  /** Lines 34-36: after any run of retried failures, an unclassified status sends one
      failure notice with the error's text and `main` returns without sleeping. */
  lemma FatalEndsRun(counter: nat, p: seq<Attempt>, status: int, text: string, q: seq<Attempt>)
    requires Retryable(p)
    requires status != 500 && status != 429 && status != 502
    ensures var l := Trace(counter, p + [Raised(ServiceFailure(status, text))] + q);
      && l.stopped && l.launches == |p| + 1
      && l.effects == Trace(counter, p).effects + [Notify(false, text)]
  {
    StopsAtFirstTerminal(counter, p);
    var a := Raised(ServiceFailure(status, text));
    var l := Trace(counter, p);
    TraceSplit(counter, p, [a] + q);
    assert p + [a] + q == p + ([a] + q);
    TraceFirst(l.counter, [a] + q);
  }

  /** Lines 29-33: a 502 sends a failure notice with the error's text, sleeps 60 seconds and
      goes on with the counter back at 0, whatever it was. */
  lemma BadGatewayContinues(counter: nat, text: string, q: seq<Attempt>)
    ensures Trace(counter, [Raised(ServiceFailure(502, text))] + q)
         == After([Notify(false, text), Sleep(60)], 1, Trace(0, q))
  {
    TraceFirst(counter, [Raised(ServiceFailure(502, text))] + q);
    assert ([Raised(ServiceFailure(502, text))] + q)[1..] == q;
  }

  /** Lines 21-24: a 500 sleeps 30 seconds whatever the counter, and resets it. */
  lemma ServerErrorResets(counter: nat, text: string, q: seq<Attempt>)
    ensures Trace(counter, [Raised(ServiceFailure(500, text))] + q) == After([Sleep(30)], 1, Trace(0, q))
  {
    TraceFirst(counter, [Raised(ServiceFailure(500, text))] + q);
    assert ([Raised(ServiceFailure(500, text))] + q)[1..] == q;
  }

  /** Linear backoff: k sleeps of unit * (counter + 1), ..., unit * (counter + k) seconds. */
  function Sleeps(unit: nat, counter: nat, k: nat): (r: seq<Effect>)
    ensures |r| == k
  {
    seq(k, j requires 0 <= j < k => Sleep(unit * (counter + j + 1)))
  }

  lemma SleepsFirst(unit: nat, counter: nat, k: nat)
    requires k > 0
    ensures Sleeps(unit, counter, k) == [Sleep(unit * (counter + 1))] + Sleeps(unit, counter + 1, k - 1)
  {
    var r := [Sleep(unit * (counter + 1))] + Sleeps(unit, counter + 1, k - 1);
    assert forall j | 0 <= j < k :: Sleeps(unit, counter, k)[j] == r[j] by {
      forall j | 0 <= j < k ensures Sleeps(unit, counter, k)[j] == r[j] {
        if j > 0 {
          assert r[j] == Sleeps(unit, counter + 1, k - 1)[j - 1];
        }
      }
    }
  }

  /** Every attempt of `script` raised a service error with this status, whatever its text. */
  predicate AllStatus(script: seq<Attempt>, status: int)
  {
    forall i | 0 <= i < |script| :: script[i].Raised? && script[i].failure.ServiceFailure? && script[i].failure.status == status
  }

  /** Lines 25-28: the k-th 429 in a row, from counter c, sleeps 30 * (c + k) seconds. */
  lemma {:induction false} RateLimitStreak(counter: nat, script: seq<Attempt>)
    requires AllStatus(script, 429)
    ensures Trace(counter, script) == Log(Sleeps(30, counter, |script|), false, counter + |script|, |script|)
    decreases |script|
  {
    if script != [] {
      TraceFirst(counter, script);
      RateLimitStreak(counter + 1, script[1..]);
      SleepsFirst(30, counter, |script|);
    }
  }

  /** Lines 16-19: the k-th network failure in a row, from counter c, sleeps 60 * (c + k) seconds. */
  lemma {:induction false} NetworkStreak(counter: nat, k: nat)
    ensures Trace(counter, seq(k, _ => Raised(RequestFailure)))
         == Log(Sleeps(60, counter, k), false, counter + k, k)
    decreases k
  {
    if k > 0 {
      var script := seq(k, _ => Raised(RequestFailure));
      TraceFirst(counter, script);
      assert script[1..] == seq(k - 1, _ => Raised(RequestFailure));
      NetworkStreak(counter + 1, k - 1);
      SleepsFirst(60, counter, k);
    }
  }

  /** Lines 21-24, repeated: k 500s in a row each sleep 30 seconds and leave the counter at 0. */
  lemma {:induction false} CapacityFlat(counter: nat, script: seq<Attempt>)
    requires AllStatus(script, 500)
    ensures Trace(counter, script)
         == Log(seq(|script|, _ => Sleep(30)), false, if script == [] then counter else 0, |script|)
    decreases |script|
  {
    if script != [] {
      var k := |script|;
      TraceFirst(counter, script);
      CapacityFlat(0, script[1..]);
      assert [Sleep(30)] + seq(k - 1, _ => Sleep(30)) == seq(k, _ => Sleep(30));
    }
  }

  /** Two rate limits and then a launch: sleeps of 30 and 60 seconds, the success notice, and
      three calls of `create_instance`, whatever the script holds afterwards. */
  lemma RateLimitedThenLaunched(text: string, q: seq<Attempt>)
    ensures Trace(0, [Raised(ServiceFailure(429, text)), Raised(ServiceFailure(429, text)), Launched] + q)
         == Log([Sleep(30), Sleep(60), Notify(true, NoneText)], true, 2, 3)
  {
    var script := [Raised(ServiceFailure(429, text)), Raised(ServiceFailure(429, text)), Launched] + q;
    TraceFirst(0, script);
    TraceFirst(1, script[1..]);
    TraceFirst(2, script[1..][1..]);
    assert script[1..][1..][0] == Launched;
  }

  /** The two increments share one counter: a 429 right after a network failure waits 60 seconds. */
  lemma SharedCounter(text: string)
    ensures Trace(0, [Raised(RequestFailure), Raised(ServiceFailure(429, text))]).effects == [Sleep(60), Sleep(60)]
  {
    var script := [Raised(RequestFailure), Raised(ServiceFailure(429, text))];
    TraceFirst(0, script);
    TraceFirst(1, script[1..]);
    assert script[1..][1..] == [];
  }

  /** Every sleep of a run lasts at least 30 seconds. */
  lemma {:induction false} SleepsAtLeastThirty(counter: nat, script: seq<Attempt>)
    ensures forall e | e in Trace(counter, script).effects :: e.Sleep? ==> e.seconds >= 30
    decreases |script|
  {
    if script != [] {
      TraceFirst(counter, script);
      var d := Step(counter, script[0]);
      if d.Retry? {
        SleepsAtLeastThirty(d.counter, script[1..]);
      }
    }
  }

  /** The posts a run makes: one per notice, when the webhook is set. */
  function Delivered(webhook: Option<string>, userId: Option<string>, effects: seq<Effect>): (posts: seq<Discord.Post>)
    ensures !Discord.IsSet(webhook) ==> posts == []
    ensures Discord.IsSet(webhook) ==> |posts| == |Notices(effects)|
    ensures forall i | 0 <= i < |posts| ::
      posts[i] == Discord.Post(webhook.value, Discord.Content(Discord.Notice(userId, Notices(effects)[i].0, Notices(effects)[i].1, false)))
  {
    if effects == [] then []
    else match effects[0]
      case Sleep(_) => Delivered(webhook, userId, effects[1..])
      case Notify(success, response) =>
        var post := Discord.SendToDiscord(webhook, Discord.Notice(userId, success, response, false));
        (if post.Some? then [post.value] else []) + Delivered(webhook, userId, effects[1..])
  }

  /** The notices among the effects, in order. */
  function Notices(effects: seq<Effect>): seq<(bool, string)>
  {
    if effects == [] then []
    else if effects[0].Notify? then [(effects[0].success, effects[0].response)] + Notices(effects[1..])
    else Notices(effects[1..])
  }

  /** Lines 8-36 with line 9 before them: prepare the instance, then retry until `main` returns
      or the script runs out. A setup error propagates before any launch. */
  method Provision(tenancy: string, env: map<string, string>, file: Oracle.ConfigFile, cloud: Oracle.CloudAnswers,
                   webhook: Option<string>, userId: Option<string>, script: seq<Attempt>)
    returns (err: Option<Oracle.SetupError>, effects: seq<Effect>, stopped: bool, posts: seq<Discord.Post>)
    ensures var want := Oracle.Resolve(tenancy, env, file, cloud);
      && (err.Some? <==> want.Failure?)
      && (want.Failure? ==> err == Some(want.error) && effects == [] && posts == [])
      && (want.Success? ==> effects == Trace(0, script).effects && stopped == Trace(0, script).stopped)
      && posts == Delivered(webhook, userId, effects)
  {
    var instance := new Oracle.OracleInstancePrep(tenancy);
    err := instance.Prepare(env, file, cloud);
    if err.Some? {
      return err, [], false, [];
    }
    var launches;
    effects, stopped, launches := RetryLoop(script);
    posts := Delivered(webhook, userId, effects);
  }
}
