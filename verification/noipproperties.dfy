/** Properties of the dynamic-DNS updater that span several invocations or a
    process restart. */
module NoIPProperties {
  import opened Wrappers
  import opened JavaLong
  import opened Configuration
  import opened JavaText
  import opened NoIPTask

  /** What the environment supplies to one scheduled invocation. */
  datatype Invocation = Invocation(now: Long, externalIp: Option<string>, outcome: HttpOutcome)

  /** A series of scheduled invocations: the final state, every configuration
      call in order, and whether any update request was sent. */
  function RunAll(s: State, invocations: seq<Invocation>): RunResult
    decreases |invocations|
  {
    if |invocations| == 0 then RunResult(s, [], false)
    else
      var i := invocations[0];
      var first := Run(s, i.now, i.externalIp, i.outcome);
      var rest := RunAll(first.state, invocations[1..]);
      RunResult(rest.state, first.writes + rest.writes, first.requested || rest.requested)
  }

  /** Once latched, the task does nothing, however many times it is invoked. */
  lemma {:induction false} FatalIsPermanent(s: State, invocations: seq<Invocation>)
    requires s.fatalError
    ensures RunAll(s, invocations) == RunResult(s, [], false)
    decreases |invocations|
  {
    if |invocations| > 0 {
      FatalIsPermanent(s, invocations[1..]);
    }
  }

  /** The configuration reflects the state's persisted fields, and nothing is
      left unwritten. */
  predicate Mirrors(s: State, c: Config) {
    && IsPersisted(c)
    && GetLong(c, RetryKey) == s.retryAfter
    && GetProperty(c, IpKey) == s.currentExternalIp
  }

  /** A freshly constructed task mirrors the configuration it was built from. */
  lemma NewMirrors(c: Config)
    requires IsPersisted(c)
    requires Configured(c)
    ensures New(c).Success? && Mirrors(New(c).value.state, c)
  {
  }

  lemma ApplyTwo(c: Config, a: Write, b: Write)
    ensures ApplyAll(c, [a, b]) == Apply(Apply(c, a), b)
  {
    assert [a, b][1..] == [b];
    assert [b][1..] == [];
    assert ApplyAll(Apply(c, a), [b]) == ApplyAll(Apply(Apply(c, a), b), []);
  }

  /** One invocation keeps the configuration in step with the state. */
  lemma RunKeepsMirror(s: State, c: Config, now: Long, externalIp: Option<string>, outcome: HttpOutcome)
    requires Mirrors(s, c)
    ensures var r := Run(s, now, externalIp, outcome);
      Mirrors(r.state, ApplyAll(c, r.writes))
  {
    var r := Run(s, now, externalIp, outcome);
    if !s.fatalError && !Waiting(s, now) {
      var clearing := Clearing(s);
      var c1 := ApplyAll(c, clearing);
      if s.retryAfter.Some? {
        ApplyTwo(c, Remove(RetryKey), Update);
      }
      assert Mirrors(s.(retryAfter := None), c1);
      if r.requested {
        var (next, tail) := Respond(s.(retryAfter := None), now, outcome);
        assert r.writes == clearing + tail;
        ApplyAllAppend(c, clearing, tail);
        if tail != [] {
          ApplyTwo(c1, tail[0], tail[1]);
          if ReplyOf(outcome) == Some(ServerError) {
            ParseToString(Wrap(now + RetryTimeoutMillis));
          }
        }
      }
      // every non-empty batch ends with `update()`, so nothing is left unwritten
      if r.writes != [] {
        ApplyAllEndingInUpdate(c, r.writes);
      }
    }
  }

  /** Over any series of invocations the configuration stays in step. */
  lemma {:induction false} RunAllKeepsMirror(s: State, c: Config, invocations: seq<Invocation>)
    requires Mirrors(s, c)
    ensures var r := RunAll(s, invocations);
      Mirrors(r.state, ApplyAll(c, r.writes))
    decreases |invocations|
  {
    if |invocations| > 0 {
      var i := invocations[0];
      var first := Run(s, i.now, i.externalIp, i.outcome);
      RunKeepsMirror(s, c, i.now, i.externalIp, i.outcome);
      var c1 := ApplyAll(c, first.writes);
      RunAllKeepsMirror(first.state, c1, invocations[1..]);
      ApplyAllAppend(c, first.writes, RunAll(first.state, invocations[1..]).writes);
    }
  }

  /** A restart reconstructs the retry deadline and the known IP from the
      saved configuration, but not the fatal latch, which lived in memory. */
  lemma RestartRestoresState(s: State, c: Config)
    requires Mirrors(s, c)
    requires Configured(c)
    ensures New(Reload(c)).value.state == s.(fatalError := false)
  {
  }

  /** A `911` reply defers the next update by thirty minutes, and the
      deadline survives a restart. */
  lemma ServerErrorBacksOff(s: State, c: Config, now: Long, externalIp: Option<string>)
    requires Mirrors(s, c)
    requires !s.fatalError && !Waiting(s, now) && !Unchanged(s, externalIp)
    requires now + RetryTimeoutMillis <= MaxLong
    ensures var r := Run(s, now, externalIp, Answered(200, Some("911")));
      && r.requested
      && r.state.retryAfter == Some(now + RetryTimeoutMillis)
      && (forall later: Long, ip, outcome :: later < now + RetryTimeoutMillis ==>
            Run(r.state, later, ip, outcome) == RunResult(r.state, [], false))
      && (New(Reload(ApplyAll(c, r.writes))).Success? ==>
            New(Reload(ApplyAll(c, r.writes))).value.state.retryAfter == Some(now + RetryTimeoutMillis))
  {
    var outcome := Answered(200, Some("911"));
    assert Classify("911") == ServerError;
    assert ReplyOf(outcome) == Some(ServerError);
    var r := Run(s, now, externalIp, outcome);
    var deadline := now + RetryTimeoutMillis;
    assert Wrap(deadline) == deadline;
    assert r.state.retryAfter == Some(deadline);
    forall later: Long, ip, o | later < deadline
      ensures Run(r.state, later, ip, o) == RunResult(r.state, [], false)
    {
      assert Waiting(r.state, later);
    }
    RunKeepsMirror(s, c, now, externalIp, outcome);
    if New(Reload(ApplyAll(c, r.writes))).Success? {
      assert Configured(ApplyAll(c, r.writes));
      RestartRestoresState(r.state, ApplyAll(c, r.writes));
    }
  }

  /** Once the deadline is reached, the next invocation clears it, writes
      that out, and then attempts the update. */
  lemma DeadlineReachedRetries(s: State, now: Long, externalIp: Option<string>, outcome: HttpOutcome)
    requires !s.fatalError && s.retryAfter.Some? && s.retryAfter.value <= now
    requires !Unchanged(s, externalIp)
    ensures var r := Run(s, now, externalIp, outcome);
      r.requested && r.writes[..2] == [Remove(RetryKey), Update]
  {
  }

  /** A `good <ip>` reply records the IP; the next invocation that observes
      the same IP sends no request and changes nothing. */
  lemma GoodReplyThenQuiet(s: State, now: Long, later: Long, ip: string, outcome: HttpOutcome)
    requires !s.fatalError && s.retryAfter == None && s.currentExternalIp != Some(ip)
    ensures var r := Run(s, now, Some(ip), Answered(200, Some("good " + ip)));
      && r.state.currentExternalIp == Some(ip)
      && r.writes == [SetProperty(IpKey, ip), Update]
      && Run(r.state, later, Some(ip), outcome) == RunResult(r.state, [], false)
  {
    var line := "good " + ip;
    assert StartsWith(line, "good");
    assert line[4] == ' ';
    assert IndexOf(line, ' ') == 4;
    assert line[5..] == ip;
  }
}
