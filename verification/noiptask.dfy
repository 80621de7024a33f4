/** The no-ip.com dynamic-DNS updater (`ru.r2cloud.ddns.NoIPTask`).

    The mutable fields of the Java object become an explicit `State`; one
    invocation of `doRun` becomes the pure function `Run`, which returns the
    new state together with the configuration calls it made. The clock, the
    external-IP lookup and the HTTP exchange are inputs. */
module NoIPTask {
  import opened Wrappers
  import opened JavaLong
  import opened JavaText
  import opened Configuration

  /** Thirty minutes in milliseconds: the cool-down after a `911` reply. */
  const RetryTimeoutMillis: int := 30 * 60 * 1000

  const UsernameKey: string := "ddns.noip.username"
  const PasswordKey: string := "ddns.noip.password"
  const DomainKey: string := "ddns.noip.domain"
  const IpKey: string := "ddns.ip"
  const RetryKey: string := "ddns.retry.after.millis"

  /** The replies of the update protocol that disable the task for good. */
  const FatalReplies: set<string> := {"nohost", "badauth", "badagent", "!donator", "abuse"}

  /** The cross-invocation fields of the task. `fatalError` lives only in
      memory; the other two mirror configuration keys. */
  datatype State = State(fatalError: bool, retryAfter: Option<Long>, currentExternalIp: Option<string>)

  /** A constructed task: the validated credentials and the initial state. */
  datatype Task = Task(username: string, password: string, domainName: string, state: State)

  /** What the HTTP exchange produced: an exception anywhere in it (connect,
      read, or the null-line dereference), or a status code with the first
      line of the body (`None` when `readLine` returned null). */
  datatype HttpOutcome = Threw | Answered(code: int, line: Option<string>)

  /** How the task reads one line of a 200 reply. */
  datatype Reply =
    | Updated(ip: Option<string>)   // `good` or `nochg`, with the text after the first space if any
    | Fatal                          // the account or host is unusable
    | ServerError                    // `911`: try again later
    | Unrecognised

  /** One invocation's effect: the new state, the configuration calls in
      order, and whether the update request was sent. */
  datatype RunResult = RunResult(state: State, writes: seq<Write>, requested: bool)

  /** `getAndValidate`: a credential must be present and not blank after
      `trim()`; otherwise construction throws with this message. */
  function GetAndValidate(config: Config, name: string): (r: Result<string, string>)
    ensures r.Success? <==> name in config.values && !IsBlank(config.values[name])
    ensures r.Success? ==> r.value == config.values[name]
    ensures r.Failure? ==> r.error == name + " cannot be empty"
  {
    match GetProperty(config, name)
    case None => Failure(name + " cannot be empty")
    case Some(v) =>
      if |Trim(v)| == 0 then Failure(name + " cannot be empty") else Success(v)
  }

  predicate HasCredential(config: Config, name: string) {
    name in config.values && !IsBlank(config.values[name])
  }

  /** All three credentials are usable. */
  predicate Configured(config: Config) {
    HasCredential(config, UsernameKey) && HasCredential(config, PasswordKey) && HasCredential(config, DomainKey)
  }

  /** The constructor: validates username, password and domain in that
      order, then loads the last known IP and any pending retry deadline. */
  function New(config: Config): (r: Result<Task, string>)
    ensures r.Success? <==> Configured(config)
    ensures !HasCredential(config, UsernameKey) ==> r == Failure(UsernameKey + " cannot be empty")
    ensures HasCredential(config, UsernameKey) && !HasCredential(config, PasswordKey) ==>
      r == Failure(PasswordKey + " cannot be empty")
    ensures HasCredential(config, UsernameKey) && HasCredential(config, PasswordKey) && !HasCredential(config, DomainKey) ==>
      r == Failure(DomainKey + " cannot be empty")
    ensures r.Success? ==>
      && r.value.username == config.values[UsernameKey]
      && r.value.password == config.values[PasswordKey]
      && r.value.domainName == config.values[DomainKey]
      && !r.value.state.fatalError
      && r.value.state.currentExternalIp == GetProperty(config, IpKey)
      && r.value.state.retryAfter == GetLong(config, RetryKey)
  {
    var username :- GetAndValidate(config, UsernameKey);
    var password :- GetAndValidate(config, PasswordKey);
    var domainName :- GetAndValidate(config, DomainKey);
    Success(Task(username, password, domainName,
                 State(false, GetLong(config, RetryKey), GetProperty(config, IpKey))))
  }

  /** No fatal reply, and not `911`, begins like a success reply. */
  lemma ReplyWordsDisjoint(line: string)
    ensures line in FatalReplies ==> !StartsWith(line, "good") && !StartsWith(line, "nochg")
    ensures line == "911" ==> !StartsWith(line, "good") && !StartsWith(line, "nochg") && line !in FatalReplies
  {
    if line in FatalReplies {
      assert line[0] != 'g';
      assert line[0] == 'n' ==> line == "nohost" && line[2] == 'h';
    }
    if line == "911" {
      assert line[0] == '9';
    }
  }

  /** Reading the first line of a 200 reply against the no-ip.com protocol:
      success replies are matched by prefix, the others exactly. */
  function Classify(line: string): (r: Reply)
    ensures r.Updated? <==> StartsWith(line, "good") || StartsWith(line, "nochg")
    ensures r == Fatal <==> line in FatalReplies
    ensures r == ServerError <==> line == "911"
    ensures r.Updated? ==> (r.ip.Some? <==> IndexOf(line, ' ') != -1)
    ensures r.Updated? && r.ip.Some? ==> r.ip.value == line[IndexOf(line, ' ') + 1..]
  {
    ReplyWordsDisjoint(line);
    if StartsWith(line, "good") || StartsWith(line, "nochg") then
      var index := IndexOf(line, ' ');
      if index != -1 then Updated(Some(line[index + 1..])) else Updated(None)
    else if line in FatalReplies then
      Fatal
    else if line == "911" then
      ServerError
    else
      Unrecognised
  }

  /** The reply a request produced, when it produced one the task reads. */
  function ReplyOf(outcome: HttpOutcome): Option<Reply> {
    match outcome
    case Answered(200, Some(line)) => Some(Classify(line))
    case _ => None
  }

  /** A retry deadline is pending and has not been reached. */
  predicate Waiting(s: State, now: Long) {
    s.retryAfter.Some? && s.retryAfter.value > now
  }

  /** The IP the update service last confirmed is the one observed now. */
  predicate Unchanged(s: State, externalIp: Option<string>) {
    s.currentExternalIp.Some? && externalIp == s.currentExternalIp
  }

  /** A `good`/`nochg` reply that names an IP: the one reply that changes
      the known IP. */
  predicate NamesIp(outcome: HttpOutcome) {
    ReplyOf(outcome).Some? && ReplyOf(outcome).value.Updated? && ReplyOf(outcome).value.ip.Some?
  }

  /** The calls that remove a reached retry deadline, if there was one. */
  function Clearing(s: State): seq<Write> {
    if s.retryAfter.Some? then [Remove(RetryKey), Update] else []
  }

  /** The request phase: act on the reply, or on its absence. */
  function Respond(s: State, now: Long, outcome: HttpOutcome): (r: (State, seq<Write>))
    ensures r.0.fatalError <==> s.fatalError || ReplyOf(outcome) == Some(Fatal)
    ensures r.0.retryAfter ==
      if ReplyOf(outcome) == Some(ServerError) then Some(Wrap(now + RetryTimeoutMillis)) else s.retryAfter
    ensures r.0.currentExternalIp == if NamesIp(outcome) then ReplyOf(outcome).value.ip else s.currentExternalIp
    ensures ReplyOf(outcome) == Some(ServerError) ==>
      r.1 == [SetProperty(RetryKey, ToString(Wrap(now + RetryTimeoutMillis))), Update]
    ensures NamesIp(outcome) ==> r.1 == [SetProperty(IpKey, ReplyOf(outcome).value.ip.value), Update]
    ensures ReplyOf(outcome) != Some(ServerError) && !NamesIp(outcome) ==> r.1 == []
  {
    match ReplyOf(outcome)
    case None => (s, [])
    case Some(Updated(None)) => (s, [])
    case Some(Updated(Some(ip))) =>
      (s.(currentExternalIp := Some(ip)), [SetProperty(IpKey, ip), Update])
    case Some(Fatal) => (s.(fatalError := true), [])
    case Some(ServerError) =>
      var deadline := Wrap(now + RetryTimeoutMillis);
      (s.(retryAfter := Some(deadline)), [SetProperty(RetryKey, ToString(deadline)), Update])
    case Some(Unrecognised) => (s, [])
  }

  /** One invocation of `doRun` at time `now`, with `externalIp` the address
      the IP lookup reported and `outcome` what the update request would
      produce if it is sent. */
  function Run(s: State, now: Long, externalIp: Option<string>, outcome: HttpOutcome): (r: RunResult)
    // the fatal latch
    ensures s.fatalError ==> r == RunResult(s, [], false)
    // a pending deadline suppresses the run entirely
    ensures Waiting(s, now) ==> r == RunResult(s, [], false)
    // a reached deadline is removed and written out before anything else
    ensures !s.fatalError && s.retryAfter.Some? && s.retryAfter.value <= now ==>
      |r.writes| >= 2 && r.writes[..2] == [Remove(RetryKey), Update]
    // the request is sent exactly when no latch, no deadline and no known-equal IP stop it
    ensures r.requested <==> !s.fatalError && !Waiting(s, now) && !Unchanged(s, externalIp)
    ensures !r.requested && !s.fatalError && !Waiting(s, now) ==> r.state == s.(retryAfter := None)
    // the latch is set by a fatal reply and by nothing else
    ensures r.state.fatalError <==> s.fatalError || (r.requested && ReplyOf(outcome) == Some(Fatal))
    // a deadline survives only if it was not reached; a new one comes only from `911`
    ensures r.state.retryAfter.Some? ==>
      ((s.fatalError || Waiting(s, now)) && r.state.retryAfter == s.retryAfter) ||
      (r.requested && ReplyOf(outcome) == Some(ServerError) && r.state.retryAfter == Some(Wrap(now + RetryTimeoutMillis)))
    // the configuration calls: only the clearing, except after `911` or a reply naming an IP
    ensures !s.fatalError && !Waiting(s, now) && !(r.requested && (ReplyOf(outcome) == Some(ServerError) || NamesIp(outcome))) ==>
      r.writes == Clearing(s)
    ensures r.requested && ReplyOf(outcome) == Some(ServerError) ==>
      r.state.retryAfter == Some(Wrap(now + RetryTimeoutMillis)) &&
      r.writes == Clearing(s) + [SetProperty(RetryKey, ToString(Wrap(now + RetryTimeoutMillis))), Update]
    // the known IP changes only on a `good`/`nochg` reply that names one
    ensures r.state.currentExternalIp != s.currentExternalIp ==>
      r.requested && ReplyOf(outcome) == Some(Updated(r.state.currentExternalIp)) && r.state.currentExternalIp.Some?
    ensures r.requested && NamesIp(outcome) ==>
      r.state.currentExternalIp == ReplyOf(outcome).value.ip &&
      r.writes == Clearing(s) + [SetProperty(IpKey, ReplyOf(outcome).value.ip.value), Update]
    // every batch of configuration calls is written out before the run returns
    ensures |r.writes| > 0 ==> r.writes[|r.writes| - 1] == Update
  {
    if s.fatalError then RunResult(s, [], false)
    else if Waiting(s, now) then RunResult(s, [], false)
    else
      var cleared := s.(retryAfter := None);
      var clearing := Clearing(s);
      if Unchanged(cleared, externalIp) then RunResult(cleared, clearing, false)
      else
        var (next, writes) := Respond(cleared, now, outcome);
        RunResult(next, clearing + writes, true)
  }
}
