/** The decisions of the Pub/Sub input worker as functions on its observable
    state: the receive handler, one run attempt, the watchdog loop and the
    acknowledgment bridge (x-pack/filebeat/input/gcppubsub/input.go).
    Goroutines and clocks are replaced by scripted outcomes; every external
    effect is an entry of a trace. */
module Worker {

  import opened Wrappers
  import opened Errors
  import opened Status
  import opened PubSubEvent
  import opened Subscriptions
  import opened SeqFacts

  /** The settings a run attempt uses. */
  datatype InputConfig = InputConfig(project: string, topic: string, subscription: string, createSubscription: bool)

  /** An external effect of the input, in the order it happens. */
  datatype Effect =
    | WorkerStarted                  // the worker goroutine is launched
    | AttemptStarted                 // in.run() is entered
    | Reported(status: Status)       // status.UpdateStatus
    | Requested(call: ClientCall)    // a request to the Pub/Sub client
    | Delivered(event: Event)        // outlet.OnEvent
    | Nacked(msg: Message)           // msg.Nack()
    | Acked(msg: Message)            // msg.Ack()
    | AckFailedLogged                // "Failed ACKing pub/sub event"
    | RestartWarned(err: Error)      // "Restarting failed Pub/Sub input worker."
    | WorkerFailedLogged(err: Error) // "Pub/Sub input worker failed."

  /** The worker's observable state: the two cancellation flags (the
      worker's context and the current attempt's context), the metrics
      counters, the last status reported, and the trace of effects. */
  datatype State = State(
    outerCancelled: bool,
    attemptCancelled: bool,
    acked: nat,
    failedAcked: nat,
    nacked: nat,
    bytes: nat,
    status: Status,
    effects: seq<Effect>)

  /** t extends s's trace, and the new part launches no worker. */
  predicate Grows(s: State, t: State) {
    && |s.effects| <= |t.effects|
    && t.effects[..|s.effects|] == s.effects
    && forall i | |s.effects| <= i < |t.effects| :: !t.effects[i].WorkerStarted?
  }

  lemma GrowsTransitive(s: State, t: State, u: State)
    requires Grows(s, t) && Grows(t, u)
    ensures Grows(s, u)
  {
    assert u.effects[..|s.effects|] == u.effects[..|t.effects|][..|s.effects|];
  }

  /** A trace that grows keeps every earlier entry and the number of
      launched workers. */
  lemma GrowsKeeps(s: State, t: State, e: Effect)
    requires Grows(s, t)
    ensures e in s.effects ==> e in t.effects
    ensures multiset(t.effects)[WorkerStarted] == multiset(s.effects)[WorkerStarted]
  {
    var tail := t.effects[|s.effects|..];
    assert t.effects == s.effects + tail;
    assert WorkerStarted !in tail by {
      forall i | 0 <= i < |tail|
        ensures tail[i] != WorkerStarted
      {
        assert tail[i] == t.effects[|s.effects| + i];
      }
    }
  }

  /** status.UpdateStatus: the new status becomes current and is traced. */
  function Report(s: State, st: Status): (t: State)
    ensures Grows(s, t) && t.effects == s.effects + [Reported(st)]
    ensures t.status == st
    ensures t.outerCancelled == s.outerCancelled && t.attemptCancelled == s.attemptCancelled
    ensures t.acked == s.acked && t.failedAcked == s.failedAcked && t.nacked == s.nacked && t.bytes == s.bytes
  {
    s.(status := st, effects := s.effects + [Reported(st)])
  }

  /** The statuses handed to the reporter, in the order of the trace. */
  function Reports(es: seq<Effect>): (sts: seq<Status>)
    ensures |sts| <= |es|
    ensures forall st | st in sts :: Reported(st) in es
    decreases |es|
  {
    if es == [] then []
    else
      var init := es[..|es| - 1];
      var last := es[|es| - 1];
      assert es == init + [last];
      Reports(init) + (if last.Reported? then [last.status] else [])
  }

  // ---------------------------------------------------------------------
  // The receive handler
  // ---------------------------------------------------------------------

  /** One message handed to the handler, whether the sink accepts the event
      built from it, and the time at which the event is built. */
  datatype Delivery = Delivery(msg: Message, accepted: bool, now: Timestamp)

  /** The trace of one call of the handler: the event delivered, then the
      message nacked when the sink refuses it. */
  function Entries(topicID: string, d: Delivery): (es: seq<Effect>)
    ensures |es| == if d.accepted then 1 else 2
    ensures es[0] == Delivered(MakeEvent(topicID, d.msg, d.now))
    ensures !d.accepted ==> es[1] == Nacked(d.msg)
  {
    [Delivered(MakeEvent(topicID, d.msg, d.now))] + (if d.accepted then [] else [Nacked(d.msg)])
  }

  /** The handler given to Receive: build the event and hand it to the sink;
      when the sink refuses it, nack the message, count the nack and cancel
      the attempt. */
  function HandleMessage(s: State, topicID: string, d: Delivery): (t: State)
    ensures Grows(s, t)
    ensures t.acked == s.acked && t.failedAcked == s.failedAcked && t.bytes == s.bytes
    ensures t.outerCancelled == s.outerCancelled && t.status == s.status
    ensures d.accepted ==> t.nacked == s.nacked && t.attemptCancelled == s.attemptCancelled
    ensures !d.accepted ==> t.nacked == s.nacked + 1 && t.attemptCancelled
    ensures t.effects == s.effects + Entries(topicID, d)
  {
    var delivered := s.(effects := s.effects + [Delivered(MakeEvent(topicID, d.msg, d.now))]);
    if d.accepted then delivered
    else delivered.(effects := delivered.effects + [Nacked(d.msg)], nacked := s.nacked + 1, attemptCancelled := true)
  }

  /** The trace of handling the given deliveries, one after the other. */
  function DeliveryEffects(topicID: string, ds: seq<Delivery>): seq<Effect>
    decreases |ds|
  {
    if ds == [] then [] else Entries(topicID, ds[0]) + DeliveryEffects(topicID, ds[1..])
  }

  /** Some delivery is refused by the sink. */
  predicate Rejects(ds: seq<Delivery>)
    decreases |ds|
  {
    ds != [] && (!ds[0].accepted || Rejects(ds[1..]))
  }

  /** The deliveries the handler sees: all of them up to and including the
      first one the sink refuses. */
  function Handled(ds: seq<Delivery>): (hs: seq<Delivery>)
    ensures |hs| <= |ds| && hs == ds[..|hs|]
    ensures forall i | 0 <= i < |hs| - 1 :: hs[i].accepted
    ensures Rejects(ds) ==> |hs| > 0 && !hs[|hs| - 1].accepted
    ensures !Rejects(ds) ==> hs == ds
    decreases |ds|
  {
    if ds == [] then []
    else if !ds[0].accepted then [ds[0]]
    else
      var rest := Handled(ds[1..]);
      assert [ds[0]] + ds[1..][..|rest|] == ds[..|rest| + 1];
      [ds[0]] + rest
  }

  /** The trace of the handled deliveries, first delivery first. */
  lemma HandledEffects(topicID: string, ds: seq<Delivery>)
    requires ds != []
    ensures DeliveryEffects(topicID, Handled(ds)) ==
      Entries(topicID, ds[0]) + (if ds[0].accepted then DeliveryEffects(topicID, Handled(ds[1..])) else [])
  {
    var hs := Handled(ds);
    assert hs[0] == ds[0];
    assert hs[1..] == if ds[0].accepted then Handled(ds[1..]) else [];
  }

  /** Receive: the handler is called for each message, in order, until the
      attempt is cancelled. */
  function Receive(s: State, topicID: string, ds: seq<Delivery>): (t: State)
    ensures Grows(s, t)
    ensures t.acked == s.acked && t.failedAcked == s.failedAcked && t.bytes == s.bytes
    ensures t.outerCancelled == s.outerCancelled && t.status == s.status
    ensures s.attemptCancelled ==> t == s
    ensures !s.attemptCancelled ==>
      && t.nacked == s.nacked + (if Rejects(ds) then 1 else 0)
      && t.attemptCancelled == Rejects(ds)
      && t.effects == s.effects + DeliveryEffects(topicID, Handled(ds))
    decreases |ds|
  {
    if ds == [] || s.attemptCancelled then s
    else
      var next := HandleMessage(s, topicID, ds[0]);
      var t := Receive(next, topicID, ds[1..]);
      GrowsTransitive(s, next, t);
      HandledEffects(topicID, ds);
      var rest := if ds[0].accepted then DeliveryEffects(topicID, Handled(ds[1..])) else [];
      assert t.effects == next.effects + rest;
      Append3(s.effects, Entries(topicID, ds[0]), rest);
      t
  }

  /** Under backpressure the attempt nacks exactly one message: the first
      message the sink refuses, which is the last message handled. Accepted
      messages are never nacked. */
  lemma {:induction false} NackedOnlyOnRefusal(topicID: string, ds: seq<Delivery>, m: Message)
    requires Nacked(m) in DeliveryEffects(topicID, Handled(ds))
    ensures Rejects(ds) && m == Handled(ds)[|Handled(ds)| - 1].msg
    decreases |ds|
  {
    HandledEffects(topicID, ds);
    var e := Entries(topicID, ds[0]);
    if ds[0].accepted {
      var rest := DeliveryEffects(topicID, Handled(ds[1..]));
      assert Nacked(m) in e + rest;
      assert Nacked(m) !in e;
      NackedOnlyOnRefusal(topicID, ds[1..], m);
      assert Handled(ds) == [ds[0]] + Handled(ds[1..]);
    } else {
      assert e == [Delivered(MakeEvent(topicID, ds[0].msg, ds[0].now)), Nacked(ds[0].msg)];
    }
  }

  // ---------------------------------------------------------------------
  // One run attempt (in.run)
  // ---------------------------------------------------------------------

  /** What the outside world does during one attempt: the client creation
      error, if any (an error newPubsubClient can return, see
      ClientOptions.NewPubsubClientCanceled); the client's replies to Exists and CreateSubscription;
      the messages Receive hands over; and Receive's error, if any. */
  datatype AttemptScript = AttemptScript(
    clientError: Option<Error>,
    existsReply: Result<bool>,
    createReply: Option<Error>,
    deliveries: seq<Delivery>,
    receiveError: Option<Error>)

  datatype AttemptRun = AttemptRun(state: State, err: Option<Error>)

  /** The client requests of a policy run, as trace entries. */
  function Requests(calls: seq<ClientCall>): (es: seq<Effect>)
    ensures |es| == |calls|
    ensures forall i | 0 <= i < |es| :: es[i] == Requested(calls[i])
  {
    seq(|calls|, i requires 0 <= i < |calls| => Requested(calls[i]))
  }

  /** The subscription policy as the attempt runs it. */
  function Policy(cfg: InputConfig, a: AttemptScript): PolicyRun {
    GetOrCreate(a.existsReply, cfg.createSubscription, a.createReply, cfg.subscription, cfg.topic)
  }

  /** The report of a failed Receive, if it failed. */
  function ReceiveReport(cfg: InputConfig, a: AttemptScript): seq<Effect> {
    if a.receiveError.Some? then [Reported(Degraded(ReceiveFailed(cfg.project, cfg.topic, a.receiveError.value)))] else []
  }

  /** The trace after the subscription lookup: Degraded when it failed,
      otherwise the handled deliveries and the report of a failed Receive. */
  function AfterSubscribe(cfg: InputConfig, topicID: string, a: AttemptScript): seq<Effect> {
    if Policy(cfg, a).result.Err? then [Reported(Degraded(SubscribeFailed(Policy(cfg, a).result.error)))]
    else DeliveryEffects(topicID, Handled(a.deliveries)) + ReceiveReport(cfg, a)
  }

  /** The trace one attempt adds, whatever the state before it. */
  function AttemptEffects(cfg: InputConfig, topicID: string, a: AttemptScript): (es: seq<Effect>)
    ensures |es| >= 2 && es[0] == AttemptStarted
  {
    if a.clientError.Some? then [AttemptStarted, Reported(Degraded(a.clientError.value))]
    else [AttemptStarted, Reported(Running)] + Requests(Policy(cfg, a).calls) + AfterSubscribe(cfg, topicID, a)
  }

  /** Handling messages adds only deliveries and nacks to the trace. */
  lemma {:induction false} DeliveryEffectsKinds(topicID: string, ds: seq<Delivery>)
    ensures forall e | e in DeliveryEffects(topicID, ds) :: e.Delivered? || e.Nacked?
    decreases |ds|
  {
    if ds != [] {
      DeliveryEffectsKinds(topicID, ds[1..]);
      assert DeliveryEffects(topicID, ds) == Entries(topicID, ds[0]) + DeliveryEffects(topicID, ds[1..]);
    }
  }

  /** After the subscription lookup the attempt only reports, delivers and
      nacks; when the lookup and Receive succeed, it reports nothing. */
  lemma AfterSubscribeKinds(cfg: InputConfig, topicID: string, a: AttemptScript)
    ensures forall e | e in AfterSubscribe(cfg, topicID, a) :: e.Reported? || e.Delivered? || e.Nacked?
    ensures Policy(cfg, a).result.Ok? && a.receiveError.None? ==>
      forall e | e in AfterSubscribe(cfg, topicID, a) :: e.Delivered? || e.Nacked?
  {
    DeliveryEffectsKinds(topicID, Handled(a.deliveries));
  }

  /** An attempt starts with AttemptStarted and then only reports, requests,
      delivers and nacks. */
  lemma AttemptEffectsKinds(cfg: InputConfig, topicID: string, a: AttemptScript)
    ensures forall e | e in AttemptEffects(cfg, topicID, a)[1..] ::
      e.Reported? || e.Requested? || e.Delivered? || e.Nacked?
  {
    var es := AttemptEffects(cfg, topicID, a);
    if a.clientError.None? {
      var requests := Requests(Policy(cfg, a).calls);
      var after := AfterSubscribe(cfg, topicID, a);
      assert es[1..] == [Reported(Running)] + requests + after;
      AfterSubscribeKinds(cfg, topicID, a);
    } else {
      assert es[1..] == [Reported(Degraded(a.clientError.value))];
    }
  }

  /** in.run: a fresh attempt context; a client, or Degraded and return; then
      Running; the subscription, or Degraded and return; then Receive, with
      Degraded when it fails; the attempt context is cancelled on return. */
  function Attempt(s: State, cfg: InputConfig, topicID: string, a: AttemptScript): (r: AttemptRun)
    ensures r.state.acked == s.acked && r.state.failedAcked == s.failedAcked && r.state.bytes == s.bytes
    ensures r.state.outerCancelled == s.outerCancelled && r.state.attemptCancelled
    ensures r.state.effects == s.effects + AttemptEffects(cfg, topicID, a)
    ensures r.err.None? <==> a.clientError.None? && Policy(cfg, a).result.Ok? && a.receiveError.None?
    ensures r.state.nacked ==
      s.nacked + (if a.clientError.None? && Policy(cfg, a).result.Ok? && Rejects(a.deliveries) then 1 else 0)
  {
    var s0 := s.(attemptCancelled := false, effects := s.effects + [AttemptStarted]);
    if a.clientError.Some? then
      AttemptRun(Report(s0, Degraded(a.clientError.value)).(attemptCancelled := true), a.clientError)
    else
      var s1 := Report(s0, Running);
      var policy := Policy(cfg, a);
      var s2 := s1.(effects := s1.effects + Requests(policy.calls));
      var prefix := [AttemptStarted, Reported(Running)] + Requests(policy.calls);
      assert s2.effects == s.effects + prefix;
      var subscribeError := if policy.result.Err? then Some(SubscribeFailed(policy.result.error)) else None;
      var t :=
        if subscribeError.Some? then Report(s2, Degraded(subscribeError.value))
        else Serve(s2, cfg, topicID, a);
      assert t.effects == s2.effects + AfterSubscribe(cfg, topicID, a);
      Append3(s.effects, prefix, AfterSubscribe(cfg, topicID, a));
      AttemptRun(t.(attemptCancelled := true), if subscribeError.Some? then subscribeError else a.receiveError)
  }

  /** Receiving on the subscription: the handler runs over the deliveries,
      and a Receive error is reported as Degraded with the project and topic. */
  function Serve(s: State, cfg: InputConfig, topicID: string, a: AttemptScript): (t: State)
    requires !s.attemptCancelled
    ensures t.acked == s.acked && t.failedAcked == s.failedAcked && t.bytes == s.bytes
    ensures t.outerCancelled == s.outerCancelled
    ensures t.effects == s.effects + (DeliveryEffects(topicID, Handled(a.deliveries)) + ReceiveReport(cfg, a))
    ensures t.nacked == s.nacked + (if Rejects(a.deliveries) then 1 else 0)
    ensures a.receiveError.Some? ==> t.status == Degraded(ReceiveFailed(cfg.project, cfg.topic, a.receiveError.value))
  {
    var t := Receive(s, topicID, a.deliveries);
    Append3(s.effects, DeliveryEffects(topicID, Handled(a.deliveries)), ReceiveReport(cfg, a));
    if a.receiveError.Some?
    then Report(t, Degraded(ReceiveFailed(cfg.project, cfg.topic, a.receiveError.value)))
    else t
  }

  /** A client that cannot be created: the attempt reports Degraded with the
      client's error, never Running, makes no request and returns that error. */
  lemma AttemptClientFailure(s: State, cfg: InputConfig, topicID: string, a: AttemptScript)
    requires a.clientError.Some?
    ensures var r := Attempt(s, cfg, topicID, a);
      && r.err == a.clientError
      && r.state.status == Degraded(a.clientError.value)
      && r.state.effects == s.effects + [AttemptStarted, Reported(Degraded(a.clientError.value))]
  {
  }

  /** With a client, Running is reported right after the attempt starts and
      before any request to the client. */
  lemma AttemptRunningFirst(s: State, cfg: InputConfig, topicID: string, a: AttemptScript)
    requires a.clientError.None?
    ensures var added := Attempt(s, cfg, topicID, a).state.effects[|s.effects|..];
      && added[1] == Reported(Running)
      && (forall i | 0 <= i < |added| && added[i].Requested? :: 1 < i)
  {
    var es := AttemptEffects(cfg, topicID, a);
    DropPrefix(s.effects, es);
    var requests := Requests(Policy(cfg, a).calls);
    var after := AfterSubscribe(cfg, topicID, a);
    assert es == [AttemptStarted, Reported(Running)] + requests + after;
    AfterSubscribeKinds(cfg, topicID, a);
  }

  /** A failed attempt ends on Degraded: it is the current status and the
      last entry of the trace. */
  lemma AttemptFailureLast(s: State, cfg: InputConfig, topicID: string, a: AttemptScript)
    ensures var r := Attempt(s, cfg, topicID, a);
      r.err.Some? ==> r.state.status.Degraded? && r.state.effects[|r.state.effects| - 1] == Reported(r.state.status)
  {
  }

  /** An attempt that returns no error (Attempt's err is None exactly under
      this requirement) reports nothing after Running. */
  lemma AttemptSuccessQuiet(cfg: InputConfig, topicID: string, a: AttemptScript)
    requires a.clientError.None? && Policy(cfg, a).result.Ok? && a.receiveError.None?
    ensures forall e | e in AttemptEffects(cfg, topicID, a)[2..] :: !e.Reported?
  {
    var es := AttemptEffects(cfg, topicID, a);
    var requests := Requests(Policy(cfg, a).calls);
    var after := AfterSubscribe(cfg, topicID, a);
    assert es[2..] == requests + after;
    AfterSubscribeKinds(cfg, topicID, a);
  }

  /** A trace extended by entries that launch no worker grows. */
  lemma GrowsBy(s: State, t: State, es: seq<Effect>)
    requires t.effects == s.effects + es
    requires WorkerStarted !in es
    ensures Grows(s, t)
  {
    forall i | |s.effects| <= i < |t.effects|
      ensures !t.effects[i].WorkerStarted?
    {
      assert t.effects[i] == es[i - |s.effects|];
    }
  }

  /** An attempt launches no worker and keeps the trace before it. */
  lemma AttemptGrows(s: State, cfg: InputConfig, topicID: string, a: AttemptScript)
    ensures Grows(s, Attempt(s, cfg, topicID, a).state)
  {
    var es := AttemptEffects(cfg, topicID, a);
    AttemptEffectsKinds(cfg, topicID, a);
    assert es == [es[0]] + es[1..];
    GrowsBy(s, Attempt(s, cfg, topicID, a).state, es);
  }

  // ---------------------------------------------------------------------
  // The watchdog (the worker goroutine started by Run)
  // ---------------------------------------------------------------------

  /** The rate limiter's Wait: it returns once the interval has passed, or
      fails because the worker's context was cancelled while waiting. */
  datatype WaitOutcome = Ready | WaitCancelled

  /** One pass of the watchdog loop: the wait, the attempt, and whether the
      worker's context is cancelled (Stop, or the host closing the input)
      by the time the attempt returns. */
  datatype Round = Round(wait: WaitOutcome, attempt: AttemptScript, stopDuringAttempt: bool)

  /** The round ends with the worker's context cancelled. */
  predicate Cancels(r: Round) {
    r.wait.WaitCancelled? || r.stopDuringAttempt
  }

  /** Some round cancels the worker's context: the host eventually stops
      the input. */
  predicate EventuallyCancels(rounds: seq<Round>)
    decreases |rounds|
  {
    rounds != [] && (Cancels(rounds[0]) || EventuallyCancels(rounds[1..]))
  }

  /** The watchdog's log line after an attempt: none on success; a restart
      warning while the worker's context is live; after cancellation, a
      failure line unless the error is a context cancellation. */
  function AttemptLog(err: Option<Error>, cancelled: bool): (es: seq<Effect>)
    ensures |es| <= 1
    ensures forall e | e in es :: e.RestartWarned? || e.WorkerFailedLogged?
  {
    if err.None? then []
    else if !cancelled then [RestartWarned(err.value)]
    else if !IsCanceled(err.value) then [WorkerFailedLogged(err.value)]
    else []
  }

  /** One pass of the loop: a cancelled wait goes back to the loop test;
      otherwise one attempt, the worker's context as the attempt left it,
      and the log line for the attempt's error. */
  function Iteration(s: State, cfg: InputConfig, topicID: string, r: Round): (t: State)
    requires !s.outerCancelled
    ensures Grows(s, t)
    ensures t.outerCancelled == Cancels(r)
    ensures t.acked == s.acked && t.failedAcked == s.failedAcked && t.bytes == s.bytes
  {
    match r.wait
    case WaitCancelled => s.(outerCancelled := true)
    case Ready =>
      var run := Attempt(s, cfg, topicID, r.attempt);
      var logs := AttemptLog(run.err, r.stopDuringAttempt);
      var t := run.state.(outerCancelled := r.stopDuringAttempt, effects := run.state.effects + logs);
      AttemptGrows(s, cfg, topicID, r.attempt);
      GrowsBy(run.state, t, logs);
      GrowsTransitive(s, run.state, t);
      t
  }

  /** The worker goroutine: loop while the worker's context is live, then
      cancel it and report Stopped. */
  function Watchdog(s: State, cfg: InputConfig, topicID: string, rounds: seq<Round>): (t: State)
    requires s.outerCancelled || EventuallyCancels(rounds)
    ensures Grows(s, t)
    ensures t.outerCancelled && t.status == Stopped
    ensures |t.effects| > 0 && t.effects[|t.effects| - 1] == Reported(Stopped)
    decreases |rounds|
  {
    if s.outerCancelled then Report(s, Stopped)
    else
      var next := Iteration(s, cfg, topicID, rounds[0]);
      var t := Watchdog(next, cfg, topicID, rounds[1..]);
      GrowsTransitive(s, next, t);
      t
  }

  /** Run, the first time: fresh metrics, and the worker goroutine launched. */
  function Launch(s: State): (t: State)
    ensures t.acked == 0 && t.failedAcked == 0 && t.nacked == 0 && t.bytes == 0
    ensures t.effects == s.effects + [WorkerStarted]
    ensures multiset(t.effects)[WorkerStarted] == multiset(s.effects)[WorkerStarted] + 1
  {
    s.(acked := 0, failedAcked := 0, nacked := 0, bytes := 0, effects := s.effects + [WorkerStarted])
  }

  /** Launching the worker from a state without one leaves exactly one
      launched worker, and the worker ends with its context cancelled and
      Stopped reported. */
  lemma RunLaunchesOne(s: State, cfg: InputConfig, topicID: string, rounds: seq<Round>)
    requires multiset(s.effects)[WorkerStarted] == 0
    requires s.outerCancelled || EventuallyCancels(rounds)
    ensures var t := Watchdog(Launch(s), cfg, topicID, rounds);
      && multiset(t.effects)[WorkerStarted] == 1
      && t.outerCancelled && t.status == Stopped && Reported(Stopped) in t.effects
  {
    var t := Watchdog(Launch(s), cfg, topicID, rounds);
    GrowsKeeps(Launch(s), t, WorkerStarted);
    assert t.effects[|t.effects| - 1] == Reported(Stopped);
  }

  /** What the reporter keeps of a run of the worker: a host reporter has
      Stopped as its last update, the no-op reporter has nothing. */
  lemma RunReportsStopped(s: State, cfg: InputConfig, topicID: string, rounds: seq<Round>, rep: Reporter)
    requires s.outerCancelled || EventuallyCancels(rounds)
    ensures var kept := Recorded(rep, Reports(Watchdog(Launch(s), cfg, topicID, rounds).effects));
      && (rep.Host? ==> |kept| > 0 && kept[|kept| - 1] == Stopped)
      && (rep.Noop? ==> kept == [])
  {
    var es := Watchdog(Launch(s), cfg, topicID, rounds).effects;
    ReportsLast(es);
  }

  /** A trace that ends with a report has that status as its last report. */
  lemma ReportsLast(es: seq<Effect>)
    requires |es| > 0 && es[|es| - 1].Reported?
    ensures |Reports(es)| > 0 && Reports(es)[|Reports(es)| - 1] == es[|es| - 1].status
  {
  }

  /** How many attempts the watchdog starts: one per round whose wait
      succeeds, up to and including the first round that cancels. */
  function AttemptsUntilCancel(rounds: seq<Round>): nat
    decreases |rounds|
  {
    if rounds == [] then 0
    else (if rounds[0].wait.Ready? then 1 else 0) + (if Cancels(rounds[0]) then 0 else AttemptsUntilCancel(rounds[1..]))
  }

  /** An attempt runs in.run exactly once. */
  lemma AttemptStartsOnce(cfg: InputConfig, topicID: string, a: AttemptScript)
    ensures multiset(AttemptEffects(cfg, topicID, a))[AttemptStarted] == 1
  {
    var es := AttemptEffects(cfg, topicID, a);
    AttemptEffectsKinds(cfg, topicID, a);
    assert es == [AttemptStarted] + es[1..];
    assert AttemptStarted !in es[1..];
    assert multiset(es) == multiset([AttemptStarted]) + multiset(es[1..]);
  }

  /** One pass of the loop starts one attempt when its wait succeeds and
      none otherwise. */
  lemma IterationStarts(s: State, cfg: InputConfig, topicID: string, r: Round)
    requires !s.outerCancelled
    ensures multiset(Iteration(s, cfg, topicID, r).effects)[AttemptStarted] ==
      multiset(s.effects)[AttemptStarted] + (if r.wait.Ready? then 1 else 0)
  {
    if r.wait.Ready? {
      var run := Attempt(s, cfg, topicID, r.attempt);
      var es := AttemptEffects(cfg, topicID, r.attempt);
      var logs := AttemptLog(run.err, r.stopDuringAttempt);
      var t := Iteration(s, cfg, topicID, r);
      AttemptStartsOnce(cfg, topicID, r.attempt);
      assert t.effects == run.state.effects + logs;
      assert multiset(t.effects) == multiset(run.state.effects) + multiset(logs);
      assert multiset(run.state.effects) == multiset(s.effects) + multiset(es);
      assert AttemptStarted !in logs;
    }
  }

  /** The watchdog keeps retrying while the worker's context is live and
      stops at the first cancellation: it starts exactly one attempt per
      round whose wait succeeds, up to that round, and none after it. */
  lemma {:induction false} WatchdogAttempts(s: State, cfg: InputConfig, topicID: string, rounds: seq<Round>)
    requires !s.outerCancelled && EventuallyCancels(rounds)
    ensures var t := Watchdog(s, cfg, topicID, rounds);
      multiset(t.effects)[AttemptStarted] == multiset(s.effects)[AttemptStarted] + AttemptsUntilCancel(rounds)
    decreases |rounds|
  {
    var r := rounds[0];
    var next := Iteration(s, cfg, topicID, r);
    IterationStarts(s, cfg, topicID, r);
    if Cancels(r) {
      assert Watchdog(next, cfg, topicID, rounds[1..]) == Report(next, Stopped);
    } else {
      WatchdogAttempts(next, cfg, topicID, rounds[1..]);
    }
  }

  /** The failure log line is never written for a context cancellation. */
  lemma {:induction false} WatchdogLogs(s: State, cfg: InputConfig, topicID: string, rounds: seq<Round>)
    requires s.outerCancelled || EventuallyCancels(rounds)
    ensures var t := Watchdog(s, cfg, topicID, rounds);
      forall e | e in t.effects[|s.effects|..] && e.WorkerFailedLogged? :: !IsCanceled(e.err)
    decreases |rounds|
  {
    var t := Watchdog(s, cfg, topicID, rounds);
    if s.outerCancelled {
      assert t.effects[|s.effects|..] == [Reported(Stopped)];
    } else {
      var r := rounds[0];
      var next := Iteration(s, cfg, topicID, r);
      IterationLogs(s, cfg, topicID, r);
      WatchdogLogs(next, cfg, topicID, rounds[1..]);
      assert t == Watchdog(next, cfg, topicID, rounds[1..]);
      SuffixSplit(s.effects, next.effects, t.effects);
    }
  }

  /** An attempt followed by its log line holds a failure line only after
      cancellation and only for a non-cancellation error, and a restart
      warning only before cancellation. */
  lemma AttemptThenLog(cfg: InputConfig, topicID: string, a: AttemptScript, err: Option<Error>, cancelled: bool)
    ensures var es := AttemptEffects(cfg, topicID, a) + AttemptLog(err, cancelled);
      && (forall e | e in es && e.WorkerFailedLogged? :: cancelled && !IsCanceled(e.err))
      && (forall e | e in es && e.RestartWarned? :: !cancelled)
  {
    var es := AttemptEffects(cfg, topicID, a);
    AttemptEffectsKinds(cfg, topicID, a);
    assert es == [es[0]] + es[1..];
  }

  /** One pass logs a failure only for a non-cancellation error after the
      worker's context was cancelled, and a restart warning only while it is
      live. */
  lemma IterationLogs(s: State, cfg: InputConfig, topicID: string, r: Round)
    requires !s.outerCancelled
    ensures var added := Iteration(s, cfg, topicID, r).effects[|s.effects|..];
      && (forall e | e in added && e.WorkerFailedLogged? :: Cancels(r) && !IsCanceled(e.err))
      && (forall e | e in added && e.RestartWarned? :: !Cancels(r))
  {
    var t := Iteration(s, cfg, topicID, r);
    if r.wait.Ready? {
      var run := Attempt(s, cfg, topicID, r.attempt);
      var es := AttemptEffects(cfg, topicID, r.attempt);
      var logs := AttemptLog(run.err, r.stopDuringAttempt);
      assert t.effects == run.state.effects + logs;
      Append3(s.effects, es, logs);
      DropPrefix(s.effects, es + logs);
      AttemptThenLog(cfg, topicID, r.attempt, run.err, r.stopDuringAttempt);
    } else {
      assert t.effects[|s.effects|..] == [];
    }
  }

  /** After an attempt: an error while the worker's context stays live is
      warned about and the loop goes on; after cancellation, an error that is
      not a context cancellation is logged as a failure; otherwise nothing is
      logged. */
  lemma IterationOnError(s: State, cfg: InputConfig, topicID: string, r: Round)
    requires !s.outerCancelled && r.wait.Ready?
    ensures var run := Attempt(s, cfg, topicID, r.attempt);
      var t := Iteration(s, cfg, topicID, r);
      && (run.err.Some? && !r.stopDuringAttempt ==>
            !t.outerCancelled && t.effects == run.state.effects + [RestartWarned(run.err.value)])
      && (run.err.Some? && r.stopDuringAttempt && !IsCanceled(run.err.value) ==>
            t.effects == run.state.effects + [WorkerFailedLogged(run.err.value)])
      && (run.err.None? || (r.stopDuringAttempt && IsCanceled(run.err.value)) ==>
            t.effects == run.state.effects)
  {
  }

  // ---------------------------------------------------------------------
  // The acknowledgment bridge
  // ---------------------------------------------------------------------

  /** The private data of an acknowledged event: the Pub/Sub message, or
      anything else. */
  datatype Private = MessagePrivate(msg: Message) | OtherPrivate

  /** One entry of the loop: ack and count a message with its payload size;
      count and log anything else without acking. */
  function AckOne(s: State, p: Private): (t: State)
    ensures t.effects == s.effects + [AckEntry(p)]
    ensures t.acked + t.failedAcked == s.acked + s.failedAcked + 1
    ensures p.MessagePrivate? ==> t.acked == s.acked + 1 && t.bytes == s.bytes + |p.msg.data|
    ensures p.OtherPrivate? ==> t.failedAcked == s.failedAcked + 1 && t.bytes == s.bytes
    ensures t.outerCancelled == s.outerCancelled && t.attemptCancelled == s.attemptCancelled
    ensures t.nacked == s.nacked && t.status == s.status
  {
    match p
    case MessagePrivate(msg) =>
      s.(acked := s.acked + 1, bytes := s.bytes + |msg.data|, effects := s.effects + [Acked(msg)])
    case OtherPrivate =>
      s.(failedAcked := s.failedAcked + 1, effects := s.effects + [AckFailedLogged])
  }

  /** The callback given to EventPrivateReporter: every entry in order. */
  function AckAll(s: State, ps: seq<Private>): (t: State)
    ensures |t.effects| == |s.effects| + |ps|
    ensures t.acked + t.failedAcked == s.acked + s.failedAcked + |ps|
    decreases |ps|
  {
    if ps == [] then s else AckAll(AckOne(s, ps[0]), ps[1..])
  }

  /** The number of messages among the entries. */
  function MessageCount(ps: seq<Private>): (n: nat)
    ensures n <= |ps|
    decreases |ps|
  {
    if ps == [] then 0 else (if ps[0].MessagePrivate? then 1 else 0) + MessageCount(ps[1..])
  }

  /** The total payload size of the messages among the entries. */
  function PayloadBytes(ps: seq<Private>): nat
    decreases |ps|
  {
    if ps == [] then 0 else (if ps[0].MessagePrivate? then |ps[0].msg.data| else 0) + PayloadBytes(ps[1..])
  }

  /** The trace entry for one private: an ack for a message, a log line
      otherwise. */
  function AckEntry(p: Private): Effect {
    if p.MessagePrivate? then Acked(p.msg) else AckFailedLogged
  }

  /** The trace of the loop: one entry per private, in order. */
  function AckEffects(ps: seq<Private>): (es: seq<Effect>)
    ensures |es| == |ps|
    ensures forall i | 0 <= i < |ps| :: es[i] == AckEntry(ps[i])
    decreases |ps|
  {
    if ps == [] then [] else [AckEntry(ps[0])] + AckEffects(ps[1..])
  }

  /** The bridge counts each message as acked with its payload size, and
      every other entry as a failed ack; so acked plus failedAcked grows by
      the number of entries. */
  lemma {:induction false} AckAllCounters(s: State, ps: seq<Private>)
    ensures var t := AckAll(s, ps);
      && t.acked == s.acked + MessageCount(ps)
      && t.failedAcked == s.failedAcked + (|ps| - MessageCount(ps))
      && t.bytes == s.bytes + PayloadBytes(ps)
    decreases |ps|
  {
    if ps != [] {
      AckAllCounters(AckOne(s, ps[0]), ps[1..]);
    }
  }

  /** The bridge acks each message once, in order, and logs every other
      entry without acking it. */
  lemma {:induction false} AckAllTrace(s: State, ps: seq<Private>)
    ensures AckAll(s, ps).effects == s.effects + AckEffects(ps)
    decreases |ps|
  {
    if ps != [] {
      var first := AckOne(s, ps[0]);
      AckAllTrace(first, ps[1..]);
      var x := AckEntry(ps[0]);
      assert first.effects == s.effects + [x];
      assert AckEffects(ps) == [x] + AckEffects(ps[1..]);
      Append3(s.effects, [x], AckEffects(ps[1..]));
    }
  }

  /** The bridge changes no flag, no nack count and no status. */
  lemma {:induction false} AckAllKeeps(s: State, ps: seq<Private>)
    ensures var t := AckAll(s, ps);
      && t.outerCancelled == s.outerCancelled && t.attemptCancelled == s.attemptCancelled
      && t.nacked == s.nacked && t.status == s.status
    decreases |ps|
  {
    if ps != [] {
      AckAllKeeps(AckOne(s, ps[0]), ps[1..]);
    }
  }

  /** The whole effect of the bridge: the counters, the trace, and nothing
      else. */
  lemma AckAllCounts(s: State, ps: seq<Private>)
    ensures AckAll(s, ps) == s.(
      acked := s.acked + MessageCount(ps),
      failedAcked := s.failedAcked + (|ps| - MessageCount(ps)),
      bytes := s.bytes + PayloadBytes(ps),
      effects := s.effects + AckEffects(ps))
  {
    AckAllCounters(s, ps);
    AckAllTrace(s, ps);
    AckAllKeeps(s, ps);
  }

  /** One step of the loop, taken at any position. */
  lemma AckAllStep(s: State, ps: seq<Private>, i: nat)
    requires i < |ps|
    ensures AckAll(AckOne(s, ps[i]), ps[i + 1..]) == AckAll(s, ps[i..])
  {
    assert ps[i..][1..] == ps[i + 1..];
  }

  /** The bridge launches no worker and keeps the trace so far. */
  lemma AckAllGrows(s: State, ps: seq<Private>)
    ensures Grows(s, AckAll(s, ps))
  {
    AckAllCounts(s, ps);
  }
}
