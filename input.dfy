/** The Pub/Sub input object (pubsubInput in
    x-pack/filebeat/input/gcppubsub/input.go): its lifecycle methods update
    its fields in place, and each is proved against the matching step of the
    Worker module. The worker goroutine runs here to completion inside Run,
    over a script of rounds that ends with the worker's context cancelled. */
module Input {

  import opened Wrappers
  import opened Errors
  import opened Status
  import opened PubSubEvent
  import opened Subscriptions
  import opened Worker

  class PubSubInput {
    const config: InputConfig
    const sha256: Hasher
    const reporter: Reporter

    /** workerOnce has fired. */
    var started: bool
    /** The host's Done channel is still being watched. */
    var watching: bool
    /** The worker's context, and the context of the current attempt. */
    var outerCancelled: bool
    var attemptCancelled: bool
    /** The metrics counters. */
    var acked: nat
    var failedAcked: nat
    var nacked: nat
    var bytes: nat
    /** The last status handed to the reporter. */
    var status: Status
    /** Every external effect so far, in order. */
    ghost var effects: seq<Effect>

    /** The object's observable state, as the Worker functions see it. */
    ghost function Snapshot(): State
      reads this
    {
      State(outerCancelled, attemptCancelled, acked, failedAcked, nacked, bytes, status, effects)
    }

    /** The updates the input's reporter keeps. */
    ghost function HostView(): seq<Status>
      reads this
    {
      Recorded(reporter, Reports(effects))
    }

    /** At most one worker is ever launched, and once it has been, Stop has
        nothing left to wait for: the worker has cancelled its context and
        reported Stopped. */
    ghost predicate Valid()
      reads this
    {
      && multiset(effects)[WorkerStarted] == (if started then 1 else 0)
      && (started ==> outerCancelled && Reported(Stopped) in effects)
    }

    /** The topic ID of the configured project and topic. */
    function TopicID(): (id: string)
      ensures |id| == 10
    {
      MakeTopicID(sha256, config.project, config.topic)
    }

    /** NewInput, when the configuration is valid: the reporter from the
        host's context, Starting then Configuring reported, the contexts
        live and the worker not yet launched. */
    constructor (config: InputConfig, sha256: Hasher, source: ReporterSource)
      ensures this.config == config && this.sha256 == sha256
      ensures reporter == GetStatusReporter(source)
      ensures !started && watching
      ensures Snapshot() == State(false, false, 0, 0, 0, 0, Configuring, [Reported(Starting), Reported(Configuring)])
      ensures Valid()
    {
      this.config := config;
      this.sha256 := sha256;
      reporter := GetStatusReporter(source);
      started := false;
      watching := true;
      outerCancelled := false;
      attemptCancelled := false;
      acked := 0;
      failedAcked := 0;
      nacked := 0;
      bytes := 0;
      status := Configuring;
      effects := [Reported(Starting), Reported(Configuring)];
    }

    /** status.UpdateStatus on the input's reporter. */
    method UpdateStatus(st: Status)
      modifies this`status, this`effects
      ensures Snapshot() == Report(old(Snapshot()), st)
    {
      status := st;
      effects := effects + [Reported(st)];
    }

    /** The handler given to Receive. */
    method OnMessage(topicID: string, d: Delivery)
      modifies this`nacked, this`attemptCancelled, this`effects
      ensures Snapshot() == HandleMessage(old(Snapshot()), topicID, d)
    {
      effects := effects + [Delivered(MakeEvent(topicID, d.msg, d.now))];
      if !d.accepted {
        effects := effects + [Nacked(d.msg)];
        nacked := nacked + 1;
        attemptCancelled := true;
      }
    }

    /** sub.Receive: the handler for each message in turn until the attempt
        is cancelled. */
    method ReceiveMessages(topicID: string, ds: seq<Delivery>)
      modifies this`nacked, this`attemptCancelled, this`effects
      ensures Snapshot() == Receive(old(Snapshot()), topicID, ds)
    {
      var i := 0;
      while i < |ds| && !attemptCancelled
        invariant 0 <= i <= |ds|
        invariant Receive(Snapshot(), topicID, ds[i..]) == Receive(old(Snapshot()), topicID, ds)
      {
        assert ds[i..][1..] == ds[i + 1..];
        OnMessage(topicID, ds[i]);
        i := i + 1;
      }
    }

    /** in.run: one attempt against a client with the scripted replies. */
    method RunAttempt(a: AttemptScript) returns (err: Option<Error>)
      modifies this`status, this`effects, this`nacked, this`attemptCancelled
      ensures var run := Attempt(old(Snapshot()), config, TopicID(), a);
        Snapshot() == run.state && err == run.err
    {
      ghost var s := Snapshot();
      attemptCancelled := false;
      effects := effects + [AttemptStarted];
      ghost var s0 := Snapshot();
      assert s0 == s.(attemptCancelled := false, effects := s.effects + [AttemptStarted]);
      if a.clientError.Some? {
        UpdateStatus(Degraded(a.clientError.value));
        attemptCancelled := true;
        assert Snapshot() == Report(s0, Degraded(a.clientError.value)).(attemptCancelled := true);
        return a.clientError;
      }
      UpdateStatus(Running);
      var sub := Subscribe(a);
      ghost var s2 := Snapshot();
      assert s2 == Report(s0, Running).(effects := Report(s0, Running).effects + Requests(Policy(config, a).calls));
      if sub.Err? {
        err := Some(SubscribeFailed(sub.error));
        UpdateStatus(Degraded(err.value));
        attemptCancelled := true;
        assert Snapshot() == Report(s2, Degraded(err.value)).(attemptCancelled := true);
        return;
      }
      ServeMessages(a);
      attemptCancelled := true;
      err := a.receiveError;
    }

    /** getOrCreateSubscription against a client with the scripted replies;
        the client's requests are traced. */
    method Subscribe(a: AttemptScript) returns (sub: Result<Subscription>)
      modifies this`effects
      ensures sub == Policy(config, a).result
      ensures effects == old(effects) + Requests(Policy(config, a).calls)
    {
      var client := new Client(a.existsReply, a.createReply);
      sub := GetOrCreateSubscription(client, config.subscription, config.topic, config.createSubscription);
      effects := effects + Requests(client.calls);
    }

    /** sub.Receive, then Degraded when it fails. */
    method ServeMessages(a: AttemptScript)
      requires !attemptCancelled
      modifies this`status, this`effects, this`nacked, this`attemptCancelled
      ensures Snapshot() == Serve(old(Snapshot()), config, TopicID(), a)
    {
      ReceiveMessages(TopicID(), a.deliveries);
      if a.receiveError.Some? {
        UpdateStatus(Degraded(ReceiveFailed(config.project, config.topic, a.receiveError.value)));
      }
    }

    /** One pass of the watchdog loop. */
    method Iterate(r: Round)
      requires !outerCancelled
      modifies this`status, this`effects, this`nacked, this`attemptCancelled, this`outerCancelled
      ensures Snapshot() == Iteration(old(Snapshot()), config, TopicID(), r)
    {
      if r.wait.WaitCancelled? {
        outerCancelled := true;
        return;
      }
      var err := RunAttempt(r.attempt);
      outerCancelled := r.stopDuringAttempt;
      if err.Some? {
        if !outerCancelled {
          effects := effects + [RestartWarned(err.value)];
        } else if !IsCanceled(err.value) {
          effects := effects + [WorkerFailedLogged(err.value)];
        }
      }
    }

    /** The worker goroutine: the watchdog loop, then Stopped. */
    method WatchdogLoop(rounds: seq<Round>)
      requires outerCancelled || EventuallyCancels(rounds)
      modifies this`status, this`effects, this`nacked, this`attemptCancelled, this`outerCancelled
      ensures Snapshot() == Watchdog(old(Snapshot()), config, TopicID(), rounds)
    {
      var k := 0;
      while !outerCancelled
        invariant 0 <= k <= |rounds|
        invariant outerCancelled || EventuallyCancels(rounds[k..])
        invariant Watchdog(Snapshot(), config, TopicID(), rounds[k..]) == Watchdog(old(Snapshot()), config, TopicID(), rounds)
        decreases |rounds| - k
      {
        assert rounds[k..][1..] == rounds[k + 1..];
        Iterate(rounds[k]);
        k := k + 1;
      }
      UpdateStatus(Stopped);
    }

    /** Run: the first call launches the worker; every later call does
        nothing. */
    method Run(rounds: seq<Round>)
      requires Valid()
      requires !started ==> outerCancelled || EventuallyCancels(rounds)
      modifies this
      ensures Valid() && started
      ensures watching == old(watching)
      ensures old(started) ==> Snapshot() == old(Snapshot())
      ensures !old(started) ==> Snapshot() == Watchdog(Launch(old(Snapshot())), config, TopicID(), rounds)
      ensures !old(started) && reporter.Host? ==> |HostView()| > 0 && HostView()[|HostView()| - 1] == Stopped
      ensures reporter.Noop? ==> HostView() == []
    {
      if !started {
        ghost var s := Snapshot();
        StartWorker(rounds);
        RunLaunchesOne(s, config, TopicID(), rounds);
        RunReportsStopped(s, config, TopicID(), rounds, reporter);
      }
    }

    /** The body of workerOnce.Do: fresh metrics, the worker launched, and
        the worker goroutine run to its end. */
    method StartWorker(rounds: seq<Round>)
      requires outerCancelled || EventuallyCancels(rounds)
      modifies this`started, this`acked, this`failedAcked, this`nacked, this`bytes,
        this`status, this`effects, this`attemptCancelled, this`outerCancelled
      ensures started
      ensures Snapshot() == Watchdog(Launch(old(Snapshot())), config, TopicID(), rounds)
    {
      LaunchWorker();
      WatchdogLoop(rounds);
    }

    /** Fresh metrics, and the worker goroutine launched. */
    method LaunchWorker()
      modifies this`started, this`acked, this`failedAcked, this`nacked, this`bytes, this`effects
      ensures started
      ensures Snapshot() == Launch(old(Snapshot()))
    {
      started := true;
      acked, failedAcked, nacked, bytes := 0, 0, 0, 0;
      effects := effects + [WorkerStarted];
    }

    /** Stop: cancel the worker's context; the worker, if launched, has
        already reported Stopped, so there is nothing left to wait for. */
    method Stop()
      requires Valid()
      modifies this`outerCancelled
      ensures Valid()
      ensures Snapshot() == old(Snapshot()).(outerCancelled := true)
      ensures started ==> Reported(Stopped) in effects
    {
      outerCancelled := true;
    }

    /** Wait, an alias for Stop. */
    method Wait()
      requires Valid()
      modifies this`outerCancelled
      ensures Valid()
      ensures Snapshot() == old(Snapshot()).(outerCancelled := true)
    {
      Stop();
    }

    /** The host closes the input's Done channel: Stopping is reported once
        and the worker's context is cancelled with the input's. */
    method HostDone()
      requires Valid()
      modifies this`watching, this`status, this`effects, this`outerCancelled
      ensures Valid() && !watching
      ensures old(watching) ==> Snapshot() == Report(old(Snapshot()), Stopping).(outerCancelled := true)
      ensures !old(watching) ==> Snapshot() == old(Snapshot())
    {
      if !watching {
        return;
      }
      watching := false;
      ghost var before := Snapshot();
      UpdateStatus(Stopping);
      outerCancelled := true;
      GrowsKeeps(before, Snapshot(), Reported(Stopped));
    }

    /** One entry of the acknowledgment loop. */
    method AckPrivate(p: Private)
      modifies this`acked, this`failedAcked, this`bytes, this`effects
      ensures Snapshot() == AckOne(old(Snapshot()), p)
    {
      match p {
        case MessagePrivate(msg) =>
          effects := effects + [Acked(msg)];
          acked := acked + 1;
          bytes := bytes + |msg.data|;
        case OtherPrivate =>
          failedAcked := failedAcked + 1;
          effects := effects + [AckFailedLogged];
      }
    }

    /** The acknowledgment callback over a batch of acknowledged events. */
    method AckPrivates(ps: seq<Private>)
      requires Valid()
      modifies this`acked, this`failedAcked, this`bytes, this`effects
      ensures Valid()
      ensures Snapshot() == AckAll(old(Snapshot()), ps)
    {
      ghost var before := Snapshot();
      for i := 0 to |ps|
        invariant AckAll(Snapshot(), ps[i..]) == AckAll(before, ps)
      {
        ghost var prev := Snapshot();
        AckPrivate(ps[i]);
        AckAllStep(prev, ps, i);
      }
      ghost var after := Snapshot();
      AckAllGrows(before, ps);
      GrowsKeeps(before, after, Reported(Stopped));
    }
  }
}
