/** The subscription policy: use the subscription when it exists, create it
    when it is missing and creation is enabled, fail otherwise
    (getOrCreateSubscription in x-pack/filebeat/input/gcppubsub/input.go). */
module Subscriptions {

  import opened Wrappers
  import opened Errors

  /** A subscription handle, known by its name. */
  datatype Subscription = Subscription(name: string)

  /** A request the input makes of the Pub/Sub client. */
  datatype ClientCall = ExistsCall(name: string) | CreateCall(name: string, topic: string)

  /** The Pub/Sub client as the policy sees it: it answers Exists with the
      given reply and CreateSubscription with success or the given error, and
      records every request. */
  class Client {
    const existsReply: Result<bool>
    const createReply: Option<Error>
    var calls: seq<ClientCall>

    constructor (existsReply: Result<bool>, createReply: Option<Error>)
      ensures this.existsReply == existsReply && this.createReply == createReply
      ensures calls == []
    {
      this.existsReply := existsReply;
      this.createReply := createReply;
      calls := [];
    }

    /** Subscription(name).Exists(ctx). */
    method Exists(name: string) returns (r: Result<bool>)
      modifies this`calls
      ensures r == existsReply
      ensures calls == old(calls) + [ExistsCall(name)]
    {
      calls := calls + [ExistsCall(name)];
      r := existsReply;
    }

    /** CreateSubscription(ctx, name, {Topic: Topic(topic)}). */
    method CreateSubscription(name: string, topic: string) returns (r: Result<Subscription>)
      modifies this`calls
      ensures r == if createReply.None? then Ok(Subscription(name)) else Err(createReply.value)
      ensures calls == old(calls) + [CreateCall(name, topic)]
    {
      calls := calls + [CreateCall(name, topic)];
      if createReply.None? {
        r := Ok(Subscription(name));
      } else {
        r := Err(createReply.value);
      }
    }
  }

  /** What the policy returns, and the requests it made, in order. */
  datatype PolicyRun = PolicyRun(result: Result<Subscription>, calls: seq<ClientCall>)

  /** The policy over the client's replies. Existence is always asked first;
      an Exists error fails at once; an existing subscription is used without
      creating; a missing one is created only when creation is enabled, and
      otherwise the policy fails without creating. */
  function GetOrCreate(existsReply: Result<bool>, createEnabled: bool, createReply: Option<Error>,
                       name: string, topic: string): (p: PolicyRun)
    ensures |p.calls| >= 1 && p.calls[0] == ExistsCall(name)
    ensures existsReply.Err? ==> p == PolicyRun(Err(ExistsCheckFailed(existsReply.error)), [ExistsCall(name)])
    ensures existsReply == Ok(true) ==> p == PolicyRun(Ok(Subscription(name)), [ExistsCall(name)])
    ensures CreateCall(name, topic) in p.calls <==> existsReply == Ok(false) && createEnabled
    ensures existsReply == Ok(false) && !createEnabled ==> p.result == Err(NoSubscription)
    ensures p.result.Ok? <==>
      existsReply == Ok(true) || (existsReply == Ok(false) && createEnabled && createReply.None?)
    ensures p.result.Ok? ==> p.result.value == Subscription(name)
    ensures forall c | c in p.calls :: c == ExistsCall(name) || c == CreateCall(name, topic)
  {
    match existsReply
    case Err(e) => PolicyRun(Err(ExistsCheckFailed(e)), [ExistsCall(name)])
    case Ok(true) => PolicyRun(Ok(Subscription(name)), [ExistsCall(name)])
    case Ok(false) =>
      if !createEnabled then PolicyRun(Err(NoSubscription), [ExistsCall(name)])
      else
        var created := if createReply.None? then Ok(Subscription(name)) else Err(CreateFailed(createReply.value));
        PolicyRun(created, [ExistsCall(name), CreateCall(name, topic)])
  }

  /** getOrCreateSubscription against a client: returns what the policy
      returns and makes exactly the policy's requests. */
  method GetOrCreateSubscription(client: Client, name: string, topic: string, createEnabled: bool)
    returns (r: Result<Subscription>)
    modifies client`calls
    ensures var p := GetOrCreate(client.existsReply, createEnabled, client.createReply, name, topic);
      r == p.result && client.calls == old(client.calls) + p.calls
  {
    var present := client.Exists(name);
    if present.Err? {
      return Err(ExistsCheckFailed(present.error));
    }
    if present.value {
      return Ok(Subscription(name));
    }
    if createEnabled {
      var sub := client.CreateSubscription(name, topic);
      if sub.Err? {
        return Err(CreateFailed(sub.error));
      }
      return sub;
    }
    return Err(NoSubscription);
  }
}
