/**
 * The websocket layer: the registry of connected clients with the fan-out that delivers a message to
 * every client whose device scope and name filter select it, registration and deregistration of
 * clients, the connection handshake, the handling of a text frame of device-manager requests, and the
 * recording-status stream.
 * Regular expressions are not modelled: whether a filter compiles and whether a compiled filter
 * matches a name are inputs. Actor addresses are plain identities; sending is an appended delivery.
 */
module Websocket {
  import opened Wrappers
  import opened Sequences
  import opened DeviceTypes
  import opened PingProtocol
  import opened Recording

  /** The identity of a websocket actor (its `Addr`), compared by equality only. */
  type ActorAddr = nat

  /** A compiled regular expression, known by the pattern it was compiled from. */
  datatype Regex = Regex(pattern: string)

  /** `Regex::is_match`: whether a compiled filter matches a message name somewhere. */
  type Matcher = (Regex, string) -> bool

  /** A registered client: its actor, its filter if it compiled, and the device it is scoped to if any. */
  datatype Client = Client(actor: ActorAddr, re: Option<Regex>, deviceNumber: Option<Uuid>)

  /** A text frame queued for an actor. */
  datatype Delivery = Delivery(to: ActorAddr, text: string)

  /** Whether a message named `name` about `device` goes to client `c`. */
  predicate Selected(c: Client, name: string, device: Option<Uuid>, matches: Matcher) {
    && (c.deviceNumber.None? || c.deviceNumber == device)
    && c.re.Some? && matches(c.re.value, name)
  }

  function SelectedBy(name: string, device: Option<Uuid>, matches: Matcher): Client -> bool {
    (c: Client) => Selected(c, name, device, matches)
  }

  /** The deliveries of one `send`: the serialized text to each selected client, in registration order. */
  function Fanout(clients: seq<Client>, text: string, name: string, device: Option<Uuid>, matches: Matcher): (out: seq<Delivery>)
    ensures |out| <= |clients|
    ensures forall k :: 0 <= k < |out| ==> out[k].text == text
  {
    if clients == [] then []
    else
      var last := clients[|clients| - 1];
      Fanout(clients[..|clients| - 1], text, name, device, matches)
        + (if Selected(last, name, device, matches) then [Delivery(last.actor, text)] else [])
  }

  /**
   * The k-th delivery goes to the k-th selected client, and carries the same text as every other:
   * a client gets the message exactly when it is selected, and the order is the registration order.
   */
  lemma {:induction false} FanoutSpec(clients: seq<Client>, text: string, name: string, device: Option<Uuid>, matches: Matcher)
    ensures var ix := IndicesWhere(clients, SelectedBy(name, device, matches));
      var out := Fanout(clients, text, name, device, matches);
      && |out| == |ix|
      && forall k :: 0 <= k < |ix| ==> ix[k] < |clients| && out[k] == Delivery(clients[ix[k]].actor, text)
  {
    if clients != [] {
      var init, last := clients[..|clients| - 1], clients[|clients| - 1];
      var sel := SelectedBy(name, device, matches);
      FanoutSpec(init, text, name, device, matches);
      IndicesWhereSound(init, sel);
      var ix0, out0 := IndicesWhere(init, sel), Fanout(init, text, name, device, matches);
      var ix, out := IndicesWhere(clients, sel), Fanout(clients, text, name, device, matches);
      assert sel(last) == Selected(last, name, device, matches);
      assert ix == ix0 + (if sel(last) then [|clients| - 1] else []);
      assert out == out0 + (if sel(last) then [Delivery(last.actor, text)] else []);
      forall k | 0 <= k < |ix|
        ensures ix[k] < |clients| && out[k] == Delivery(clients[ix[k]].actor, text)
      {
        if k < |ix0| {
          assert ix[k] == ix0[k] && out[k] == out0[k];
          assert init[ix0[k]] == clients[ix0[k]];
        }
      }
    }
  }

  /** A client whose filter did not compile, or that is scoped to another device, is never delivered to. */
  lemma UnselectedNeverReceives(
    clients: seq<Client>, i: nat, text: string, name: string, device: Option<Uuid>, matches: Matcher)
    requires i < |clients|
    requires clients[i].re.None? || (clients[i].deviceNumber.Some? && clients[i].deviceNumber != device)
    ensures i !in IndicesWhere(clients, SelectedBy(name, device, matches))
  {
    IndicesWhereSpec(clients, SelectedBy(name, device, matches));
  }

  /** The client entry `started` pushes for an actor with the given filter text and scope. */
  function Registration(actor: ActorAddr, filter: string, deviceNumber: Option<Uuid>, compiles: string -> bool): Client {
    Client(actor, if compiles(filter) then Some(Regex(filter)) else None, deviceNumber)
  }

  function OtherActor(actor: ActorAddr): Client -> bool {
    (c: Client) => c.actor != actor
  }

  /** Deregistration keeps exactly the clients of other actors, in order, and leaves none of `actor`'s. */
  lemma RetainSpec(clients: seq<Client>, actor: ActorAddr)
    ensures var kept := Filter(clients, OtherActor(actor));
      && (forall k :: 0 <= k < |kept| ==> kept[k].actor != actor)
      && (forall i :: 0 <= i < |clients| && clients[i].actor != actor ==> clients[i] in kept)
  {
    var keep := OtherActor(actor);
    var kept := Filter(clients, keep);
    var ix := IndicesWhere(clients, keep);
    FilterSpec(clients, keep);
    IndicesWhereSpec(clients, keep);
    forall k | 0 <= k < |kept|
      ensures kept[k].actor != actor
    {
      assert keep(clients[ix[k]]);
    }
    forall i | 0 <= i < |clients| && clients[i].actor != actor
      ensures clients[i] in kept
    {
      assert keep(clients[i]);
      var k :| 0 <= k < |ix| && ix[k] == i;
      assert kept[k] == clients[i];
    }
  }

  /** A connection that registers and then deregisters leaves the registry as it found it. */
  lemma {:induction false} StartedThenFinished(
    clients: seq<Client>, actor: ActorAddr, filter: string, deviceNumber: Option<Uuid>, compiles: string -> bool)
    requires forall i :: 0 <= i < |clients| ==> clients[i].actor != actor
    ensures Filter(clients + [Registration(actor, filter, deviceNumber, compiles)], OtherActor(actor)) == clients
  {
    var s := clients + [Registration(actor, filter, deviceNumber, compiles)];
    assert s[..|s| - 1] == clients;
    FilterAll(clients, OtherActor(actor));
  }

  /** The outcome of the `/ws` handshake. */
  datatype Handshake = Upgrade(filter: string, deviceNumber: Option<Uuid>) | InternalServerError(error: ManagerError)

  /**
   * The `/ws` handler: the filter defaults to `.*`; a device scope is checked with an `Info` request
   * first, and a manager error ends the handshake with that error.
   */
  function OpenWebsocket(filter: Option<string>, deviceNumber: Option<Uuid>, askInfo: Uuid -> Option<ManagerError>): (h: Handshake)
    ensures h.InternalServerError? <==> deviceNumber.Some? && askInfo(deviceNumber.value).Some?
    ensures h.InternalServerError? ==> h.error == askInfo(deviceNumber.value).value
    ensures h.Upgrade? ==> h.deviceNumber == deviceNumber
    ensures h.Upgrade? && filter.Some? ==> h.filter == filter.value
    ensures h.Upgrade? && filter.None? ==> h.filter == ".*"
  {
    var f := if filter.Some? then filter.value else ".*";
    if deviceNumber.Some? && askInfo(deviceNumber.value).Some? then InternalServerError(askInfo(deviceNumber.value).value)
    else Upgrade(f, deviceNumber)
  }

  /**
   * A connection opened without a filter, once registered, receives every message about its device
   * (every message at all when unscoped), provided `.*` compiles and matches every name.
   */
  lemma DefaultFilterReceivesAll(
    actor: ActorAddr, deviceNumber: Option<Uuid>, askInfo: Uuid -> Option<ManagerError>,
    compiles: string -> bool, matches: Matcher, name: string, device: Option<Uuid>)
    requires OpenWebsocket(None, deviceNumber, askInfo).Upgrade?
    requires compiles(".*") && matches(Regex(".*"), name)
    requires deviceNumber.None? || deviceNumber == device
    ensures var h := OpenWebsocket(None, deviceNumber, askInfo);
      Selected(Registration(actor, h.filter, h.deviceNumber, compiles), name, device, matches)
  {
  }

  /** Device-manager requests; only the device id the addressed ones carry is modelled. */
  datatype Request =
    | ModifyDevice(uuid: Uuid)
    | Ping(uuid: Uuid)
    | Delete(uuid: Uuid)
    | Info(uuid: Uuid)
    | EnableContinuousMode(uuid: Uuid)
    | DisableContinuousMode(uuid: Uuid)
    | Unaddressed(kind: string)

  /** The device id a request names, if it names one. */
  function RequestHasId(r: Request): (id: Option<Uuid>)
    ensures id.Some? <==> !r.Unaddressed?
    ensures id.Some? ==> id.value == r.uuid
  {
    match r
    case ModifyDevice(u) => Some(u)
    case Ping(u) => Some(u)
    case Delete(u) => Some(u)
    case Info(u) => Some(u)
    case EnableContinuousMode(u) => Some(u)
    case DisableContinuousMode(u) => Some(u)
    case Unaddressed(_) => None
  }

  /** The device a successful answer is rebroadcast about: the request's own, else the connection's scope. */
  function RebroadcastTarget(r: Request, scope: Option<Uuid>): (t: Option<Uuid>)
    ensures !r.Unaddressed? ==> t == Some(r.uuid)
    ensures r.Unaddressed? ==> t == scope
  {
    match RequestHasId(r)
    case Some(u) => Some(u)
    case None => scope
  }

  /**
   * The text frame read first as a list of requests and then as a single request; when both fail the
   * list parser's error is the one reported.
   */
  function ParseRequests(asList: Result<seq<Request>, string>, asOne: Result<Request, string>): (r: Result<seq<Request>, string>)
    ensures r.Failure? <==> asList.Failure? && asOne.Failure?
    ensures r.Failure? ==> r.error == asList.error
    ensures asList.Success? ==> r == asList
    ensures asList.Failure? && asOne.Success? ==> r.value == [asOne.value]
  {
    match asList
    case Success(requests) => Success(requests)
    case Failure(err) =>
      match asOne
      case Success(request) => Success([request])
      case Failure(_) => Failure(err)
  }

  /** A request handed to the device manager, with the device its answer will be rebroadcast about. */
  datatype Job = Job(request: Request, target: Option<Uuid>)

  /**
   * Handling of one text frame on a connection scoped to `scope`: an error text back to the sender and
   * nothing dispatched, or one job per request in the frame's order.
   */
  method HandleText(asList: Result<seq<Request>, string>, asOne: Result<Request, string>, scope: Option<Uuid>)
    returns (reply: Option<string>, jobs: seq<Job>)
    ensures reply.Some? <==> asList.Failure? && asOne.Failure?
    ensures reply.Some? ==> reply.value == "Error: " + asList.error && jobs == []
    ensures reply.None? ==> var requests := ParseRequests(asList, asOne).value;
      && |jobs| == |requests|
      && forall k :: 0 <= k < |jobs| ==> jobs[k] == Job(requests[k], RebroadcastTarget(requests[k], scope))
  {
    jobs := [];
    var parsed := ParseRequests(asList, asOne);
    if parsed.Failure? {
      reply := Some("Error: " + parsed.error);
      return;
    }
    reply := None;
    var requests := parsed.value;
    for i := 0 to |requests|
      invariant |jobs| == i
      invariant forall k :: 0 <= k < i ==> jobs[k] == Job(requests[k], RebroadcastTarget(requests[k], scope))
    {
      var target := RebroadcastTarget(requests[i], scope);
      jobs := jobs + [Job(requests[i], target)];
    }
  }

  /**
   * What becomes of a job's answer: a success is serialized once and broadcast, under that text as both
   * name and content, about the job's target; a manager error goes back to the requesting actor only.
   */
  function AnswerDeliveries(job: Job, answer: Result<string, string>, requester: ActorAddr, clients: seq<Client>, matches: Matcher): (out: seq<Delivery>)
    ensures answer.Success? ==> |out| <= |clients| && forall k :: 0 <= k < |out| ==> out[k].text == answer.value
    ensures answer.Failure? ==> |out| == 1 && out[0].to == requester && out[0].text == answer.error
  {
    match answer
    case Success(text) => Fanout(clients, text, text, job.target, matches)
    case Failure(err) => [Delivery(requester, err)]
  }

  /** Whether client `c` may hear about device `u`: it is unscoped or scoped to `u`. */
  predicate ClientFor(c: Client, u: Uuid) {
    c.deviceNumber.None? || c.deviceNumber == Some(u)
  }

  /** Every delivery in `out` goes to the actor of a client that may hear about device `u`. */
  predicate OnlyToClientsFor(out: seq<Delivery>, clients: seq<Client>, u: Uuid) {
    forall k :: 0 <= k < |out| ==> ToClientFor(out[k], clients, u)
  }

  predicate ToClientFor(d: Delivery, clients: seq<Client>, u: Uuid) {
    exists i :: 0 <= i < |clients| && d.to == clients[i].actor && ClientFor(clients[i], u)
  }

  /**
   * A successful answer to a request about device `u` reaches only clients that are unscoped or scoped
   * to `u`, whatever the scope of the connection that sent it; a failed one goes back to the requester.
   */
  lemma AnswerStaysWithDevice(
    r: Request, scope: Option<Uuid>, answer: Result<string, string>, requester: ActorAddr, clients: seq<Client>, matches: Matcher)
    requires !r.Unaddressed?
    ensures var out := AnswerDeliveries(Job(r, RebroadcastTarget(r, scope)), answer, requester, clients, matches);
      && (answer.Success? ==> OnlyToClientsFor(out, clients, r.uuid))
      && (answer.Failure? ==> out == [Delivery(requester, answer.error)])
  {
    if answer.Success? {
      var text := answer.value;
      var target := RebroadcastTarget(r, scope);
      var ix := IndicesWhere(clients, SelectedBy(text, target, matches));
      FanoutSpec(clients, text, text, target, matches);
      IndicesWhereSpec(clients, SelectedBy(text, target, matches));
      var out := Fanout(clients, text, text, target, matches);
      forall k | 0 <= k < |out|
        ensures ToClientFor(out[k], clients, r.uuid)
      {
        var i := ix[k];
        assert SelectedBy(text, target, matches)(clients[i]);
        assert out[k].to == clients[i].actor && ClientFor(clients[i], r.uuid);
      }
    }
  }

  /** The registry of connected clients, shared by every websocket actor. */
  class WebsocketManager {
    var clients: seq<Client>

    constructor()
      ensures clients == []
    {
      clients := [];
    }

    /** `started`: a new connection pushes its entry, with its filter compiled if it compiles. */
    method Started(actor: ActorAddr, filter: string, deviceNumber: Option<Uuid>, compiles: string -> bool)
      modifies this
      ensures clients == old(clients) + [Registration(actor, filter, deviceNumber, compiles)]
    {
      clients := clients + [Registration(actor, filter, deviceNumber, compiles)];
    }

    /** `finished`: every entry of the closing actor is removed; the rest keep their order. */
    method Finished(actor: ActorAddr)
      modifies this
      ensures clients == Filter(old(clients), OtherActor(actor))
    {
      clients := Filter(clients, OtherActor(actor));
    }

    /**
     * `send`: the serialized message to each client scoped to no device or to `device` whose filter
     * compiled and matches `name`; nothing at all when no client is registered.
     */
    method Send(text: string, name: string, device: Option<Uuid>, matches: Matcher) returns (sent: seq<Delivery>)
      ensures sent == Fanout(clients, text, name, device, matches)
      ensures clients == [] ==> sent == []
    {
      sent := [];
      if |clients| == 0 {
        return;
      }
      for i := 0 to |clients|
        invariant sent == Fanout(clients[..i], text, name, device, matches)
      {
        var c := clients[i];
        if c.deviceNumber.None? || c.deviceNumber == device {
          var isMatch := c.re.Some? && matches(c.re.value, name);
          if isMatch {
            sent := sent + [Delivery(c.actor, text)];
          }
        }
        assert clients[..i + 1][..i] == clients[..i];
      }
      assert clients[..|clients|] == clients;
    }
  }

  /** Whether a recording-status connection scoped to `scope` is told about `session`. */
  predicate InScope(scope: Option<Uuid>, session: RecordingSession) {
    scope.None? || scope == Some(session.deviceId)
  }

  function InScopeOf(scope: Option<Uuid>): RecordingSession -> bool {
    (s: RecordingSession) => InScope(scope, s)
  }

  /**
   * The recording-status task: it forwards each received session in its connection's scope, in order,
   * until the first receive error.
   */
  method ForwardRecordingStatus(scope: Option<Uuid>, stream: seq<Received<RecordingSession>>)
    returns (forwarded: seq<RecordingSession>)
    ensures forwarded == Filter(DeliveredPrefix(stream), InScopeOf(scope))
  {
    ghost var items := DeliveredPrefix(stream);
    forwarded := [];
    var i := 0;
    while i < |stream| && stream[i].Delivered?
      invariant i <= |items|
      invariant forwarded == Filter(items[..i], InScopeOf(scope))
    {
      var session := stream[i].item;
      if scope.None? || scope == Some(session.deviceId) {
        forwarded := forwarded + [session];
      }
      assert items[..i + 1][..i] == items[..i];
      i := i + 1;
    }
    assert items[..i] == items;
  }

  /** A scoped connection hears only about its device; an unscoped one hears every session delivered. */
  lemma StatusFeedScoped(scope: Option<Uuid>, stream: seq<Received<RecordingSession>>)
    ensures var fed := Filter(DeliveredPrefix(stream), InScopeOf(scope));
      && (scope.Some? ==> forall k :: 0 <= k < |fed| ==> fed[k].deviceId == scope.value)
      && (scope.None? ==> fed == DeliveredPrefix(stream))
  {
    var items := DeliveredPrefix(stream);
    FilterSpec(items, InScopeOf(scope));
    IndicesWhereSpec(items, InScopeOf(scope));
    if scope.None? {
      FilterAll(items, InScopeOf(scope));
    }
  }
}
