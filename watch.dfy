/**
 * The naming-source adapter (watch.go): argument checks for the endpoint
 * manager, the initial listing of a service's healthy instances, and the
 * translation of registry instances and subscription callbacks into batches
 * of `Update`s for the merge loop.
 */
module Watch {
  import opened Wrappers

  /** A Go `error`, represented by its message. */
  type Error = string

  const ErrInvalidClient: Error := "invalid client"
  const ErrInvalidTarget: Error := "invalid target"
  const ErrNoInstance: Error := "no instance found"

  /** A reachable server address and the metadata passed through with it; `M` is opaque. */
  datatype Endpoint<M> = Endpoint(addr: string, metadata: M)

  /** One change for the merge table: an empty `endpoint.addr` means "remove `key`". */
  datatype Update<M> = Update(key: string, endpoint: Endpoint<M>)

  /** The fields of a registry instance record that the adapter reads. */
  datatype Instance<M> = Instance(serviceName: string, ip: string, metadata: M)

  /** A naming-client interface value; `Nil` is Go's nil interface. */
  datatype ClientRef = Nil | Client(id: nat)

  /**
   * The parsed target: the URL host and the query values `group_name` and
   * `clusters` (each `""` when absent, as a URL query lookup yields).
   */
  datatype ParsedTarget = ParsedTarget(host: string, groupName: string, clusters: string)

  /** The parameters of the registry's "list instances" call. */
  datatype SelectParams = SelectParams(serviceName: string, groupName: string, clusters: seq<string>, healthyOnly: bool)

  /** The listing query derived from a parsed target. */
  function ListingParams(p: ParsedTarget): SelectParams
  {
    SelectParams(p.host, p.groupName, [p.clusters], true)
  }

  /** The update one registry instance becomes: keyed by its service name, addressed by its IP. */
  function InstanceUpdate<M>(kv: Instance<M>): Update<M>
  {
    Update(kv.serviceName, Endpoint(kv.ip, kv.metadata))
  }

  /** The initial batch: one update per listed instance, in listing order. */
  function InstanceUpdates<M>(insts: seq<Instance<M>>): (ups: seq<Update<M>>)
    ensures |ups| == |insts|
    ensures forall i :: 0 <= i < |insts| ==>
      ups[i].key == insts[i].serviceName &&
      ups[i].endpoint == Endpoint(insts[i].ip, insts[i].metadata)
  {
    if insts == [] then [] else InstanceUpdates(insts[..|insts| - 1]) + [InstanceUpdate(insts[|insts| - 1])]
  }

  /** The batches a subscription callback sends: one single-update batch per instance, in order. */
  function CallbackBatches<M>(services: seq<Instance<M>>): (bs: seq<seq<Update<M>>>)
    ensures |bs| == |services|
    ensures forall i :: 0 <= i < |services| ==>
      bs[i] == [Update(services[i].serviceName, Endpoint(services[i].ip, services[i].metadata))]
  {
    if services == [] then [] else CallbackBatches(services[..|services| - 1]) + [[InstanceUpdate(services[|services| - 1])]]
  }

  /**
   * What opening the watch channel yields for a manager whose target is
   * `target`: a parse error or a listing error as it is, "no instance found"
   * for an empty listing, and otherwise a channel holding exactly the initial
   * batch, which is never empty.
   */
  function WatchChannelOutcome<M>(target: string,
                                  parse: string -> Result<ParsedTarget, Error>,
                                  selectInstances: SelectParams -> Result<seq<Instance<M>>, Error>)
    : (r: Result<seq<seq<Update<M>>>, Error>)
    ensures parse(target).Failure? ==> r == Failure(parse(target).error)
    ensures parse(target).Success? && selectInstances(ListingParams(parse(target).value)).Failure? ==>
      r == Failure(selectInstances(ListingParams(parse(target).value)).error)
    ensures parse(target).Success? && selectInstances(ListingParams(parse(target).value)) == Success([]) ==>
      r == Failure(ErrNoInstance)
    ensures r.Success? <==>
      parse(target).Success? &&
      selectInstances(ListingParams(parse(target).value)).Success? &&
      selectInstances(ListingParams(parse(target).value)).value != []
    ensures r.Success? ==>
      |r.value| == 1 && |r.value[0]| > 0 &&
      r.value[0] == InstanceUpdates(selectInstances(ListingParams(parse(target).value)).value)
  {
    match parse(target)
    case Failure(e) => Failure(e)
    case Success(p) =>
      match selectInstances(ListingParams(p))
      case Failure(e) => Failure(e)
      case Success(insts) =>
        if |insts| <= 0 then Failure(ErrNoInstance) else Success([InstanceUpdates(insts)])
  }

  /** Builds the initial batch by appending one update per instance. */
  method TranslateInstances<M>(insts: seq<Instance<M>>) returns (ups: seq<Update<M>>)
    ensures ups == InstanceUpdates(insts)
  {
    ups := [];
    var i := 0;
    while i < |insts|
      invariant 0 <= i <= |insts|
      invariant ups == InstanceUpdates(insts[..i])
    {
      var kv := insts[i];
      ups := ups + [Update(kv.serviceName, Endpoint(kv.ip, kv.metadata))];
      assert insts[..i + 1][..i] == insts[..i];
      i := i + 1;
    }
    assert insts[..|insts|] == insts;
  }

  /**
   * The subscription callback for a call without error: every instance is
   * sent on the channel as its own one-element batch. The returned sequence
   * is what was sent, in sending order.
   */
  method SubscribeCallback<M>(services: seq<Instance<M>>) returns (sent: seq<seq<Update<M>>>)
    ensures sent == CallbackBatches(services)
  {
    sent := [];
    var i := 0;
    while i < |services|
      invariant 0 <= i <= |services|
      invariant sent == CallbackBatches(services[..i])
    {
      var kv := services[i];
      var up := Update(kv.serviceName, Endpoint(kv.ip, kv.metadata));
      sent := sent + [[up]];
      assert services[..i + 1][..i] == services[..i];
      i := i + 1;
    }
    assert services[..|services|] == services;
  }

  /** The endpoint manager: a naming client, the target it watches and, once parsed, that target's URL. */
  class EndpointManager {
    const client: ClientRef
    const target: string
    var url: Option<ParsedTarget>

    constructor (client: ClientRef, target: string)
      ensures this.client == client && this.target == target && url == None
    {
      this.client := client;
      this.target := target;
      url := None;
    }

    /**
     * Parses the target, lists its healthy instances and returns a channel
     * holding the initial batch. `parse` stands for URL parsing and
     * `selectInstances` for the registry's listing call.
     */
    method NewWatchChannel<M>(parse: string -> Result<ParsedTarget, Error>,
                              selectInstances: SelectParams -> Result<seq<Instance<M>>, Error>)
      returns (ch: Result<seq<seq<Update<M>>>, Error>)
      modifies this`url
      ensures ch == WatchChannelOutcome(target, parse, selectInstances)
      ensures parse(target).Failure? ==> url == old(url)
      ensures parse(target).Success? ==> url == Some(parse(target).value)
    {
      var parsed := parse(target);
      if parsed.Failure? {
        return Failure(parsed.error);
      }
      url := Some(parsed.value);
      var params := ListingParams(parsed.value);
      var listed := selectInstances(params);
      if listed.Failure? {
        return Failure(listed.error);
      }
      var instances := listed.value;
      if |instances| <= 0 {
        return Failure(ErrNoInstance);
      }
      var initUpdates := TranslateInstances(instances);
      var upch: seq<seq<Update<M>>> := [];
      if |initUpdates| > 0 {
        upch := upch + [initUpdates];
      }
      assert upch == [InstanceUpdates(instances)];
      ch := Success(upch);
    }
  }

  /** Checks the client and the target, in that order, and creates a manager holding both. */
  method NewManager(client: ClientRef, target: string) returns (r: Result<EndpointManager, Error>)
    ensures client == Nil ==> r == Failure(ErrInvalidClient)
    ensures client != Nil && target == "" ==> r == Failure(ErrInvalidTarget)
    ensures client != Nil && target != "" ==>
      r.Success? && fresh(r.value) &&
      r.value.client == client && r.value.target == target && r.value.url == None
  {
    if client == Nil {
      return Failure(ErrInvalidClient);
    }
    if target == "" {
      return Failure(ErrInvalidTarget);
    }
    var em := new EndpointManager(client, target);
    r := Success(em);
  }
}
