/**
 * MessageReceive: the inbound message dispatcher of the MAL.
 *
 * Every call the dispatcher makes on a collaborator (the sender, the consumer
 * and provider interaction maps, the broker, the provider's handler, the
 * publish/notify listeners) is recorded as an `Action` in a trace. What a
 * collaborator answers is supplied by an `Oracle`, one per received message.
 * The functions below state what one dispatch appends to the trace; the class
 * `MessageReceive` performs the same steps imperatively and is proved to
 * append exactly that.
 */
module MessageReceiving {
  import opened Wrappers
  import opened JavaLang
  import opened InteractionStages
  import opened EndPointPairs

  type ListenerId = string

  datatype QoSLevel = BestEffort | Assured | Queued | Timely

  /** A registered provider: the handler and the address its replies are sent from. */
  datatype Address = Address(handler: string, uri: string)

  datatype Header = Header(
    interactionType: InteractionType,
    stage: UOctet,
    transactionId: int,
    uriFrom: string,
    uriTo: string,
    service: int,
    qosLevel: QoSLevel,
    isErrorMessage: bool)

  /** The run-time class of the message body, as far as the dispatcher tests or casts it. */
  datatype Body =
    | RegisterBody
    | PublishRegisterBody
    | PublishBody
    | NotifyBody(subscriptionId: string)
    | DeregisterBody
    | ErrorBody
    | OtherBody

  datatype Message = Message(header: Header, body: Body)

  /** MAL error numbers; BAD_ENCODING is the only one the dispatcher raises itself. */
  datatype ErrorNumber = BadEncoding | ErrorNumber(number: nat)

  datatype StandardError = StandardError(errorNumber: ErrorNumber, extraInfo: string)

  /** The two checked exceptions of the MAL API; neither is a subclass of the other. */
  datatype Fault = MALException(detail: string) | MALInteractionException(standardError: StandardError)

  /** What sender.returnError is given: the exception itself, or a standard error. */
  datatype ErrorReport = ExceptionReport(detail: string) | StandardReport(error: StandardError)

  /** How a catch block reports a fault: the exception, or the interaction exception's standard error. */
  function Report(f: Fault): (r: ErrorReport)
  {
    match f
    case MALException(d) => ExceptionReport(d)
    case MALInteractionException(e) => StandardReport(e)
  }

  function BadEncodingReport(info: string): (r: ErrorReport)
  {
    StandardReport(StandardError(BadEncoding, info))
  }

  const REGISTER_BODY_ERROR := "Body of register message must be of type Subscription"
  const PUBLISH_REGISTER_BODY_ERROR := "Body of publish register message must be of type EntityKeyList"
  const PUBLISH_BODY_ERROR := "Body of publish message must be of type UpdateList"

  /** The result of a call into code outside the dispatcher. */
  datatype Outcome = Completes | Throws(fault: Fault)

  /** What the collaborators answer while one message is dispatched. */
  datatype Oracle = Oracle(
    check: Outcome,                               // securityManager.check
    transId: int,                                 // ipmap.addTransactionSource
    handler: Outcome,                             // the provider handler's or the broker's handle* call
    broker: Option<Address>,                      // brokerBindingMap.get(uriTo), by its message address
    providerQoS: Option<QoSLevel>,                // broker getProviderQoSLevel
    publishListener: Option<ListenerId>,          // ipsmap.getPublishListener
    notifyListeners: Option<seq<ListenerId>>,     // ipsmap.getNotifyListenersAndRemove
    notifyListener: Option<ListenerId>)           // ipsmap.getNotifyListener

  datatype BrokerCall =
    | HandleRegister
    | HandlePublishRegister
    | HandlePublish
    | HandleDeregister
    | HandlePublishDeregister

  /** One call on a collaborator. */
  datatype Action =
    | AddTransactionSource(uriFrom: string, transactionId: int)
    | ProviderHandleSend
    | ProviderHandle(interactionType: InteractionType, transId: int)
    | ConsumerHandleStage(header: Header)
    | Broker(call: BrokerCall, transId: int)
    | ProviderQoSQuery(header: Header)
    | ReturnResponse(responder: Address, transId: int, header: Header, qosLevel: Option<QoSLevel>, stage: UOctet)
    | ReturnError(errorSource: Option<Address>, transId: int, header: Header, stage: UOctet, error: ErrorReport)
    | PublishErrorReceived(listener: ListenerId)
    | NotifyListenersRemoved(uriTo: string)
    | NotifyErrorReceived(listener: ListenerId)
    | NotifyReceived(listener: ListenerId, subscriptionId: string)

  /**
   * How a step of the dispatcher ends: normally, by throwing a checked MAL
   * exception, or with an unchecked exception (a null dereference or a failed
   * cast) that no catch block of the dispatcher handles.
   */
  datatype Exit = Normal | Raised(fault: Fault) | Escaped

  datatype Step = Step(actions: seq<Action>, exit: Exit)

  /** The effect of onMessage: the calls made, and whether an unchecked exception left it. */
  datatype Dispatched = Dispatched(actions: seq<Action>, escaped: bool)

  datatype Delivery = Delivery(msg: Message, oracle: Oracle)

  type ProviderEndpointMap = map<EndPointPair, Address>

  // ---------------------------------------------------------------------------
  // Provider address registry

  /** The registry after registerProviderEndpoint: the first registration of a key wins. */
  function Registered(m: ProviderEndpointMap, key: EndPointPair, address: Address): (r: ProviderEndpointMap)
    ensures r.Keys == m.Keys + {key}
    ensures r[key] == if key in m then m[key] else address
    ensures forall k :: k in m && k != key ==> r[k] == m[k]
  {
    if key in m then m else m[key := address]
  }

  /** lookupAddress: the key always carries the header's service number. */
  function LookupAddress(m: ProviderEndpointMap, localName: string, service: int): (r: Option<Address>)
    ensures r.Some? <==> EndPointPair(localName, Some(service)) in m
    ensures r.Some? ==> r.value == m[EndPointPair(localName, Some(service))]
  {
    var key := EndPointPair(localName, Some(service));
    if key in m then Some(m[key]) else None
  }

  // ---------------------------------------------------------------------------
  // The pattern handlers

  /** internalHandleSend: a MALException from the handler is logged and dropped. */
  function SendStep(address: Option<Address>, o: Oracle): (r: Step)
  {
    if address.None? then Step([], Escaped)
    else
      var call := [ProviderHandleSend];
      match o.handler
      case Throws(MALInteractionException(e)) => Step(call, Raised(MALInteractionException(e)))
      case _ => Step(call, Normal)
  }

  predicate IsProviderPattern(t: InteractionType)
  {
    t in {Submit, Request, Invoke, Progress}
  }

  /** The stage at which internalHandleSubmit/Request/Invoke/Progress return a handler's MALException. */
  function HandlerErrorStage(t: InteractionType): (r: UOctet)
    requires IsProviderPattern(t)
  {
    match t
    case Submit => SUBMIT_ACK_STAGE
    case Request => REQUEST_RESPONSE_STAGE
    case Invoke => INVOKE_ACK_STAGE
    case Progress => PROGRESS_ACK_STAGE
  }

  /** internalHandleSubmit, internalHandleRequest, internalHandleInvoke, internalHandleProgress. */
  function ProviderStep(msg: Message, address: Option<Address>, o: Oracle): (r: Step)
    requires IsProviderPattern(msg.header.interactionType)
  {
    var h := msg.header;
    var allocate := AddTransactionSource(h.uriFrom, h.transactionId);
    if address.None? then Step([allocate], Escaped)
    else
      var call := [allocate, ProviderHandle(h.interactionType, o.transId)];
      match o.handler
      case Completes => Step(call, Normal)
      case Throws(MALException(d)) =>
        Step(call + [ReturnError(address, o.transId, h, HandlerErrorStage(h.interactionType), ExceptionReport(d))], Normal)
      case Throws(f) => Step(call, Raised(f))
  }

  /** icmap.handleStage: replies go to the consumer side untouched. */
  function ConsumerStep(h: Header): (r: Step)
  {
    Step([ConsumerHandleStage(h)], Normal)
  }

  /** internalHandleRegister: the broker records the subscription and the ack is synthesised here. */
  function RegisterStep(msg: Message, o: Oracle): (r: Step)
  {
    var h := msg.header;
    var allocate := AddTransactionSource(h.uriFrom, h.transactionId);
    if o.broker.None? then Step([allocate], Escaped)
    else if msg.body.RegisterBody? then
      var call := [allocate, Broker(HandleRegister, o.transId)];
      match o.handler
      case Completes =>
        Step(call + [ReturnResponse(o.broker.value, o.transId, h, Some(h.qosLevel), REGISTER_ACK_STAGE)], Normal)
      case Throws(f) => Step(call, Raised(f))
    else
      Step([allocate, ReturnError(o.broker, o.transId, h, REGISTER_ACK_STAGE, BadEncodingReport(REGISTER_BODY_ERROR))], Normal)
  }

  /** internalHandlePublishRegister: the ack carries the provider's registered QoS level. */
  function PublishRegisterStep(msg: Message, o: Oracle): (r: Step)
  {
    var h := msg.header;
    var allocate := AddTransactionSource(h.uriFrom, h.transactionId);
    if o.broker.None? then Step([allocate], Escaped)
    else if msg.body.PublishRegisterBody? then
      var call := [allocate, Broker(HandlePublishRegister, o.transId)];
      match o.handler
      case Completes =>
        Step(call + [ProviderQoSQuery(h),
                     ReturnResponse(o.broker.value, o.transId, h, o.providerQoS, PUBLISH_REGISTER_ACK_STAGE)], Normal)
      case Throws(f) => Step(call, Raised(f))
    else
      Step([allocate, ReturnError(o.broker, o.transId, h, PUBLISH_REGISTER_ACK_STAGE,
                                  BadEncodingReport(PUBLISH_REGISTER_BODY_ERROR))], Normal)
  }

  /**
   * internalHandlePublish: an error PUBLISH goes to its correlated publish
   * listener only; otherwise the broker publishes, and a failure is returned at
   * the PUBLISH stage with the header's transaction id.
   */
  function PublishStep(msg: Message, o: Oracle): (r: Step)
  {
    var h := msg.header;
    var allocate := AddTransactionSource(h.uriFrom, h.transactionId);
    if h.isErrorMessage then
      if msg.body.ErrorBody? && o.publishListener.Some? then
        Step([PublishErrorReceived(o.publishListener.value)], Normal)
      else Step([], Normal)
    else if msg.body.PublishBody? then
      if o.broker.None? then Step([allocate], Escaped)
      else
        var call := [allocate, Broker(HandlePublish, o.transId)];
        match o.handler
        case Completes => Step(call, Normal)
        case Throws(f) => Step(call + [ReturnError(o.broker, h.transactionId, h, PUBLISH_STAGE, Report(f))], Normal)
    else if o.broker.None? then Step([], Escaped)
    else Step([ReturnError(o.broker, h.transactionId, h, PUBLISH_STAGE, BadEncodingReport(PUBLISH_BODY_ERROR))], Normal)
  }

  /** One notifyErrorReceived call per listener, in order; their exceptions are logged and skipped. */
  function NotifyErrors(listeners: seq<ListenerId>): (r: seq<Action>)
    ensures |r| == |listeners|
    ensures forall i :: 0 <= i < |r| ==> r[i] == NotifyErrorReceived(listeners[i])
  {
    seq(|listeners|, i requires 0 <= i < |listeners| => NotifyErrorReceived(listeners[i]))
  }

  /**
   * internalHandleNotify: an error NOTIFY takes every listener of the
   * destination away and tells each of them; a normal NOTIFY goes to the one
   * listener of its subscription. Nothing is ever returned.
   */
  function NotifyStep(msg: Message, o: Oracle): (r: Step)
  {
    var h := msg.header;
    if h.isErrorMessage then
      var take := [NotifyListenersRemoved(h.uriTo)];
      match o.notifyListeners
      case None => Step(take, Normal)
      case Some(listeners) =>
        if msg.body.ErrorBody? then Step(take + NotifyErrors(listeners), Normal) else Step(take, Escaped)
    else if !msg.body.NotifyBody? then Step([], Escaped)
    else
      match o.notifyListener
      case None => Step([], Normal)
      case Some(l) => Step([NotifyReceived(l, msg.body.subscriptionId)], Normal)
  }

  /** internalHandleDeregister: a MALException from the broker is returned at DEREGISTER_ACK. */
  function DeregisterStep(msg: Message, o: Oracle): (r: Step)
  {
    var h := msg.header;
    var allocate := AddTransactionSource(h.uriFrom, h.transactionId);
    if o.broker.None? || !msg.body.DeregisterBody? then Step([allocate], Escaped)
    else
      var call := [allocate, Broker(HandleDeregister, o.transId)];
      match o.handler
      case Completes =>
        Step(call + [ReturnResponse(o.broker.value, o.transId, h, Some(h.qosLevel), DEREGISTER_ACK_STAGE)], Normal)
      case Throws(MALException(d)) =>
        Step(call + [ReturnError(o.broker, o.transId, h, DEREGISTER_ACK_STAGE, ExceptionReport(d))], Normal)
      case Throws(f) => Step(call, Raised(f))
  }

  /** The QoS level of a PUBLISH_DEREGISTER ack: the provider's, else the message's own. */
  function PublishDeregisterQoS(h: Header, providerQoS: Option<QoSLevel>): (r: QoSLevel)
  {
    if providerQoS.Some? then providerQoS.value else h.qosLevel
  }

  /** internalHandlePublishDeregister. */
  function PublishDeregisterStep(msg: Message, o: Oracle): (r: Step)
  {
    var h := msg.header;
    var allocate := AddTransactionSource(h.uriFrom, h.transactionId);
    if o.broker.None? then Step([allocate], Escaped)
    else
      var call := [allocate, ProviderQoSQuery(h), Broker(HandlePublishDeregister, o.transId)];
      match o.handler
      case Completes =>
        Step(call + [ReturnResponse(o.broker.value, o.transId, h, Some(PublishDeregisterQoS(h, o.providerQoS)),
                                    PUBLISH_DEREGISTER_ACK_STAGE)], Normal)
      case Throws(f) => Step(call, Raised(f))
  }

  function UnexpectedStage(s: UOctet): (r: Step)
  {
    Step([], Raised(MALException("Received unexpected stage of " + DecimalString(s))))
  }

  // ---------------------------------------------------------------------------
  // onMessage

  /** The body of onMessage's try block after the security check: the switch on (type, stage). */
  function ReceiveStep(m: ProviderEndpointMap, localName: string, msg: Message, o: Oracle): (r: Step)
  {
    var h := msg.header;
    var s := h.stage;
    var address := LookupAddress(m, localName, h.service);
    match h.interactionType
    case Send => SendStep(address, o)
    case Submit =>
      if s == SUBMIT_STAGE then ProviderStep(msg, address, o)
      else if s == SUBMIT_ACK_STAGE then ConsumerStep(h)
      else UnexpectedStage(s)
    case Request =>
      if s == REQUEST_STAGE then ProviderStep(msg, address, o)
      else if s == REQUEST_RESPONSE_STAGE then ConsumerStep(h)
      else UnexpectedStage(s)
    case Invoke =>
      if s == INVOKE_STAGE then ProviderStep(msg, address, o)
      else if s == INVOKE_ACK_STAGE || s == INVOKE_RESPONSE_STAGE then ConsumerStep(h)
      else UnexpectedStage(s)
    case Progress =>
      if s == PROGRESS_STAGE then ProviderStep(msg, address, o)
      else if s == PROGRESS_ACK_STAGE || s == PROGRESS_UPDATE_STAGE || s == PROGRESS_RESPONSE_STAGE then ConsumerStep(h)
      else UnexpectedStage(s)
    case PubSub =>
      if s == REGISTER_ACK_STAGE || s == PUBLISH_REGISTER_ACK_STAGE
         || s == DEREGISTER_ACK_STAGE || s == PUBLISH_DEREGISTER_ACK_STAGE then ConsumerStep(h)
      else if s == REGISTER_STAGE then RegisterStep(msg, o)
      else if s == PUBLISH_REGISTER_STAGE then PublishRegisterStep(msg, o)
      else if s == PUBLISH_STAGE then PublishStep(msg, o)
      else if s == NOTIFY_STAGE then NotifyStep(msg, o)
      else if s == DEREGISTER_STAGE then DeregisterStep(msg, o)
      else if s == PUBLISH_DEREGISTER_STAGE then PublishDeregisterStep(msg, o)
      else UnexpectedStage(s)
    case UnknownType(n) => Step([], Raised(MALException("Received unexpected interaction of " + DecimalString(n))))
  }

  /**
   * onMessage: the security check, the switch, and the top-level catch, which
   * returns a checked fault at the return stage of the message, if it has one,
   * using the header's transaction id.
   */
  function Dispatch(m: ProviderEndpointMap, localName: string, msg: Message, o: Oracle): (r: Dispatched)
  {
    var body := if o.check.Throws? then Step([], Raised(o.check.fault)) else ReceiveStep(m, localName, msg, o);
    match body.exit
    case Normal => Dispatched(body.actions, false)
    case Escaped => Dispatched(body.actions, true)
    case Raised(f) =>
      var h := msg.header;
      var rs := ReturnStage(h.interactionType, h.stage);
      if rs.None? then Dispatched(body.actions, false)
      else Dispatched(body.actions + [ReturnError(LookupAddress(m, localName, h.service), h.transactionId, h,
                                                  rs.value, Report(f))], false)
  }

  /** Dispatches carried out one after the other: the first one that escapes ends the run. */
  function Batch(results: seq<Dispatched>): (r: Dispatched)
    decreases |results|
  {
    if results == [] then Dispatched([], false)
    else if results[0].escaped then results[0]
    else
      var rest := Batch(results[1..]);
      Dispatched(results[0].actions + rest.actions, rest.escaped)
  }

  /** The dispatch of each delivery taken on its own. */
  function Dispatches(m: ProviderEndpointMap, localName: string, ds: seq<Delivery>): (r: seq<Dispatched>)
    ensures |r| == |ds|
  {
    seq(|ds|, i requires 0 <= i < |ds| => Dispatch(m, localName, ds[i].msg, ds[i].oracle))
  }

  /** onMessages: every delivery dispatched in order, until one escapes. */
  function DispatchAll(m: ProviderEndpointMap, localName: string, ds: seq<Delivery>): (r: Dispatched)
  {
    Batch(Dispatches(m, localName, ds))
  }

  /** The k-th result of a batch, a term of its own so that facts about it are used only on demand. */
  function ResultAt(results: seq<Dispatched>, k: nat): (r: Dispatched)
    requires k < |results|
  {
    results[k]
  }

  /** `results` holds the dispatch of each delivery, in order. */
  predicate DispatchedEach(results: seq<Dispatched>, m: ProviderEndpointMap, localName: string, ds: seq<Delivery>)
  {
    && |results| == |ds|
    && forall k {:trigger ResultAt(results, k)} :: 0 <= k < |ds| ==>
         ResultAt(results, k) == Dispatch(m, localName, ds[k].msg, ds[k].oracle)
  }

  lemma DispatchesEach(m: ProviderEndpointMap, localName: string, ds: seq<Delivery>) returns (results: seq<Dispatched>)
    ensures DispatchedEach(results, m, localName, ds)
  {
    results := Dispatches(m, localName, ds);
  }

  /** The dispatches of a batch are unique, and running them is DispatchAll. */
  lemma DispatchedEachIsDispatchAll(results: seq<Dispatched>, m: ProviderEndpointMap, localName: string, ds: seq<Delivery>)
    requires DispatchedEach(results, m, localName, ds)
    ensures results == Dispatches(m, localName, ds)
    ensures Batch(results) == DispatchAll(m, localName, ds)
  {
    forall k | 0 <= k < |ds|
      ensures results[k] == Dispatches(m, localName, ds)[k]
    {
      assert ResultAt(results, k) == Dispatch(m, localName, ds[k].msg, ds[k].oracle);
    }
  }

  /** A run split in two: the second part takes effect only if the first part did not escape. */
  lemma {:induction false} BatchAppend(a: seq<Dispatched>, b: seq<Dispatched>)
    ensures Batch(a + b)
        == if Batch(a).escaped then Batch(a)
           else Dispatched(Batch(a).actions + Batch(b).actions, Batch(b).escaped)
  {
    if a == [] {
      assert a + b == b;
    } else {
      assert (a + b)[0] == a[0];
      assert (a + b)[1..] == a[1..] + b;
      BatchAppend(a[1..], b);
    }
  }

  /** One more dispatch after a run that has not escaped. */
  lemma BatchStep(results: seq<Dispatched>, i: nat)
    requires i < |results| && !Batch(results[..i]).escaped
    ensures Batch(results[..i + 1])
         == Dispatched(Batch(results[..i]).actions + results[i].actions, results[i].escaped)
  {
    BatchAppend(results[..i], [results[i]]);
    assert results[..i + 1] == results[..i] + [results[i]];
    assert [results[i]][1..] == [];
  }

  /** An escaping dispatch ends the whole run. */
  lemma BatchStops(results: seq<Dispatched>, i: nat)
    requires i < |results| && Batch(results[..i + 1]).escaped
    ensures Batch(results) == Batch(results[..i + 1])
  {
    BatchAppend(results[..i + 1], results[i + 1..]);
    assert results[..i + 1] + results[i + 1..] == results;
  }

  // ---------------------------------------------------------------------------
  // The dispatcher object

  class MessageReceive {
    var providerEndpointMap: ProviderEndpointMap
    /** Every call made on a collaborator so far, oldest first. */
    var trace: seq<Action>

    constructor ()
      ensures providerEndpointMap == map[] && trace == []
    {
      providerEndpointMap := map[];
      trace := [];
    }

    /** registerProviderEndpoint: inserts only when the key is not yet registered. */
    method RegisterProviderEndpoint(localName: string, service: Option<int>, address: Address)
      modifies this`providerEndpointMap
      ensures providerEndpointMap == Registered(old(providerEndpointMap), EndPointPair(localName, service), address)
    {
      var key := EndPointPair(localName, service);
      if key !in providerEndpointMap {
        providerEndpointMap := providerEndpointMap[key := address];
      }
    }

    method InternalHandleSend(address: Option<Address>, o: Oracle) returns (exit: Exit)
      modifies this`trace
      ensures trace == old(trace) + SendStep(address, o).actions && exit == SendStep(address, o).exit
    {
      if address.None? {
        return Escaped;
      }
      trace := trace + [ProviderHandleSend];
      exit := Normal;
      if o.handler.Throws? && o.handler.fault.MALInteractionException? {
        exit := Raised(o.handler.fault);
      }
    }

    method InternalHandleProvider(msg: Message, address: Option<Address>, o: Oracle) returns (exit: Exit)
      requires IsProviderPattern(msg.header.interactionType)
      modifies this`trace
      ensures trace == old(trace) + ProviderStep(msg, address, o).actions
      ensures exit == ProviderStep(msg, address, o).exit
    {
      var h := msg.header;
      var transId := o.transId;
      trace := trace + [AddTransactionSource(h.uriFrom, h.transactionId)];
      if address.None? {
        return Escaped;
      }
      trace := trace + [ProviderHandle(h.interactionType, transId)];
      exit := Normal;
      if o.handler.Throws? {
        match o.handler.fault
        case MALException(d) =>
          trace := trace + [ReturnError(address, transId, h, HandlerErrorStage(h.interactionType), ExceptionReport(d))];
        case MALInteractionException(_) =>
          exit := Raised(o.handler.fault);
      }
    }

    method InternalHandleRegister(msg: Message, o: Oracle) returns (exit: Exit)
      modifies this`trace
      ensures trace == old(trace) + RegisterStep(msg, o).actions && exit == RegisterStep(msg, o).exit
    {
      var h := msg.header;
      var transId := o.transId;
      trace := trace + [AddTransactionSource(h.uriFrom, h.transactionId)];
      var brokerHandler := o.broker;
      if brokerHandler.None? {
        return Escaped;
      }
      if msg.body.RegisterBody? {
        trace := trace + [Broker(HandleRegister, transId)];
        if o.handler.Throws? {
          return Raised(o.handler.fault);
        }
        trace := trace + [ReturnResponse(brokerHandler.value, transId, h, Some(h.qosLevel), REGISTER_ACK_STAGE)];
      } else {
        trace := trace + [ReturnError(brokerHandler, transId, h, REGISTER_ACK_STAGE, BadEncodingReport(REGISTER_BODY_ERROR))];
      }
      exit := Normal;
    }

    method InternalHandlePublishRegister(msg: Message, o: Oracle) returns (exit: Exit)
      modifies this`trace
      ensures trace == old(trace) + PublishRegisterStep(msg, o).actions
      ensures exit == PublishRegisterStep(msg, o).exit
    {
      var h := msg.header;
      var transId := o.transId;
      trace := trace + [AddTransactionSource(h.uriFrom, h.transactionId)];
      var brokerHandler := o.broker;
      if brokerHandler.None? {
        return Escaped;
      }
      if msg.body.PublishRegisterBody? {
        trace := trace + [Broker(HandlePublishRegister, transId)];
        if o.handler.Throws? {
          return Raised(o.handler.fault);
        }
        trace := trace + [ProviderQoSQuery(h)];
        var lvl := o.providerQoS;
        trace := trace + [ReturnResponse(brokerHandler.value, transId, h, lvl, PUBLISH_REGISTER_ACK_STAGE)];
      } else {
        trace := trace + [ReturnError(brokerHandler, transId, h, PUBLISH_REGISTER_ACK_STAGE,
                                      BadEncodingReport(PUBLISH_REGISTER_BODY_ERROR))];
      }
      exit := Normal;
    }

    method InternalHandlePublish(msg: Message, o: Oracle) returns (exit: Exit)
      modifies this`trace
      ensures trace == old(trace) + PublishStep(msg, o).actions && exit == PublishStep(msg, o).exit
    {
      var h := msg.header;
      exit := Normal;
      if h.isErrorMessage {
        if msg.body.ErrorBody? {
          var list := o.publishListener;
          if list.Some? {
            trace := trace + [PublishErrorReceived(list.value)];
          }
        }
        return;
      }
      var brokerHandler := o.broker;
      if msg.body.PublishBody? {
        var transId := o.transId;
        trace := trace + [AddTransactionSource(h.uriFrom, h.transactionId)];
        if brokerHandler.None? {
          return Escaped;
        }
        trace := trace + [Broker(HandlePublish, transId)];
        if o.handler.Throws? {
          trace := trace + [ReturnError(brokerHandler, h.transactionId, h, PUBLISH_STAGE, Report(o.handler.fault))];
        }
      } else {
        if brokerHandler.None? {
          return Escaped;
        }
        trace := trace + [ReturnError(brokerHandler, h.transactionId, h, PUBLISH_STAGE,
                                      BadEncodingReport(PUBLISH_BODY_ERROR))];
      }
    }

    method InternalHandleNotify(msg: Message, o: Oracle) returns (exit: Exit)
      modifies this`trace
      ensures trace == old(trace) + NotifyStep(msg, o).actions && exit == NotifyStep(msg, o).exit
    {
      var h := msg.header;
      exit := Normal;
      if h.isErrorMessage {
        trace := trace + [NotifyListenersRemoved(h.uriTo)];
        var lists := o.notifyListeners;
        if lists.Some? {
          if !msg.body.ErrorBody? {
            return Escaped;
          }
          var listeners := lists.value;
          ghost var start := trace;
          var i := 0;
          while i < |listeners|
            invariant 0 <= i <= |listeners|
            invariant trace == start + NotifyErrors(listeners[..i])
          {
            trace := trace + [NotifyErrorReceived(listeners[i])];
            i := i + 1;
          }
          assert listeners[..i] == listeners;
        }
      } else {
        if !msg.body.NotifyBody? {
          return Escaped;
        }
        var rcv := o.notifyListener;
        if rcv.Some? {
          trace := trace + [NotifyReceived(rcv.value, msg.body.subscriptionId)];
        }
      }
    }

    method InternalHandleDeregister(msg: Message, o: Oracle) returns (exit: Exit)
      modifies this`trace
      ensures trace == old(trace) + DeregisterStep(msg, o).actions && exit == DeregisterStep(msg, o).exit
    {
      var h := msg.header;
      var transId := o.transId;
      trace := trace + [AddTransactionSource(h.uriFrom, h.transactionId)];
      var brokerHandler := o.broker;
      if brokerHandler.None? || !msg.body.DeregisterBody? {
        return Escaped;
      }
      trace := trace + [Broker(HandleDeregister, transId)];
      exit := Normal;
      if o.handler.Completes? {
        trace := trace + [ReturnResponse(brokerHandler.value, transId, h, Some(h.qosLevel), DEREGISTER_ACK_STAGE)];
      } else if o.handler.fault.MALException? {
        trace := trace + [ReturnError(brokerHandler, transId, h, DEREGISTER_ACK_STAGE,
                                      ExceptionReport(o.handler.fault.detail))];
      } else {
        exit := Raised(o.handler.fault);
      }
    }

    method InternalHandlePublishDeregister(msg: Message, o: Oracle) returns (exit: Exit)
      modifies this`trace
      ensures trace == old(trace) + PublishDeregisterStep(msg, o).actions
      ensures exit == PublishDeregisterStep(msg, o).exit
    {
      var h := msg.header;
      var transId := o.transId;
      trace := trace + [AddTransactionSource(h.uriFrom, h.transactionId)];
      var brokerHandler := o.broker;
      if brokerHandler.None? {
        return Escaped;
      }
      trace := trace + [ProviderQoSQuery(h)];
      var lvl := o.providerQoS;
      if lvl.None? {
        lvl := Some(h.qosLevel);
      }
      trace := trace + [Broker(HandlePublishDeregister, transId)];
      if o.handler.Throws? {
        return Raised(o.handler.fault);
      }
      trace := trace + [ReturnResponse(brokerHandler.value, transId, h, lvl, PUBLISH_DEREGISTER_ACK_STAGE)];
      exit := Normal;
    }

    /**
     * The switch on (type, stage) inside onMessage's try block; `address` is
     * what the switch looked up, if it looked anything up.
     */
    method Receive(localName: string, msg: Message, o: Oracle) returns (exit: Exit, address: Option<Address>)
      modifies this`trace
      ensures trace == old(trace) + ReceiveStep(providerEndpointMap, localName, msg, o).actions
      ensures exit == ReceiveStep(providerEndpointMap, localName, msg, o).exit
      ensures address.Some? ==> address == LookupAddress(providerEndpointMap, localName, msg.header.service)
    {
      address := None;
      var h := msg.header;
      var stage := h.stage;
      match h.interactionType
      case Send =>
        address := LookupAddress(providerEndpointMap, localName, h.service);
        exit := InternalHandleSend(address, o);
      case Submit =>
        if stage == SUBMIT_STAGE {
          address := LookupAddress(providerEndpointMap, localName, h.service);
          exit := InternalHandleProvider(msg, address, o);
        } else if stage == SUBMIT_ACK_STAGE {
          trace := trace + [ConsumerHandleStage(h)];
          exit := Normal;
        } else {
          exit := UnexpectedStage(stage).exit;
        }
      case Request =>
        if stage == REQUEST_STAGE {
          address := LookupAddress(providerEndpointMap, localName, h.service);
          exit := InternalHandleProvider(msg, address, o);
        } else if stage == REQUEST_RESPONSE_STAGE {
          trace := trace + [ConsumerHandleStage(h)];
          exit := Normal;
        } else {
          exit := UnexpectedStage(stage).exit;
        }
      case Invoke =>
        if stage == INVOKE_STAGE {
          address := LookupAddress(providerEndpointMap, localName, h.service);
          exit := InternalHandleProvider(msg, address, o);
        } else if stage == INVOKE_ACK_STAGE || stage == INVOKE_RESPONSE_STAGE {
          trace := trace + [ConsumerHandleStage(h)];
          exit := Normal;
        } else {
          exit := UnexpectedStage(stage).exit;
        }
      case Progress =>
        if stage == PROGRESS_STAGE {
          address := LookupAddress(providerEndpointMap, localName, h.service);
          exit := InternalHandleProvider(msg, address, o);
        } else if stage == PROGRESS_ACK_STAGE || stage == PROGRESS_UPDATE_STAGE || stage == PROGRESS_RESPONSE_STAGE {
          trace := trace + [ConsumerHandleStage(h)];
          exit := Normal;
        } else {
          exit := UnexpectedStage(stage).exit;
        }
      case PubSub =>
        if stage == REGISTER_ACK_STAGE || stage == PUBLISH_REGISTER_ACK_STAGE
           || stage == DEREGISTER_ACK_STAGE || stage == PUBLISH_DEREGISTER_ACK_STAGE {
          trace := trace + [ConsumerHandleStage(h)];
          exit := Normal;
        } else if stage == NOTIFY_STAGE {
          exit := InternalHandleNotify(msg, o);
        } else if stage in {REGISTER_STAGE, PUBLISH_REGISTER_STAGE, PUBLISH_STAGE,
                            DEREGISTER_STAGE, PUBLISH_DEREGISTER_STAGE} {
          address := LookupAddress(providerEndpointMap, localName, h.service);
          if stage == REGISTER_STAGE {
            exit := InternalHandleRegister(msg, o);
          } else if stage == PUBLISH_REGISTER_STAGE {
            exit := InternalHandlePublishRegister(msg, o);
          } else if stage == PUBLISH_STAGE {
            exit := InternalHandlePublish(msg, o);
          } else if stage == DEREGISTER_STAGE {
            exit := InternalHandleDeregister(msg, o);
          } else {
            exit := InternalHandlePublishDeregister(msg, o);
          }
        } else {
          exit := UnexpectedStage(stage).exit;
        }
      case UnknownType(n) =>
        exit := Raised(MALException("Received unexpected interaction of " + DecimalString(n)));
    }

    /** onMessage: true when an unchecked exception leaves it. */
    method OnMessage(localName: string, msg: Message, o: Oracle) returns (escaped: bool)
      modifies this`trace
      ensures trace == old(trace) + Dispatch(providerEndpointMap, localName, msg, o).actions
      ensures escaped == Dispatch(providerEndpointMap, localName, msg, o).escaped
    {
      var address: Option<Address> := None;
      var h := msg.header;
      var exit: Exit;
      if o.check.Throws? {
        exit := Raised(o.check.fault);
      } else {
        exit, address := Receive(localName, msg, o);
      }
      escaped := exit.Escaped?;
      if exit.Raised? {
        // the address is looked up again when the switch had not resolved it
        if address.None? {
          address := LookupAddress(providerEndpointMap, localName, h.service);
        }
        var rspnInteractionStage := ReturnStage(h.interactionType, h.stage);
        if rspnInteractionStage.Some? {
          trace := trace + [ReturnError(address, h.transactionId, h, rspnInteractionStage.value, Report(exit.fault))];
        }
      }
    }

    /** onMessage on the i-th delivery of a batch whose dispatches are `results`. */
    method OnDelivery(localName: string, msgList: seq<Delivery>, i: nat, ghost results: seq<Dispatched>)
      returns (escaped: bool)
      requires i < |msgList| && DispatchedEach(results, providerEndpointMap, localName, msgList)
      modifies this`trace
      ensures trace == old(trace) + results[i].actions && escaped == results[i].escaped
    {
      assert ResultAt(results, i) == Dispatch(providerEndpointMap, localName, msgList[i].msg, msgList[i].oracle);
      escaped := OnMessage(localName, msgList[i].msg, msgList[i].oracle);
    }

    /**
     * onMessages: each message in turn; an unchecked exception abandons the
     * rest. `results` are the dispatches of the deliveries, so the calls made
     * are those of DispatchAll (DispatchedEachIsDispatchAll).
     */
    method OnMessages(localName: string, msgList: seq<Delivery>) returns (escaped: bool, ghost results: seq<Dispatched>)
      modifies this`trace
      ensures DispatchedEach(results, providerEndpointMap, localName, msgList)
      ensures trace == old(trace) + Batch(results).actions
      ensures escaped == Batch(results).escaped
    {
      results := DispatchesEach(providerEndpointMap, localName, msgList);
      var i := 0;
      escaped := false;
      while i < |msgList|
        invariant 0 <= i <= |msgList|
        invariant !Batch(results[..i]).escaped
        invariant trace == old(trace) + Batch(results[..i]).actions
      {
        BatchStep(results, i);
        escaped := OnDelivery(localName, msgList, i, results);
        if escaped {
          BatchStops(results, i);
          return;
        }
        i := i + 1;
      }
      assert results[..i] == results;
    }
  }
}
