/**
 * What MessageReceive promises about one dispatch, about batches and about the
 * provider address registry, stated over the functions of MessageReceiving.
 */
module MessageReceiveProperties {
  import opened Wrappers
  import opened InteractionStages
  import opened EndPointPairs
  import opened MessageReceiving

  // ---------------------------------------------------------------------------
  // Provider address registry

  /** A second registration of the same key is a no-op: the first address stays. */
  lemma FirstRegistrationWins(m: ProviderEndpointMap, key: EndPointPair, first: Address, second: Address)
    ensures Registered(Registered(m, key, first), key, second) == Registered(m, key, first)
    ensures key !in m ==> Registered(Registered(m, key, first), key, second)[key] == first
  {
  }

  /** A provider registered under a service number is found by a message of that service. */
  lemma LookupFindsRegistration(m: ProviderEndpointMap, localName: string, service: int, address: Address)
    ensures var key := EndPointPair(localName, Some(service));
      LookupAddress(Registered(m, key, address), localName, service)
        == Some(if key in m then m[key] else address)
  {
  }

  /**
   * A provider registered without a service (a null MALService) is never found:
   * lookupAddress always builds its key from the header's service number.
   */
  lemma RegistrationWithoutServiceIsNeverLookedUp(
    m: ProviderEndpointMap, localName: string, address: Address, name: string, service: int)
    ensures LookupAddress(Registered(m, EndPointPair(localName, None), address), name, service)
         == LookupAddress(m, name, service)
  {
  }

  // ---------------------------------------------------------------------------
  // Shapes of a trace

  /** The dispatcher sends at most one message (a response or an error) per received message. */
  predicate AtMostOneReply(actions: seq<Action>)
  {
    forall i, j | 0 <= i < j < |actions| ::
      !((actions[i].ReturnError? || actions[i].ReturnResponse?) && (actions[j].ReturnError? || actions[j].ReturnResponse?))
  }

  /** Every error sent back is sent at the stage the return-stage table gives for the message. */
  predicate ErrorsAtReturnStage(actions: seq<Action>, h: Header)
  {
    forall i | 0 <= i < |actions| && actions[i].ReturnError? ::
      ReturnStage(h.interactionType, h.stage) == Some(actions[i].stage)
  }

  /** Every provider or broker call comes after the transaction of the message was allocated. */
  predicate AllocatedBeforeHandling(actions: seq<Action>, h: Header)
  {
    forall i | 0 <= i < |actions| && (actions[i].ProviderHandle? || actions[i].Broker?) ::
      0 < i && actions[0] == AddTransactionSource(h.uriFrom, h.transactionId)
  }

  // ---------------------------------------------------------------------------
  // One dispatch

  /** A message whose (type, stage) pair is not legal reaches no collaborator and is not answered. */
  lemma {:induction false} IllegalPairIsOnlyLogged(m: ProviderEndpointMap, localName: string, msg: Message, o: Oracle)
    requires !IsLegal(msg.header.interactionType, msg.header.stage)
    ensures Dispatch(m, localName, msg, o) == Dispatched([], false)
  {
    ReturnStageExistsIffInitiating(msg.header.interactionType, msg.header.stage);
  }

  /**
   * Acknowledgements, updates and responses go to the consumer map as they are:
   * no address lookup, no transaction, and no error is ever returned for them.
   */
  lemma {:induction false} RepliesGoToConsumerMap(m: ProviderEndpointMap, localName: string, msg: Message, o: Oracle)
    requires IsReply(msg.header.interactionType, msg.header.stage)
    ensures Dispatch(m, localName, msg, o)
         == Dispatched(if o.check.Completes? then [ConsumerHandleStage(msg.header)] else [], false)
  {
    NoReturnForRepliesNotifyOrSend(msg.header.interactionType, msg.header.stage);
  }

  /**
   * Submit, Request, Invoke and Progress: the transaction is allocated before
   * the handler runs; a MALException from the handler is returned once, at the
   * pattern's ack or response stage, with the allocated transaction id, while a
   * MALInteractionException is returned at the same stage with the header's
   * transaction id.
   */
  lemma {:induction false} ProviderPatternDispatch(
    m: ProviderEndpointMap, localName: string, msg: Message, o: Oracle, address: Address)
    requires var h := msg.header; IsProviderPattern(h.interactionType) && h.stage == 1
    requires o.check.Completes? && LookupAddress(m, localName, msg.header.service) == Some(address)
    ensures var h := msg.header;
      var d := Dispatch(m, localName, msg, o);
      var called := [AddTransactionSource(h.uriFrom, h.transactionId), ProviderHandle(h.interactionType, o.transId)];
      var rs := ReturnStage(h.interactionType, h.stage);
      && rs.Some?
      && !d.escaped
      && d.actions == match o.handler
           case Completes => called
           case Throws(MALException(e)) => called + [ReturnError(Some(address), o.transId, h, rs.value, ExceptionReport(e))]
           case Throws(MALInteractionException(e)) =>
             called + [ReturnError(Some(address), h.transactionId, h, rs.value, StandardReport(e))]
  {
  }

  /** An initiating Submit, Request, Invoke or Progress with no registered provider allocates, then escapes. */
  lemma {:induction false} ProviderPatternWithoutProvider(m: ProviderEndpointMap, localName: string, msg: Message, o: Oracle)
    requires var h := msg.header; IsProviderPattern(h.interactionType) && h.stage == 1
    requires o.check.Completes? && LookupAddress(m, localName, msg.header.service) == None
    ensures Dispatch(m, localName, msg, o)
         == Dispatched([AddTransactionSource(msg.header.uriFrom, msg.header.transactionId)], true)
  {
  }

  /**
   * A REGISTER or PUBLISH_REGISTER whose body has the wrong type is answered
   * with BAD_ENCODING at its ack stage, and the broker is never called.
   */
  lemma {:induction false} RegisterWithWrongBody(m: ProviderEndpointMap, localName: string, msg: Message, o: Oracle)
    requires var h := msg.header; h.interactionType == PubSub
    requires || (msg.header.stage == REGISTER_STAGE && !msg.body.RegisterBody?)
             || (msg.header.stage == PUBLISH_REGISTER_STAGE && !msg.body.PublishRegisterBody?)
    requires o.check.Completes? && o.broker.Some?
    ensures var h := msg.header;
      var info := if h.stage == REGISTER_STAGE then REGISTER_BODY_ERROR else PUBLISH_REGISTER_BODY_ERROR;
      Dispatch(m, localName, msg, o)
        == Dispatched([AddTransactionSource(h.uriFrom, h.transactionId),
                       ReturnError(o.broker, o.transId, h, ReturnStage(PubSub, h.stage).value,
                                   StandardReport(StandardError(BadEncoding, info)))], false)
  {
  }

  /**
   * A well-formed REGISTER or PUBLISH_REGISTER that the broker accepts: the
   * broker call comes first, then the ack is sent from the broker's address;
   * the REGISTER ack carries the message's QoS level, the PUBLISH_REGISTER ack
   * the level the broker has recorded for the provider.
   */
  lemma {:induction false} RegisterWithRightBody(m: ProviderEndpointMap, localName: string, msg: Message, o: Oracle)
    requires var h := msg.header; h.interactionType == PubSub
    requires || (msg.header.stage == REGISTER_STAGE && msg.body.RegisterBody?)
             || (msg.header.stage == PUBLISH_REGISTER_STAGE && msg.body.PublishRegisterBody?)
    requires o.check.Completes? && o.broker.Some? && o.handler.Completes?
    ensures var h := msg.header;
      var allocate := AddTransactionSource(h.uriFrom, h.transactionId);
      var ack := ReturnStage(PubSub, h.stage).value;
      Dispatch(m, localName, msg, o).actions
        == if h.stage == REGISTER_STAGE then
             [allocate, Broker(HandleRegister, o.transId),
              ReturnResponse(o.broker.value, o.transId, h, Some(h.qosLevel), ack)]
           else
             [allocate, Broker(HandlePublishRegister, o.transId), ProviderQoSQuery(h),
              ReturnResponse(o.broker.value, o.transId, h, o.providerQoS, ack)]
  {
  }

  /**
   * A well-formed DEREGISTER or PUBLISH_DEREGISTER that the broker accepts:
   * the transaction is allocated, the broker is called with the allocated
   * transaction id, and the ack goes out from the broker's address at the
   * message's ack stage with that transaction id.
   */
  lemma {:induction false} DeregisterWithBroker(m: ProviderEndpointMap, localName: string, msg: Message, o: Oracle)
    requires var h := msg.header; h.interactionType == PubSub
    requires || (msg.header.stage == DEREGISTER_STAGE && msg.body.DeregisterBody?)
             || msg.header.stage == PUBLISH_DEREGISTER_STAGE
    requires o.check.Completes? && o.broker.Some? && o.handler.Completes?
    ensures var h := msg.header;
      var allocate := AddTransactionSource(h.uriFrom, h.transactionId);
      var ack := ReturnStage(PubSub, h.stage).value;
      Dispatch(m, localName, msg, o)
        == if h.stage == DEREGISTER_STAGE then
             Dispatched([allocate, Broker(HandleDeregister, o.transId),
                         ReturnResponse(o.broker.value, o.transId, h, Some(h.qosLevel), ack)], false)
           else
             Dispatched([allocate, ProviderQoSQuery(h), Broker(HandlePublishDeregister, o.transId),
                         ReturnResponse(o.broker.value, o.transId, h,
                                        Some(if o.providerQoS.Some? then o.providerQoS.value else h.qosLevel), ack)],
                        false)
  {
  }

  /**
   * A DEREGISTER whose broker call fails with a MALException: the exception is
   * returned at DEREGISTER_ACK with the allocated transaction id, and nothing
   * escapes.
   */
  lemma {:induction false} DeregisterBrokerFailure(m: ProviderEndpointMap, localName: string, msg: Message, o: Oracle)
    requires var h := msg.header; h.interactionType == PubSub && h.stage == DEREGISTER_STAGE
    requires msg.body.DeregisterBody?
    requires o.check.Completes? && o.broker.Some? && o.handler.Throws? && o.handler.fault.MALException?
    ensures var h := msg.header;
      Dispatch(m, localName, msg, o)
        == Dispatched([AddTransactionSource(h.uriFrom, h.transactionId), Broker(HandleDeregister, o.transId),
                       ReturnError(o.broker, o.transId, h, DEREGISTER_ACK_STAGE,
                                   ExceptionReport(o.handler.fault.detail))], false)
  {
  }

  /** The four stages at which the dispatcher itself sends a response. */
  predicate IsAckStage(stage: UOctet)
  {
    stage in {REGISTER_ACK_STAGE, PUBLISH_REGISTER_ACK_STAGE, DEREGISTER_ACK_STAGE, PUBLISH_DEREGISTER_ACK_STAGE}
  }

  /** The QoS level an ack at the given stage is sent with; no QoS level for any other stage. */
  function AckQoS(stage: UOctet, h: Header, o: Oracle): (r: Option<QoSLevel>)
  {
    if stage in {REGISTER_ACK_STAGE, DEREGISTER_ACK_STAGE} then Some(h.qosLevel)
    else if stage == PUBLISH_REGISTER_ACK_STAGE then o.providerQoS
    else if stage == PUBLISH_DEREGISTER_ACK_STAGE then
      (if o.providerQoS.Some? then o.providerQoS else Some(h.qosLevel))
    else None
  }

  /**
   * Every response in the actions is a Pub-Sub ack, sent at the message's
   * return stage, which is one of the four ack stages, with the QoS level of
   * that stage.
   */
  predicate AcksCarryQoS(actions: seq<Action>, h: Header, o: Oracle)
  {
    forall i | 0 <= i < |actions| && actions[i].ReturnResponse? ::
      && h.interactionType == PubSub
      && Some(actions[i].stage) == ReturnStage(h.interactionType, h.stage)
      && IsAckStage(actions[i].stage)
      && actions[i].qosLevel == AckQoS(actions[i].stage, h, o)
  }

  lemma {:induction false} ProviderStepAcks(msg: Message, address: Option<Address>, o: Oracle)
    requires IsProviderPattern(msg.header.interactionType) && msg.header.stage == 1
    ensures AcksCarryQoS(ProviderStep(msg, address, o).actions, msg.header, o)
  {
  }

  lemma {:induction false} RegisterStepAcks(msg: Message, o: Oracle)
    requires msg.header.interactionType == PubSub && msg.header.stage == REGISTER_STAGE
    ensures AcksCarryQoS(RegisterStep(msg, o).actions, msg.header, o)
  {
  }

  lemma {:induction false} PublishRegisterStepAcks(msg: Message, o: Oracle)
    requires msg.header.interactionType == PubSub && msg.header.stage == PUBLISH_REGISTER_STAGE
    ensures AcksCarryQoS(PublishRegisterStep(msg, o).actions, msg.header, o)
  {
  }

  lemma {:induction false} PublishStepAcks(msg: Message, o: Oracle)
    ensures forall a | a in PublishStep(msg, o).actions :: !a.ReturnResponse?
    ensures AcksCarryQoS(PublishStep(msg, o).actions, msg.header, o)
  {
  }

  lemma {:induction false} NotifyStepAcks(msg: Message, o: Oracle)
    ensures forall a | a in NotifyStep(msg, o).actions :: !a.ReturnResponse?
    ensures AcksCarryQoS(NotifyStep(msg, o).actions, msg.header, o)
  {
  }

  lemma {:induction false} DeregisterStepAcks(msg: Message, o: Oracle)
    requires msg.header.interactionType == PubSub && msg.header.stage == DEREGISTER_STAGE
    ensures AcksCarryQoS(DeregisterStep(msg, o).actions, msg.header, o)
  {
  }

  lemma {:induction false} PublishDeregisterStepAcks(msg: Message, o: Oracle)
    requires msg.header.interactionType == PubSub && msg.header.stage == PUBLISH_DEREGISTER_STAGE
    ensures AcksCarryQoS(PublishDeregisterStep(msg, o).actions, msg.header, o)
  {
  }

  /**
   * The QoS level of every synthesised ack: REGISTER_ACK and DEREGISTER_ACK use
   * the message's level; PUBLISH_REGISTER_ACK uses the provider's recorded level;
   * PUBLISH_DEREGISTER_ACK uses the provider's level if one is recorded, else the
   * message's. Only Pub-Sub messages are ever acked by the dispatcher itself.
   */
  lemma {:induction false} AckQoSLevels(m: ProviderEndpointMap, localName: string, msg: Message, o: Oracle)
    ensures AcksCarryQoS(Dispatch(m, localName, msg, o).actions, msg.header, o)
  {
    var h := msg.header;
    var s := h.stage;
    var address := LookupAddress(m, localName, h.service);
    var body := if o.check.Throws? then Step([], Raised(o.check.fault)) else ReceiveStep(m, localName, msg, o);
    if o.check.Completes? {
      if IsProviderPattern(h.interactionType) && s == 1 {
        ProviderStepAcks(msg, address, o);
      } else if h.interactionType == PubSub {
        if s == REGISTER_STAGE {
          RegisterStepAcks(msg, o);
        } else if s == PUBLISH_REGISTER_STAGE {
          PublishRegisterStepAcks(msg, o);
        } else if s == PUBLISH_STAGE {
          PublishStepAcks(msg, o);
        } else if s == NOTIFY_STAGE {
          NotifyStepAcks(msg, o);
        } else if s == DEREGISTER_STAGE {
          DeregisterStepAcks(msg, o);
        } else if s == PUBLISH_DEREGISTER_STAGE {
          PublishDeregisterStepAcks(msg, o);
        }
      }
    }
    assert AcksCarryQoS(body.actions, h, o);
    var rs := ReturnStage(h.interactionType, h.stage);
    if body.exit.Raised? && rs.Some? {
      var extra := ReturnError(LookupAddress(m, localName, h.service), h.transactionId, h, rs.value, Report(body.exit.fault));
      var actions := body.actions + [extra];
      assert Dispatch(m, localName, msg, o).actions == actions;
      forall i | 0 <= i < |actions| && actions[i].ReturnResponse?
        ensures h.interactionType == PubSub && actions[i].qosLevel == AckQoS(actions[i].stage, h, o)
      {
        assert actions[i] == body.actions[i];
      }
    }
  }

  predicate IsReplyAction(a: Action)
  {
    a.ReturnError? || a.ReturnResponse?
  }

  /**
   * What the handlers keep so that onMessage's catch can add its error: the
   * step itself obeys the three shapes, and a step that ends in a checked
   * fault has sent no reply yet.
   */
  predicate StepDisciplined(st: Step, h: Header)
  {
    && AtMostOneReply(st.actions)
    && ErrorsAtReturnStage(st.actions, h)
    && AllocatedBeforeHandling(st.actions, h)
    && (st.exit.Raised? ==> forall a | a in st.actions :: !IsReplyAction(a))
  }

  lemma {:induction false} ProviderStepDisciplined(msg: Message, address: Option<Address>, o: Oracle)
    requires IsProviderPattern(msg.header.interactionType) && msg.header.stage == 1
    ensures StepDisciplined(ProviderStep(msg, address, o), msg.header)
  {
  }

  lemma {:induction false} RegisterStepDisciplined(msg: Message, o: Oracle)
    requires msg.header.interactionType == PubSub && msg.header.stage == REGISTER_STAGE
    ensures StepDisciplined(RegisterStep(msg, o), msg.header)
  {
  }

  lemma {:induction false} PublishRegisterStepDisciplined(msg: Message, o: Oracle)
    requires msg.header.interactionType == PubSub && msg.header.stage == PUBLISH_REGISTER_STAGE
    ensures StepDisciplined(PublishRegisterStep(msg, o), msg.header)
  {
  }

  lemma {:induction false} PublishStepDisciplined(msg: Message, o: Oracle)
    requires msg.header.interactionType == PubSub && msg.header.stage == PUBLISH_STAGE
    ensures StepDisciplined(PublishStep(msg, o), msg.header)
  {
  }

  lemma {:induction false} NotifyStepDisciplined(msg: Message, o: Oracle)
    ensures forall a | a in NotifyStep(msg, o).actions :: !IsReplyAction(a)
    ensures StepDisciplined(NotifyStep(msg, o), msg.header)
  {
  }

  lemma {:induction false} DeregisterStepDisciplined(msg: Message, o: Oracle)
    requires msg.header.interactionType == PubSub && msg.header.stage == DEREGISTER_STAGE
    ensures StepDisciplined(DeregisterStep(msg, o), msg.header)
  {
  }

  lemma {:induction false} PublishDeregisterStepDisciplined(msg: Message, o: Oracle)
    ensures StepDisciplined(PublishDeregisterStep(msg, o), msg.header)
  {
  }

  lemma {:induction false} ReceiveStepDisciplined(m: ProviderEndpointMap, localName: string, msg: Message, o: Oracle)
    ensures StepDisciplined(ReceiveStep(m, localName, msg, o), msg.header)
  {
    var h := msg.header;
    var s := h.stage;
    var address := LookupAddress(m, localName, h.service);
    if IsProviderPattern(h.interactionType) && s == 1 {
      ProviderStepDisciplined(msg, address, o);
    } else if h.interactionType == PubSub {
      if s == REGISTER_STAGE {
        RegisterStepDisciplined(msg, o);
      } else if s == PUBLISH_REGISTER_STAGE {
        PublishRegisterStepDisciplined(msg, o);
      } else if s == PUBLISH_STAGE {
        PublishStepDisciplined(msg, o);
      } else if s == NOTIFY_STAGE {
        NotifyStepDisciplined(msg, o);
      } else if s == DEREGISTER_STAGE {
        DeregisterStepDisciplined(msg, o);
      } else if s == PUBLISH_DEREGISTER_STAGE {
        PublishDeregisterStepDisciplined(msg, o);
      }
    }
  }

  /**
   * Whatever the collaborators answer, one dispatch sends at most one reply,
   * sends errors only at the message's return stage (so never for Send,
   * NOTIFY or a reply), and calls no handler or broker before the transaction
   * is allocated.
   */
  lemma {:induction false} DispatchDiscipline(m: ProviderEndpointMap, localName: string, msg: Message, o: Oracle)
    ensures var actions := Dispatch(m, localName, msg, o).actions;
      && AtMostOneReply(actions)
      && ErrorsAtReturnStage(actions, msg.header)
      && AllocatedBeforeHandling(actions, msg.header)
  {
    var h := msg.header;
    var body := if o.check.Throws? then Step([], Raised(o.check.fault)) else ReceiveStep(m, localName, msg, o);
    if o.check.Completes? {
      ReceiveStepDisciplined(m, localName, msg, o);
    }
    assert StepDisciplined(body, h);
    var rs := ReturnStage(h.interactionType, h.stage);
    if body.exit.Raised? && rs.Some? {
      var extra := ReturnError(LookupAddress(m, localName, h.service), h.transactionId, h, rs.value, Report(body.exit.fault));
      var actions := body.actions + [extra];
      assert Dispatch(m, localName, msg, o).actions == actions;
      forall i, j | 0 <= i < j < |actions|
        ensures !(IsReplyAction(actions[i]) && IsReplyAction(actions[j]))
      {
        if j < |body.actions| {
          assert actions[i] == body.actions[i] && actions[j] == body.actions[j];
        } else {
          assert actions[i] in body.actions;
        }
      }
      forall i | 0 <= i < |actions| && actions[i].ReturnError?
        ensures rs == Some(actions[i].stage)
      {
        if i < |body.actions| {
          assert actions[i] == body.actions[i];
        }
      }
      forall i | 0 <= i < |actions| && (actions[i].ProviderHandle? || actions[i].Broker?)
        ensures 0 < i && actions[0] == AddTransactionSource(h.uriFrom, h.transactionId)
      {
        assert actions[i] == body.actions[i];
      }
    }
  }

  /** A message with no return stage is never answered with an error, whatever happens. */
  lemma {:induction false} NoReturnStageNoError(m: ProviderEndpointMap, localName: string, msg: Message, o: Oracle)
    requires ReturnStage(msg.header.interactionType, msg.header.stage).None?
    ensures forall a | a in Dispatch(m, localName, msg, o).actions :: !a.ReturnError?
  {
    DispatchDiscipline(m, localName, msg, o);
    var actions := Dispatch(m, localName, msg, o).actions;
    forall a | a in actions
      ensures !a.ReturnError?
    {
      var i :| 0 <= i < |actions| && actions[i] == a;
    }
  }

  /** A rejected security check is answered like any other fault, with the header's transaction id. */
  lemma {:induction false} SecurityRejection(m: ProviderEndpointMap, localName: string, msg: Message, o: Oracle)
    requires o.check.Throws?
    ensures var h := msg.header;
      var rs := ReturnStage(h.interactionType, h.stage);
      Dispatch(m, localName, msg, o)
        == Dispatched(if rs.None? then []
                      else [ReturnError(LookupAddress(m, localName, h.service), h.transactionId, h, rs.value,
                                        Report(o.check.fault))], false)
  {
  }

  /**
   * An error PUBLISH whose security check is rejected is answered: the catch
   * block returns the check's fault at PUBLISH, since calculateReturnStage maps
   * PUBLISH to itself whether or not the message is an error.
   */
  lemma {:induction false} RejectedErrorPublishIsAnswered(m: ProviderEndpointMap, localName: string, msg: Message, o: Oracle)
    requires var h := msg.header; h.interactionType == PubSub && h.stage == PUBLISH_STAGE && h.isErrorMessage
    requires o.check.Throws?
    ensures var h := msg.header;
      Dispatch(m, localName, msg, o)
        == Dispatched([ReturnError(LookupAddress(m, localName, h.service), h.transactionId, h, PUBLISH_STAGE,
                                   Report(o.check.fault))], false)
  {
  }

  /**
   * An error PUBLISH that passes the security check is passed to its
   * correlated publish listener only, and is not answered, although PUBLISH is
   * its own return stage.
   */
  lemma {:induction false} ErrorPublishGoesToItsListener(m: ProviderEndpointMap, localName: string, msg: Message, o: Oracle)
    requires var h := msg.header; h.interactionType == PubSub && h.stage == PUBLISH_STAGE && h.isErrorMessage
    requires o.check.Completes?
    ensures Dispatch(m, localName, msg, o)
         == Dispatched(if msg.body.ErrorBody? && o.publishListener.Some?
                       then [PublishErrorReceived(o.publishListener.value)] else [], false)
  {
  }

  /**
   * A normal PUBLISH with a broker bound: a body that is not a publish body is
   * answered with BAD_ENCODING at PUBLISH, with no transaction allocated and no
   * broker call; otherwise the transaction is allocated, the broker publishes,
   * and a broker failure is returned at PUBLISH with the header's transaction
   * id. Nothing escapes.
   */
  lemma {:induction false} PublishWithBroker(m: ProviderEndpointMap, localName: string, msg: Message, o: Oracle)
    requires var h := msg.header; h.interactionType == PubSub && h.stage == PUBLISH_STAGE && !h.isErrorMessage
    requires o.check.Completes? && o.broker.Some?
    ensures !Dispatch(m, localName, msg, o).escaped
    ensures var h := msg.header;
      !msg.body.PublishBody? ==>
        Dispatch(m, localName, msg, o).actions
          == [ReturnError(o.broker, h.transactionId, h, PUBLISH_STAGE, BadEncodingReport(PUBLISH_BODY_ERROR))]
    ensures var h := msg.header;
      msg.body.PublishBody? ==>
        Dispatch(m, localName, msg, o).actions
          == [AddTransactionSource(h.uriFrom, h.transactionId), Broker(HandlePublish, o.transId)]
             + (if o.handler.Throws?
                then [ReturnError(o.broker, h.transactionId, h, PUBLISH_STAGE, Report(o.handler.fault))]
                else [])
  {
  }

  /**
   * An error NOTIFY takes away every listener of its destination and tells each
   * of them in turn; a normal NOTIFY reaches at most the one listener of its
   * subscription.
   */
  lemma {:induction false} NotifyDelivery(m: ProviderEndpointMap, localName: string, msg: Message, o: Oracle)
    requires var h := msg.header; h.interactionType == PubSub && h.stage == NOTIFY_STAGE
    requires o.check.Completes?
    ensures var h := msg.header;
      var d := Dispatch(m, localName, msg, o);
      if h.isErrorMessage then
        o.notifyListeners.Some? && msg.body.ErrorBody? ==>
          d == Dispatched([NotifyListenersRemoved(h.uriTo)] + NotifyErrors(o.notifyListeners.value), false)
      else
        msg.body.NotifyBody? ==>
          d == Dispatched(if o.notifyListener.Some?
                          then [NotifyReceived(o.notifyListener.value, msg.body.subscriptionId)] else [], false)
  {
  }

  // ---------------------------------------------------------------------------
  // Batches

  /** A batch escapes exactly when one of its dispatches escapes. */
  lemma {:induction false} BatchEscapesIffOneEscapes(results: seq<Dispatched>)
    ensures Batch(results).escaped <==> exists i :: 0 <= i < |results| && results[i].escaped
  {
    if results != [] && !results[0].escaped {
      BatchEscapesIffOneEscapes(results[1..]);
      if exists i :: 0 <= i < |results| && results[i].escaped {
        var i :| 0 <= i < |results| && results[i].escaped;
        assert results[1..][i - 1].escaped;
      }
    }
  }

  /** A batch in which nothing escapes makes the calls of its dispatches, one after the other. */
  lemma {:induction false} BatchConcatenates(results: seq<Dispatched>, more: Dispatched)
    requires !Batch(results).escaped
    ensures Batch(results + [more]) == Dispatched(Batch(results).actions + more.actions, more.escaped)
  {
    BatchAppend(results, [more]);
    assert [more][1..] == [];
  }

  /** onMessages ends with an unchecked exception exactly when one of its messages raises one. */
  lemma {:induction false} OnMessagesEscapesIffOneEscapes(m: ProviderEndpointMap, localName: string, ds: seq<Delivery>)
    ensures DispatchAll(m, localName, ds).escaped
        <==> exists i :: 0 <= i < |ds| && Dispatch(m, localName, ds[i].msg, ds[i].oracle).escaped
  {
    var results := Dispatches(m, localName, ds);
    BatchEscapesIffOneEscapes(results);
    if exists i :: 0 <= i < |ds| && Dispatch(m, localName, ds[i].msg, ds[i].oracle).escaped {
      var i :| 0 <= i < |ds| && Dispatch(m, localName, ds[i].msg, ds[i].oracle).escaped;
      assert results[i].escaped;
    }
  }
}
