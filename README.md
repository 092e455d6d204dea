# CCSDS MO MAL: inbound message dispatch and subscription matching

This project models two parts of the ESA implementation of the CCSDS Mission
Operations Message Abstraction Layer (MAL) and proves properties of them:

- **`MessageReceive`**, the listener that gets every incoming MAL message.
  It runs the security check. It sorts each message by interaction type
  (SEND, SUBMIT, REQUEST, INVOKE, PROGRESS, PUBSUB) and stage. It routes the
  message to a provider handler, to the broker, to the consumer-side
  interaction map or to the publish/subscribe listeners. When handling fails,
  it sends an error back at the stage `calculateReturnStage` picks. It also
  keeps the first-registration-wins table of provider addresses, keyed by
  `EndPointPair` (endpoint name, optional service number).
- **`SubscriptionKey`**, the broker's subscription filter. It is built from a
  REGISTER request and holds:
  - a dot-joined domain literal;
  - a "matches sub-domains" flag, set by a `*` sub-domain segment;
  - area, service and operation, each a value or the wildcard `*`;
  - four sub-keys.

  `matches` decides whether a published update key satisfies the filter.
  `equals`, `hashCode` and `compareTo` give the filter's identity and order,
  which use the four sub-keys only.

## How the dispatcher is modelled

The collaborators are represented in two ways:
- their calls are recorded as `Action`s appended to the `trace` field of the
  `MessageReceive` class;
- what they answer is given per message by an `Oracle`: the outcome of the
  security check, of the provider handler and of the broker call, the
  transaction id handed out, the broker binding, and the listeners found.

The collaborators are the message sender, the interaction maps, the broker
bindings and the security manager.

A Java exception leaves a handler in one of three ways (`Exit`):
- `Normal`;
- `Raised(fault)`: a checked `MALException` or `MALInteractionException`,
  which `onMessage` catches;
- `Escaped`: an unchecked exception, such as a null dereference on a
  missing provider address or broker binding, or a `ClassCastException` on a
  message body of the wrong type. It passes through `onMessage` and ends
  `onMessages`' loop.

Each handler is written twice:
- a `…Step` function that says what it appends and how it exits;
- a method of the class, proved to append exactly that.

`Dispatch` and `DispatchAll` specify `onMessage` and `onMessages` in the same way.
The `onMessages` method returns, as a ghost result, the dispatch of each message,
and its trace is those dispatches run in order up to the first escape
(`MessageReceiving.DispatchedEachIsDispatchAll` identifies that with `DispatchAll`).

Three behaviours of the code are worth stating outright, since they are
easy to misread:

- `matches` tests the domain as a text prefix (`String.startsWith`), not as
  a dot-segment prefix. So a filter on `a.b` that covers sub-domains also
  matches `a.bc` (`SubscriptionKeyProperties.LiteralPrefixMatchesSiblingDomain`).
- `EndPointPair.compareTo` returns -1 in both directions when one pair has a
  service number and the other has none at an equal name (see Findings).
- `calculateReturnStage` maps PUBLISH to PUBLISH, whether or not the message
  is an error. An error PUBLISH that passes the security check goes
  unanswered only because `internalHandlePublish` passes it to the publish
  listener and returns. An error PUBLISH that the security check rejects is
  answered with an error at PUBLISH
  (`MessageReceiveProperties.RejectedErrorPublishIsAnswered`), although the
  catch block's own warning ("already a return message") shows that return
  messages are meant never to be answered.

## Model

| member | source | states |
|---|---|---|
| InteractionStages.ReturnStageIsTable | src/main/java/org/ccsds/moims/mo/mal/impl/MessageReceive.java:612-670 | calculateReturnStage gives stage r for (type, stage) exactly when the row (type, stage, r) is in the nine-row return-stage table, both directions |
| InteractionStages.ReturnStageExistsIffInitiating | src/main/java/org/ccsds/moims/mo/mal/impl/MessageReceive.java:612-670 | a return stage exists exactly for the initiating stages of every pattern except SEND |
| InteractionStages.NoReturnForRepliesNotifyOrSend | src/main/java/org/ccsds/moims/mo/mal/impl/MessageReceive.java:612-670 | no return stage for an ack, update or response, for NOTIFY, for any SEND, or for an unknown interaction type |
| InteractionStages.ReturnStageOfReturnStage | src/main/java/org/ccsds/moims/mo/mal/impl/MessageReceive.java:612-670 | the return stage is a reply stage, which itself has no return stage; PUBLISH is the one exception and maps to itself |
| JavaLang.IntegerCompareTo | src/main/java/org/ccsds/moims/mo/mal/impl/MessageReceive.java:712 | Integer.compareTo is -1, 0 or 1, with its sign the order of the two numbers |
| JavaLang.StringCompareToZeroIffEqual | src/main/java/org/ccsds/moims/mo/mal/impl/MessageReceive.java:700 | String.compareTo is 0 exactly for equal strings |
| JavaLang.StringCompareToAntisymmetric | src/main/java/org/ccsds/moims/mo/mal/impl/broker/SubscriptionKey.java:230 | swapping the strings negates String.compareTo |
| JavaLang.StringCompareToTransitive | src/main/java/org/ccsds/moims/mo/mal/impl/broker/SubscriptionKey.java:230 | String.compareTo orders strings transitively |
| EndPointPairs.EqualsIsValueEquality | src/main/java/org/ccsds/moims/mo/mal/impl/MessageReceive.java:730-750 | equals holds exactly for pairs with the same name and the same service number or both absent |
| EndPointPairs.CompareToZeroIffEquals | src/main/java/org/ccsds/moims/mo/mal/impl/MessageReceive.java:696-750 | compareTo returns 0 exactly when equals holds |
| EndPointPairs.CompareToNotAntisymmetric | src/main/java/org/ccsds/moims/mo/mal/impl/MessageReceive.java:696-727 | at an equal name, (present, absent) and (absent, present) both compare as -1 |
| EndPointPairs.CompareToAntisymmetricOtherwise | src/main/java/org/ccsds/moims/mo/mal/impl/MessageReceive.java:696-727 | in every other case swapping the operands negates compareTo |
| EndPointPairs.HashConsistentWithEquals | src/main/java/org/ccsds/moims/mo/mal/impl/MessageReceive.java:730-759 | equal pairs have equal hashCode |
| EndPointPairs.CompareToAbsentFirstZeroIffEquals | src/main/java/org/ccsds/moims/mo/mal/impl/MessageReceive.java:696-727 | the corrected ordering returns 0 exactly when equals holds |
| EndPointPairs.CompareToAbsentFirstAntisymmetric | src/main/java/org/ccsds/moims/mo/mal/impl/MessageReceive.java:696-727 | the corrected ordering is antisymmetric for all pairs |
| EndPointPairs.AbsentServiceSortsFirst | src/main/java/org/ccsds/moims/mo/mal/impl/MessageReceive.java:696-727 | under the corrected ordering an absent service sorts before a present one at an equal name, in both directions |
| EndPointPairs.OrderingsAgreeOtherwise | src/main/java/org/ccsds/moims/mo/mal/impl/MessageReceive.java:696-727 | compareTo as written and the corrected ordering differ only for (present, absent) at an equal name |
| MessageReceiving.Registered | src/main/java/org/ccsds/moims/mo/mal/impl/MessageReceive.java:251-259 | registering adds the key, keeps an address already registered for it, adds the new address otherwise, and leaves every other key alone |
| MessageReceiving.BatchAppend | src/main/java/org/ccsds/moims/mo/mal/impl/MessageReceive.java:75-81 | running two batches one after the other is running their concatenation, stopping at the first escape |
| MessageReceiving.MessageReceive.constructor | src/main/java/org/ccsds/moims/mo/mal/impl/MessageReceive.java:38 | the registry starts empty and nothing has been called |
| MessageReceiving.MessageReceive.RegisterProviderEndpoint | src/main/java/org/ccsds/moims/mo/mal/impl/MessageReceive.java:251-259 | the registry becomes Registered(old registry, key, address): first registration wins |
| MessageReceiving.MessageReceive.InternalHandleSend | src/main/java/org/ccsds/moims/mo/mal/impl/MessageReceive.java:261-272 | appends the handler call; a MALException is dropped, a MALInteractionException propagates, no address escapes |
| MessageReceiving.MessageReceive.InternalHandleProvider | src/main/java/org/ccsds/moims/mo/mal/impl/MessageReceive.java:274-344 | appends the transaction allocation, the handler call and, on a MALException, the error at the pattern's ack or response stage with the new transaction id |
| MessageReceiving.MessageReceive.InternalHandleRegister | src/main/java/org/ccsds/moims/mo/mal/impl/MessageReceive.java:346-382 | appends allocation, broker call and REGISTER_ACK with the message's QoS level, or BAD_ENCODING for a wrong body |
| MessageReceiving.MessageReceive.InternalHandlePublishRegister | src/main/java/org/ccsds/moims/mo/mal/impl/MessageReceive.java:384-417 | appends allocation, broker call, provider QoS query and PUBLISH_REGISTER_ACK with the provider's QoS level, or BAD_ENCODING for a wrong body |
| MessageReceiving.MessageReceive.InternalHandlePublish | src/main/java/org/ccsds/moims/mo/mal/impl/MessageReceive.java:419-490 | an error PUBLISH goes to its publish listener only; otherwise allocation and the broker call, and any broker failure is returned at PUBLISH with the header's transaction id |
| MessageReceiving.MessageReceive.InternalHandleNotify | src/main/java/org/ccsds/moims/mo/mal/impl/MessageReceive.java:492-542 | an error NOTIFY removes the destination's listeners and tells each one, in a loop; a normal NOTIFY reaches its subscription's listener |
| MessageReceiving.MessageReceive.InternalHandleDeregister | src/main/java/org/ccsds/moims/mo/mal/impl/MessageReceive.java:544-577 | appends allocation, broker call and DEREGISTER_ACK, or the broker's MALException at DEREGISTER_ACK |
| MessageReceiving.MessageReceive.InternalHandlePublishDeregister | src/main/java/org/ccsds/moims/mo/mal/impl/MessageReceive.java:579-604 | appends allocation, QoS query, broker call and PUBLISH_DEREGISTER_ACK with the provider's QoS level, else the message's |
| MessageReceiving.MessageReceive.OnMessage | src/main/java/org/ccsds/moims/mo/mal/impl/MessageReceive.java:90-249 | the switch on (type, stage) and the top-level catch append exactly what Dispatch gives |
| MessageReceiving.MessageReceive.Receive | src/main/java/org/ccsds/moims/mo/mal/impl/MessageReceive.java:97-205 | the switch on (type, stage) appends exactly what the chosen handler appends and exits as it does; an address it looked up is the registered one |
| MessageReceiving.MessageReceive.OnDelivery | src/main/java/org/ccsds/moims/mo/mal/impl/MessageReceive.java:75-81 | one turn of the loop: message i appends exactly its own dispatch's calls |
| MessageReceiving.MessageReceive.OnMessages | src/main/java/org/ccsds/moims/mo/mal/impl/MessageReceive.java:75-81 | the per-message results are the dispatches of the list's messages, all for the same calling endpoint and each with its own collaborators' answers; the loop appends their calls in order and stops after the first escaping one |
| MessageReceiving.DispatchesEach | src/main/java/org/ccsds/moims/mo/mal/impl/MessageReceive.java:75-81 | the dispatches of a message list satisfy the per-message description used by the loop |
| MessageReceiving.DispatchedEachIsDispatchAll | src/main/java/org/ccsds/moims/mo/mal/impl/MessageReceive.java:75-81 | results described message by message are exactly the dispatches of the list, so the loop's outcome is DispatchAll |
| MessageReceiving.BatchStep | src/main/java/org/ccsds/moims/mo/mal/impl/MessageReceive.java:75-81 | after a prefix that did not escape, the next message adds exactly its calls and its exit |
| MessageReceiving.BatchStops | src/main/java/org/ccsds/moims/mo/mal/impl/MessageReceive.java:75-81 | once a prefix has escaped, the rest of the list adds nothing |
| MessageReceiveProperties.FirstRegistrationWins | src/main/java/org/ccsds/moims/mo/mal/impl/MessageReceive.java:251-259 | a second registration under the same key changes nothing |
| MessageReceiveProperties.LookupFindsRegistration | src/main/java/org/ccsds/moims/mo/mal/impl/MessageReceive.java:606-610 | after registering (name, service), a message of that service finds the first address registered under that key |
| MessageReceiveProperties.RegistrationWithoutServiceIsNeverLookedUp | src/main/java/org/ccsds/moims/mo/mal/impl/MessageReceive.java:606-610 | a provider registered with no service is never found, because the lookup always uses the header's service |
| MessageReceiveProperties.IllegalPairIsOnlyLogged | src/main/java/org/ccsds/moims/mo/mal/impl/MessageReceive.java:90-249 | an unexpected (type, stage) pair calls no collaborator and sends nothing |
| MessageReceiveProperties.RepliesGoToConsumerMap | src/main/java/org/ccsds/moims/mo/mal/impl/MessageReceive.java:107-174 | a reply stage goes only to the consumer interaction map, and is never answered |
| MessageReceiveProperties.ProviderPatternDispatch | src/main/java/org/ccsds/moims/mo/mal/impl/MessageReceive.java:274-344 | allocation precedes the handler; a MALException is returned with the new transaction id, a MALInteractionException with the header's, both at the return stage |
| MessageReceiveProperties.ProviderPatternWithoutProvider | src/main/java/org/ccsds/moims/mo/mal/impl/MessageReceive.java:274-344 | with no provider registered the transaction is allocated and the dispatch escapes |
| MessageReceiveProperties.RegisterWithWrongBody | src/main/java/org/ccsds/moims/mo/mal/impl/MessageReceive.java:346-417 | a wrong body is answered with BAD_ENCODING at the ack stage and the broker is not called |
| MessageReceiveProperties.RegisterWithRightBody | src/main/java/org/ccsds/moims/mo/mal/impl/MessageReceive.java:346-417 | a well-formed registration calls the broker, then acks from the broker's address with the right QoS level |
| MessageReceiveProperties.DeregisterWithBroker | src/main/java/org/ccsds/moims/mo/mal/impl/MessageReceive.java:544-604 | a well-formed DEREGISTER or any PUBLISH_DEREGISTER the broker accepts: allocation, the broker call with the allocated transaction id, then the ack from the broker's address at DEREGISTER_ACK or PUBLISH_DEREGISTER_ACK with that id and the stage's QoS level |
| MessageReceiveProperties.DeregisterBrokerFailure | src/main/java/org/ccsds/moims/mo/mal/impl/MessageReceive.java:544-577 | a DEREGISTER whose broker call raises a MALException gets that exception back at DEREGISTER_ACK with the allocated transaction id, and nothing escapes |
| MessageReceiveProperties.ProviderStepAcks | src/main/java/org/ccsds/moims/mo/mal/impl/MessageReceive.java:274-344 | the provider handlers send no response of their own |
| MessageReceiveProperties.RegisterStepAcks | src/main/java/org/ccsds/moims/mo/mal/impl/MessageReceive.java:346-382 | REGISTER_ACK carries the message's QoS level |
| MessageReceiveProperties.PublishRegisterStepAcks | src/main/java/org/ccsds/moims/mo/mal/impl/MessageReceive.java:384-417 | PUBLISH_REGISTER_ACK carries the provider's recorded QoS level |
| MessageReceiveProperties.PublishStepAcks | src/main/java/org/ccsds/moims/mo/mal/impl/MessageReceive.java:419-490 | internalHandlePublish sends no response, only errors |
| MessageReceiveProperties.NotifyStepAcks | src/main/java/org/ccsds/moims/mo/mal/impl/MessageReceive.java:492-542 | internalHandleNotify sends no response |
| MessageReceiveProperties.DeregisterStepAcks | src/main/java/org/ccsds/moims/mo/mal/impl/MessageReceive.java:544-577 | DEREGISTER_ACK carries the message's QoS level |
| MessageReceiveProperties.PublishDeregisterStepAcks | src/main/java/org/ccsds/moims/mo/mal/impl/MessageReceive.java:579-604 | PUBLISH_DEREGISTER_ACK carries the provider's QoS level if one is recorded, else the message's |
| MessageReceiveProperties.AckQoSLevels | src/main/java/org/ccsds/moims/mo/mal/impl/MessageReceive.java:90-249 | whatever the collaborators answer, every response a dispatch sends is a PUBSUB ack at the message's own return stage, which is one of the four ack stages, carrying the QoS level of that stage's rule |
| MessageReceiveProperties.ProviderStepDisciplined | src/main/java/org/ccsds/moims/mo/mal/impl/MessageReceive.java:274-344 | the provider handlers reply at most once, at the return stage, after allocation, and not at all when they raise |
| MessageReceiveProperties.RegisterStepDisciplined | src/main/java/org/ccsds/moims/mo/mal/impl/MessageReceive.java:346-382 | the same discipline for internalHandleRegister |
| MessageReceiveProperties.PublishRegisterStepDisciplined | src/main/java/org/ccsds/moims/mo/mal/impl/MessageReceive.java:384-417 | the same discipline for internalHandlePublishRegister |
| MessageReceiveProperties.PublishStepDisciplined | src/main/java/org/ccsds/moims/mo/mal/impl/MessageReceive.java:419-490 | the same discipline for internalHandlePublish |
| MessageReceiveProperties.NotifyStepDisciplined | src/main/java/org/ccsds/moims/mo/mal/impl/MessageReceive.java:492-542 | internalHandleNotify never replies, neither with a response nor with an error |
| MessageReceiveProperties.DeregisterStepDisciplined | src/main/java/org/ccsds/moims/mo/mal/impl/MessageReceive.java:544-577 | the same discipline for internalHandleDeregister |
| MessageReceiveProperties.PublishDeregisterStepDisciplined | src/main/java/org/ccsds/moims/mo/mal/impl/MessageReceive.java:579-604 | the same discipline for internalHandlePublishDeregister |
| MessageReceiveProperties.ReceiveStepDisciplined | src/main/java/org/ccsds/moims/mo/mal/impl/MessageReceive.java:90-205 | the switch keeps the discipline for every (type, stage) |
| MessageReceiveProperties.DispatchDiscipline | src/main/java/org/ccsds/moims/mo/mal/impl/MessageReceive.java:90-249 | whatever the collaborators answer, a message gets at most one reply, errors only at its return stage, and no handler or broker call before allocation |
| MessageReceiveProperties.NoReturnStageNoError | src/main/java/org/ccsds/moims/mo/mal/impl/MessageReceive.java:207-248 | a message with no return stage is never answered with an error |
| MessageReceiveProperties.SecurityRejection | src/main/java/org/ccsds/moims/mo/mal/impl/MessageReceive.java:90-249 | a rejected security check reaches no handler; its fault is returned at the return stage with the header's transaction id, if there is one |
| MessageReceiveProperties.ErrorPublishGoesToItsListener | src/main/java/org/ccsds/moims/mo/mal/impl/MessageReceive.java:421-445 | when the security check passes, an error PUBLISH reaches only its publish listener and is not answered |
| MessageReceiveProperties.RejectedErrorPublishIsAnswered | src/main/java/org/ccsds/moims/mo/mal/impl/MessageReceive.java:207-248 | when the security check rejects an error PUBLISH, the check's fault is returned at PUBLISH with the header's transaction id, since calculateReturnStage does not look at the error flag |
| MessageReceiveProperties.PublishWithBroker | src/main/java/org/ccsds/moims/mo/mal/impl/MessageReceive.java:447-488 | a normal PUBLISH with a bound broker never escapes; a wrong body gets BAD_ENCODING at PUBLISH with no allocation and no broker call; otherwise allocation and the broker call, and a broker failure comes back at PUBLISH with the header's transaction id |
| MessageReceiveProperties.NotifyDelivery | src/main/java/org/ccsds/moims/mo/mal/impl/MessageReceive.java:492-542 | an error NOTIFY removes and tells every listener of its destination; a normal one reaches only its subscription's listener |
| MessageReceiveProperties.BatchEscapesIffOneEscapes | src/main/java/org/ccsds/moims/mo/mal/impl/MessageReceive.java:75-81 | onMessages ends with an escaping exception exactly when one of its messages raises one |
| MessageReceiveProperties.BatchConcatenates | src/main/java/org/ccsds/moims/mo/mal/impl/MessageReceive.java:75-81 | one more message after a batch that did not escape adds exactly that message's calls |
| MessageReceiveProperties.OnMessagesEscapesIffOneEscapes | src/main/java/org/ccsds/moims/mo/mal/impl/MessageReceive.java:75-81 | onMessages over a message list escapes exactly when the dispatch of one of its messages escapes |
| SubscriptionKeys.NonWildcard | src/main/java/org/ccsds/moims/mo/mal/impl/broker/SubscriptionKey.java:67-80 | exactly the sub-domain segments other than the wildcard |
| SubscriptionKeys.MatchedSubkey | src/main/java/org/ccsds/moims/mo/mal/impl/broker/SubscriptionKey.java:237-255 | true exactly when either side is the wildcard or both are equal, absent included |
| SubscriptionKeys.CompareSubkey | src/main/java/org/ccsds/moims/mo/mal/impl/broker/SubscriptionKey.java:212-235 | 0 exactly for equal parts; an absent part sorts before a present one |
| SubscriptionKeys.NewSubscriptionKey | src/main/java/org/ccsds/moims/mo/mal/impl/broker/SubscriptionKey.java:44-98 | the loop builds the constructed domain; the flag is set exactly when a sub-domain segment is the wildcard; fields and keys come from the request |
| SubscriptionKeyProperties.RequestFieldMatches | src/main/java/org/ccsds/moims/mo/mal/impl/broker/SubscriptionKey.java:257-275 | a field built by getIdValueOrWildcard matches an update field exactly when the request asked for all, either side is the wildcard, or the update carries the identifier's own value (both absent included) |
| SubscriptionKeyProperties.FilterMatchesItsOwnKey | src/main/java/org/ccsds/moims/mo/mal/impl/broker/SubscriptionKey.java:44-98 | a filter built from a REGISTER request matches the update that carries the request's own domain literal, area, service, operation and four sub-keys |
| SubscriptionKeyProperties.AppendSegmentJoins | src/main/java/org/ccsds/moims/mo/mal/impl/broker/SubscriptionKey.java:70-75 | for non-empty segments and a segment other than the wildcard, appending the segment to a dot-joined domain is dot-joining one more segment |
| SubscriptionKeyProperties.ExtendDomainIsDotJoin | src/main/java/org/ccsds/moims/mo/mal/impl/broker/SubscriptionKey.java:55-86 | with no empty segments, the loop dot-joins the prefix with the non-wildcard segments, with no leading dot |
| SubscriptionKeyProperties.ConstructedDomainIsDotJoin | src/main/java/org/ccsds/moims/mo/mal/impl/broker/SubscriptionKey.java:48-89 | the domain literal is the header's segments and the non-wildcard sub-domain segments, dot-joined |
| SubscriptionKeyProperties.WildcardsAddNoText | src/main/java/org/ccsds/moims/mo/mal/impl/broker/SubscriptionKey.java:67-80 | a sub-domain of wildcards only leaves the domain as it is |
| SubscriptionKeyProperties.TrailingWildcardAddsNoText | src/main/java/org/ccsds/moims/mo/mal/impl/broker/SubscriptionKey.java:48-89 | a trailing wildcard segment does not change the domain literal |
| SubscriptionKeyProperties.MatchesImpliesLiteralPrefix | src/main/java/org/ccsds/moims/mo/mal/impl/broker/SubscriptionKey.java:170 | a match means the update's domain starts with the filter's domain as text |
| SubscriptionKeyProperties.MatchesLongerNeedsFlag | src/main/java/org/ccsds/moims/mo/mal/impl/broker/SubscriptionKey.java:174-177 | a longer update domain matches only a filter covering sub-domains |
| SubscriptionKeyProperties.FlagIrrelevantOnEqualDomain | src/main/java/org/ccsds/moims/mo/mal/impl/broker/SubscriptionKey.java:174-177 | on an equal domain the flag does not change the result |
| SubscriptionKeyProperties.FlagOnlyWidens | src/main/java/org/ccsds/moims/mo/mal/impl/broker/SubscriptionKey.java:168-210 | setting the flag never loses a match |
| SubscriptionKeyProperties.FieldMismatchFails | src/main/java/org/ccsds/moims/mo/mal/impl/broker/SubscriptionKey.java:168-210 | one field with two different non-wildcard values spoils the match |
| SubscriptionKeyProperties.MatchedSubkeySymmetric | src/main/java/org/ccsds/moims/mo/mal/impl/broker/SubscriptionKey.java:237-255 | matchedSubkey does not depend on the order of its arguments |
| SubscriptionKeyProperties.LiteralPrefixMatchesSiblingDomain | src/main/java/org/ccsds/moims/mo/mal/impl/broker/SubscriptionKey.java:170 | a filter on a.b covering sub-domains matches an update in a.bc |
| SubscriptionKeyProperties.SubdomainFlagDecidesDeeperUpdate | src/main/java/org/ccsds/moims/mo/mal/impl/broker/SubscriptionKey.java:168-210 | filter a.b, area X, rest wildcard, against update a.b.c, X, Y, Z, 1..4: a match exactly when the flag is set |
| SubscriptionKeyProperties.HashConsistentWithEquals | src/main/java/org/ccsds/moims/mo/mal/impl/broker/SubscriptionKey.java:100-140 | equal filters have equal hashCode |
| SubscriptionKeyProperties.EqualsIgnoresScope | src/main/java/org/ccsds/moims/mo/mal/impl/broker/SubscriptionKey.java:100-210 | two filters can be equal with equal hashCode, yet one matches an update the other does not |
| SubscriptionKeyProperties.CompareToZeroIffEquals | src/main/java/org/ccsds/moims/mo/mal/impl/broker/SubscriptionKey.java:142-161 | compareTo returns 0 exactly when equals holds |
| SubscriptionKeyProperties.CompareSubkeyAntisymmetric | src/main/java/org/ccsds/moims/mo/mal/impl/broker/SubscriptionKey.java:212-235 | swapping the parts negates compareSubkey |
| SubscriptionKeyProperties.CompareToAntisymmetric | src/main/java/org/ccsds/moims/mo/mal/impl/broker/SubscriptionKey.java:142-161 | swapping the filters negates compareTo |
| SubscriptionKeyProperties.NullSortsFirst | src/main/java/org/ccsds/moims/mo/mal/impl/broker/SubscriptionKey.java:212-235 | a filter without a first sub-key sorts before one with it |
| SubscriptionKeyProperties.CompareSubkeyTransitive | src/main/java/org/ccsds/moims/mo/mal/impl/broker/SubscriptionKey.java:212-235 | compareSubkey orders parts transitively |
| SubscriptionKeyProperties.CompareToIsLexicographic | src/main/java/org/ccsds/moims/mo/mal/impl/broker/SubscriptionKey.java:142-161 | compareTo is the lexicographic comparison of the four sub-keys |
| SubscriptionKeyProperties.LexicographicTransitive | src/main/java/org/ccsds/moims/mo/mal/impl/broker/SubscriptionKey.java:142-161 | lexicographic comparison of sub-key sequences is transitive |
| SubscriptionKeyProperties.CompareToTransitive | src/main/java/org/ccsds/moims/mo/mal/impl/broker/SubscriptionKey.java:142-161 | compareTo orders filters transitively |

## Left out

- `MALBrokerBindingTransportWrapper` only forwards, so it is not part of this model.
- `onInternalError` and `onTransmitError`: both log and then throw `UnsupportedOperationException`. They are not part of this model.
- Collaborator internals: the message sender, the interaction maps, the broker handler and the security manager are not part of this model.
  - Calls that act on the world or that the properties are about become `Action`s in the trace: transaction allocation, the provider handler, the consumer map's `handleStage`, the broker calls, the provider QoS query (`getProviderQoSLevel`), `returnResponse`, `returnError`, removing a destination's notify listeners (`getNotifyListenersAndRemove`), and the calls to publish and notify listeners.
  - Plain lookups are not recorded; only their answer is, as a field of the `Oracle`: `securityManager.check` (whether it passes or its fault), `brokerBindingMap.get`, `ipsmap.getPublishListener` and `ipsmap.getNotifyListener`.
  - The message that `securityManager.check` returns is taken to be the received message itself.
- Sending and bookkeeping: the model assumes that `returnResponse`, `returnError`, `ipmap.addTransactionSource` and the broker's `getProviderQoSLevel` do not throw. The `Oracle` gives the last two plain values: a transaction id and an optional QoS level.
- Concurrency: the model runs one call at a time. Concurrent calls to `onMessage`, `onMessages` or `registerProviderEndpoint` on the same instance, and their interleaving on the provider registry, are not modelled.
- Logging and `toString`: not modelled. This includes the diagnostic call to `ipsmap.listPublishListeners` when no publish listener is found, whose result is discarded.
- `SubscriptionKeys.SubscriptionKey.HashCode`, `EndPointPairs.EndPointPair.HashCode` and `JavaLang.StringHashCode`: they use unbounded integers, so 32-bit wrap-around is not modelled. The lemmas about them do not depend on it.
- The registry's `TreeMap` ordering: the registry is a map keyed by equality. So the effect of the non-antisymmetric `compareTo` on the tree's lookups is not modelled.
- `StructureHelper.domainToString` is not part of this model. It is taken to dot-join the header's domain segments (`SubscriptionKeys.DotJoin`).
- Sub-domain elements are modelled as strings. A null element (which Java would render as `"null"`) and a null update domain are left out.
- Strings are sequences of Dafny characters, not UTF-16 code units. `String.compareTo` is modelled on them exactly.
- The number of the BAD_ENCODING error is kept symbolic (`ErrorNumber.BadEncoding`). `MALHelper` is not part of this model.
- The `Identifier`, `UShort` and `MALService` wrappers become plain strings and integers. The two `EndPointPair` constructors become the pair itself, with `Some(number)` for a service and `None` for a null service.
- A null interaction service (`UShort`) in a message header: the header's service is a plain number. So the null dereference that `lookupAddress` would hit building its key from a null service is not modelled.
- The QoS properties and message bodies passed to the listeners, and the operation passed to `returnResponse`, are not part of the recorded actions.
- SubscriptionKeyProperties.ConstructedDomainIsDotJoin: assumes no segment is empty. With an empty segment, the loop's "no dot on an empty buffer" rule drops a dot that a plain dot-join would keep. `SubscriptionKeys.NewSubscriptionKey` itself is exact for every input.
- SubscriptionKeyProperties.ExtendDomainIsDotJoin: assumes no empty segments, for the same reason.
- SubscriptionKeyProperties.AppendSegmentJoins: assumes no segment is empty and the appended segment is not the wildcard. For segments `[""]` and segment `x`, the loop gives `x` where a plain dot-join gives `.x`; a wildcard adds no text at all.

## Findings

| source | as written | input that shows it | evidently intended | confidence | as-written member | corrected member |
|---|---|---|---|---|---|---|
| src/main/java/org/ccsds/moims/mo/mal/impl/MessageReceive.java:704-722 | at an equal name, a present service against an absent one compares as -1, and so does an absent one against a present one | `EndPointPair("ep", 3)` vs `EndPointPair("ep", null)`: compareTo is -1 both ways, so the `TreeMap` comparator is not antisymmetric | an absent service sorts first (1 for present vs absent), giving an antisymmetric order | high (not executed) | EndPointPairs.CompareToNotAntisymmetric | EndPointPairs.CompareToAbsentFirstAntisymmetric |
