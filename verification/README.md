# JMS toolkit core, modelled in Dafny

This is a model of the service core of the JMS REST toolkit, a web application. The toolkit lets a user
send text messages to, browse, and purge five configured ActiveMQ destinations: two queues and
three topics. The REST controllers, Spring configuration and bootstrap code are not modelled.
The model covers:

- **The resource directory** (`Resources`, in `resources.dfy`).
  - It holds the five resources as (type, code, name), with type "Q" for a queue and "T" for a
    topic.
  - Looking up a code gives the first resource with that code. A null or unknown code finds
    nothing.
  - It builds the code-to-name map that the resource listing returns.
- **The broker and its driver** (`Jms`, in `jms.dfy`).
  - The JMS driver is reduced to the calls the services make. Each call is one `Step` recorded in
    a ghost trace.
  - An injected set `faults` holds the positions of the calls that throw.
  - The broker holds one message sequence per queue and per durable subscription:
    - a send to a topic appends the message to every durable subscription of that topic;
    - a `receive` pops the oldest message, or yields null once nothing is pending.
- **The shape shared by every operation** (`Session`, in `session.dfy`).
  - An operation runs acquisition calls inside a `try` until the first one that throws. The rest
    of the `try` block is skipped.
  - A `finally` block then closes the consumer, the session and the connection, in that order.
    It closes only the handles that were acquired and swallows anything a close throws.
  - Receive loops and the send of one text message are built on this shape.
- **The queue gateway** (`QueueGateway`, in `queue_service.dfy`).
  - Send.
  - A non-destructive browse through a queue browser. It returns the elements it read, keyed
    "1", "2", and so on.
  - A drain that receives until the queue yields null.
- **The topic gateway** (`TopicGateway`, in `topic_service.dfy`).
  - Start-up creates three durable subscribers for each topic and records each one it created in
    a registry (subscriber name → topic code).
  - Send.
  - A destructive browse that reads through the topic's own durable subscriber.
  - A purge that drains every registered subscriber of the topic.
- **The three dispatch services** (`Common`, in `common_services.dfy`).
  - Each looks the code up and calls the queue gateway when the resource's type is "Q", and the
    topic gateway otherwise.
  - A null or unknown code gives `false`, or an empty map, without touching the broker.

**How each operation is stated.** Each operation has two parts:

- a specification function that returns a `Run`: the calls it makes, its result and the broker
  state after it;
- a method, on the classes `QueueService`, `TopicService`, `SendService`, `BrowseService` and
  `PurgeService`, whose contract says it performed exactly that run.

The properties of the operations are lemmas about these functions. They cover:

- when the result is true;
- what is delivered, kept or consumed;
- that the first fault aborts everything but the releases;
- that exactly the acquired handles are closed, last, in order;
- that browse keys are the numerals 1 to n;
- that the subscriber registry stays backed by the broker.

**In these details the model follows the code:**

- The message producer and the queue browser are never closed. Only consumer, session and
  connection are closed (`QueueService.java:61-64`, `:105-108`; `TopicService.java:119-123`).
- The topic purge closes each subscriber's consumer inside the loop, only after its drain reached
  null (`TopicService.java:209`). A subscriber whose drain throws is not closed.
- A subscriber is added to the registry only when its creation succeeded
  (`TopicService.java:79`).
- A topic purge with no registered subscriber for the topic answers true once its set-up succeeded
  (`TopicService.java:198-212`).
- The browse dispatcher passes the code it was given, not the resource's code
  (`BrowseService.java:44-46`). After a successful lookup the two are equal.

## Model

Paths are relative to the repository root.

| member | source | states |
|---|---|---|
| Resources.FindByCode | src/main/java/com/example/jms/enums/ResourcesEnum.java:64-72 | nothing is found iff no resource has the code; otherwise the result is the first resource carrying that code |
| Resources.ResourceByCode | src/main/java/com/example/jms/enums/ResourcesEnum.java:64-72 | a null code finds nothing |
| Resources.CodesDistinct | src/main/java/com/example/jms/enums/ResourcesEnum.java:10-14 | the five configured codes are pairwise distinct |
| Resources.ResourceByCodeRoundTrip | src/main/java/com/example/jms/enums/ResourcesEnum.java:64-69 | every configured resource is found by its own code |
| Resources.ResourceByCodeFinds | src/main/java/com/example/jms/enums/ResourcesEnum.java:64-72 | a lookup finds something iff the code is non-null and some resource has it; what it finds is a configured resource with that code |
| Resources.ResourceKinds | src/main/java/com/example/jms/enums/ResourcesEnum.java:10-17 | every tag is "Q" or "T"; exactly QUEUE_001 and QUEUE_002 are queues |
| Resources.NameMapKeys | src/main/java/com/example/jms/service/common/ResourceService.java:25-27 | the map filled by the loop has the resources' codes as keys |
| Resources.NameMapValue | src/main/java/com/example/jms/service/common/ResourceService.java:25-27 | with distinct codes, each resource's code is bound to its own name |
| Resources.NameMapSize | src/main/java/com/example/jms/service/common/ResourceService.java:25-27 | with distinct codes, the map has one entry per resource |
| Resources.NameMapSpec | src/main/java/com/example/jms/service/common/ResourceService.java:22-30 | keys, values and size of the code-to-name map together |
| Resources.GetConfiguredResources | src/main/java/com/example/jms/service/common/ResourceService.java:22-30 | the loop returns a map whose keys are the five codes, each bound to its resource's name, with five entries |
| Ordinals.DecimalString | src/main/java/com/example/jms/service/queue/QueueService.java:96 | the key of a counter is a non-empty string of decimal digits, longer than one digit iff the counter is at least 10 |
| Ordinals.DecimalRoundTrip | src/main/java/com/example/jms/service/queue/QueueService.java:96 | reading a key back as a number gives the counter it was made from |
| Ordinals.DecimalInjective | src/main/java/com/example/jms/service/topic/TopicService.java:159 | distinct counters give distinct keys, so no browsed message overwrites another |
| Ordinals.NumberedKeys | src/main/java/com/example/jms/service/queue/QueueService.java:88-99 | the keys of n browsed messages are exactly "1" to "n" |
| Ordinals.NumberedValue | src/main/java/com/example/jms/service/topic/TopicService.java:155-164 | the key of counter i+1 holds the i-th message received |
| Ordinals.NumberedSize | src/main/java/com/example/jms/service/topic/TopicService.java:155-164 | n messages give n entries |
| Ordinals.FirstOrdinals | src/main/java/com/example/jms/service/queue/QueueService.java:88-96 | the first keys are "1", "2", and "10" for the tenth message |
| Jms.DeliverSpec | src/main/java/com/example/jms/service/topic/TopicService.java:105-109 | a sent message is appended to its queue (created if absent), or to every durable subscription of its topic, and nowhere else |
| Jms.Dropped | src/main/java/com/example/jms/service/queue/QueueService.java:134-138 | receiving n messages leaves the source holding what followed them |
| Jms.DroppedElsewhere | src/main/java/com/example/jms/service/queue/QueueService.java:134-138 | receiving from one source changes no other source, name or subscription topic |
| Jms.SubscribeSpec | src/main/java/com/example/jms/service/topic/TopicService.java:77 | after createDurableSubscriber the subscription exists on the topic; an existing one on that topic keeps its messages; nothing else changes |
| Jms.Enumeration | src/main/java/com/example/jms/service/queue/QueueService.java:91-93 | the browser's enumeration is null iff the broker has no record of the queue, and otherwise holds the queue's messages |
| Jms.Broker.Send | src/main/java/com/example/jms/service/queue/QueueService.java:56 | a send that does not throw delivers the message; one that throws changes nothing |
| Jms.Broker.Receive | src/main/java/com/example/jms/service/queue/QueueService.java:134 | a receive that does not throw pops the oldest pending message, or yields null when none is pending |
| Jms.Broker.CreateDurableSubscriber | src/main/java/com/example/jms/service/topic/TopicService.java:149 | on success the named subscription exists on the topic |
| Jms.Broker.GetEnumeration | src/main/java/com/example/jms/service/queue/QueueService.java:91 | the browser takes a snapshot and consumes nothing |
| Session.FirstFault | src/main/java/com/example/jms/service/queue/QueueService.java:50-57 | the number of calls before the first that throws: those calls did not throw, and the next one did |
| Session.Finally | src/main/java/com/example/jms/service/queue/QueueService.java:156-186 | the finally block closes consumer, session and connection, only those acquired, whatever the closes throw, and changes no message |
| Session.ReleasesClose | src/main/java/com/example/jms/service/topic/TopicService.java:227-258 | each handle is closed exactly when it was acquired |
| Session.ScopedFacts | src/main/java/com/example/jms/service/queue/QueueService.java:126-147 | an operation's calls are clean iff its set-up and its body were; after a call that throws only releases follow |
| Session.ScopedReleases | src/main/java/com/example/jms/service/queue/QueueService.java:144-147 | an operation ends with the releases of exactly the handles it acquired, in order consumer, session, connection |
| Session.DrainSpec | src/main/java/com/example/jms/service/queue/QueueService.java:134-138 | a receive loop gets the pending messages in order; it completes iff none of its receives throws, and then it got all of them |
| Session.SendSucceedsIff | src/main/java/com/example/jms/service/queue/QueueService.java:48-60 | a send is true iff none of its seven calls throws; then the message is delivered once, otherwise the broker is untouched |
| Session.SendAborts | src/main/java/com/example/jms/service/queue/QueueService.java:48-60 | no call of a send is made after the first that throws |
| Session.SendReleases | src/main/java/com/example/jms/service/queue/QueueService.java:61-64 | a send never calls start and closes session and connection, last, exactly when acquired |
| Session.SendIgnoresReleaseFaults | src/main/java/com/example/jms/service/queue/QueueService.java:61-64 | faults thrown by closes do not change a send's calls, result or effect |
| Session.SendText | src/main/java/com/example/jms/service/topic/TopicService.java:95-124 | the method performs exactly the send run: its calls, its result and the broker after it |
| Session.ReceiveAll | src/main/java/com/example/jms/service/queue/QueueService.java:134-138 | the receive loop makes the drain's receives, is true iff it stopped at a null, and consumes what it received |
| QueueGateway.BrowseNumbers | src/main/java/com/example/jms/service/queue/QueueService.java:73-110 | a browse keys the first n messages of the queue, in order, by "1" to "n"; all of them when nothing throws; none when the set-up fails or the queue is unknown; the broker is unchanged |
| QueueGateway.BrowseCleanIff | src/main/java/com/example/jms/service/queue/QueueService.java:73-104 | a browse is fault-free iff its set-up succeeded and it read every message; the first fault aborts the rest |
| QueueGateway.BrowseStarts | src/main/java/com/example/jms/service/queue/QueueService.java:80-84 | once the connection exists a browse sets client id "BrowseQueueSample"; it then starts the connection before creating the session |
| QueueGateway.BrowseReleases | src/main/java/com/example/jms/service/queue/QueueService.java:105-108 | a browse closes session then connection, last, exactly when acquired, and no consumer |
| QueueGateway.DrainResult | src/main/java/com/example/jms/service/queue/QueueService.java:118-143 | a drain is true iff none of its set-up calls and receives throws; the first fault aborts the rest |
| QueueGateway.DrainEmpties | src/main/java/com/example/jms/service/queue/QueueService.java:133-140 | a true drain leaves the queue empty; a failed one leaves a suffix of it; a failed set-up changes nothing; nothing else changes |
| QueueGateway.DrainStarts | src/main/java/com/example/jms/service/queue/QueueService.java:125-129 | once the connection exists a drain sets client id "ConsumeQueueSample"; it then starts the connection before creating the session |
| QueueGateway.DrainReleases | src/main/java/com/example/jms/service/queue/QueueService.java:144-147 | a drain closes consumer, session and connection, last and in order, each exactly when acquired |
| QueueGateway.DrainThenBrowse | src/main/java/com/example/jms/service/queue/QueueService.java:118-140 | after a drain that answered true, the next browse of the queue returns no message, whatever throws |
| QueueGateway.BrowseSingle | src/main/java/com/example/jms/service/queue/QueueService.java:88-101 | a browse with no fault over a queue holding one message returns it under key "1" and changes nothing |
| QueueGateway.SendBrowseDrainBrowse | src/main/java/com/example/jms/service/queue/QueueService.java:43-150 | with no fault, a message sent to an empty queue is browsed back as {"1": message} and stays queued; the drain then answers true and the next browse returns nothing |
| QueueGateway.QueueService.SendMessageTo | src/main/java/com/example/jms/service/queue/QueueService.java:43-66 | the method performs exactly the send run to the queue with client id "SendQueueSample" |
| QueueGateway.QueueService.BrowseMessagesFrom | src/main/java/com/example/jms/service/queue/QueueService.java:73-110 | the method performs exactly the browse run |
| QueueGateway.QueueService.Walk | src/main/java/com/example/jms/service/queue/QueueService.java:93-99 | the enumeration loop returns the elements read, keyed by the counter from 1, and stops at the first nextElement that throws |
| QueueGateway.QueueService.RemoveMessagesFrom | src/main/java/com/example/jms/service/queue/QueueService.java:118-150 | the method performs exactly the drain run |
| TopicGateway.InitBacked | src/main/java/com/example/jms/service/topic/TopicService.java:52-87 | after start-up every registered subscriber exists on the broker on the topic it is registered under; no queue changes |
| TopicGateway.InitRegistersTopics | src/main/java/com/example/jms/service/topic/TopicService.java:52-60 | start-up only adds registry entries, each one of the three subscriber names of a topic resource, mapped to that topic's code |
| TopicGateway.InitRegistersAll | src/main/java/com/example/jms/service/topic/TopicService.java:52-60 | when none of its calls throws, start-up registers all three subscribers of every topic resource |
| TopicGateway.RegisterAdds | src/main/java/com/example/jms/service/topic/TopicService.java:72-81 | one creation binds its own name to its own topic exactly when none of its five calls throws, and otherwise leaves the registry as it was |
| TopicGateway.RegisterCarriesOn | src/main/java/com/example/jms/service/topic/TopicService.java:52-60 | start-up carries on after a creation that threw: a later creation whose own calls succeed subscribes and registers its name whatever happened before |
| TopicGateway.RegisterReleases | src/main/java/com/example/jms/service/topic/TopicService.java:67-87 | a creation stops at its first fault and closes consumer, session and connection, last and in order, each exactly when acquired |
| TopicGateway.InitBrowseNamesOwnTopic | src/main/java/com/example/jms/service/topic/TopicService.java:52-60 | over resources whose codes all have one length, start-up from an empty registry binds a browse subscriber's name only to its own topic |
| TopicGateway.InitKeepsBrowseNames | src/main/java/com/example/jms/service/topic/TopicService.java:37-60 | the registry start-up builds from empty never binds the browse subscriber of a configured code to another topic |
| TopicGateway.BrowseNumbers | src/main/java/com/example/jms/service/topic/TopicService.java:131-176 | a browse keys the first n messages pending on the browse subscriber, in order, by "1" to "n"; all of them when nothing throws, none when the set-up fails |
| TopicGateway.BrowseConsumes | src/main/java/com/example/jms/service/topic/TopicService.java:149-164 | the subscriber then holds exactly the messages after those returned; a failed set-up changes nothing; no other source or queue changes |
| TopicGateway.BrowseEmpties | src/main/java/com/example/jms/service/topic/TopicService.java:157-164 | after a fault-free browse the browse subscriber holds nothing |
| TopicGateway.BrowseCleanIff | src/main/java/com/example/jms/service/topic/TopicService.java:131-169 | a browse is fault-free iff its set-up and every receive succeeded; the first fault aborts the rest |
| TopicGateway.BrowseIsDestructive | src/main/java/com/example/jms/service/topic/TopicService.java:149-164 | a fault-free browse leaves nothing: the next browse returns no message, whatever throws |
| TopicGateway.BrowseStarts | src/main/java/com/example/jms/service/topic/TopicService.java:140-143 | once the connection exists a browse sets the topic code as client id; it then starts the connection before creating the session |
| TopicGateway.BrowseReleases | src/main/java/com/example/jms/service/topic/TopicService.java:170-175 | a browse closes subscriber, session and connection, last and in order, each exactly when acquired |
| TopicGateway.SendReachesRegistry | src/main/java/com/example/jms/service/topic/TopicService.java:95-124 | a true topic send appends the message to every subscriber registered for that topic and to no other; the registry stays backed |
| TopicGateway.BrowseKeepsRegistry | src/main/java/com/example/jms/service/topic/TopicService.java:149 | a browse keeps the registry backed by the broker |
| TopicGateway.SweepOneFacts | src/main/java/com/example/jms/service/topic/TopicService.java:202-209 | one subscriber's drain is fault-free iff it completed, and it closes its consumer exactly then |
| TopicGateway.SweepFacts | src/main/java/com/example/jms/service/topic/TopicService.java:198-211 | the sweep is fault-free iff it completed, stops at its first fault, and closes no session or connection |
| TopicGateway.PurgeResult | src/main/java/com/example/jms/service/topic/TopicService.java:184-215 | a purge is true iff none of its calls other than releases threw; the first fault aborts the rest |
| TopicGateway.PurgeNothing | src/main/java/com/example/jms/service/topic/TopicService.java:198-212 | with no subscriber to sweep, a purge is true iff its set-up succeeded, and it changes nothing |
| TopicGateway.PurgeEmpties | src/main/java/com/example/jms/service/topic/TopicService.java:198-212 | a true purge leaves every swept subscriber empty; a failed set-up changes nothing; unswept subscribers and all queues are untouched |
| TopicGateway.PurgeKeepsRegistry | src/main/java/com/example/jms/service/topic/TopicService.java:198-211 | a purge that sweeps only subscribers registered for the topic keeps the registry backed |
| TopicGateway.PurgeReleases | src/main/java/com/example/jms/service/topic/TopicService.java:216-220 | a purge closes session then connection, last, exactly when acquired; a failed set-up closes no subscriber |
| TopicGateway.TopicService.InitTopicSubscribers | src/main/java/com/example/jms/service/topic/TopicService.java:52-60 | the method performs exactly the start-up run over the five resources and leaves the registry it fills |
| TopicGateway.TopicService.CreateTopicSubscriber | src/main/java/com/example/jms/service/topic/TopicService.java:67-87 | the method performs exactly one registration: its calls, the subscription and the registry entry on success |
| TopicGateway.TopicService.SendMessageTo | src/main/java/com/example/jms/service/topic/TopicService.java:95-124 | the method performs exactly the send run to the topic, with the topic code as client id |
| TopicGateway.TopicService.BrowseMessagesFrom | src/main/java/com/example/jms/service/topic/TopicService.java:131-176 | the method performs exactly the browse run |
| TopicGateway.TopicService.Collect | src/main/java/com/example/jms/service/topic/TopicService.java:150-164 | the receive loop returns the received messages keyed by the counter from 1 and consumes them |
| TopicGateway.TopicService.RemoveMessagesBySubscriberFrom | src/main/java/com/example/jms/service/topic/TopicService.java:184-221 | the method performs exactly the purge run over a sweep order; when true, that order covers every subscriber registered for the topic |
| TopicGateway.TopicService.SweepSubscribers | src/main/java/com/example/jms/service/topic/TopicService.java:198-211 | the key loop drains the registered subscribers of the topic, each once, and all of them when it is true |
| TopicGateway.TopicService.DrainSubscriber | src/main/java/com/example/jms/service/topic/TopicService.java:202-209 | one subscriber is opened, drained until null and closed; a call that throws ends it unclosed |
| Common.SendDispatch | src/main/java/com/example/jms/service/common/SendService.java:34-52 | a null or unknown code makes no call and answers false; otherwise true iff none of the seven calls throws, and then the message is delivered once, to that resource's queue or topic |
| Common.BrowseDispatch | src/main/java/com/example/jms/service/common/BrowseService.java:36-54 | a null or unknown code makes no call and gives an empty map; keys are "1" to "n"; a queue browse changes nothing; a topic browse changes only its subscriber |
| Common.PurgeDispatch | src/main/java/com/example/jms/service/common/PurgeService.java:33-51 | a null or unknown code makes no call and answers false; true means no call threw and the queue, or every registered subscriber of the topic, is empty; nothing else changes |
| Common.SendService.SendMessageTo | src/main/java/com/example/jms/service/common/SendService.java:34-52 | the method performs exactly the dispatched send |
| Common.BrowseService.GetMessagesFrom | src/main/java/com/example/jms/service/common/BrowseService.java:36-54 | the method performs exactly the dispatched browse |
| Common.PurgeService.PurgeMessages | src/main/java/com/example/jms/service/common/PurgeService.java:33-51 | the method performs exactly the dispatched purge; for a topic its sweep order lists registered subscribers of the topic, all of them when true |

## Left out

- Logging: every `LOGGER` call is dropped.
- The real JMS driver and ActiveMQ are replaced by the `Jms.Broker` model. Acknowledgement modes,
  transactions and the commit of a durable subscription when its session closes are not modelled.
  A subscription exists as soon as `createDurableSubscriber` succeeds.
- The broker ignores client identifiers. Durable subscriptions are keyed by subscriber name
  alone.
- The 5000 ms receive timeout is not modelled. A receive yields null exactly when nothing is
  pending, and no message arrives concurrently.
- Concurrency: the services run one operation at a time on one broker.
- `hasMoreElements`, `nextElement` and `getText` of one browsed element are one driver step. A
  fault in any of them ends the walk at that element.
- The cast of received messages to `TextMessage` is not modelled. Every message is a text body.
- The `int` counter `elements` is unbounded. Its wrap-around after 2^31 messages is not
  modelled.
- Closing a null handle fails inside the close helper, which swallows the exception. It is
  modelled as no driver call.
- The order in which `subscribers.keySet()` yields the keys of the `HashMap` is not modelled.
  The purge methods return it as a ghost `order`, constrained only to list the matching keys,
  each once.
- TopicGateway.BrowseKeepsRegistry: it needs an extra assumption. The browse subscriber's name
  must not be registered under another topic, since a browse re-subscribes that name to its own
  topic. `TopicGateway.InitKeepsBrowseNames` proves that the registry start-up builds satisfies
  this.
- The controllers, `JmsLocalConfig`, `ServletInitializer` and `JmsToolkitWebApplication` are not
  part of this model.
