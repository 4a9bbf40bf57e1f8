/**
 * The three services the REST layer calls with a resource code: each looks
 * the code up in the resource directory and hands the work to the queue
 * gateway when the resource's type is "Q", to the topic gateway for any other
 * type, and answers false (or an empty map) without touching the broker when
 * the code is null or unknown.
 */
module Common {
  import opened Wrappers
  import opened Jms
  import opened Session
  import opened Ordinals
  import opened Resources
  import QueueGateway
  import TopicGateway

  /** Where a send to a configured resource goes: its queue for type "Q", its topic otherwise. */
  function Target(r: Resource): Destination
  {
    if r.kind == QueueType then Queue(r.code) else Topic(r.code)
  }

  /** `SendService.sendMessageTo`: the run of the gateway the resource's type selects, or nothing at all. */
  function SendOutcome(st: BrokerState, faults: set<nat>, at: nat, code: Option<string>, message: string): Run<bool>
  {
    match ResourceByCode(code)
    case None => Run([], false, st)
    case Some(r) =>
      if r.kind == QueueType then SendRun(st, faults, at, QueueGateway.SendClientId, Queue(r.code), message)
      else SendRun(st, faults, at, r.code, Topic(r.code), message)
  }

  /** `BrowseService.getMessagesFrom`: the gateway browse of the code as given, or an empty map. */
  function BrowseOutcome(st: BrokerState, faults: set<nat>, at: nat, code: Option<string>): Run<map<string, string>>
  {
    match ResourceByCode(code)
    case None => Run([], map[], st)
    case Some(r) =>
      if r.kind == QueueType then QueueGateway.BrowseRun(st, faults, at, code.value)
      else TopicGateway.BrowseRun(st, faults, at, code.value)
  }

  /**
   * `PurgeService.purgeMessages`: the queue drain or, for a topic, the sweep
   * of its registered subscribers in the registry's iteration order `order`.
   */
  function PurgeOutcome(st: BrokerState, faults: set<nat>, at: nat, code: Option<string>, order: seq<string>): Run<bool>
  {
    match ResourceByCode(code)
    case None => Run([], false, st)
    case Some(r) =>
      if r.kind == QueueType then QueueGateway.DrainRun(st, faults, at, r.code)
      else TopicGateway.PurgeRun(st, faults, at, r.code, order)
  }

  /**
   * A send succeeds exactly when the code names a configured resource and
   * none of the seven calls of the send throws; then the message is delivered
   * once, to that resource's queue or topic, and otherwise the broker is
   * untouched.  A null or unknown code makes no call at all.
   */
  lemma SendDispatch(st: BrokerState, faults: set<nat>, at: nat, code: Option<string>, message: string)
    ensures var r := SendOutcome(st, faults, at, code, message);
      var found := ResourceByCode(code);
      && (found.None? ==> r.steps == [] && !r.result && r.after == st)
      && (r.result <==> found.Some? && forall p :: at <= p < at + 7 ==> p !in faults)
      && (r.result ==> r.after == Deliver(st, Target(found.value), message) && Target(found.value).name == code.value)
      && (!r.result ==> r.after == st)
  {
    ResourceByCodeFinds(code);
    match ResourceByCode(code)
    case None =>
    case Some(res) =>
      if res.kind == QueueType {
        SendSucceedsIff(st, faults, at, QueueGateway.SendClientId, Queue(res.code), message);
      } else {
        SendSucceedsIff(st, faults, at, res.code, Topic(res.code), message);
      }
  }

  /**
   * A browse of a null or unknown code makes no call and returns an empty map;
   * otherwise its keys are "1" to "n".  Browsing a queue never changes the
   * broker; browsing a topic changes only the topic's browse subscriber.
   */
  lemma BrowseDispatch(st: BrokerState, faults: set<nat>, at: nat, code: Option<string>)
    ensures var r := BrowseOutcome(st, faults, at, code);
      var found := ResourceByCode(code);
      && (found.None? ==> r.steps == [] && r.result == map[] && r.after == st)
      && r.result.Keys == (set i | 1 <= i <= |r.result| :: DecimalString(i))
      && (found.Some? && found.value.kind == QueueType ==> r.after == st)
      && (found.Some? && found.value.kind != QueueType ==>
            forall other :: other != FromSubscription(TopicGateway.BrowseSubscriber(code.value)) ==>
              Pending(r.after, other) == Pending(st, other))
  {
    NumberedKeys([]);
    match ResourceByCode(code)
    case None =>
    case Some(res) =>
      if res.kind == QueueType {
        QueueGateway.BrowseNumbers(st, faults, at, code.value);
      } else {
        TopicGateway.BrowseNumbers(st, faults, at, code.value);
        TopicGateway.BrowseConsumes(st, faults, at, code.value);
      }
  }

  /**
   * A purge of a null or unknown code makes no call and answers false.  A
   * purge that answers true made only calls that succeeded; it left a queue
   * empty, or every subscriber registered for a topic empty once the sweep
   * order covers the registry.  A queue purge touches no other source and a
   * topic purge touches no queue.
   */
  lemma PurgeDispatch(st: BrokerState, faults: set<nat>, at: nat, code: Option<string>, order: seq<string>,
                      subscribers: map<string, string>)
    ensures var r := PurgeOutcome(st, faults, at, code, order);
      var found := ResourceByCode(code);
      && (found.None? ==> r.steps == [] && !r.result && r.after == st)
      && (r.result ==> found.Some? && Clean(r.steps, faults, at))
      && (found.Some? && found.value.kind == QueueType ==>
            && (r.result ==> Pending(r.after, FromQueue(code.value)) == [])
            && forall other :: other != FromQueue(code.value) ==> Pending(r.after, other) == Pending(st, other))
      && (found.Some? && found.value.kind != QueueType ==>
            && r.after.queues == st.queues
            && (r.result && TopicGateway.SweepOrder(order, subscribers, code.value, true) ==>
                  forall n :: n in subscribers && subscribers[n] == code.value ==> TopicGateway.Emptied(r.after, n, code.value)))
  {
    ResourceByCodeFinds(code);
    match ResourceByCode(code)
    case None =>
    case Some(res) =>
      if res.kind == QueueType {
        QueueGateway.DrainResult(st, faults, at, res.code);
        QueueGateway.DrainEmpties(st, faults, at, res.code);
      } else {
        TopicGateway.PurgeResult(st, faults, at, res.code, order);
        TopicGateway.PurgeEmpties(st, faults, at, res.code, order);
        var r := PurgeOutcome(st, faults, at, code, order);
        if r.result && TopicGateway.SweepOrder(order, subscribers, res.code, true) {
          forall n | n in subscribers && subscribers[n] == res.code
            ensures TopicGateway.Emptied(r.after, n, res.code)
          {
            var i :| 0 <= i < |order| && order[i] == n;
          }
        }
      }
  }

  class SendService {
    const queueService: QueueGateway.QueueService
    const topicService: TopicGateway.TopicService

    constructor (queueService: QueueGateway.QueueService, topicService: TopicGateway.TopicService)
      ensures this.queueService == queueService && this.topicService == topicService
    {
      this.queueService := queueService;
      this.topicService := topicService;
    }

    /** Sends `message` to the resource with code `code`; false for a null or unknown code. */
    method SendMessageTo(code: Option<string>, message: string) returns (ok: bool)
      requires queueService.broker == topicService.broker && queueService.broker.Valid()
      modifies queueService.broker
      ensures queueService.broker.Valid()
      ensures queueService.broker.Performed(old(queueService.broker.trace),
        SendOutcome(old(queueService.broker.State()), queueService.broker.faults, |old(queueService.broker.trace)|, code, message), ok)
    {
      var resource := ResourceByCode(code);
      match resource
      case None =>
        ok := false;
        assert queueService.broker.trace == queueService.broker.trace + [];
      case Some(r) =>
        if r.kind == QueueType {
          ok := queueService.SendMessageTo(r.code, message);
        } else {
          ok := topicService.SendMessageTo(r.code, message);
        }
    }
  }

  class BrowseService {
    const queueService: QueueGateway.QueueService
    const topicService: TopicGateway.TopicService

    constructor (queueService: QueueGateway.QueueService, topicService: TopicGateway.TopicService)
      ensures this.queueService == queueService && this.topicService == topicService
    {
      this.queueService := queueService;
      this.topicService := topicService;
    }

    /** The messages of the resource with code `code`, keyed "1", "2", ...; empty for a null or unknown code. */
    method GetMessagesFrom(code: Option<string>) returns (messages: map<string, string>)
      requires queueService.broker == topicService.broker && queueService.broker.Valid()
      modifies queueService.broker
      ensures queueService.broker.Valid()
      ensures queueService.broker.Performed(old(queueService.broker.trace),
        BrowseOutcome(old(queueService.broker.State()), queueService.broker.faults, |old(queueService.broker.trace)|, code), messages)
    {
      var resource := ResourceByCode(code);
      match resource
      case None =>
        messages := map[];
        assert queueService.broker.trace == queueService.broker.trace + [];
      case Some(r) =>
        if r.kind == QueueType {
          messages := queueService.BrowseMessagesFrom(code.value);
        } else {
          messages := topicService.BrowseMessagesFrom(code.value);
        }
    }
  }

  class PurgeService {
    const queueService: QueueGateway.QueueService
    const topicService: TopicGateway.TopicService

    constructor (queueService: QueueGateway.QueueService, topicService: TopicGateway.TopicService)
      ensures this.queueService == queueService && this.topicService == topicService
    {
      this.queueService := queueService;
      this.topicService := topicService;
    }

    /**
     * Purges the resource with code `code`; false for a null or unknown code.
     * For a topic, `order` is the order in which the registry was swept.
     */
    method PurgeMessages(code: Option<string>) returns (ok: bool, ghost order: seq<string>)
      requires queueService.broker == topicService.broker && queueService.broker.Valid()
      modifies queueService.broker
      ensures queueService.broker.Valid()
      ensures queueService.broker.Performed(old(queueService.broker.trace),
        PurgeOutcome(old(queueService.broker.State()), queueService.broker.faults, |old(queueService.broker.trace)|, code, order), ok)
      ensures ResourceByCode(code).Some? && ResourceByCode(code).value.kind != QueueType ==>
        TopicGateway.SweepOrder(order, topicService.subscribers, code.value, ok)
    {
      order := [];
      ResourceByCodeFinds(code);
      var resource := ResourceByCode(code);
      match resource
      case None =>
        ok := false;
        assert queueService.broker.trace == queueService.broker.trace + [];
      case Some(r) =>
        if r.kind == QueueType {
          ok := queueService.RemoveMessagesFrom(r.code);
        } else {
          ok, order := topicService.RemoveMessagesBySubscriberFrom(r.code);
        }
    }
  }
}
