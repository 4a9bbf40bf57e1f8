/**
 * An abstract JMS driver and broker.
 *
 * The driver is reduced to the calls the services make (one `Step` each), an
 * injected set of call positions that throw, and a broker holding one finite
 * message sequence per queue and per durable subscription.  A receive pops the
 * head of its sequence and yields null (`None`) once the sequence is empty.
 */
module Jms {
  import opened Wrappers

  /** Where a producer sends. */
  datatype Destination = Queue(name: string) | Topic(name: string)

  /** Where a consumer receives from: a queue, or a named durable subscription. */
  datatype Source = FromQueue(queue: string) | FromSubscription(subscriber: string)

  /** One call into the driver, as recorded in the trace. */
  datatype Step =
    | CreateConnection
    | SetClientId(id: string)
    | Start
    | CreateSession
    | CreateQueue(queue: string)
    | CreateTopic(topic: string)
    | CreateProducer
    | CreateBrowser
    | GetEnumeration
    | NextElement
    | CreateConsumer
    | CreateDurableSubscriber(subscriber: string)
    | CreateTextMessage(body: string)
    | SendMessage
    | Receive
    | CloseConsumer
    | CloseSession
    | CloseConnection
  {
    /** The three closes, whose faults the services swallow. */
    predicate IsRelease() {
      CloseConsumer? || CloseSession? || CloseConnection?
    }
  }

  /** A durable subscription: the topic it listens to and the messages not yet received. */
  datatype Subscription = Subscription(topic: string, pending: seq<string>)

  datatype BrokerState = BrokerState(
    queues: map<string, seq<string>>,
    subscriptions: map<string, Subscription>)

  /** The messages a consumer on `src` would receive, oldest first. */
  function Pending(st: BrokerState, src: Source): seq<string>
  {
    match src
    case FromQueue(q) => if q in st.queues then st.queues[q] else []
    case FromSubscription(s) => if s in st.subscriptions then st.subscriptions[s].pending else []
  }

  /** Delivery of a sent text message: appended to the queue, or to every durable subscription of the topic. */
  function Deliver(st: BrokerState, dest: Destination, body: string): BrokerState
  {
    match dest
    case Queue(q) =>
      st.(queues := st.queues[q := Pending(st, FromQueue(q)) + [body]])
    case Topic(t) =>
      st.(subscriptions := map s | s in st.subscriptions ::
        var sub := st.subscriptions[s];
        if sub.topic == t then sub.(pending := sub.pending + [body]) else sub)
  }

  /**
   * A message sent to a queue is appended to that queue (created when absent)
   * and to nothing else; one sent to a topic is appended to every durable
   * subscription of that topic and to nothing else.
   */
  lemma DeliverSpec(st: BrokerState, dest: Destination, body: string)
    ensures var st' := Deliver(st, dest, body);
      && (dest.Queue? ==>
        && st'.subscriptions == st.subscriptions
        && st'.queues.Keys == st.queues.Keys + {dest.name}
        && Pending(st', FromQueue(dest.name)) == Pending(st, FromQueue(dest.name)) + [body]
        && forall q :: q in st.queues && q != dest.name ==> st'.queues[q] == st.queues[q])
      && (dest.Topic? ==>
        && st'.queues == st.queues
        && st'.subscriptions.Keys == st.subscriptions.Keys
        && forall s :: s in st.subscriptions ==>
             && st'.subscriptions[s].topic == st.subscriptions[s].topic
             && st'.subscriptions[s].pending ==
                  if st.subscriptions[s].topic == dest.name
                  then st.subscriptions[s].pending + [body]
                  else st.subscriptions[s].pending)
  {
  }

  /** The broker after the first `n` pending messages of `src` were received. */
  function Dropped(st: BrokerState, src: Source, n: nat): (st': BrokerState)
    requires n <= |Pending(st, src)|
    ensures Pending(st', src) == Pending(st, src)[n..]
  {
    if n == 0 then st
    else match src
      case FromQueue(q) =>
        st.(queues := st.queues[q := st.queues[q][n..]])
      case FromSubscription(s) =>
        st.(subscriptions := st.subscriptions[s := st.subscriptions[s].(pending := st.subscriptions[s].pending[n..])])
  }

  /** Receiving from one source leaves every other source, every name and every subscription's topic as they were. */
  lemma DroppedElsewhere(st: BrokerState, src: Source, n: nat)
    requires n <= |Pending(st, src)|
    ensures var st' := Dropped(st, src, n);
      && (forall other :: other != src ==> Pending(st', other) == Pending(st, other))
      && st'.queues.Keys == st.queues.Keys && st'.subscriptions.Keys == st.subscriptions.Keys
      && forall s :: s in st.subscriptions ==> st'.subscriptions[s].topic == st.subscriptions[s].topic
  {
  }

  /** Receiving one more message after `n` is receiving `n + 1`. */
  lemma DroppedOnce(st: BrokerState, src: Source, n: nat)
    requires n < |Pending(st, src)|
    ensures Dropped(Dropped(st, src, n), src, 1) == Dropped(st, src, n + 1)
  {
    match src
    case FromQueue(q) =>
      assert st.queues[q][n..][1..] == st.queues[q][n + 1..];
    case FromSubscription(name) =>
      assert st.subscriptions[name].pending[n..][1..] == st.subscriptions[name].pending[n + 1..];
  }

  /**
   * A durable subscriber `name` opened on `topic`: the existing subscription is
   * reused when it already listens to that topic, otherwise it starts empty.
   */
  function Subscribe(st: BrokerState, topic: string, name: string): BrokerState
  {
    if name in st.subscriptions && st.subscriptions[name].topic == topic then st
    else st.(subscriptions := st.subscriptions[name := Subscription(topic, [])])
  }

  /**
   * Afterwards the subscription exists on `topic`; one that already listened to
   * it keeps its pending messages; nothing else changes.
   */
  lemma SubscribeSpec(st: BrokerState, topic: string, name: string)
    ensures var st' := Subscribe(st, topic, name);
      && st'.queues == st.queues
      && st'.subscriptions.Keys == st.subscriptions.Keys + {name}
      && st'.subscriptions[name].topic == topic
      && (name in st.subscriptions && st.subscriptions[name].topic == topic ==> st' == st)
      && (name !in st.subscriptions || st.subscriptions[name].topic != topic ==> st'.subscriptions[name].pending == [])
      && forall s :: s in st.subscriptions && s != name ==> st'.subscriptions[s] == st.subscriptions[s]
  {
  }

  /** A queue browser's enumeration: null when the broker has no record of the queue. */
  function Enumeration(st: BrokerState, queue: string): (e: Option<seq<string>>)
    ensures e.Some? <==> queue in st.queues
    ensures e.Some? ==> e.value == Pending(st, FromQueue(queue))
  {
    if queue in st.queues then Some(st.queues[queue]) else None
  }

  /** The outcome of one service operation: the driver calls it made, its result, the broker after it. */
  datatype Run<R> = Run(steps: seq<Step>, result: R, after: BrokerState)

  /**
   * The broker behind the connection factory.  `faults` holds the positions
   * (0-based, counted over the whole trace) of the driver calls that throw.
   */
  class Broker {
    var queues: map<string, seq<string>>
    var subscriptions: map<string, Subscription>
    const faults: set<nat>
    var calls: nat
    ghost var trace: seq<Step>

    ghost predicate Valid()
      reads this
    {
      calls == |trace|
    }

    function State(): BrokerState
      reads this
    {
      BrokerState(queues, subscriptions)
    }

    /** The operation run from trace `t0` made exactly the calls, result and state of `run`. */
    ghost predicate Performed<R>(t0: seq<Step>, run: Run<R>, result: R)
      reads this
    {
      trace == t0 + run.steps && State() == run.after && result == run.result
    }

    constructor (st: BrokerState, faults: set<nat>)
      ensures Valid() && trace == []
      ensures State() == st && this.faults == faults
    {
      queues, subscriptions := st.queues, st.subscriptions;
      this.faults := faults;
      calls := 0;
      trace := [];
    }

    /** A call with no effect on the broker's messages (creations, start, closes, enumeration steps). */
    method Call(s: Step) returns (ok: bool)
      requires Valid()
      modifies this
      ensures Valid() && trace == old(trace) + [s]
      ensures ok <==> |old(trace)| !in faults
      ensures State() == old(State())
    {
      ok := calls !in faults;
      calls := calls + 1;
      trace := trace + [s];
    }

    /** `producer.send(message)`: on success the message is delivered to `dest`. */
    method Send(dest: Destination, body: string) returns (ok: bool)
      requires Valid()
      modifies this
      ensures Valid() && trace == old(trace) + [SendMessage]
      ensures ok <==> |old(trace)| !in faults
      ensures State() == if ok then Deliver(old(State()), dest, body) else old(State())
    {
      ok := calls !in faults;
      calls := calls + 1;
      trace := trace + [SendMessage];
      if ok {
        var st := Deliver(State(), dest, body);
        queues, subscriptions := st.queues, st.subscriptions;
      }
    }

    /** `consumer.receive(timeout)`: the oldest pending message, or null when none is pending. */
    method Receive(src: Source) returns (ok: bool, msg: Option<string>)
      requires Valid()
      modifies this
      ensures Valid() && trace == old(trace) + [Step.Receive]
      ensures ok <==> |old(trace)| !in faults
      ensures !ok ==> msg == None && State() == old(State())
      ensures ok && Pending(old(State()), src) == [] ==> msg == None && State() == old(State())
      ensures ok && Pending(old(State()), src) != [] ==>
        msg == Some(Pending(old(State()), src)[0]) && State() == Dropped(old(State()), src, 1)
    {
      ok := calls !in faults;
      calls := calls + 1;
      trace := trace + [Step.Receive];
      msg := None;
      if ok {
        var pending := Pending(State(), src);
        if pending != [] {
          msg := Some(pending[0]);
          var st := Dropped(State(), src, 1);
          queues, subscriptions := st.queues, st.subscriptions;
        }
      }
    }

    /** `session.createDurableSubscriber(topic, name)`: on success the subscription exists. */
    method CreateDurableSubscriber(topic: string, name: string) returns (ok: bool)
      requires Valid()
      modifies this
      ensures Valid() && trace == old(trace) + [Step.CreateDurableSubscriber(name)]
      ensures ok <==> |old(trace)| !in faults
      ensures State() == if ok then Subscribe(old(State()), topic, name) else old(State())
    {
      ok := calls !in faults;
      calls := calls + 1;
      trace := trace + [Step.CreateDurableSubscriber(name)];
      if ok {
        var st := Subscribe(State(), topic, name);
        queues, subscriptions := st.queues, st.subscriptions;
      }
    }

    /** `browser.getEnumeration()`: a snapshot of the queue, which the browse does not consume. */
    method GetEnumeration(queue: string) returns (ok: bool, e: Option<seq<string>>)
      requires Valid()
      modifies this
      ensures Valid() && trace == old(trace) + [Step.GetEnumeration]
      ensures ok <==> |old(trace)| !in faults
      ensures ok ==> e == Enumeration(old(State()), queue)
      ensures State() == old(State())
    {
      ok := calls !in faults;
      calls := calls + 1;
      trace := trace + [Step.GetEnumeration];
      e := if ok then Enumeration(State(), queue) else None;
    }
  }
}
