/** The queue gateway: send, browse and drain on one queue, each in its own connection and session. */
module QueueGateway {
  import opened Wrappers
  import opened Jms
  import opened Session
  import opened Ordinals

  /** The client identifiers the three operations set on their connection. */
  const SendClientId := "SendQueueSample"
  const BrowseClientId := "BrowseQueueSample"
  const ConsumeClientId := "ConsumeQueueSample"

  /** The calls a browse makes before walking the enumeration: this time the connection is started. */
  function BrowsePlan(queue: string): seq<Step>
  {
    [CreateConnection, SetClientId(BrowseClientId), Start, CreateSession, CreateQueue(queue), CreateBrowser, GetEnumeration]
  }

  /** How many elements the walk reads before a `nextElement` throws (all of them when none throws). */
  function BrowseRead(st: BrokerState, faults: set<nat>, at: nat, queue: string): nat
  {
    FirstFault(faults, at + |BrowsePlan(queue)|, |Pending(st, FromQueue(queue))|)
  }

  /** The `nextElement` calls of the walk: one per element read, plus the one that threw. */
  function BrowseBody(st: BrokerState, faults: set<nat>, at: nat, queue: string): seq<Step>
  {
    var n := BrowseRead(st, faults, at, queue);
    Repeat(NextElement, if n < |Pending(st, FromQueue(queue))| then n + 1 else n)
  }

  /**
   * Browsing a queue: the elements read so far keyed "1", "2", ... (the map
   * filled before a fault is returned as it is), nothing when the set-up
   * failed; the broker is left as it was.
   */
  function BrowseRun(st: BrokerState, faults: set<nat>, at: nat, queue: string): Run<map<string, string>>
  {
    var plan := BrowsePlan(queue);
    var k := FirstFault(faults, at, |plan|);
    Run(Scoped(plan, k, BrowseBody(st, faults, at, queue), 3, None),
        if k == |plan| then Numbered(Pending(st, FromQueue(queue))[..BrowseRead(st, faults, at, queue)]) else map[],
        st)
  }

  /** The calls a drain makes before its first receive. */
  function DrainPlan(queue: string): seq<Step>
  {
    [CreateConnection, SetClientId(ConsumeClientId), Start, CreateSession, CreateQueue(queue), CreateConsumer]
  }

  /**
   * Draining a queue: receive until a receive yields null.  True iff the set-up
   * and every receive succeeded; the messages received before a fault stay
   * consumed; the consumer, session and connection are closed in that order.
   */
  function DrainRun(st: BrokerState, faults: set<nat>, at: nat, queue: string): Run<bool>
  {
    var plan := DrainPlan(queue);
    var k := FirstFault(faults, at, |plan|);
    var d := Drain(Pending(st, FromQueue(queue)), faults, at + |plan|);
    Run(Scoped(plan, k, Repeat(Receive, d.receives), 3, Some(5)),
        k == |plan| && d.completed,
        if k == |plan| then Dropped(st, FromQueue(queue), |d.got|) else st)
  }

  /** Where the walk stopped, as the elements read before the first `nextElement` that threw. */
  lemma WalkDone(trace: seq<Step>, t0: seq<Step>, faults: set<nat>, at: nat, st: BrokerState, queue: string,
                 n: nat, ok: bool)
    requires var msgs := Pending(st, FromQueue(queue));
      && Tried(trace, t0, faults, at + |BrowsePlan(queue)|, Repeat(NextElement, |msgs|), n, ok)
      && (ok ==> n == |msgs|)
    ensures trace == t0 + BrowseBody(st, faults, at, queue) && n == BrowseRead(st, faults, at, queue)
  {
    var msgs := Pending(st, FromQueue(queue));
    TriedDone(trace, t0, faults, at + |BrowsePlan(queue)|, Repeat(NextElement, |msgs|), n, ok);
    AttemptedRepeat(NextElement, |msgs|, n);
  }

  /** Browse and drain open with their own client id and call `start()` right before creating the session. */
  lemma QueuePlansOpen(queue: string)
    ensures OpensWith(BrowsePlan(queue), BrowseClientId, true) && OpensWith(DrainPlan(queue), ConsumeClientId, true)
  {
  }

  /** The browse and drain plans release nothing. */
  lemma QueuePlansNoReleases(queue: string)
    ensures NoReleases(BrowsePlan(queue)) && NoReleases(DrainPlan(queue))
  {
  }

  /**
   * A browse keys the first `n` pending messages of the queue, in order, by
   * "1" to "n"; it returns all of them when nothing threw, none when the
   * set-up failed or the queue is unknown, and never consumes anything.
   */
  lemma BrowseNumbers(st: BrokerState, faults: set<nat>, at: nat, queue: string)
    ensures var r := BrowseRun(st, faults, at, queue);
      var msgs := Pending(st, FromQueue(queue));
      && r.after == st
      && |r.result| <= |msgs|
      && r.result.Keys == (set i | 1 <= i <= |r.result| :: DecimalString(i))
      && (forall i :: 0 <= i < |r.result| ==> DecimalString(i + 1) in r.result && r.result[DecimalString(i + 1)] == msgs[i])
      && (FirstFault(faults, at, 7) < 7 || queue !in st.queues ==> r.result == map[])
      && ((forall p :: at <= p < at + 7 + |msgs| ==> p !in faults) ==> |r.result| == |msgs|)
  {
    var msgs := Pending(st, FromQueue(queue));
    var k := FirstFault(faults, at, 7);
    var n := BrowseRead(st, faults, at, queue);
    var got: seq<string> := if k == 7 then msgs[..n] else [];
    assert BrowseRun(st, faults, at, queue).result == Numbered(got);
    NumberedKeys(got);
    NumberedSize(got);
    forall i | 0 <= i < |got| ensures DecimalString(i + 1) in Numbered(got) && Numbered(got)[DecimalString(i + 1)] == msgs[i] {
      NumberedValue(got, i);
    }
  }

  /**
   * A browse's calls are clean exactly when its set-up succeeded and it read
   * every pending message; the first fault aborts everything but the releases.
   */
  lemma BrowseCleanIff(st: BrokerState, faults: set<nat>, at: nat, queue: string)
    ensures var r := BrowseRun(st, faults, at, queue);
      && (Clean(r.steps, faults, at) <==> FirstFault(faults, at, 7) == 7 && |r.result| == |Pending(st, FromQueue(queue))|)
      && AbortsAtFault(r.steps, faults, at)
  {
    var msgs := Pending(st, FromQueue(queue));
    BrowseBodyFacts(st, faults, at, queue);
    QueuePlansNoReleases(queue);
    ScopedFacts(BrowsePlan(queue), faults, at, BrowseBody(st, faults, at, queue), 3, None);
    if FirstFault(faults, at, 7) == 7 {
      NumberedSize(msgs[..BrowseRead(st, faults, at, queue)]);
    }
  }

  /** The walk makes no release, is clean exactly when it read every message, and stops at its first fault. */
  lemma BrowseBodyFacts(st: BrokerState, faults: set<nat>, at: nat, queue: string)
    ensures var body := BrowseBody(st, faults, at, queue);
      && NoReleases(body)
      && (Clean(body, faults, at + 7) <==> BrowseRead(st, faults, at, queue) == |Pending(st, FromQueue(queue))|)
      && AbortsAtFault(body, faults, at + 7)
  {
    RepeatedFacts(NextElement, |Pending(st, FromQueue(queue))|, faults, at + 7);
  }

  /** A browse sets client id "BrowseQueueSample" and starts the connection before creating the session. */
  lemma BrowseStarts(st: BrokerState, faults: set<nat>, at: nat, queue: string)
    ensures var r := BrowseRun(st, faults, at, queue);
      var k := FirstFault(faults, at, 7);
      && (k >= 1 ==> r.steps[1] == SetClientId(BrowseClientId))
      && (k >= 2 ==> r.steps[2] == Start)
      && (k >= 3 ==> r.steps[3] == CreateSession)
  {
    BrowseBodyFacts(st, faults, at, queue);
    QueuePlansNoReleases(queue);
    QueuePlansOpen(queue);
    ScopedShape(BrowseRun(st, faults, at, queue).steps, BrowsePlan(queue), FirstFault(faults, at, 7),
                BrowseBody(st, faults, at, queue), 3, None);
  }

  /**
   * A browse never creates a consumer to close, and closes session then
   * connection, last, exactly when it acquired them.
   */
  lemma BrowseReleases(st: BrokerState, faults: set<nat>, at: nat, queue: string)
    ensures var r := BrowseRun(st, faults, at, queue);
      var k := FirstFault(faults, at, 7);
      ClosesExactly(r.steps, false, k > 3, k > 0)
  {
    var k := FirstFault(faults, at, 7);
    var none: Option<nat> := None;
    assert !Held(none, k);
    BrowseBodyFacts(st, faults, at, queue);
    QueuePlansNoReleases(queue);
    ScopedReleases(BrowsePlan(queue), k, BrowseBody(st, faults, at, queue), 3, none);
  }

  /**
   * A drain succeeds exactly when none of its set-up calls and receives
   * threw; the first fault aborts everything but the releases.
   */
  lemma DrainResult(st: BrokerState, faults: set<nat>, at: nat, queue: string)
    ensures var r := DrainRun(st, faults, at, queue);
      && (r.result <==> forall p :: at <= p < at + 6 + |Pending(st, FromQueue(queue))| + 1 ==> p !in faults)
      && (r.result <==> Clean(r.steps, faults, at))
      && AbortsAtFault(r.steps, faults, at)
  {
    var msgs := Pending(st, FromQueue(queue));
    var d := Drain(msgs, faults, at + 6);
    DrainSpec(msgs, faults, at + 6);
    DrainFacts(msgs, faults, at + 6);
    QueuePlansNoReleases(queue);
    ScopedFacts(DrainPlan(queue), faults, at, Repeat(Receive, d.receives), 3, Some(5));
  }

  /**
   * After a successful drain the queue is empty; after a failed one what was
   * received before the fault stays consumed (nothing, when the set-up
   * failed).  No other queue or subscription changes.
   */
  lemma DrainEmpties(st: BrokerState, faults: set<nat>, at: nat, queue: string)
    ensures var r := DrainRun(st, faults, at, queue);
      var q := FromQueue(queue);
      var msgs := Pending(st, q);
      && (r.result ==> Pending(r.after, q) == [])
      && (FirstFault(faults, at, 6) < 6 ==> r.after == st)
      && Pending(r.after, q) == msgs[|msgs| - |Pending(r.after, q)|..]
      && (forall other :: other != q ==> Pending(r.after, other) == Pending(st, other))
  {
    var q := FromQueue(queue);
    var msgs := Pending(st, q);
    var d := Drain(msgs, faults, at + 6);
    DrainSpec(msgs, faults, at + 6);
    DroppedElsewhere(st, q, |d.got|);
  }

  /** A drain sets client id "ConsumeQueueSample" and starts the connection before creating the session. */
  lemma DrainStarts(st: BrokerState, faults: set<nat>, at: nat, queue: string)
    ensures var r := DrainRun(st, faults, at, queue);
      var k := FirstFault(faults, at, 6);
      && (k >= 1 ==> r.steps[1] == SetClientId(ConsumeClientId))
      && (k >= 2 ==> r.steps[2] == Start)
      && (k >= 3 ==> r.steps[3] == CreateSession)
  {
    var d := Drain(Pending(st, FromQueue(queue)), faults, at + 6);
    RepeatNoReleases(Receive, d.receives);
    QueuePlansNoReleases(queue);
    QueuePlansOpen(queue);
    ScopedShape(DrainRun(st, faults, at, queue).steps, DrainPlan(queue), FirstFault(faults, at, 6),
                Repeat(Receive, d.receives), 3, Some(5));
  }

  /** A drain closes consumer, session and connection, last and in that order, each exactly when it was acquired. */
  lemma DrainReleases(st: BrokerState, faults: set<nat>, at: nat, queue: string)
    ensures var r := DrainRun(st, faults, at, queue);
      var k := FirstFault(faults, at, 6);
      ClosesExactly(r.steps, k > 5, k > 3, k > 0)
  {
    var k := FirstFault(faults, at, 6);
    var consumer: Option<nat> := Some(5);
    assert Held(consumer, k) == (k > 5);
    var d := Drain(Pending(st, FromQueue(queue)), faults, at + 6);
    RepeatNoReleases(Receive, d.receives);
    QueuePlansNoReleases(queue);
    ScopedReleases(DrainPlan(queue), k, Repeat(Receive, d.receives), 3, consumer);
  }

  /** After a drain that answered true, the next browse of the queue returns no message, whatever throws. */
  lemma DrainThenBrowse(st: BrokerState, faults: set<nat>, at: nat, faults': set<nat>, at': nat, queue: string)
    requires DrainRun(st, faults, at, queue).result
    ensures BrowseRun(DrainRun(st, faults, at, queue).after, faults', at', queue).result == map[]
  {
    var after := DrainRun(st, faults, at, queue).after;
    DrainEmpties(st, faults, at, queue);
    BrowseNumbers(after, faults', at', queue);
    var m := BrowseRun(after, faults', at', queue).result;
    assert |m| == 0;
  }

  /** A browse that nothing interrupts returns the single pending message under key "1". */
  lemma BrowseSingle(st: BrokerState, at: nat, queue: string, message: string)
    requires queue in st.queues && Pending(st, FromQueue(queue)) == [message]
    ensures BrowseRun(st, {}, at, queue).result == map["1" := message]
    ensures BrowseRun(st, {}, at, queue).after == st
  {
    var m := BrowseRun(st, {}, at, queue).result;
    BrowseNumbers(st, {}, at, queue);
    FirstOrdinals();
    assert (set i | 1 <= i <= 1 :: DecimalString(i)) == {DecimalString(1)};
    assert m.Keys == {"1"} && m["1"] == message;
  }

  /** A drain that nothing interrupts answers true. */
  lemma DrainClean(st: BrokerState, at: nat, queue: string)
    ensures DrainRun(st, {}, at, queue).result
  {
    DrainResult(st, {}, at, queue);
  }

  /**
   * With no call throwing, a message sent to an empty queue is browsed back
   * under key "1", without being consumed; a drain then answers true and
   * the next browse finds nothing.
   */
  lemma SendBrowseDrainBrowse(st: BrokerState, queue: string, message: string, a1: nat, a2: nat, a3: nat, a4: nat)
    requires Pending(st, FromQueue(queue)) == []
    ensures var sent := SendRun(st, {}, a1, SendClientId, Queue(queue), message);
      var browsed := BrowseRun(sent.after, {}, a2, queue);
      var drained := DrainRun(browsed.after, {}, a3, queue);
      && sent.result
      && browsed.result == map["1" := message]
      && drained.result
      && BrowseRun(drained.after, {}, a4, queue).result == map[]
  {
    var sent := SendRun(st, {}, a1, SendClientId, Queue(queue), message);
    SendSucceedsIff(st, {}, a1, SendClientId, Queue(queue), message);
    DeliverSpec(st, Queue(queue), message);
    BrowseSingle(sent.after, a2, queue, message);
    var browsed := BrowseRun(sent.after, {}, a2, queue);
    DrainClean(browsed.after, a3, queue);
    DrainThenBrowse(browsed.after, {}, a3, {}, a4, queue);
  }

  class QueueService {
    const broker: Broker

    constructor (broker: Broker)
      ensures this.broker == broker
    {
      this.broker := broker;
    }

    /** Sends `message` to queue `queue`; true iff every call up to the send succeeded. */
    method SendMessageTo(queue: string, message: string) returns (ok: bool)
      requires broker.Valid()
      modifies broker
      ensures broker.Valid()
      ensures broker.Performed(old(broker.trace),
        SendRun(old(broker.State()), broker.faults, |old(broker.trace)|, SendClientId, Queue(queue), message), ok)
    {
      ok := SendText(broker, SendClientId, Queue(queue), message);
    }

    /** Browses queue `queue` without consuming it: its messages keyed by their position, counted from 1. */
    method BrowseMessagesFrom(queue: string) returns (messages: map<string, string>)
      requires broker.Valid()
      modifies broker
      ensures broker.Valid()
      ensures broker.Performed(old(broker.trace), BrowseRun(old(broker.State()), broker.faults, |old(broker.trace)|, queue), messages)
    {
      ghost var t0, at, st0 := broker.trace, broker.calls, broker.State();
      ghost var body := BrowseBody(st0, broker.faults, at, queue);
      messages := map[];
      var ok, connection, session, enumeration, k := BrowseSetUp(queue);
      ghost var ran := broker.trace;
      if ok {
        messages := Walk(enumeration, st0, at, queue);
      } else {
        assert ran + [] == ran;
      }
      ran := broker.trace;
      Finally(broker, false, session, connection);
      ScopedTrace(broker.trace, t0, BrowsePlan(queue), k, body, 3, None, ran, if k == 7 then body else []);
    }

    /** The set-up of the browse: connection, client id, start, session, queue, browser, enumeration. */
    method BrowseSetUp(queue: string)
      returns (ok: bool, connection: bool, session: bool, enumeration: Option<seq<string>>, ghost k: nat)
      requires broker.Valid()
      modifies broker
      ensures broker.Valid() && broker.State() == old(broker.State())
      ensures k == FirstFault(broker.faults, |old(broker.trace)|, 7) && (ok <==> k == 7)
      ensures broker.trace == old(broker.trace) + Attempted(BrowsePlan(queue), k)
      ensures connection <==> k > 0
      ensures session <==> k > 3
      ensures ok ==> enumeration == Enumeration(old(broker.State()), queue)
    {
      ghost var t0, at, plan := broker.trace, broker.calls, BrowsePlan(queue);
      assert plan[..0] == [] && t0 + [] == t0;
      ok, connection, session, k := Open(broker, BrowseClientId, true, t0, at, plan);
      ok, k := Try(broker, CreateQueue(queue), ok, t0, at, plan, 4, k);
      ok, k := Try(broker, CreateBrowser, ok, t0, at, plan, 5, k);
      enumeration := None;
      if ok {
        ghost var before := broker.trace;
        ok, enumeration := broker.GetEnumeration(queue);
        TryNext(before, broker.trace, t0, broker.faults, at, plan, k);
        if ok { k := k + 1; }
      }
      TriedDone(broker.trace, t0, broker.faults, at, plan, k, ok);
    }

    /**
     * The `while (messages != null && messages.hasMoreElements())` loop: each
     * element read is put under the decimal string of the counter `elements`,
     * which starts at 1; a `nextElement` that throws ends the walk.
     */
    method Walk(enumeration: Option<seq<string>>, ghost st: BrokerState, ghost at: nat, ghost queue: string)
      returns (messages: map<string, string>)
      requires broker.Valid() && broker.calls == at + |BrowsePlan(queue)| && enumeration == Enumeration(st, queue)
      modifies broker
      ensures broker.Valid() && broker.State() == old(broker.State())
      ensures broker.trace == old(broker.trace) + BrowseBody(st, broker.faults, at, queue)
      ensures messages == Numbered(Pending(st, FromQueue(queue))[..BrowseRead(st, broker.faults, at, queue)])
    {
      messages := map[];
      ghost var t0, from := broker.trace, broker.calls;
      ghost var msgs := Pending(st, FromQueue(queue));
      ghost var plan := Repeat(NextElement, |msgs|);
      assert plan[..0] == [] && t0 + [] == t0;
      var snapshot := if enumeration.Some? then enumeration.value else [];
      assert snapshot == msgs;
      var elements := 1;
      var ok := true;
      while ok && elements <= |snapshot|
        invariant broker.Valid() && broker.State() == old(broker.State())
        invariant 1 <= elements <= |msgs| + 1
        invariant messages == Numbered(msgs[..elements - 1])
        invariant Tried(broker.trace, t0, broker.faults, from, plan, elements - 1, ok)
        decreases |msgs| + 1 - elements, if ok then 1 else 0
      {
        ghost var k;
        ok, k := Try(broker, NextElement, ok, t0, from, plan, elements - 1, elements - 1);
        if ok {
          NumberedSnoc(msgs, elements - 1);
          messages := messages[DecimalString(elements) := snapshot[elements - 1]];
          elements := elements + 1;
        }
      }
      WalkDone(broker.trace, t0, broker.faults, at, st, queue, elements - 1, ok);
    }

    /** Consumes every message of queue `queue`; true iff nothing threw before the queue was found empty. */
    method RemoveMessagesFrom(queue: string) returns (ok: bool)
      requires broker.Valid()
      modifies broker
      ensures broker.Valid()
      ensures broker.Performed(old(broker.trace), DrainRun(old(broker.State()), broker.faults, |old(broker.trace)|, queue), ok)
    {
      ghost var t0, at, st0 := broker.trace, broker.calls, broker.State();
      ghost var d := Drain(Pending(st0, FromQueue(queue)), broker.faults, at + 6);
      ghost var body := Repeat(Receive, d.receives);
      var connection, session, consumer;
      ghost var k;
      ok, connection, session, consumer, k := DrainSetUp(queue);
      ghost var ran := broker.trace;
      if ok {
        ok := ReceiveAll(broker, FromQueue(queue));
      } else {
        assert ran + [] == ran;
      }
      ran := broker.trace;
      Finally(broker, consumer, session, connection);
      ScopedTrace(broker.trace, t0, DrainPlan(queue), k, body, 3, Some(5), ran, if k == 6 then body else []);
    }

    /** The set-up of the drain: connection, client id, start, session, queue, consumer. */
    method DrainSetUp(queue: string) returns (ok: bool, connection: bool, session: bool, consumer: bool, ghost k: nat)
      requires broker.Valid()
      modifies broker
      ensures broker.Valid() && broker.State() == old(broker.State())
      ensures k == FirstFault(broker.faults, |old(broker.trace)|, 6) && (ok <==> k == 6)
      ensures broker.trace == old(broker.trace) + Attempted(DrainPlan(queue), k)
      ensures connection <==> k > 0
      ensures session <==> k > 3
      ensures consumer <==> k > 5
    {
      ghost var t0, at, plan := broker.trace, broker.calls, DrainPlan(queue);
      assert plan[..0] == [] && t0 + [] == t0;
      ok, connection, session, k := Open(broker, ConsumeClientId, true, t0, at, plan);
      ok, k := Try(broker, CreateQueue(queue), ok, t0, at, plan, 4, k);
      ok, k := Try(broker, CreateConsumer, ok, t0, at, plan, 5, k);
      consumer := ok;
      TriedDone(broker.trace, t0, broker.faults, at, plan, k, ok);
    }
  }
}
