/**
 * The topic gateway: durable subscribers registered at start-up, send to a
 * topic, a destructive browse through the topic's own durable subscriber, and
 * a purge that drains every registered subscriber of a topic.  The client id
 * of every connection is the topic code itself.
 */
module TopicGateway {
  import opened Wrappers
  import opened Jms
  import opened Session
  import opened Ordinals
  import opened Resources

  /** The prefix of every durable subscriber name. */
  const SubscriberPrefix := "theSubscriber"

  /** The subscriber a browse reads through. */
  function BrowseSubscriber(code: string): string
  {
    SubscriberPrefix + code
  }

  /** The three subscribers the start-up creates for a topic: the browse subscriber and two more. */
  function InitSubscriberNames(code: string): seq<string>
  {
    [SubscriberPrefix + code, SubscriberPrefix + code + "_1", SubscriberPrefix + code + "_2"]
  }

  // ---------------------------------------------------------------- start-up

  /** The calls that create one durable subscriber; the connection is not started. */
  function SubscriberPlan(code: string, name: string): seq<Step>
  {
    [CreateConnection, SetClientId(code), CreateSession, CreateTopic(code), CreateDurableSubscriber(name)]
  }

  /** The calls made so far by the start-up, the broker after them and the registry they filled. */
  datatype Setup = Setup(steps: seq<Step>, after: BrokerState, subscribers: map<string, string>)

  /**
   * `createTopicSubscriber(code, name)` with its first call at position `at`:
   * the registry gains `name -> code` exactly when the subscriber was
   * created; consumer, session and connection are closed when acquired.
   */
  function Register(st: BrokerState, subscribers: map<string, string>, faults: set<nat>, at: nat,
                    code: string, name: string): Setup
  {
    var plan := SubscriberPlan(code, name);
    var k := FirstFault(faults, at, |plan|);
    Setup(Scoped(plan, k, [], 2, Some(4)),
          if k == |plan| then Subscribe(st, code, name) else st,
          if k == |plan| then subscribers[name := code] else subscribers)
  }

  /** One more registration after the start-up progress `s`, which began at position `at`. */
  function Then(s: Setup, faults: set<nat>, at: nat, code: string, name: string): Setup
  {
    var one := Register(s.after, s.subscribers, faults, at + |s.steps|, code, name);
    Setup(s.steps + one.steps, one.after, one.subscribers)
  }

  /** The three registrations of a topic resource. */
  function RegisterTopic(s: Setup, faults: set<nat>, at: nat, code: string): Setup
  {
    var names := InitSubscriberNames(code);
    Then(Then(Then(s, faults, at, code, names[0]), faults, at, code, names[1]), faults, at, code, names[2])
  }

  /** The start-up's step for one resource: three registrations for a topic, none for a queue. */
  function InitStep(s: Setup, faults: set<nat>, at: nat, r: Resource): Setup
  {
    if r.kind == TopicType then RegisterTopic(s, faults, at, r.code) else s
  }

  /** `initTopicSubscribers` over the resources `rs`, in order. */
  function InitRun(st: BrokerState, subscribers: map<string, string>, faults: set<nat>, at: nat,
                   rs: seq<Resource>): Setup
  {
    if rs == [] then Setup([], st, subscribers)
    else InitStep(InitRun(st, subscribers, faults, at, rs[..|rs| - 1]), faults, at, rs[|rs| - 1])
  }

  /** The start-up over one more resource. */
  lemma InitRunNext(st: BrokerState, subscribers: map<string, string>, faults: set<nat>, at: nat, rs: seq<Resource>, i: nat)
    requires i < |rs|
    ensures InitRun(st, subscribers, faults, at, rs[..i + 1]) == InitStep(InitRun(st, subscribers, faults, at, rs[..i]), faults, at, rs[i])
  {
    assert rs[..i + 1][..i] == rs[..i];
  }

  /** The calls of one more registration, appended after those of `s`, are the calls of `Then`. */
  lemma ThenTrace(trace: seq<Step>, t0: seq<Step>, s: Setup, faults: set<nat>, at: nat, code: string, name: string)
    requires trace == t0 + s.steps + Register(s.after, s.subscribers, faults, at + |s.steps|, code, name).steps
    ensures trace == t0 + Then(s, faults, at, code, name).steps
  {
    AppendAssoc(t0, s.steps, Register(s.after, s.subscribers, faults, at + |s.steps|, code, name).steps);
  }

  /** Every registered subscriber exists on the broker and listens to the topic it is registered under. */
  predicate Backed(subscribers: map<string, string>, st: BrokerState)
  {
    forall n :: n in subscribers ==> n in st.subscriptions && st.subscriptions[n].topic == subscribers[n]
  }

  /** A registration keeps the registry backed by the broker's subscriptions and leaves the queues alone. */
  lemma RegisterBacked(s: Setup, faults: set<nat>, at: nat, code: string, name: string)
    requires Backed(s.subscribers, s.after)
    ensures var s' := Then(s, faults, at, code, name);
      Backed(s'.subscribers, s'.after) && s'.after.queues == s.after.queues
  {
    SubscribeSpec(s.after, code, name);
  }

  /**
   * A registration binds its own name to its own topic exactly when none of
   * its five calls throws, and otherwise leaves the registry as it was.
   */
  lemma RegisterAdds(s: Setup, faults: set<nat>, at: nat, code: string, name: string)
    ensures var s' := Then(s, faults, at, code, name);
      s'.subscribers == if forall p :: at + |s.steps| <= p < at + |s.steps| + 5 ==> p !in faults
                        then s.subscribers[name := code] else s.subscribers
  {
    var k := FirstFault(faults, at + |s.steps|, 5);
    if k < 5 {
      assert at + |s.steps| + k in faults;
    }
  }

  /**
   * An earlier registration that threw does not stop a later one: when its
   * own five calls succeed, the subscriber exists on the topic and is
   * registered under it, whatever happened before.
   */
  lemma RegisterCarriesOn(s: Setup, faults: set<nat>, at: nat, code: string, name: string)
    requires forall p :: at + |s.steps| <= p < at + |s.steps| + 5 ==> p !in faults
    ensures var s' := Then(s, faults, at, code, name);
      && name in s'.subscribers && s'.subscribers[name] == code
      && s'.after == Subscribe(s.after, code, name)
  {
    RegisterAdds(s, faults, at, code, name);
  }

  /**
   * A registration stops at its first fault, and closes consumer, session and
   * connection, last and in that order, each exactly when it was acquired.
   */
  lemma RegisterReleases(st: BrokerState, subscribers: map<string, string>, faults: set<nat>, at: nat,
                         code: string, name: string)
    ensures var r := Register(st, subscribers, faults, at, code, name);
      var k := FirstFault(faults, at, 5);
      && (Clean(r.steps, faults, at) <==> k == 5)
      && AbortsAtFault(r.steps, faults, at)
      && ClosesExactly(r.steps, k > 4, k > 2, k > 0)
  {
    var plan := SubscriberPlan(code, name);
    var k := FirstFault(faults, at, 5);
    var consumer: Option<nat> := Some(4);
    assert Held(consumer, k) == (k > 4);
    assert NoReleases(plan) && NoReleases([]);
    ScopedFacts(plan, faults, at, [], 2, consumer);
    ScopedReleases(plan, k, [], 2, consumer);
  }

  /**
   * The start-up keeps the registry backed by the broker: every name it
   * registers has a durable subscription on the topic it is registered under.
   */
  lemma {:induction false} InitBacked(st: BrokerState, subscribers: map<string, string>, faults: set<nat>, at: nat,
                                      rs: seq<Resource>)
    requires Backed(subscribers, st)
    ensures var s := InitRun(st, subscribers, faults, at, rs);
      Backed(s.subscribers, s.after) && s.after.queues == st.queues
  {
    if rs != [] {
      var s := InitRun(st, subscribers, faults, at, rs[..|rs| - 1]);
      InitBacked(st, subscribers, faults, at, rs[..|rs| - 1]);
      var r := rs[|rs| - 1];
      if r.kind == TopicType {
        var names := InitSubscriberNames(r.code);
        var s1 := Then(s, faults, at, r.code, names[0]);
        var s2 := Then(s1, faults, at, r.code, names[1]);
        RegisterBacked(s, faults, at, r.code, names[0]);
        RegisterBacked(s1, faults, at, r.code, names[1]);
        RegisterBacked(s2, faults, at, r.code, names[2]);
      }
    }
  }

  /** A registry entry the start-up added or changed was registered for a topic resource, under that topic's code. */
  predicate RegisteredFor(n: string, code: string, rs: seq<Resource>)
  {
    exists i :: 0 <= i < |rs| && rs[i].kind == TopicType && rs[i].code == code && n in InitSubscriberNames(code)
  }

  /** Every entry of `after` that differs from `before` was registered for a topic resource of `rs`. */
  predicate OnlyTopicEntries(before: map<string, string>, after: map<string, string>, rs: seq<Resource>)
  {
    && before.Keys <= after.Keys
    && forall n :: n in after && (n !in before || after[n] != before[n]) ==> RegisteredFor(n, after[n], rs)
  }

  /** An entry registered for one of the first resources is registered for the whole sequence. */
  lemma EntriesWiden(before: map<string, string>, after: map<string, string>, rs: seq<Resource>)
    requires rs != [] && OnlyTopicEntries(before, after, rs[..|rs| - 1])
    ensures OnlyTopicEntries(before, after, rs)
  {
    var rs' := rs[..|rs| - 1];
    forall n, c | RegisteredFor(n, c, rs') ensures RegisteredFor(n, c, rs) {
      var i :| 0 <= i < |rs'| && rs'[i].kind == TopicType && rs'[i].code == c && n in InitSubscriberNames(c);
      assert rs[i] == rs'[i];
    }
  }

  /** Binding a name registered for a topic resource to that topic keeps the entries accounted for. */
  lemma EntriesAdd(before: map<string, string>, mid: map<string, string>, after: map<string, string>,
                   rs: seq<Resource>, name: string, code: string)
    requires OnlyTopicEntries(before, mid, rs) && RegisteredFor(name, code, rs)
    requires after == mid || after == mid[name := code]
    ensures OnlyTopicEntries(before, after, rs)
  {
  }

  /**
   * The start-up only adds entries: every entry it adds or changes is one of
   * the three subscriber names of a topic resource, mapped to that topic's code;
   * queue resources register nothing.
   */
  lemma {:induction false} InitRegistersTopics(st: BrokerState, subscribers: map<string, string>, faults: set<nat>, at: nat,
                                               rs: seq<Resource>)
    ensures OnlyTopicEntries(subscribers, InitRun(st, subscribers, faults, at, rs).subscribers, rs)
  {
    if rs != [] {
      var rs' := rs[..|rs| - 1];
      var s := InitRun(st, subscribers, faults, at, rs');
      InitRegistersTopics(st, subscribers, faults, at, rs');
      EntriesWiden(subscribers, s.subscribers, rs);
      var r := rs[|rs| - 1];
      if r.kind == TopicType {
        var names := InitSubscriberNames(r.code);
        assert RegisteredFor(names[0], r.code, rs) && RegisteredFor(names[1], r.code, rs)
          && RegisteredFor(names[2], r.code, rs) by {
          assert rs[|rs| - 1] == r;
        }
        var s1 := Then(s, faults, at, r.code, names[0]);
        var s2 := Then(s1, faults, at, r.code, names[1]);
        var s3 := Then(s2, faults, at, r.code, names[2]);
        RegisterAdds(s, faults, at, r.code, names[0]);
        EntriesAdd(subscribers, s.subscribers, s1.subscribers, rs, names[0], r.code);
        RegisterAdds(s1, faults, at, r.code, names[1]);
        EntriesAdd(subscribers, s1.subscribers, s2.subscribers, rs, names[1], r.code);
        RegisterAdds(s2, faults, at, r.code, names[2]);
        EntriesAdd(subscribers, s2.subscribers, s3.subscribers, rs, names[2], r.code);
      }
    }
  }

  /** Names that share a prefix are equal only when their suffixes are. */
  lemma SuffixEqual(prefix: string, a: string, b: string)
    requires prefix + a == prefix + b
    ensures a == b
  {
    assert a == (prefix + a)[|prefix|..];
    assert b == (prefix + b)[|prefix|..];
  }

  /**
   * Over resources whose codes all have the length of `code`, start-up from
   * an empty registry binds the browse subscriber of `code`, if at all, to
   * `code`: a "_1" or "_2" name is longer than any browse subscriber name.
   */
  lemma InitBrowseNamesOwnTopic(st: BrokerState, faults: set<nat>, at: nat, rs: seq<Resource>, code: string)
    requires forall i :: 0 <= i < |rs| ==> |rs[i].code| == |code|
    ensures var s := InitRun(st, map[], faults, at, rs);
      BrowseSubscriber(code) in s.subscribers ==> s.subscribers[BrowseSubscriber(code)] == code
  {
    var reg := InitRun(st, map[], faults, at, rs).subscribers;
    var n := BrowseSubscriber(code);
    InitRegistersTopics(st, map[], faults, at, rs);
    if n in reg {
      var d := reg[n];
      assert RegisteredFor(n, d, rs);
      var i :| 0 <= i < |rs| && rs[i].kind == TopicType && rs[i].code == d && n in InitSubscriberNames(d);
      assert n == SubscriberPrefix + d;
      SuffixEqual(SubscriberPrefix, code, d);
    }
  }

  /**
   * Start-up from an empty registry never registers the browse subscriber of
   * a configured code under another topic, so the registry it builds meets
   * the condition `BrowseKeepsRegistry` needs.
   */
  lemma InitKeepsBrowseNames(st: BrokerState, faults: set<nat>, at: nat, code: string)
    requires code in Codes(Values())
    ensures var s := InitRun(st, map[], faults, at, Values());
      BrowseSubscriber(code) in s.subscribers ==> s.subscribers[BrowseSubscriber(code)] == code
  {
    InitBrowseNamesOwnTopic(st, faults, at, Values(), code);
  }

  /**
   * When none of the start-up's calls throws, all three subscribers of every
   * topic resource are registered.
   */
  lemma {:induction false} InitRegistersAll(st: BrokerState, subscribers: map<string, string>, faults: set<nat>, at: nat,
                                            rs: seq<Resource>)
    requires var s := InitRun(st, subscribers, faults, at, rs);
      forall p :: at <= p < at + |s.steps| ==> p !in faults
    ensures var s := InitRun(st, subscribers, faults, at, rs);
      forall i, j :: 0 <= i < |rs| && rs[i].kind == TopicType && 0 <= j < 3 ==> InitSubscriberNames(rs[i].code)[j] in s.subscribers
  {
    if rs != [] {
      var rs' := rs[..|rs| - 1];
      var s := InitRun(st, subscribers, faults, at, rs');
      var r := rs[|rs| - 1];
      var s' := InitRun(st, subscribers, faults, at, rs);
      if r.kind == TopicType {
        RegisterTopicAll(s, faults, at, r.code, |s'.steps|);
      }
      InitRegistersAll(st, subscribers, faults, at, rs');
      forall i, j | 0 <= i < |rs| && rs[i].kind == TopicType && 0 <= j < 3
        ensures InitSubscriberNames(rs[i].code)[j] in s'.subscribers
      {
        if i < |rs| - 1 {
          assert rs[i] == rs'[i];
        }
      }
    }
  }

  /** The three registrations of a topic, in a fault-free window, register all three names and drop none. */
  lemma RegisterTopicAll(s: Setup, faults: set<nat>, at: nat, code: string, window: nat)
    requires |RegisterTopic(s, faults, at, code).steps| <= window
    requires forall p :: at <= p < at + window ==> p !in faults
    ensures var s' := RegisterTopic(s, faults, at, code);
      && |s.steps| <= |s'.steps| && s.subscribers.Keys <= s'.subscribers.Keys
      && forall j :: 0 <= j < 3 ==> InitSubscriberNames(code)[j] in s'.subscribers
  {
    var names := InitSubscriberNames(code);
    var s1 := Then(s, faults, at, code, names[0]);
    var s2 := Then(s1, faults, at, code, names[1]);
    RegisterGrows(s, faults, at, code, names[0]);
    RegisterGrows(s1, faults, at, code, names[1]);
    RegisterGrows(s2, faults, at, code, names[2]);
    RegisterSucceeds(s, faults, at, code, names[0], window);
    RegisterSucceeds(s1, faults, at, code, names[1], window);
    RegisterSucceeds(s2, faults, at, code, names[2], window);
  }

  /** A registration extends the calls made so far and never removes a registry entry. */
  lemma RegisterGrows(s: Setup, faults: set<nat>, at: nat, code: string, name: string)
    ensures var s' := Then(s, faults, at, code, name);
      |s.steps| <= |s'.steps| && s.subscribers.Keys <= s'.subscribers.Keys
  {
  }

  /** A registration whose calls all fall in a fault-free window registers its name. */
  lemma RegisterSucceeds(s: Setup, faults: set<nat>, at: nat, code: string, name: string, window: nat)
    requires |Then(s, faults, at, code, name).steps| <= window
    requires forall p :: at <= p < at + window ==> p !in faults
    ensures name in Then(s, faults, at, code, name).subscribers
  {
    var k := FirstFault(faults, at + |s.steps|, 5);
    assert |Attempted(SubscriberPlan(code, name), k)| <= |Then(s, faults, at, code, name).steps| - |s.steps|;
  }

  // ------------------------------------------------------------------ browse

  /** The calls a browse makes before its first receive: the connection is started, the browse subscriber opened. */
  function BrowsePlan(code: string): seq<Step>
  {
    [CreateConnection, SetClientId(code), Start, CreateSession, CreateTopic(code), CreateDurableSubscriber(BrowseSubscriber(code))]
  }

  /** The browse subscriber of `code` after it was opened on the topic. */
  function Opened(st: BrokerState, code: string): BrokerState
  {
    Subscribe(st, code, BrowseSubscriber(code))
  }

  /** The receives of a browse, over what the browse subscriber holds once opened. */
  function BrowseDrain(st: BrokerState, faults: set<nat>, at: nat, code: string): Drained
  {
    Drain(Pending(Opened(st, code), FromSubscription(BrowseSubscriber(code))), faults, at + |BrowsePlan(code)|)
  }

  /**
   * Browsing a topic: the messages received through its durable subscriber,
   * keyed "1", "2", ... (a receive that throws ends the loop and what was
   * received is returned), nothing when the set-up failed.  What was received
   * is consumed: the browse is destructive.
   */
  function BrowseRun(st: BrokerState, faults: set<nat>, at: nat, code: string): Run<map<string, string>>
  {
    var plan := BrowsePlan(code);
    var k := FirstFault(faults, at, |plan|);
    var d := BrowseDrain(st, faults, at, code);
    Run(Scoped(plan, k, Repeat(Receive, d.receives), 3, Some(5)),
        if k == |plan| then Numbered(d.got) else map[],
        if k == |plan| then Dropped(Opened(st, code), FromSubscription(BrowseSubscriber(code)), |d.got|) else st)
  }

  /** The browse and purge plans open with the topic code as client id and start the connection. */
  lemma TopicPlansOpen(code: string)
    ensures OpensWith(BrowsePlan(code), code, true) && OpensWith(PurgePlan(code), code, true)
  {
  }

  /** The browse and purge plans release nothing. */
  lemma TopicPlansNoReleases(code: string)
    ensures NoReleases(BrowsePlan(code)) && NoReleases(PurgePlan(code))
  {
  }

  /**
   * A browse keys the first `n` messages pending on the topic's browse
   * subscriber, in order, by "1" to "n"; all of them when nothing threw, none
   * when the set-up failed or the subscriber was opened afresh.
   */
  lemma BrowseNumbers(st: BrokerState, faults: set<nat>, at: nat, code: string)
    ensures var r := BrowseRun(st, faults, at, code);
      var src := FromSubscription(BrowseSubscriber(code));
      var msgs := Pending(Opened(st, code), src);
      && |r.result| <= |msgs|
      && r.result.Keys == (set i | 1 <= i <= |r.result| :: DecimalString(i))
      && (forall i :: 0 <= i < |r.result| ==> DecimalString(i + 1) in r.result && r.result[DecimalString(i + 1)] == msgs[i])
      && (msgs == Pending(st, src) || msgs == [])
      && (FirstFault(faults, at, 6) < 6 || msgs == [] ==> r.result == map[])
      && ((forall p :: at <= p < at + 6 + |msgs| + 1 ==> p !in faults) ==> |r.result| == |msgs|)
  {
    var msgs := Pending(Opened(st, code), FromSubscription(BrowseSubscriber(code)));
    var k := FirstFault(faults, at, 6);
    var d := BrowseDrain(st, faults, at, code);
    DrainSpec(msgs, faults, at + 6);
    var got: seq<string> := if k == 6 then d.got else [];
    assert BrowseRun(st, faults, at, code).result == Numbered(got);
    NumberedKeys(got);
    NumberedSize(got);
    forall i | 0 <= i < |got| ensures DecimalString(i + 1) in Numbered(got) && Numbered(got)[DecimalString(i + 1)] == msgs[i] {
      NumberedValue(got, i);
    }
  }

  /**
   * A browse consumes what it returns: once the browse subscriber is open it
   * listens to the topic and holds exactly the messages after those returned;
   * a failed set-up changes nothing, and no other source ever changes.
   */
  lemma BrowseConsumes(st: BrokerState, faults: set<nat>, at: nat, code: string)
    ensures var r := BrowseRun(st, faults, at, code);
      var name := BrowseSubscriber(code);
      var src := FromSubscription(name);
      var msgs := Pending(Opened(st, code), src);
      && (FirstFault(faults, at, 6) == 6 ==>
            && |r.result| <= |msgs| && Pending(r.after, src) == msgs[|r.result|..]
            && name in r.after.subscriptions && r.after.subscriptions[name].topic == code)
      && (FirstFault(faults, at, 6) < 6 ==> r.after == st)
      && r.after.queues == st.queues
      && forall other :: other != src ==> Pending(r.after, other) == Pending(st, other)
  {
    var d := BrowseDrain(st, faults, at, code);
    OpenedDropped(st, code, |d.got|);
    NumberedSize(d.got);
  }

  /** Opening the browse subscriber and receiving `n` messages from it changes no other source and no queue. */
  lemma OpenedDropped(st: BrokerState, code: string, n: nat)
    requires n <= |Pending(Opened(st, code), FromSubscription(BrowseSubscriber(code)))|
    ensures var name := BrowseSubscriber(code);
      var src := FromSubscription(name);
      var st' := Dropped(Opened(st, code), src, n);
      && name in st'.subscriptions && st'.subscriptions[name].topic == code
      && st'.queues == st.queues
      && forall other :: other != src ==> Pending(st', other) == Pending(st, other)
  {
    var name := BrowseSubscriber(code);
    var src := FromSubscription(name);
    SubscribeSpec(st, code, name);
    DroppedElsewhere(Opened(st, code), src, n);
    forall other | other != src
      ensures Pending(Opened(st, code), other) == Pending(st, other)
    {
    }
  }

  /** After a clean browse the browse subscriber holds nothing. */
  lemma BrowseEmpties(st: BrokerState, faults: set<nat>, at: nat, code: string)
    requires Clean(BrowseRun(st, faults, at, code).steps, faults, at)
    ensures Pending(BrowseRun(st, faults, at, code).after, FromSubscription(BrowseSubscriber(code))) == []
  {
    BrowseCleanIff(st, faults, at, code);
    BrowseConsumes(st, faults, at, code);
    var d := BrowseDrain(st, faults, at, code);
    DrainSpec(Pending(Opened(st, code), FromSubscription(BrowseSubscriber(code))), faults, at + 6);
    NumberedSize(d.got);
  }

  /** A browse's calls are clean exactly when its set-up and every receive succeeded; the first fault aborts the rest. */
  lemma BrowseCleanIff(st: BrokerState, faults: set<nat>, at: nat, code: string)
    ensures var r := BrowseRun(st, faults, at, code);
      && (Clean(r.steps, faults, at) <==> FirstFault(faults, at, 6) == 6 && BrowseDrain(st, faults, at, code).completed)
      && AbortsAtFault(r.steps, faults, at)
  {
    var d := BrowseDrain(st, faults, at, code);
    DrainFacts(Pending(Opened(st, code), FromSubscription(BrowseSubscriber(code))), faults, at + 6);
    TopicPlansNoReleases(code);
    ScopedFacts(BrowsePlan(code), faults, at, Repeat(Receive, d.receives), 3, Some(5));
  }

  /** A clean browse leaves nothing to browse: the next browse, whatever throws, returns no message. */
  lemma BrowseIsDestructive(st: BrokerState, faults: set<nat>, at: nat, faults': set<nat>, at': nat, code: string)
    requires Clean(BrowseRun(st, faults, at, code).steps, faults, at)
    ensures BrowseRun(BrowseRun(st, faults, at, code).after, faults', at', code).result == map[]
  {
    var st' := BrowseRun(st, faults, at, code).after;
    BrowseEmpties(st, faults, at, code);
    BrowseCleanIff(st, faults, at, code);
    BrowseConsumes(st, faults, at, code);
    SubscribeSpec(st', code, BrowseSubscriber(code));
    BrowseNumbers(st', faults', at', code);
  }

  /** A browse sets the topic code as client id and starts the connection before creating the session. */
  lemma BrowseStarts(st: BrokerState, faults: set<nat>, at: nat, code: string)
    ensures var r := BrowseRun(st, faults, at, code);
      var k := FirstFault(faults, at, 6);
      && (k >= 1 ==> r.steps[1] == SetClientId(code))
      && (k >= 2 ==> r.steps[2] == Start)
      && (k >= 3 ==> r.steps[3] == CreateSession)
  {
    var d := BrowseDrain(st, faults, at, code);
    RepeatNoReleases(Receive, d.receives);
    TopicPlansNoReleases(code);
    TopicPlansOpen(code);
    ScopedShape(BrowseRun(st, faults, at, code).steps, BrowsePlan(code), FirstFault(faults, at, 6),
                Repeat(Receive, d.receives), 3, Some(5));
  }

  /** A browse closes subscriber, session and connection, last and in that order, each exactly when it was acquired. */
  lemma BrowseReleases(st: BrokerState, faults: set<nat>, at: nat, code: string)
    ensures var r := BrowseRun(st, faults, at, code);
      var k := FirstFault(faults, at, 6);
      ClosesExactly(r.steps, k > 5, k > 3, k > 0)
  {
    var k := FirstFault(faults, at, 6);
    var consumer: Option<nat> := Some(5);
    var body := Repeat(Receive, BrowseDrain(st, faults, at, code).receives);
    assert Held(consumer, k) == (k > 5);
    assert BrowseRun(st, faults, at, code).steps == Scoped(BrowsePlan(code), k, body, 3, consumer);
    RepeatNoReleases(Receive, |body|);
    TopicPlansNoReleases(code);
    ScopedReleases(BrowsePlan(code), k, body, 3, consumer);
  }

  /**
   * A successful topic send appends the message to every subscriber registered
   * for the topic, and to no subscriber of another topic; the registry stays
   * backed by the broker either way.
   */
  lemma SendReachesRegistry(st: BrokerState, faults: set<nat>, at: nat, code: string, message: string,
                            subscribers: map<string, string>)
    requires Backed(subscribers, st)
    ensures var r := SendRun(st, faults, at, code, Topic(code), message);
      && Backed(subscribers, r.after)
      && r.after.queues == st.queues
      && (r.result ==> forall n :: n in subscribers ==>
            Pending(r.after, FromSubscription(n)) ==
              if subscribers[n] == code then Pending(st, FromSubscription(n)) + [message]
              else Pending(st, FromSubscription(n)))
  {
    SendSucceedsIff(st, faults, at, code, Topic(code), message);
    DeliverSpec(st, Topic(code), message);
  }

  /**
   * A browse keeps the registry backed by the broker, provided the browse
   * subscriber's name is not registered for another topic.
   */
  lemma BrowseKeepsRegistry(st: BrokerState, faults: set<nat>, at: nat, code: string, subscribers: map<string, string>)
    requires Backed(subscribers, st)
    requires BrowseSubscriber(code) in subscribers ==> subscribers[BrowseSubscriber(code)] == code
    ensures Backed(subscribers, BrowseRun(st, faults, at, code).after)
  {
    var name := BrowseSubscriber(code);
    var d := BrowseDrain(st, faults, at, code);
    OpenedDropped(st, code, |d.got|);
    SubscribeSpec(st, code, name);
    DroppedElsewhere(Opened(st, code), FromSubscription(name), |d.got|);
  }

  // ------------------------------------------------------------------- purge

  /** The calls a purge makes before it sweeps the registry. */
  function PurgePlan(code: string): seq<Step>
  {
    [CreateConnection, SetClientId(code), Start, CreateSession, CreateTopic(code)]
  }

  /** The calls a sweep made, whether every one of them succeeded, and the broker after them. */
  datatype Swept = Swept(steps: seq<Step>, completed: bool, after: BrokerState)

  /**
   * Draining one registered subscriber `name` of topic `code`, first call at
   * `at`: open it, receive until null, then close it; a call that throws ends
   * the purge and the subscriber is then not closed.
   */
  function SweepOne(st: BrokerState, faults: set<nat>, at: nat, code: string, name: string): Swept
  {
    if at in faults then Swept([CreateDurableSubscriber(name)], false, st)
    else
      var st1 := Subscribe(st, code, name);
      var d := Drain(Pending(st1, FromSubscription(name)), faults, at + 1);
      Swept([CreateDurableSubscriber(name)] + Repeat(Receive, d.receives) + (if d.completed then [CloseConsumer] else []),
            d.completed,
            Dropped(st1, FromSubscription(name), |d.got|))
  }

  /** One more subscriber drained after the sweep `prev` (which began at `at`), unless it already failed. */
  function SweepStep(prev: Swept, faults: set<nat>, at: nat, code: string, name: string): Swept
  {
    if !prev.completed then prev
    else
      var one := SweepOne(prev.after, faults, at + |prev.steps|, code, name);
      Swept(prev.steps + one.steps, one.completed, one.after)
  }

  /** The subscribers `order` drained one after the other, from position `at`, until one of them fails. */
  function Sweep(st: BrokerState, faults: set<nat>, at: nat, code: string, order: seq<string>): Swept
  {
    if order == [] then Swept([], true, st)
    else SweepStep(Sweep(st, faults, at, code, order[..|order| - 1]), faults, at, code, order[|order| - 1])
  }

  /**
   * Purging a topic, sweeping the registered subscribers in `order`: true iff
   * the set-up and every subscriber's drain succeeded; session and connection
   * are closed last.
   */
  function PurgeRun(st: BrokerState, faults: set<nat>, at: nat, code: string, order: seq<string>): Run<bool>
  {
    var plan := PurgePlan(code);
    var k := FirstFault(faults, at, |plan|);
    var s := Sweep(st, faults, at + |plan|, code, order);
    Run(Scoped(plan, k, s.steps, 3, None), k == |plan| && s.completed, if k == |plan| then s.after else st)
  }

  /** Sweeping one more subscriber is one more sweep step. */
  lemma SweepAppend(st: BrokerState, faults: set<nat>, at: nat, code: string, order: seq<string>, name: string)
    ensures Sweep(st, faults, at, code, order + [name]) == SweepStep(Sweep(st, faults, at, code, order), faults, at, code, name)
  {
    assert (order + [name])[..|order|] == order;
  }

  /** After a completed sweep, the step appends the next subscriber's drain. */
  lemma StepAppends(trace: seq<Step>, t0: seq<Step>, prev: Swept, faults: set<nat>, at: nat, code: string, name: string)
    requires prev.completed && trace == t0 + prev.steps + SweepOne(prev.after, faults, at + |prev.steps|, code, name).steps
    ensures var one := SweepOne(prev.after, faults, at + |prev.steps|, code, name);
      var s := SweepStep(prev, faults, at, code, name);
      trace == t0 + s.steps && s.after == one.after && s.completed == one.completed
  {
    StepExtends(prev, faults, at, code, name);
    AppendAssoc(t0, prev.steps, SweepOne(prev.after, faults, at + |prev.steps|, code, name).steps);
  }

  /** A step after a completed sweep extends it by the next subscriber's drain. */
  lemma StepExtends(prev: Swept, faults: set<nat>, at: nat, code: string, name: string)
    requires prev.completed
    ensures var one := SweepOne(prev.after, faults, at + |prev.steps|, code, name);
      SweepStep(prev, faults, at, code, name) == Swept(prev.steps + one.steps, one.completed, one.after)
  {
  }

  /**
   * The sweep so far: `order` lists the visited keys registered for `code`,
   * each once, and every such key not left in `keys` was visited.
   */
  predicate SweptSoFar(order: seq<string>, subscribers: map<string, string>, code: string, keys: set<string>)
  {
    && SweepOrder(order, subscribers, code, false)
    && (forall i :: 0 <= i < |order| ==> order[i] !in keys)
    && forall n :: n in subscribers && subscribers[n] == code && n !in keys ==> n in order
  }

  /** Nothing is swept before the first key is visited. */
  lemma SweptNothing(subscribers: map<string, string>, code: string)
    ensures SweptSoFar([], subscribers, code, subscribers.Keys)
  {
  }

  /** Visiting a key registered for `code` appends it to the order. */
  lemma SweptOneMore(order: seq<string>, subscribers: map<string, string>, code: string, keys: set<string>, name: string)
    requires SweptSoFar(order, subscribers, code, keys)
    requires name in keys && name in subscribers && subscribers[name] == code
    ensures SweptSoFar(order + [name], subscribers, code, keys - {name})
  {
  }

  /** Visiting a key registered for another topic leaves the order as it is. */
  lemma SweptPast(order: seq<string>, subscribers: map<string, string>, code: string, keys: set<string>, name: string)
    requires SweptSoFar(order, subscribers, code, keys)
    requires name in keys && (name !in subscribers || subscribers[name] != code)
    ensures SweptSoFar(order, subscribers, code, keys - {name})
  {
  }

  /** Whether or not every key was visited, the order is a sweep order; once none is left, a complete one. */
  lemma SweptAll(order: seq<string>, subscribers: map<string, string>, code: string, keys: set<string>)
    requires SweptSoFar(order, subscribers, code, keys)
    ensures SweepOrder(order, subscribers, code, false)
    ensures keys == {} ==> SweepOrder(order, subscribers, code, true)
  {
  }

  /** `order` lists registered subscribers of `code`, each once; when `complete`, all of them. */
  predicate SweepOrder(order: seq<string>, subscribers: map<string, string>, code: string, complete: bool)
  {
    && (forall i, j :: 0 <= i < j < |order| ==> order[i] != order[j])
    && (forall i :: 0 <= i < |order| ==> order[i] in subscribers && subscribers[order[i]] == code)
    && (complete ==> forall n :: n in subscribers && subscribers[n] == code ==> n in order)
  }

  /**
   * One subscriber's drain: clean exactly when it completed, closes its
   * consumer exactly then, and a faulting call is followed by nothing.
   */
  lemma SweepOneFacts(st: BrokerState, faults: set<nat>, at: nat, code: string, name: string)
    ensures var one := SweepOne(st, faults, at, code, name);
      && (Clean(one.steps, faults, at) <==> one.completed)
      && AbortsAtFault(one.steps, faults, at)
      && (CloseConsumer in one.steps <==> one.completed)
      && CloseSession !in one.steps && CloseConnection !in one.steps
  {
    if at !in faults {
      var st1 := Subscribe(st, code, name);
      var d := Drain(Pending(st1, FromSubscription(name)), faults, at + 1);
      DrainFacts(Pending(st1, FromSubscription(name)), faults, at + 1);
      OpenDrainClose(name, Repeat(Receive, d.receives), if d.completed then [CloseConsumer] else [], faults, at);
    } else {
      var steps := [CreateDurableSubscriber(name)];
      assert !steps[0].IsRelease() && at + 0 in faults;
    }
  }

  /** Opening a subscriber, receiving, and closing it or not: the layout of one subscriber's drain. */
  lemma OpenDrainClose(name: string, rec: seq<Step>, close: seq<Step>, faults: set<nat>, at: nat)
    requires at !in faults && NoReleases(rec) && AbortsAtFault(rec, faults, at + 1)
    requires close == [] || close == [CloseConsumer]
    ensures var steps := [CreateDurableSubscriber(name)] + rec + close;
      && (Clean(steps, faults, at) <==> Clean(rec, faults, at + 1))
      && (close == [] ==> AbortsAtFault(steps, faults, at))
      && (close != [] && Clean(rec, faults, at + 1) ==> AbortsAtFault(steps, faults, at))
      && (CloseConsumer in steps <==> close != [])
      && CloseSession !in steps && CloseConnection !in steps
  {
    var open := [CreateDurableSubscriber(name)];
    CleanAppend(open, rec, faults, at);
    AbortsAppend(open, rec, faults, at);
    CleanAppend(open + rec, close, faults, at);
    AbortsAppend(open + rec, close, faults, at);
    assert Clean(close, faults, at + 1 + |rec|) && AbortsAtFault(close, faults, at + 1 + |rec|);
    assert forall x :: x in open + rec ==> !x.IsRelease();
  }

  /**
   * A sweep is clean exactly when it completed, stops at its first fault, and
   * closes no session or connection.
   */
  lemma {:induction false} SweepFacts(st: BrokerState, faults: set<nat>, at: nat, code: string, order: seq<string>)
    ensures var s := Sweep(st, faults, at, code, order);
      && (Clean(s.steps, faults, at) <==> s.completed)
      && AbortsAtFault(s.steps, faults, at)
      && CloseSession !in s.steps && CloseConnection !in s.steps
  {
    if order != [] {
      var prev := Sweep(st, faults, at, code, order[..|order| - 1]);
      SweepFacts(st, faults, at, code, order[..|order| - 1]);
      if prev.completed {
        var one := SweepOne(prev.after, faults, at + |prev.steps|, code, order[|order| - 1]);
        SweepOneFacts(prev.after, faults, at + |prev.steps|, code, order[|order| - 1]);
        CleanAppend(prev.steps, one.steps, faults, at);
        AbortsAppend(prev.steps, one.steps, faults, at);
      }
    }
  }

  /**
   * A purge succeeds exactly when none of its non-release calls threw; the
   * first fault aborts everything but the releases.
   */
  lemma PurgeResult(st: BrokerState, faults: set<nat>, at: nat, code: string, order: seq<string>)
    ensures var r := PurgeRun(st, faults, at, code, order);
      && (r.result <==> Clean(r.steps, faults, at))
      && AbortsAtFault(r.steps, faults, at)
  {
    SweepFacts(st, faults, at + 5, code, order);
    TopicPlansNoReleases(code);
    ScopedFacts(PurgePlan(code), faults, at, Sweep(st, faults, at + 5, code, order).steps, 3, None);
  }

  /** With nothing registered for the topic a purge only opens and closes: true iff its set-up succeeded. */
  lemma PurgeNothing(st: BrokerState, faults: set<nat>, at: nat, code: string)
    ensures var r := PurgeRun(st, faults, at, code, []);
      (r.result <==> FirstFault(faults, at, 5) == 5) && r.after == st
  {
  }

  /** Subscriber `name` exists, listens to `code` and holds no message. */
  predicate Emptied(st: BrokerState, name: string, code: string)
  {
    name in st.subscriptions && st.subscriptions[name].topic == code && st.subscriptions[name].pending == []
  }

  /** Subscriber `name` is as it was in `st`: present or absent alike, and unchanged when present. */
  predicate Untouched(st: BrokerState, st': BrokerState, name: string)
  {
    && (name in st'.subscriptions <==> name in st.subscriptions)
    && (name in st.subscriptions ==> st'.subscriptions[name] == st.subscriptions[name])
  }

  /** One subscriber's completed drain empties it, and no other subscriber or queue changes. */
  lemma SweepOneSpec(st: BrokerState, faults: set<nat>, at: nat, code: string, name: string)
    ensures var one := SweepOne(st, faults, at, code, name);
      && (one.completed ==> Emptied(one.after, name, code))
      && one.after.queues == st.queues
      && forall m :: m != name ==> Untouched(st, one.after, m)
  {
    if at !in faults {
      var st1 := Subscribe(st, code, name);
      var msgs := Pending(st1, FromSubscription(name));
      SubscribeSpec(st, code, name);
      DrainSpec(msgs, faults, at + 1);
    }
  }

  /** One step of a sweep: it touches no queue and no other subscriber, and a completed step has emptied its subscriber. */
  lemma SweepStepSpec(prev: Swept, faults: set<nat>, at: nat, code: string, name: string)
    ensures var s := SweepStep(prev, faults, at, code, name);
      && s.after.queues == prev.after.queues
      && (forall m :: m != name ==> Untouched(prev.after, s.after, m))
      && (s.completed ==> prev.completed && Emptied(s.after, name, code))
  {
    if prev.completed {
      SweepOneSpec(prev.after, faults, at + |prev.steps|, code, name);
    }
  }

  /** The last subscriber of a sweep: the step that drains it changes nothing else. */
  lemma SweepLast(st: BrokerState, faults: set<nat>, at: nat, code: string, order: seq<string>)
    requires order != []
    ensures var name := order[|order| - 1];
      var prev := Sweep(st, faults, at, code, order[..|order| - 1]);
      var s := Sweep(st, faults, at, code, order);
      && s.after.queues == prev.after.queues
      && (forall m :: m != name ==> Untouched(prev.after, s.after, m))
      && (s.completed ==> prev.completed && Emptied(s.after, name, code))
  {
    SweepStepSpec(Sweep(st, faults, at, code, order[..|order| - 1]), faults, at, code, order[|order| - 1]);
  }

  /** A sweep touches no queue, and no subscriber outside `order`. */
  lemma {:induction false} SweepLeaves(st: BrokerState, faults: set<nat>, at: nat, code: string, order: seq<string>)
    ensures var s := Sweep(st, faults, at, code, order);
      && s.after.queues == st.queues
      && forall m :: m !in order ==> Untouched(st, s.after, m)
  {
    if order != [] {
      var order' := order[..|order| - 1];
      var name := order[|order| - 1];
      SweepLeaves(st, faults, at, code, order');
      SweepLast(st, faults, at, code, order);
      forall m | m !in order ensures Untouched(st, Sweep(st, faults, at, code, order).after, m) {
        assert order == order' + [name];
        assert m != name && m !in order';
      }
    }
  }

  /** A completed sweep leaves every swept subscriber empty and listening to the topic. */
  lemma {:induction false} SweepEmpties(st: BrokerState, faults: set<nat>, at: nat, code: string, order: seq<string>)
    ensures var s := Sweep(st, faults, at, code, order);
      s.completed ==> forall i :: 0 <= i < |order| ==> Emptied(s.after, order[i], code)
  {
    if order != [] {
      var order' := order[..|order| - 1];
      var name := order[|order| - 1];
      var prev := Sweep(st, faults, at, code, order');
      var s := Sweep(st, faults, at, code, order);
      SweepEmpties(st, faults, at, code, order');
      SweepLast(st, faults, at, code, order);
      if s.completed {
        EmptiedAll(prev.after, s.after, order, code);
      }
    }
  }

  /** Draining the last subscriber of `order` keeps the earlier ones emptied. */
  lemma EmptiedAll(st: BrokerState, st': BrokerState, order: seq<string>, code: string)
    requires order != []
    requires forall i :: 0 <= i < |order| - 1 ==> Emptied(st, order[i], code)
    requires forall m :: m != order[|order| - 1] ==> Untouched(st, st', m)
    requires Emptied(st', order[|order| - 1], code)
    ensures forall i :: 0 <= i < |order| ==> Emptied(st', order[i], code)
  {
    forall i | 0 <= i < |order| - 1 ensures Emptied(st', order[i], code) {
      EmptiedStays(st, st', order[i], order[|order| - 1], code);
    }
  }

  /** An emptied subscriber stays emptied while another one is drained. */
  lemma EmptiedStays(st: BrokerState, st': BrokerState, m: string, name: string, code: string)
    requires Emptied(st, m, code)
    requires m != name ==> Untouched(st, st', m)
    requires Emptied(st', name, code)
    ensures Emptied(st', m, code)
  {
  }

  /**
   * A successful purge leaves every swept subscriber of the topic empty; a
   * failed set-up changes nothing; subscribers it did not sweep and all
   * queues are never touched.
   */
  lemma PurgeEmpties(st: BrokerState, faults: set<nat>, at: nat, code: string, order: seq<string>)
    ensures var r := PurgeRun(st, faults, at, code, order);
      && (r.result ==> forall i :: 0 <= i < |order| ==> Emptied(r.after, order[i], code))
      && (FirstFault(faults, at, 5) < 5 ==> r.after == st)
      && r.after.queues == st.queues
      && forall m :: m !in order ==> Untouched(st, r.after, m)
  {
    SweepLeaves(st, faults, at + 5, code, order);
    SweepEmpties(st, faults, at + 5, code, order);
  }

  /** Draining a registered subscriber of the topic re-opens the same subscription: the registry stays backed. */
  lemma SweepOneBacked(st: BrokerState, faults: set<nat>, at: nat, code: string, name: string, subscribers: map<string, string>)
    requires Backed(subscribers, st) && name in subscribers && subscribers[name] == code
    ensures Backed(subscribers, SweepOne(st, faults, at, code, name).after)
  {
    if at !in faults {
      var st1 := Subscribe(st, code, name);
      var d := Drain(Pending(st1, FromSubscription(name)), faults, at + 1);
      assert st1 == st;
      DroppedElsewhere(st1, FromSubscription(name), |d.got|);
    }
  }

  /** One sweep step over a registered subscriber of the topic keeps the registry backed. */
  lemma StepBacked(prev: Swept, faults: set<nat>, at: nat, code: string, name: string, subscribers: map<string, string>)
    requires Backed(subscribers, prev.after) && name in subscribers && subscribers[name] == code
    ensures Backed(subscribers, SweepStep(prev, faults, at, code, name).after)
  {
    if prev.completed {
      SweepOneBacked(prev.after, faults, at + |prev.steps|, code, name, subscribers);
    }
  }

  /** A sweep over registered subscribers of the topic keeps the registry backed. */
  lemma {:induction false} SweepBacked(st: BrokerState, faults: set<nat>, at: nat, code: string, order: seq<string>,
                                       subscribers: map<string, string>)
    requires Backed(subscribers, st)
    requires forall i :: 0 <= i < |order| ==> order[i] in subscribers && subscribers[order[i]] == code
    ensures Backed(subscribers, Sweep(st, faults, at, code, order).after)
  {
    if order != [] {
      var order' := order[..|order| - 1];
      assert forall i :: 0 <= i < |order'| ==> order'[i] == order[i];
      SweepBacked(st, faults, at, code, order', subscribers);
      StepBacked(Sweep(st, faults, at, code, order'), faults, at, code, order[|order| - 1], subscribers);
    }
  }

  /** A purge drains only subscribers registered for the topic, so the registry stays backed by the broker. */
  lemma PurgeKeepsRegistry(st: BrokerState, faults: set<nat>, at: nat, code: string, order: seq<string>,
                           subscribers: map<string, string>)
    requires Backed(subscribers, st)
    requires SweepOrder(order, subscribers, code, false)
    ensures Backed(subscribers, PurgeRun(st, faults, at, code, order).after)
  {
    SweepBacked(st, faults, at + 5, code, order, subscribers);
  }

  /**
   * A purge closes its session and connection last, in that order, each
   * exactly when it was acquired; a purge whose set-up failed closes no
   * subscriber.
   */
  lemma PurgeReleases(st: BrokerState, faults: set<nat>, at: nat, code: string, order: seq<string>)
    ensures var r := PurgeRun(st, faults, at, code, order);
      var k := FirstFault(faults, at, 5);
      var rel := Releases(false, k > 3, k > 0);
      && (CloseSession in r.steps <==> k > 3)
      && (CloseConnection in r.steps <==> k > 0)
      && (k < 5 ==> CloseConsumer !in r.steps)
      && |rel| <= |r.steps| && r.steps[|r.steps| - |rel|..] == rel
  {
    var k := FirstFault(faults, at, 5);
    var plan := PurgePlan(code);
    var body := Sweep(st, faults, at + 5, code, order).steps;
    var ran := Attempted(plan, k);
    var mid: seq<Step> := if k == 5 then body else [];
    var none: Option<nat> := None;
    assert !Held(none, k);
    assert PurgeRun(st, faults, at, code, order).steps == (ran + mid) + Releases(false, k > 3, k > 0);
    SweepFacts(st, faults, at + 5, code, order);
    TopicPlansNoReleases(code);
    AttemptedExcludes(plan, k, CloseSession);
    AttemptedExcludes(plan, k, CloseConnection);
    AttemptedExcludes(plan, k, CloseConsumer);
    ReleasesAfter(ran + mid, false, k > 3, k > 0);
  }

  // ----------------------------------------------------------------- service

  class TopicService {
    const broker: Broker
    /** The registry of durable subscribers created at start-up: subscriber name to topic code. */
    var subscribers: map<string, string>

    constructor (broker: Broker)
      ensures this.broker == broker && subscribers == map[]
    {
      this.broker := broker;
      subscribers := map[];
    }

    /** Creates the three durable subscribers of every topic resource, in the resources' order. */
    method InitTopicSubscribers()
      requires broker.Valid()
      modifies this, broker
      ensures broker.Valid()
      ensures var s := InitRun(old(broker.State()), old(subscribers), broker.faults, |old(broker.trace)|, Values());
        broker.trace == old(broker.trace) + s.steps && broker.State() == s.after && subscribers == s.subscribers
    {
      ghost var t0, at, st0, reg0 := broker.trace, broker.calls, broker.State(), subscribers;
      var rs := Values();
      assert rs[..0] == [] && t0 + [] == t0;
      for i := 0 to |rs|
        invariant broker.Valid()
        invariant var s := InitRun(st0, reg0, broker.faults, at, rs[..i]);
          broker.trace == t0 + s.steps && broker.State() == s.after && subscribers == s.subscribers
      {
        InitRunNext(st0, reg0, broker.faults, at, rs, i);
        InitResource(rs[i], InitRun(st0, reg0, broker.faults, at, rs[..i]), t0, at);
      }
      assert rs[..|rs|] == rs;
    }

    /** The body of the start-up loop: a topic resource gets its three durable subscribers. */
    method InitResource(resource: Resource, ghost s: Setup, ghost t0: seq<Step>, ghost at: nat)
      requires broker.Valid() && |t0| == at
      requires broker.trace == t0 + s.steps && broker.State() == s.after && subscribers == s.subscribers
      modifies this, broker
      ensures var s' := InitStep(s, broker.faults, at, resource);
        broker.Valid() && broker.trace == t0 + s'.steps && broker.State() == s'.after && subscribers == s'.subscribers
    {
      if resource.kind == TopicType {
        ghost var names := InitSubscriberNames(resource.code);
        ghost var s1 := Then(s, broker.faults, at, resource.code, names[0]);
        ghost var s2 := Then(s1, broker.faults, at, resource.code, names[1]);
        RegisterNext(resource.code, SubscriberPrefix + resource.code, s, t0, at);
        RegisterNext(resource.code, SubscriberPrefix + resource.code + "_1", s1, t0, at);
        RegisterNext(resource.code, SubscriberPrefix + resource.code + "_2", s2, t0, at);
      }
    }

    /** One registration appended to the start-up progress `s`. */
    method RegisterNext(code: string, name: string, ghost s: Setup, ghost t0: seq<Step>, ghost at: nat)
      requires broker.Valid() && |t0| == at
      requires broker.trace == t0 + s.steps && broker.State() == s.after && subscribers == s.subscribers
      modifies this, broker
      ensures var s' := Then(s, broker.faults, at, code, name);
        broker.Valid() && broker.trace == t0 + s'.steps && broker.State() == s'.after && subscribers == s'.subscribers
    {
      CreateTopicSubscriber(code, name);
      ThenTrace(broker.trace, t0, s, broker.faults, at, code, name);
    }

    /** Creates durable subscriber `name` on topic `code` and, once it exists, registers it. */
    method CreateTopicSubscriber(code: string, name: string)
      requires broker.Valid()
      modifies this, broker
      ensures broker.Valid()
      ensures var s := Register(old(broker.State()), old(subscribers), broker.faults, |old(broker.trace)|, code, name);
        broker.trace == old(broker.trace) + s.steps && broker.State() == s.after && subscribers == s.subscribers
    {
      ghost var t0, at, plan := broker.trace, broker.calls, SubscriberPlan(code, name);
      assert plan[..0] == [] && t0 + [] == t0;
      var ok, connection, session, k := Open(broker, code, false, t0, at, plan);
      ok, k := Try(broker, CreateTopic(code), ok, t0, at, plan, 3, k);
      ok, k := TrySubscribe(broker, code, name, ok, t0, at, plan, k);
      if ok {
        subscribers := subscribers[name := code];
      }
      TriedDone(broker.trace, t0, broker.faults, at, plan, k, ok);
      ghost var ran := broker.trace;
      assert ran + [] == ran;
      Finally(broker, ok, session, connection);
      ScopedTrace(broker.trace, t0, plan, k, [], 2, Some(4), ran, []);
    }

    /** Sends `message` to topic `code`, with the topic code as client id; true iff every call up to the send succeeded. */
    method SendMessageTo(code: string, message: string) returns (ok: bool)
      requires broker.Valid()
      modifies broker
      ensures broker.Valid()
      ensures broker.Performed(old(broker.trace),
        SendRun(old(broker.State()), broker.faults, |old(broker.trace)|, code, Topic(code), message), ok)
    {
      ok := SendText(broker, code, Topic(code), message);
    }

    /** Browses topic `code` through its durable subscriber, consuming what it returns. */
    method BrowseMessagesFrom(code: string) returns (messages: map<string, string>)
      requires broker.Valid()
      modifies broker
      ensures broker.Valid()
      ensures broker.Performed(old(broker.trace), BrowseRun(old(broker.State()), broker.faults, |old(broker.trace)|, code), messages)
    {
      ghost var t0, at, st0 := broker.trace, broker.calls, broker.State();
      ghost var body := Repeat(Receive, BrowseDrain(st0, broker.faults, at, code).receives);
      messages := map[];
      var ok, connection, session, consumer, k := BrowseSetUp(code);
      ghost var ran := broker.trace;
      if ok {
        messages := Collect(FromSubscription(BrowseSubscriber(code)));
      } else {
        assert ran + [] == ran;
      }
      ran := broker.trace;
      Finally(broker, consumer, session, connection);
      ScopedTrace(broker.trace, t0, BrowsePlan(code), k, body, 3, Some(5), ran, if k == 6 then body else []);
    }

    /** The set-up of the browse: connection, client id, start, session, topic, durable subscriber. */
    method BrowseSetUp(code: string) returns (ok: bool, connection: bool, session: bool, consumer: bool, ghost k: nat)
      requires broker.Valid()
      modifies broker
      ensures broker.Valid()
      ensures k == FirstFault(broker.faults, |old(broker.trace)|, 6) && (ok <==> k == 6)
      ensures broker.trace == old(broker.trace) + Attempted(BrowsePlan(code), k)
      ensures connection <==> k > 0
      ensures session <==> k > 3
      ensures consumer == ok
      ensures broker.State() == if ok then Opened(old(broker.State()), code) else old(broker.State())
    {
      ghost var t0, at, plan := broker.trace, broker.calls, BrowsePlan(code);
      assert plan[..0] == [] && t0 + [] == t0;
      ok, connection, session, k := Open(broker, code, true, t0, at, plan);
      ok, k := Try(broker, CreateTopic(code), ok, t0, at, plan, 4, k);
      ok, k := TrySubscribe(broker, code, BrowseSubscriber(code), ok, t0, at, plan, k);
      consumer := ok;
      TriedDone(broker.trace, t0, broker.faults, at, plan, k, ok);
    }

    /**
     * The receive loop of a browse: each message received is put under the
     * decimal string of the counter `elements`, which starts at 1; the loop
     * ends at a null or at a receive that throws.
     */
    method Collect(src: Source) returns (messages: map<string, string>)
      requires broker.Valid()
      modifies broker
      ensures var d := Drain(Pending(old(broker.State()), src), broker.faults, |old(broker.trace)|);
        && broker.Valid() && broker.trace == old(broker.trace) + Repeat(Receive, d.receives)
        && broker.State() == Dropped(old(broker.State()), src, |d.got|)
        && messages == Numbered(d.got)
    {
      ghost var t0, at, st0 := broker.trace, broker.calls, broker.State();
      ghost var msgs := Pending(st0, src);
      assert Repeat(Receive, |msgs| + 1)[..0] == [] && t0 + [] == t0;
      messages := map[];
      var ok, received := ReceiveNext(broker, src, t0, at, st0, 0);
      var elements := 1;
      ghost var j: nat := if ok then 1 else 0;
      while ok && received.Some?
        invariant Collecting(src, t0, at, st0, j, ok, received, elements, messages)
        decreases |msgs| + 1 - j, if ok then 1 else 0
      {
        messages, elements, ok, received, j := CollectNext(src, t0, at, st0, j, received, elements, messages);
      }
      CollectDone(src, t0, at, st0, j, ok, received, elements, messages);
    }

    /** The state of the receive loop after `j` receives made from trace `t0`. */
    ghost predicate Collecting(src: Source, t0: seq<Step>, at: nat, st0: BrokerState, j: nat, ok: bool,
                               received: Option<string>, elements: int, messages: map<string, string>)
      reads broker
    {
      var msgs := Pending(st0, src);
      && broker.Valid() && Tried(broker.trace, t0, broker.faults, at, Repeat(Receive, |msgs| + 1), j, ok)
      && broker.State() == Dropped(st0, src, if j <= |msgs| then j else |msgs|)
      && (ok && received.Some? ==> 1 <= j <= |msgs| && received.value == msgs[j - 1])
      && (ok && received.None? ==> j == |msgs| + 1)
      && elements == (if ok then j else j + 1) && 1 <= elements <= |msgs| + 1
      && messages == Numbered(msgs[..elements - 1])
    }

    /** One turn of the receive loop: put the message received last, then receive the next one. */
    method CollectNext(src: Source, ghost t0: seq<Step>, ghost at: nat, ghost st0: BrokerState, ghost j: nat,
                       received: Option<string>, elements: int, messages: map<string, string>)
      returns (messages': map<string, string>, elements': int, ok': bool, received': Option<string>, ghost j': nat)
      requires Collecting(src, t0, at, st0, j, true, received, elements, messages) && received.Some?
      modifies broker
      ensures Collecting(src, t0, at, st0, j', ok', received', elements', messages')
      ensures j' == if ok' then j + 1 else j
    {
      ghost var msgs := Pending(st0, src);
      NumberedSnoc(msgs, elements - 1);
      messages' := messages[DecimalString(elements) := received.value];
      elements' := elements + 1;
      ok', received' := ReceiveNext(broker, src, t0, at, st0, j);
      j' := if ok' then j + 1 else j;
    }

    /** Where the receive loop stopped: the messages put are those the drain got. */
    lemma CollectDone(src: Source, t0: seq<Step>, at: nat, st0: BrokerState, j: nat, ok: bool,
                      received: Option<string>, elements: int, messages: map<string, string>)
      requires Collecting(src, t0, at, st0, j, ok, received, elements, messages) && !(ok && received.Some?)
      ensures var d := Drain(Pending(st0, src), broker.faults, at);
        && broker.Valid() && broker.trace == t0 + Repeat(Receive, d.receives)
        && broker.State() == Dropped(st0, src, |d.got|)
        && messages == Numbered(d.got)
    {
      var msgs := Pending(st0, src);
      var d := Drain(msgs, broker.faults, at);
      assert elements - 1 == if ok then |msgs| else j;
      DrainDone(broker.trace, t0, broker.faults, at, st0, src, j, ok, broker.State());
      assert d.got == msgs[..elements - 1];
    }

    /**
     * Drains every registered subscriber of topic `code`, in the registry's
     * iteration order `order`; true iff nothing threw.
     */
    method RemoveMessagesBySubscriberFrom(code: string) returns (ok: bool, ghost order: seq<string>)
      requires broker.Valid()
      modifies broker
      ensures broker.Valid()
      ensures broker.Performed(old(broker.trace), PurgeRun(old(broker.State()), broker.faults, |old(broker.trace)|, code, order), ok)
      ensures SweepOrder(order, subscribers, code, ok)
    {
      ghost var t0, at, st0 := broker.trace, broker.calls, broker.State();
      var connection, session;
      ghost var k;
      ok, connection, session, k := PurgeSetUp(code);
      ghost var ran := broker.trace;
      order := [];
      if ok {
        ok, order := SweepSubscribers(code);
      } else {
        assert ran + [] == ran;
      }
      ghost var body := Sweep(st0, broker.faults, at + 5, code, order).steps;
      ran := broker.trace;
      Finally(broker, false, session, connection);
      ScopedTrace(broker.trace, t0, PurgePlan(code), k, body, 3, None, ran, if k == 5 then body else []);
    }

    /** The set-up of the purge: connection, client id, start, session, topic. */
    method PurgeSetUp(code: string) returns (ok: bool, connection: bool, session: bool, ghost k: nat)
      requires broker.Valid()
      modifies broker
      ensures broker.Valid() && broker.State() == old(broker.State())
      ensures k == FirstFault(broker.faults, |old(broker.trace)|, 5) && (ok <==> k == 5)
      ensures broker.trace == old(broker.trace) + Attempted(PurgePlan(code), k)
      ensures connection <==> k > 0
      ensures session <==> k > 3
    {
      ghost var t0, at, plan := broker.trace, broker.calls, PurgePlan(code);
      assert plan[..0] == [] && t0 + [] == t0;
      ok, connection, session, k := Open(broker, code, true, t0, at, plan);
      ok, k := Try(broker, CreateTopic(code), ok, t0, at, plan, 4, k);
      TriedDone(broker.trace, t0, broker.faults, at, plan, k, ok);
    }

    /**
     * The `for (String subscriber : subscribers.keySet())` loop: the keys are
     * taken in an unspecified order, and each one registered for `code` is
     * drained; a drain that throws ends the loop.
     */
    method SweepSubscribers(code: string) returns (ok: bool, ghost order: seq<string>)
      requires broker.Valid()
      modifies broker
      ensures broker.Valid()
      ensures var s := Sweep(old(broker.State()), broker.faults, |old(broker.trace)|, code, order);
        broker.trace == old(broker.trace) + s.steps && broker.State() == s.after && ok == s.completed
      ensures SweepOrder(order, subscribers, code, ok)
    {
      ghost var t0, at, st0 := broker.trace, broker.calls, broker.State();
      var keys := subscribers.Keys;
      ok := true;
      order := [];
      assert t0 + [] == t0;
      SweptNothing(subscribers, code);
      while ok && keys != {}
        invariant broker.Valid() && keys <= subscribers.Keys
        invariant var s := Sweep(st0, broker.faults, at, code, order);
          broker.trace == t0 + s.steps && broker.State() == s.after && ok == s.completed
        invariant SweptSoFar(order, subscribers, code, keys)
        decreases keys
      {
        var name :| name in keys;
        if subscribers[name] == code {
          ghost var prev := Sweep(st0, broker.faults, at, code, order);
          ok := DrainNext(code, name, prev, t0, at);
          SweepAppend(st0, broker.faults, at, code, order, name);
          SweptOneMore(order, subscribers, code, keys, name);
          order := order + [name];
        } else {
          SweptPast(order, subscribers, code, keys, name);
        }
        keys := keys - {name};
      }
      SweptAll(order, subscribers, code, keys);
    }

    /** The next subscriber's drain, appended to the completed sweep `prev`. */
    method DrainNext(code: string, name: string, ghost prev: Swept, ghost t0: seq<Step>, ghost at: nat) returns (ok: bool)
      requires broker.Valid() && |t0| == at && prev.completed
      requires broker.trace == t0 + prev.steps && broker.State() == prev.after
      modifies broker
      ensures var s := SweepStep(prev, broker.faults, at, code, name);
        broker.Valid() && broker.trace == t0 + s.steps && broker.State() == s.after && ok == s.completed
    {
      ok := DrainSubscriber(code, name);
      StepAppends(broker.trace, t0, prev, broker.faults, at, code, name);
    }

    /**
     * One subscriber of the purge: open it, receive until null, close it; a
     * call that throws propagates and the subscriber is not closed.
     */
    method DrainSubscriber(code: string, name: string) returns (ok: bool)
      requires broker.Valid()
      modifies broker
      ensures var one := SweepOne(old(broker.State()), broker.faults, |old(broker.trace)|, code, name);
        broker.Valid() && broker.trace == old(broker.trace) + one.steps && broker.State() == one.after && ok == one.completed
    {
      ok := broker.CreateDurableSubscriber(code, name);
      if ok {
        ok := ReceiveAll(broker, FromSubscription(name));
        if ok {
          var _ := broker.Call(CloseConsumer);
        }
      }
    }
  }
}
