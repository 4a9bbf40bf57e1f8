/**
 * The scoped-session protocol every service operation follows: acquire
 * connection, session, destination and producer/browser/consumer one call at a
 * time, stop at the first call that throws, then attempt the releases of what
 * was acquired, swallowing their faults.
 */
module Session {
  import opened Wrappers
  import opened Jms

  /**
   * How many of the `n` calls starting at position `at` succeed before the
   * first one that throws (`n` when none throws).
   */
  function FirstFault(faults: set<nat>, at: nat, n: nat): (k: nat)
    ensures k <= n
    ensures forall p :: at <= p < at + k ==> p !in faults
    ensures k < n ==> at + k in faults
    decreases n
  {
    if n == 0 || at in faults then 0 else 1 + FirstFault(faults, at + 1, n - 1)
  }

  /** Faults outside the calls that actually ran do not move the first fault. */
  lemma FirstFaultIgnores(faults: set<nat>, extra: set<nat>, at: nat, n: nat)
    requires forall p :: p in extra && at <= p < at + n ==> p > at + FirstFault(faults, at, n)
    ensures FirstFault(faults + extra, at, n) == FirstFault(faults, at, n)
  {
  }

  /** The steps of `plan` that run when its first `k` calls succeed and call `k` (if any) throws. */
  function Attempted(plan: seq<Step>, k: nat): (ran: seq<Step>)
    ensures |ran| == if k < |plan| then k + 1 else |plan|
  {
    if k < |plan| then plan[..k + 1] else plan
  }

  /** The `finally` block: close consumer, session and connection, each only when it was acquired. */
  function Releases(consumer: bool, session: bool, connection: bool): (r: seq<Step>)
    ensures |r| <= 3
  {
    (if consumer then [CloseConsumer] else [])
    + (if session then [CloseSession] else [])
    + (if connection then [CloseConnection] else [])
  }

  /** `n` repetitions of one call. */
  function Repeat(s: Step, n: nat): (r: seq<Step>)
    ensures |r| == n && forall i :: 0 <= i < n ==> r[i] == s
  {
    if n == 0 then [] else Repeat(s, n - 1) + [s]
  }

  /** Repeating a call that is not a release makes no release. */
  lemma RepeatNoReleases(s: Step, n: nat)
    requires !s.IsRelease()
    ensures NoReleases(Repeat(s, n))
  {
  }

  /** One more repetition, appended after the calls already made. */
  lemma RepeatOnce(t0: seq<Step>, s: Step, n: nat)
    ensures t0 + Repeat(s, n) + [s] == t0 + Repeat(s, n + 1)
  {
  }

  /** No call of `steps` (placed from position `at`) threw, except possibly a release. */
  predicate Clean(steps: seq<Step>, faults: set<nat>, at: nat)
  {
    forall i :: 0 <= i < |steps| && !steps[i].IsRelease() ==> at + i !in faults
  }

  /** After a call that throws, only releases follow: the first fault aborts the rest. */
  predicate AbortsAtFault(steps: seq<Step>, faults: set<nat>, at: nat)
  {
    forall i, j :: 0 <= i < j < |steps| && !steps[i].IsRelease() && at + i in faults ==> steps[j].IsRelease()
  }

  predicate NoReleases(steps: seq<Step>)
  {
    forall i :: 0 <= i < |steps| ==> !steps[i].IsRelease()
  }

  /** Whether the handle acquired by call `at` (if any) is held once the first `k` calls succeeded. */
  predicate Held(at: Option<nat>, k: nat)
  {
    at.Some? && k > at.value
  }

  /**
   * A scoped operation: the acquisition `plan` up to its first fault, then
   * `body` when all of it succeeded, then the releases.  The connection is
   * acquired by call 0, the session by call `sessionAt` and, when present, the
   * consumer that is closed in the `finally` block by call `consumerAt`.
   */
  function Scoped(plan: seq<Step>, k: nat, body: seq<Step>, sessionAt: nat, consumerAt: Option<nat>): seq<Step>
  {
    Attempted(plan, k) + (if k == |plan| then body else [])
    + Releases(Held(consumerAt, k), k > sessionAt, k > 0)
  }

  /**
   * The run ends with the releases of exactly the handles that were
   * acquired, in the order consumer, session, connection, and closes nothing
   * else.
   */
  predicate ClosesExactly(steps: seq<Step>, consumer: bool, session: bool, connection: bool)
  {
    var rel := Releases(consumer, session, connection);
    && (CloseConsumer in steps <==> consumer)
    && (CloseSession in steps <==> session)
    && (CloseConnection in steps <==> connection)
    && |rel| <= |steps| && steps[|steps| - |rel|..] == rel
  }

  /** Cleanness splits over concatenation. */
  lemma CleanAppend(a: seq<Step>, b: seq<Step>, faults: set<nat>, at: nat)
    ensures Clean(a + b, faults, at) <==> Clean(a, faults, at) && Clean(b, faults, at + |a|)
  {
    if Clean(a, faults, at) && Clean(b, faults, at + |a|) {
      forall i | 0 <= i < |a + b| && !(a + b)[i].IsRelease() ensures at + i !in faults {
        if i >= |a| { assert (a + b)[i] == b[i - |a|]; }
      }
    }
    if Clean(a + b, faults, at) {
      forall i | 0 <= i < |a| && !a[i].IsRelease() ensures at + i !in faults {
        assert (a + b)[i] == a[i];
      }
      forall i | 0 <= i < |b| && !b[i].IsRelease() ensures at + |a| + i !in faults {
        assert (a + b)[|a| + i] == b[i];
      }
    }
  }

  /** Aborting at a fault is kept by appending calls that are allowed to follow. */
  lemma AbortsAppend(a: seq<Step>, b: seq<Step>, faults: set<nat>, at: nat)
    requires AbortsAtFault(a, faults, at) && AbortsAtFault(b, faults, at + |a|)
    requires !Clean(a, faults, at) ==> forall i :: 0 <= i < |b| ==> b[i].IsRelease()
    ensures AbortsAtFault(a + b, faults, at)
  {
    forall i, j | 0 <= i < j < |a + b| && !(a + b)[i].IsRelease() && at + i in faults
      ensures (a + b)[j].IsRelease()
    {
      if i < |a| {
        assert (a + b)[i] == a[i];
        assert !Clean(a, faults, at);
        if j >= |a| { assert (a + b)[j] == b[j - |a|]; }
      } else {
        assert (a + b)[i] == b[i - |a|] && (a + b)[j] == b[j - |a|];
      }
    }
  }

  /** The attempted prefix of a plan is clean iff the whole plan ran, and only its last call can throw. */
  lemma {:induction false} AttemptedFacts(plan: seq<Step>, faults: set<nat>, at: nat)
    requires NoReleases(plan)
    ensures var ran := Attempted(plan, FirstFault(faults, at, |plan|));
      && (Clean(ran, faults, at) <==> FirstFault(faults, at, |plan|) == |plan|)
      && AbortsAtFault(ran, faults, at)
  {
    var k := FirstFault(faults, at, |plan|);
    var ran := Attempted(plan, k);
    if k < |plan| {
      assert !ran[k].IsRelease() && at + k in faults;
    }
  }

  /** Releases alone are clean and abort nothing. */
  lemma ReleasesFacts(consumer: bool, session: bool, connection: bool, faults: set<nat>, at: nat)
    ensures var r := Releases(consumer, session, connection);
      && (forall i :: 0 <= i < |r| ==> r[i].IsRelease())
      && Clean(r, faults, at) && AbortsAtFault(r, faults, at)
  {
  }

  /** Each handle is closed exactly when it was acquired. */
  lemma ReleasesClose(consumer: bool, session: bool, connection: bool)
    ensures var r := Releases(consumer, session, connection);
      && (CloseConsumer in r <==> consumer)
      && (CloseSession in r <==> session)
      && (CloseConnection in r <==> connection)
  {
  }

  /** Releases appended after calls that close neither session nor connection: those two are closed exactly as asked, last. */
  lemma ReleasesAfter(pre: seq<Step>, consumer: bool, session: bool, connection: bool)
    requires CloseSession !in pre && CloseConnection !in pre
    ensures var rel := Releases(consumer, session, connection);
      var steps := pre + rel;
      && (CloseSession in steps <==> session)
      && (CloseConnection in steps <==> connection)
      && (CloseConsumer in steps <==> CloseConsumer in pre || consumer)
      && |rel| <= |steps| && steps[|steps| - |rel|..] == rel
  {
    var rel := Releases(consumer, session, connection);
    ReleasesClose(consumer, session, connection);
    assert (pre + rel)[|pre + rel| - |rel|..] == rel;
  }

  /**
   * The protocol's central facts: the run is clean iff every acquisition and
   * every body call succeeded; a fault aborts all later non-release calls; and
   * the releases come last.
   */
  lemma ScopedFacts(plan: seq<Step>, faults: set<nat>, at: nat, body: seq<Step>,
                    sessionAt: nat, consumerAt: Option<nat>)
    requires NoReleases(plan)
    requires AbortsAtFault(body, faults, at + |plan|)
    ensures var k := FirstFault(faults, at, |plan|);
      var steps := Scoped(plan, k, body, sessionAt, consumerAt);
      && (Clean(steps, faults, at) <==> k == |plan| && Clean(body, faults, at + |plan|))
      && AbortsAtFault(steps, faults, at)
  {
    var k := FirstFault(faults, at, |plan|);
    var ran := Attempted(plan, k);
    var mid: seq<Step> := if k == |plan| then body else [];
    var rel := Releases(Held(consumerAt, k), k > sessionAt, k > 0);
    AttemptedFacts(plan, faults, at);
    ReleasesFacts(Held(consumerAt, k), k > sessionAt, k > 0, faults, at + |ran| + |mid|);
    CleanAppend(ran, mid, faults, at);
    CleanAppend(ran + mid, rel, faults, at);
    assert AbortsAtFault(mid, faults, at + |ran|);
    AbortsAppend(ran, mid, faults, at);
    AbortsAppend(ran + mid, rel, faults, at);
  }

  /** What a receive-until-null loop got, how many receives it made, and whether it reached the null. */
  datatype Drained = Drained(got: seq<string>, receives: nat, completed: bool)

  /**
   * `receive` repeated until it yields null, over the pending messages `msgs`,
   * the first receive at position `at`: a receive that throws ends the loop.
   */
  function Drain(msgs: seq<string>, faults: set<nat>, at: nat): (d: Drained)
    ensures |d.got| <= |msgs|
  {
    var j := FirstFault(faults, at, |msgs| + 1);
    if j == |msgs| + 1 then Drained(msgs, |msgs| + 1, true)
    else Drained(msgs[..j], j + 1, false)
  }

  /**
   * The drain receives the pending messages in order; it completes exactly when
   * none of its `|msgs| + 1` receives throws, and then it got every message;
   * otherwise it stopped at the receive that threw.
   */
  lemma DrainSpec(msgs: seq<string>, faults: set<nat>, at: nat)
    ensures var d := Drain(msgs, faults, at);
      && d.got == msgs[..|d.got|]
      && (d.completed <==> forall p :: at <= p < at + |msgs| + 1 ==> p !in faults)
      && (d.completed ==> d.got == msgs && d.receives == |msgs| + 1)
      && (!d.completed ==> d.receives == |d.got| + 1 && at + |d.got| in faults)
      && forall p :: at <= p < at + |d.got| ==> p !in faults
  {
  }

  /** A drain's receives are clean exactly when it reached the null, and a faulting receive is its last. */
  lemma DrainFacts(msgs: seq<string>, faults: set<nat>, at: nat)
    ensures var d := Drain(msgs, faults, at);
      && NoReleases(Repeat(Receive, d.receives))
      && (Clean(Repeat(Receive, d.receives), faults, at) <==> d.completed)
      && AbortsAtFault(Repeat(Receive, d.receives), faults, at)
  {
    var d := Drain(msgs, faults, at);
    var r := Repeat(Receive, d.receives);
    DrainSpec(msgs, faults, at);
    if !d.completed {
      assert !r[|d.got|].IsRelease();
    }
  }

  /** The create step for a producer's destination. */
  function DestinationStep(dest: Destination): Step
  {
    match dest
    case Queue(q) => CreateQueue(q)
    case Topic(t) => CreateTopic(t)
  }

  /** The calls of a send: `createProducer(destination).send(createTextMessage(body))` after the set-up, no `start()`. */
  function SendPlan(clientId: string, dest: Destination, body: string): seq<Step>
  {
    [CreateConnection, SetClientId(clientId), CreateSession, DestinationStep(dest),
     CreateProducer, CreateTextMessage(body), SendMessage]
  }

  /** Sending one text message; the producer is never closed, only session and connection. */
  function SendRun(st: BrokerState, faults: set<nat>, at: nat, clientId: string, dest: Destination, body: string): Run<bool>
  {
    var plan := SendPlan(clientId, dest, body);
    var k := FirstFault(faults, at, |plan|);
    Run(Scoped(plan, k, [], 2, None), k == |plan|, if k == |plan| then Deliver(st, dest, body) else st)
  }

  /**
   * A send succeeds iff none of its seven calls (connection, client id,
   * session, destination, producer, text message, send) throws; on success the
   * body is delivered once, otherwise the broker is untouched.
   */
  lemma SendSucceedsIff(st: BrokerState, faults: set<nat>, at: nat, clientId: string, dest: Destination, body: string)
    ensures var r := SendRun(st, faults, at, clientId, dest, body);
      && (r.result <==> forall p :: at <= p < at + 7 ==> p !in faults)
      && (r.result <==> Clean(r.steps, faults, at))
      && r.after == (if r.result then Deliver(st, dest, body) else st)
  {
    var plan := SendPlan(clientId, dest, body);
    ScopedFacts(plan, faults, at, [], 2, None);
  }

  /** A call that the plan does not contain is not among its attempted calls, and releases are never attempted. */
  lemma AttemptedExcludes(plan: seq<Step>, k: nat, s: Step)
    requires s !in plan || (NoReleases(plan) && s.IsRelease())
    ensures s !in Attempted(plan, k)
  {
  }

  /** Where each part of a scoped run sits: the attempted plan first, then the body, then the releases. */
  lemma ScopedLayout(plan: seq<Step>, k: nat, body: seq<Step>, sessionAt: nat, consumerAt: Option<nat>)
    ensures var steps := Scoped(plan, k, body, sessionAt, consumerAt);
      var ran := Attempted(plan, k);
      var rel := Releases(Held(consumerAt, k), k > sessionAt, k > 0);
      && (forall i :: 0 <= i < |ran| ==> steps[i] == plan[i])
      && (k == |plan| ==> forall i :: 0 <= i < |body| ==> steps[|plan| + i] == body[i])
      && |steps| == |ran| + (if k == |plan| then |body| else 0) + |rel|
      && steps[|steps| - |rel|..] == rel
  {
    var ran := Attempted(plan, k);
    var mid: seq<Step> := if k == |plan| then body else [];
    var rel := Releases(Held(consumerAt, k), k > sessionAt, k > 0);
    var steps := Scoped(plan, k, body, sessionAt, consumerAt);
    assert steps == (ran + mid) + rel;
    assert steps[|steps| - |rel|..] == rel;
    forall i | 0 <= i < |ran| ensures steps[i] == plan[i] {
      assert steps[i] == (ran + mid)[i] == ran[i];
    }
    if k == |plan| {
      forall i | 0 <= i < |body| ensures steps[|plan| + i] == body[i] {
        assert steps[|plan| + i] == (ran + mid)[|plan| + i];
      }
    }
  }

  /**
   * In a scoped run whose plan and body make no release, each handle is
   * closed exactly when it was acquired, and the releases come last.
   */
  lemma ScopedCloses(plan: seq<Step>, k: nat, body: seq<Step>, sessionAt: nat, consumerAt: Option<nat>)
    requires NoReleases(plan) && NoReleases(body)
    ensures var steps := Scoped(plan, k, body, sessionAt, consumerAt);
      var rel := Releases(Held(consumerAt, k), k > sessionAt, k > 0);
      && (CloseConsumer in steps <==> Held(consumerAt, k))
      && (CloseSession in steps <==> k > sessionAt)
      && (CloseConnection in steps <==> k > 0)
      && steps[|steps| - |rel|..] == rel
      && forall x :: x in steps && !x.IsRelease() ==> x in plan || x in body
  {
    var ran := Attempted(plan, k);
    var mid: seq<Step> := if k == |plan| then body else [];
    var rel := Releases(Held(consumerAt, k), k > sessionAt, k > 0);
    assert Scoped(plan, k, body, sessionAt, consumerAt) == (ran + mid) + rel;
    assert NoReleases(ran + mid);
    ReleasesFacts(Held(consumerAt, k), k > sessionAt, k > 0, {}, 0);
    ReleasesClose(Held(consumerAt, k), k > sessionAt, k > 0);
  }

  /** A scoped run whose plan and body make no release closes exactly the handles it acquired, last. */
  lemma ScopedReleases(plan: seq<Step>, k: nat, body: seq<Step>, sessionAt: nat, consumerAt: Option<nat>)
    requires NoReleases(plan) && NoReleases(body)
    ensures ClosesExactly(Scoped(plan, k, body, sessionAt, consumerAt), Held(consumerAt, k), k > sessionAt, k > 0)
  {
    ScopedCloses(plan, k, body, sessionAt, consumerAt);
  }

  /**
   * The shape of any scoped run whose plan and body make no release: the
   * attempted calls follow the plan, each handle is closed exactly when it
   * was acquired, the releases come last, and every other call comes from
   * the plan or the body.
   */
  lemma ScopedShape(steps: seq<Step>, plan: seq<Step>, k: nat, body: seq<Step>, sessionAt: nat, consumerAt: Option<nat>)
    requires steps == Scoped(plan, k, body, sessionAt, consumerAt)
    requires NoReleases(plan) && NoReleases(body)
    ensures && (forall i :: 0 <= i < |plan| && i <= k ==> steps[i] == plan[i])
      && ClosesExactly(steps, Held(consumerAt, k), k > sessionAt, k > 0)
      && forall x :: x in steps && !x.IsRelease() ==> x in plan || x in body
  {
    ScopedLayout(plan, k, body, sessionAt, consumerAt);
    ScopedCloses(plan, k, body, sessionAt, consumerAt);
  }

  /** A plan whose calls are pairwise distinct: once it aborts, none of its later calls appears. */
  lemma ScopedSkipsRest(plan: seq<Step>, k: nat, body: seq<Step>, sessionAt: nat, consumerAt: Option<nat>)
    requires NoReleases(plan)
    requires forall m, i :: 0 <= m < i < |plan| ==> plan[m] != plan[i]
    ensures forall i :: k < i < |plan| ==> plan[i] !in Scoped(plan, k, body, sessionAt, consumerAt)
  {
    var ran := Attempted(plan, k);
    var rel := Releases(Held(consumerAt, k), k > sessionAt, k > 0);
    forall i | k < i < |plan| ensures plan[i] !in Scoped(plan, k, body, sessionAt, consumerAt) {
      assert Scoped(plan, k, body, sessionAt, consumerAt) == ran + rel;
      assert !plan[i].IsRelease();
    }
  }

  /** The seven calls of a send are distinct, none is a release, and none is `start()`. */
  lemma SendPlanFacts(clientId: string, dest: Destination, body: string)
    ensures var plan := SendPlan(clientId, dest, body);
      && |plan| == 7 && NoReleases(plan) && Start !in plan
      && forall m, i :: 0 <= m < i < |plan| ==> plan[m] != plan[i]
  {
  }

  /**
   * A send aborts at its first fault: no later call of the plan is made (a
   * producer fault means no text message and no send).
   */
  lemma SendAborts(st: BrokerState, faults: set<nat>, at: nat, clientId: string, dest: Destination, body: string)
    ensures var r := SendRun(st, faults, at, clientId, dest, body);
      var plan := SendPlan(clientId, dest, body);
      && AbortsAtFault(r.steps, faults, at)
      && forall i :: FirstFault(faults, at, |plan|) < i < |plan| ==> plan[i] !in r.steps
  {
    var plan := SendPlan(clientId, dest, body);
    var k := FirstFault(faults, at, |plan|);
    SendPlanFacts(clientId, dest, body);
    ScopedFacts(plan, faults, at, [], 2, None);
    ScopedSkipsRest(plan, k, [], 2, None);
  }

  /**
   * A send never calls `start()`, never closes the producer, and ends by
   * closing session then connection, each exactly when it was acquired.
   */
  lemma SendReleases(st: BrokerState, faults: set<nat>, at: nat, clientId: string, dest: Destination, body: string)
    ensures var r := SendRun(st, faults, at, clientId, dest, body);
      var k := FirstFault(faults, at, 7);
      && Start !in r.steps
      && ClosesExactly(r.steps, false, k > 2, k > 0)
  {
    var plan := SendPlan(clientId, dest, body);
    var k := FirstFault(faults, at, |plan|);
    var none: Option<nat> := None;
    assert !Held(none, k);
    SendPlanReleasesNothing(clientId, dest, body);
    ScopedShape(SendRun(st, faults, at, clientId, dest, body).steps, plan, k, [], 2, none);
  }

  /** The send plan has no release and no `start()`. */
  lemma SendPlanReleasesNothing(clientId: string, dest: Destination, body: string)
    ensures NoReleases(SendPlan(clientId, dest, body)) && Start !in SendPlan(clientId, dest, body) && NoReleases([])
  {
  }

  /** Faults injected into the releases (or outside the operation) change nothing: close faults are swallowed. */
  lemma SendIgnoresReleaseFaults(st: BrokerState, faults: set<nat>, extra: set<nat>, at: nat,
                                 clientId: string, dest: Destination, body: string)
    requires var r := SendRun(st, faults, at, clientId, dest, body);
      forall p :: p in extra && at <= p < at + |r.steps| ==> r.steps[p - at].IsRelease()
    ensures SendRun(st, faults + extra, at, clientId, dest, body) == SendRun(st, faults, at, clientId, dest, body)
  {
    var plan := SendPlan(clientId, dest, body);
    var k := FirstFault(faults, at, |plan|);
    SendPlanFacts(clientId, dest, body);
    ScopedLayout(plan, k, [], 2, None);
    FirstFaultIgnores(faults, extra, at, |plan|);
  }

  /**
   * The `finally` block: `closeMessageConsumer`, `closeSession` and
   * `closeConnection` in that order, each attempted only on a handle that was
   * acquired (closing null throws before reaching the driver), whatever they
   * throw swallowed.
   */
  method Finally(b: Broker, consumer: bool, session: bool, connection: bool)
    requires b.Valid()
    modifies b
    ensures b.Valid() && b.trace == old(b.trace) + Releases(consumer, session, connection)
    ensures b.State() == old(b.State())
  {
    if consumer {
      var _ := b.Call(CloseConsumer);
    }
    if session {
      var _ := b.Call(CloseSession);
    }
    if connection {
      var _ := b.Call(CloseConnection);
    }
  }

  /**
   * Progress through the acquisition `plan` of an operation that started with
   * trace `t0` at position `at`: while `ok`, its first `k` calls succeeded; once
   * not `ok`, call `k` was the first that threw and nothing was called after it.
   */
  ghost predicate Tried(trace: seq<Step>, t0: seq<Step>, faults: set<nat>, at: nat, plan: seq<Step>, k: nat, ok: bool)
  {
    && k <= |plan| && |t0| == at
    && (forall p :: at <= p < at + k ==> p !in faults)
    && (ok ==> trace == t0 + plan[..k])
    && (!ok ==> k < |plan| && at + k in faults && trace == t0 + plan[..k + 1])
  }

  /** Making call `k` of the plan advances the progress, or stops it at `k` when the call throws. */
  lemma TryNext(before: seq<Step>, trace: seq<Step>, t0: seq<Step>, faults: set<nat>, at: nat, plan: seq<Step>, k: nat)
    requires k < |plan| && trace == before + [plan[k]]
    requires Tried(before, t0, faults, at, plan, k, true)
    ensures at + k !in faults ==> Tried(trace, t0, faults, at, plan, k + 1, true)
    ensures at + k in faults ==> Tried(trace, t0, faults, at, plan, k, false)
  {
    assert plan[..k + 1] == plan[..k] + [plan[k]];
  }

  /**
   * At the end of the acquisition (the plan completed, or a call threw), the
   * progress is the first fault and the calls made are its attempted prefix.
   */
  lemma TriedDone(trace: seq<Step>, t0: seq<Step>, faults: set<nat>, at: nat, plan: seq<Step>, k: nat, ok: bool)
    requires Tried(trace, t0, faults, at, plan, k, ok) && (ok ==> k == |plan|)
    ensures k == FirstFault(faults, at, |plan|) && trace == t0 + Attempted(plan, k) && (ok <==> k == |plan|)
  {
    assert plan[..|plan|] == plan;
  }

  /**
   * One call of the acquisition, skipped once an earlier call has thrown (the
   * rest of the `try` block does not run).
   */
  method Try(b: Broker, s: Step, ok: bool, ghost t0: seq<Step>, ghost at: nat, ghost plan: seq<Step>,
             ghost i: nat, ghost k: nat)
    returns (ok': bool, ghost k': nat)
    requires b.Valid() && Tried(b.trace, t0, b.faults, at, plan, k, ok)
    requires i < |plan| && plan[i] == s && (ok ==> k == i)
    modifies b
    ensures b.Valid() && Tried(b.trace, t0, b.faults, at, plan, k', ok') && b.State() == old(b.State())
    ensures ok' ==> k' == i + 1
    ensures !ok' ==> k' == k
    ensures k' >= k
    ensures !ok ==> !ok' && b.trace == old(b.trace)
  {
    ok', k' := ok, k;
    if ok {
      ghost var before := b.trace;
      ok' := b.Call(s);
      TryNext(before, b.trace, t0, b.faults, at, plan, k);
      if ok' { k' := k + 1; }
    }
  }

  /**
   * The `createDurableSubscriber` call of an acquisition: on success the
   * subscription `name` exists on `topic`.
   */
  method TrySubscribe(b: Broker, topic: string, name: string, ok: bool, ghost t0: seq<Step>, ghost at: nat,
                      ghost plan: seq<Step>, ghost k: nat)
    returns (ok': bool, ghost k': nat)
    requires b.Valid() && Tried(b.trace, t0, b.faults, at, plan, k, ok)
    requires ok ==> k < |plan| && plan[k] == CreateDurableSubscriber(name)
    modifies b
    ensures b.Valid() && Tried(b.trace, t0, b.faults, at, plan, k', ok')
    ensures ok' ==> ok && k' == k + 1
    ensures !ok' ==> k' == k
    ensures b.State() == if ok' then Subscribe(old(b.State()), topic, name) else old(b.State())
  {
    ok', k' := ok, k;
    if ok {
      ghost var before := b.trace;
      ok' := b.CreateDurableSubscriber(topic, name);
      TryNext(before, b.trace, t0, b.faults, at, plan, k);
      if ok' { k' := k + 1; }
    }
  }

  /** The session's index in a plan that opens with connection, client id, optionally `start()`, session. */
  function SessionAt(start: bool): nat
  {
    if start then 3 else 2
  }

  /** `plan` opens the way every operation does: `createConnection`, `setClientID`, `start` when asked, `createSession`. */
  predicate OpensWith(plan: seq<Step>, clientId: string, start: bool)
  {
    && SessionAt(start) < |plan|
    && plan[0] == CreateConnection && plan[1] == SetClientId(clientId)
    && (start ==> plan[2] == Start)
    && plan[SessionAt(start)] == CreateSession
  }

  /**
   * The opening calls shared by every operation; `connection` and `session`
   * say which handles were acquired, so which the `finally` block closes.
   */
  method Open(b: Broker, clientId: string, start: bool, ghost t0: seq<Step>, ghost at: nat, ghost plan: seq<Step>)
    returns (ok: bool, connection: bool, session: bool, ghost k: nat)
    requires b.Valid() && Tried(b.trace, t0, b.faults, at, plan, 0, true) && OpensWith(plan, clientId, start)
    modifies b
    ensures b.Valid() && Tried(b.trace, t0, b.faults, at, plan, k, ok) && b.State() == old(b.State())
    ensures ok <==> k == SessionAt(start) + 1
    ensures k <= SessionAt(start) + 1
    ensures connection <==> k > 0
    ensures session <==> k > SessionAt(start)
  {
    ok, k := Try(b, CreateConnection, true, t0, at, plan, 0, 0);
    connection := ok;
    ok, k := Try(b, SetClientId(clientId), ok, t0, at, plan, 1, k);
    if start {
      ok, k := Try(b, Start, ok, t0, at, plan, 2, k);
    }
    ok, k := Try(b, CreateSession, ok, t0, at, plan, SessionAt(start), k);
    session := ok;
  }

  /**
   * A `sendMessageTo`: connection, client id, session, destination, then
   * `createProducer(destination).send(createTextMessage(body))`; session and
   * connection are closed in the `finally` block.
   */
  method SendText(b: Broker, clientId: string, dest: Destination, body: string) returns (ok: bool)
    requires b.Valid()
    modifies b
    ensures b.Valid()
    ensures b.Performed(old(b.trace), SendRun(old(b.State()), b.faults, |old(b.trace)|, clientId, dest, body), ok)
  {
    ghost var t0, at := b.trace, b.calls;
    ghost var k;
    var connection, session;
    ok, connection, session, k := SendAttempt(b, clientId, dest, body);
    ghost var ran := b.trace;
    Finally(b, false, session, connection);
    SendTrace(b.trace, t0, ran, old(b.State()), b.faults, at, clientId, dest, body, k);
  }

  /** The `try` block of a send: the calls up to the first that throws, and the handles it acquired. */
  method SendAttempt(b: Broker, clientId: string, dest: Destination, body: string)
    returns (ok: bool, connection: bool, session: bool, ghost k: nat)
    requires b.Valid()
    modifies b
    ensures b.Valid()
    ensures k == FirstFault(b.faults, |old(b.trace)|, 7) && (ok <==> k == 7)
    ensures b.trace == old(b.trace) + Attempted(SendPlan(clientId, dest, body), k)
    ensures connection <==> k > 0
    ensures session <==> k > 2
    ensures b.State() == if ok then Deliver(old(b.State()), dest, body) else old(b.State())
  {
    ghost var t0, at, plan := b.trace, b.calls, SendPlan(clientId, dest, body);
    assert plan[..0] == [] && t0 + [] == t0;
    ok, connection, session, k := Open(b, clientId, false, t0, at, plan);
    ok, k := Try(b, DestinationStep(dest), ok, t0, at, plan, 3, k);
    ok, k := Try(b, CreateProducer, ok, t0, at, plan, 4, k);
    ok, k := Try(b, CreateTextMessage(body), ok, t0, at, plan, 5, k);
    if ok {
      ghost var before := b.trace;
      ok := b.Send(dest, body);
      TryNext(before, b.trace, t0, b.faults, at, plan, k);
      if ok { k := k + 1; }
    }
    TriedDone(b.trace, t0, b.faults, at, plan, k, ok);
  }

  /** A trace made of the attempted plan, the body (when the plan completed) and the releases is the scoped run. */
  lemma ScopedTrace(trace: seq<Step>, t0: seq<Step>, plan: seq<Step>, k: nat, body: seq<Step>,
                    sessionAt: nat, consumerAt: Option<nat>, ran: seq<Step>, mid: seq<Step>)
    requires mid == if k == |plan| then body else []
    requires ran == t0 + Attempted(plan, k) + mid
    requires trace == ran + Releases(Held(consumerAt, k), k > sessionAt, k > 0)
    ensures trace == t0 + Scoped(plan, k, body, sessionAt, consumerAt)
  {
    var a, r := Attempted(plan, k), Releases(Held(consumerAt, k), k > sessionAt, k > 0);
    SeqAssoc(t0, a, mid, r);
  }

  lemma AppendAssoc(a: seq<Step>, b: seq<Step>, c: seq<Step>)
    ensures a + b + c == a + (b + c)
  {
  }

  lemma SeqAssoc(t0: seq<Step>, a: seq<Step>, m: seq<Step>, r: seq<Step>)
    ensures t0 + a + m + r == t0 + (a + m + r)
  {
  }

  /** The calls of a send that stopped after `k` successful plan calls and then released what it held. */
  lemma SendTrace(trace: seq<Step>, t0: seq<Step>, ran: seq<Step>, st: BrokerState, faults: set<nat>, at: nat,
                  clientId: string, dest: Destination, body: string, k: nat)
    requires k == FirstFault(faults, at, 7)
    requires ran == t0 + Attempted(SendPlan(clientId, dest, body), k)
    requires trace == ran + Releases(false, k > 2, k > 0)
    ensures trace == t0 + SendRun(st, faults, at, clientId, dest, body).steps
  {
    ScopedTrace(trace, t0, SendPlan(clientId, dest, body), k, [], 2, None, ran, []);
  }

  /** When call `k` is reached without a fault, the first fault is at `k` exactly when call `k` throws. */
  lemma FirstFaultFrom(faults: set<nat>, at: nat, n: nat, k: nat)
    requires k < n && FirstFault(faults, at, n) >= k
    ensures at + k in faults ==> FirstFault(faults, at, n) == k
    ensures at + k !in faults ==> FirstFault(faults, at, n) >= k + 1
  {
  }

  /** The first `j` calls of a repeated call, plus the one that threw. */
  lemma AttemptedRepeat(s: Step, m: nat, j: nat)
    ensures Attempted(Repeat(s, m), j) == Repeat(s, if j < m then j + 1 else m)
  {
    if j < m {
      assert Repeat(s, m)[..j + 1] == Repeat(s, j + 1);
    }
  }

  /**
   * A call repeated up to its first fault: clean exactly when none of the `m`
   * calls threw, and nothing follows the one that threw.
   */
  lemma RepeatedFacts(s: Step, m: nat, faults: set<nat>, at: nat)
    requires !s.IsRelease()
    ensures var n := FirstFault(faults, at, m);
      var calls := Repeat(s, if n < m then n + 1 else m);
      && NoReleases(calls)
      && (Clean(calls, faults, at) <==> n == m)
      && AbortsAtFault(calls, faults, at)
  {
    var n := FirstFault(faults, at, m);
    RepeatNoReleases(s, m);
    RepeatNoReleases(s, if n < m then n + 1 else m);
    AttemptedFacts(Repeat(s, m), faults, at);
    AttemptedRepeat(s, m, n);
  }

  /**
   * One `consumer.receive` of a drain of `src` that has received `n` messages
   * so far without a fault: it throws, or yields the next message, or yields
   * null when none is left.
   */
  method ReceiveNext(b: Broker, src: Source, ghost t0: seq<Step>, ghost at: nat, ghost st0: BrokerState, ghost n: nat)
    returns (ok: bool, m: Option<string>)
    requires var msgs := Pending(st0, src);
      && b.Valid() && Tried(b.trace, t0, b.faults, at, Repeat(Receive, |msgs| + 1), n, true)
      && n <= |msgs| && b.State() == Dropped(st0, src, n)
    modifies b
    ensures var msgs := Pending(st0, src);
      && b.Valid()
      && (!ok ==> Tried(b.trace, t0, b.faults, at, Repeat(Receive, |msgs| + 1), n, false)
                  && b.State() == Dropped(st0, src, n))
      && (ok ==> Tried(b.trace, t0, b.faults, at, Repeat(Receive, |msgs| + 1), n + 1, true)
                 && (m.Some? <==> n < |msgs|)
                 && (m.Some? ==> m.value == msgs[n])
                 && b.State() == Dropped(st0, src, if n < |msgs| then n + 1 else n))
  {
    ghost var before := b.trace;
    ghost var msgs := Pending(st0, src);
    if n < |msgs| {
      DroppedOnce(st0, src, n);
    }
    ok, m := b.Receive(src);
    TryNext(before, b.trace, t0, b.faults, at, Repeat(Receive, |msgs| + 1), n);
  }

  /**
   * A consumer's `receive` loop: one receive, then another for as long as the
   * last one yielded a message.  True iff it stopped at a null rather than at
   * a receive that threw; what it received is consumed either way.
   */
  method ReceiveAll(b: Broker, src: Source) returns (ok: bool)
    requires b.Valid()
    modifies b
    ensures var d := Drain(Pending(old(b.State()), src), b.faults, |old(b.trace)|);
      && b.Valid() && b.trace == old(b.trace) + Repeat(Receive, d.receives)
      && ok == d.completed
      && b.State() == Dropped(old(b.State()), src, |d.got|)
  {
    ghost var t0, at, st0 := b.trace, b.calls, b.State();
    ghost var msgs := Pending(st0, src);
    ghost var plan := Repeat(Receive, |msgs| + 1);
    assert plan[..0] == [] && t0 + [] == t0;
    var m;
    ok, m := ReceiveNext(b, src, t0, at, st0, 0);
    ghost var j: nat := if ok then 1 else 0;
    while ok && m.Some?
      invariant b.Valid() && Tried(b.trace, t0, b.faults, at, plan, j, ok)
      invariant j <= |msgs| ==> b.State() == Dropped(st0, src, j)
      invariant ok && m.Some? ==> 1 <= j <= |msgs|
      invariant ok && m.None? ==> j == |msgs| + 1 && b.State() == Dropped(st0, src, |msgs|)
      decreases |msgs| + 1 - j, if ok then 1 else 0
    {
      ok, m := ReceiveNext(b, src, t0, at, st0, j);
      if ok { j := j + 1; }
    }
    DrainDone(b.trace, t0, b.faults, at, st0, src, j, ok, b.State());
  }

  /** Where the receive loop stopped, as a drain of the pending messages. */
  lemma DrainDone(trace: seq<Step>, t0: seq<Step>, faults: set<nat>, at: nat, st0: BrokerState, src: Source,
                  j: nat, ok: bool, st: BrokerState)
    requires var msgs := Pending(st0, src);
      && Tried(trace, t0, faults, at, Repeat(Receive, |msgs| + 1), j, ok) && (ok ==> j == |msgs| + 1)
      && (j <= |msgs| ==> st == Dropped(st0, src, j))
      && (ok ==> st == Dropped(st0, src, |msgs|))
    ensures var d := Drain(Pending(st0, src), faults, at);
      && trace == t0 + Repeat(Receive, d.receives) && ok == d.completed && st == Dropped(st0, src, |d.got|)
      && d.got == Pending(st0, src)[..if ok then |Pending(st0, src)| else j]
  {
    var msgs := Pending(st0, src);
    TriedDone(trace, t0, faults, at, Repeat(Receive, |msgs| + 1), j, ok);
    AttemptedRepeat(Receive, |msgs| + 1, j);
  }
}
