/** Queued stream subscriptions of `EventMesh` (walrusos/runtime/event_bus.py:44-75,
    107-127, 175-188): what a poll delivers over any run of calls. */
module EventMesh {
  import opened Prelude

  datatype Event = Event(id: string, streamId: string)

  /** A subscription; one without a callback is served through a queue. */
  datatype Sub = Sub(agent: string, callback: bool)

  datatype Mesh = Mesh(subs: map<string, seq<Sub>>, queues: map<string, seq<Event>>)

  datatype Op =
    | Subscribe(agent: string, sid: string, callback: bool)
    | Unsubscribe(agent: string, sid: string)
    | Publish(event: Event)
    | Poll(agent: string, sid: string)

  /** `f"{agent_id}:{sid}"` */
  function Key(agent: string, sid: string): string {
    agent + ":" + sid
  }

  function SubsOf(m: Mesh, sid: string): seq<Sub> {
    if sid in m.subs then m.subs[sid] else []
  }

  function Pending(m: Mesh, key: string): seq<Event> {
    if key in m.queues then m.queues[key] else []
  }

  /** The subscriptions of all agents but one. */
  function Others(subs: seq<Sub>, agent: string): seq<Sub> {
    if subs == [] then []
    else
      var last := subs[|subs| - 1];
      Others(subs[..|subs| - 1], agent) + (if last.agent != agent then [last] else [])
  }

  ghost function OtherPositions(subs: seq<Sub>, n: nat, agent: string): seq<nat> {
    Indices((i: nat) => i < |subs| && subs[i].agent != agent, n)
  }

  /** left are the subscriptions of the other agents, all of them and in order. */
  ghost predicate AreOthers(left: seq<Sub>, subs: seq<Sub>, agent: string) {
    var at := OtherPositions(subs, |subs|, agent);
    |left| == |at| && forall k :: 0 <= k < |at| ==> left[k] == subs[at[k]]
  }

  lemma {:induction false} OthersMeaning(subs: seq<Sub>, n: nat, agent: string)
    requires n <= |subs|
    ensures var at, left := OtherPositions(subs, n, agent), Others(subs[..n], agent);
      |left| == |at| && forall k :: 0 <= k < |at| ==> left[k] == subs[at[k]]
  {
    if n > 0 {
      assert subs[..n][..n - 1] == subs[..n - 1] && subs[..n][n - 1] == subs[n - 1];
      OthersMeaning(subs, n - 1, agent);
    }
  }

  /** Serving a publication to the subscriptions in turn; a queue that is
      missing is passed over. */
  function Pushed(queues: map<string, seq<Event>>, subs: seq<Sub>, e: Event): map<string, seq<Event>> {
    if subs == [] then queues
    else
      var q := Pushed(queues, subs[..|subs| - 1], e);
      var last := subs[|subs| - 1];
      var key := Key(last.agent, e.streamId);
      if !last.callback && key in q then q[key := q[key] + [e]] else q
  }

  /** One call. */
  function Step(m: Mesh, op: Op): Mesh {
    match op
    case Subscribe(a, s, cb) =>
      Mesh(m.subs[s := SubsOf(m, s) + [Sub(a, cb)]],
           if !cb && Key(a, s) !in m.queues then m.queues[Key(a, s) := []] else m.queues)
    case Unsubscribe(a, s) =>
      var left := Others(SubsOf(m, s), a);
      Mesh(if s !in m.subs then m.subs else if left == [] then m.subs - {s} else m.subs[s := left],
           m.queues - {Key(a, s)})
    case Publish(e) => Mesh(m.subs, Pushed(m.queues, SubsOf(m, e.streamId), e))
    case Poll(a, s) => if Key(a, s) in m.queues then Mesh(m.subs, m.queues[Key(a, s) := []]) else m
  }

  const EMPTY := Mesh(map[], map[])

  function Run(ops: seq<Op>): Mesh {
    if ops == [] then EMPTY else Step(Run(ops[..|ops| - 1]), ops[|ops| - 1])
  }

  // ------------------------------------------------- what an agent is owed

  /** Queue subscriptions of a to s that are live after ops: those made since
      its last unsubscription. */
  function Live(ops: seq<Op>, a: string, s: string): nat {
    if ops == [] then 0
    else
      var before := Live(ops[..|ops| - 1], a, s);
      match ops[|ops| - 1]
      case Subscribe(b, t, cb) => if b == a && t == s && !cb then before + 1 else before
      case Unsubscribe(b, t) => if b == a && t == s then 0 else before
      case _ => before
  }

  function Repeat(e: Event, n: nat): seq<Event> {
    if n == 0 then [] else Repeat(e, n - 1) + [e]
  }

  /** The events published on s since a last unsubscribed, each once for every
      queue subscription live when it was published. */
  function Owed(ops: seq<Op>, a: string, s: string): seq<Event> {
    if ops == [] then []
    else
      var front := ops[..|ops| - 1];
      match ops[|ops| - 1]
      case Unsubscribe(b, t) => if b == a && t == s then [] else Owed(front, a, s)
      case Publish(e) => if e.streamId == s then Owed(front, a, s) + Repeat(e, Live(front, a, s)) else Owed(front, a, s)
      case _ => Owed(front, a, s)
  }

  /** What the polls have returned since a last unsubscribed. */
  function Polled(ops: seq<Op>, a: string, s: string): seq<Event> {
    if ops == [] then []
    else
      var front := ops[..|ops| - 1];
      match ops[|ops| - 1]
      case Unsubscribe(b, t) => if b == a && t == s then [] else Polled(front, a, s)
      case Poll(b, t) =>
        if b == a && t == s then Polled(front, a, s) + Pending(Run(front), Key(a, s)) else Polled(front, a, s)
      case _ => Polled(front, a, s)
  }

  /** No other agent and stream in the run share a's and s's queue name. */
  ghost predicate Alone(ops: seq<Op>, a: string, s: string) {
    forall i :: 0 <= i < |ops| ==>
      match ops[i]
      case Subscribe(b, t, _) => Key(b, t) == Key(a, s) ==> b == a && t == s
      case Unsubscribe(b, t) => Key(b, t) == Key(a, s) ==> b == a && t == s
      case Poll(b, t) => Key(b, t) == Key(a, s) ==> b == a && t == s
      case Publish(_) => true
  }

  /** The queue subscriptions of a among subs. */
  function Queued(subs: seq<Sub>, a: string): nat {
    if subs == [] then 0
    else
      var last := subs[|subs| - 1];
      Queued(subs[..|subs| - 1], a) + (if last.agent == a && !last.callback then 1 else 0)
  }

  lemma {:induction false} QueuedOthers(subs: seq<Sub>, a: string, b: string)
    ensures Queued(Others(subs, b), a) == if a == b then 0 else Queued(subs, a)
  {
    if subs != [] {
      var n := |subs| - 1;
      QueuedOthers(subs[..n], a, b);
      var left := Others(subs[..n], b);
      QueuedSnoc(left, subs[n], a);
      assert left + [] == left;
    }
  }

  lemma {:induction false} QueuedSnoc(subs: seq<Sub>, x: Sub, a: string)
    ensures Queued(subs + [x], a) == Queued(subs, a) + (if x.agent == a && !x.callback then 1 else 0)
  {
    assert (subs + [x])[..|subs|] == subs;
  }

  /** Of the subscriptions to t, only those of a to s use a's and s's queue. */
  ghost predicate Known(a: string, s: string, subs: seq<Sub>, t: string) {
    forall i :: 0 <= i < |subs| && Key(subs[i].agent, t) == Key(a, s) ==> subs[i].agent == a && t == s
  }

  lemma {:induction false} OthersKnown(a: string, s: string, subs: seq<Sub>, t: string, b: string)
    requires Known(a, s, subs, t)
    ensures Known(a, s, Others(subs, b), t)
  {
    if subs != [] {
      OthersKnown(a, s, subs[..|subs| - 1], t, b);
    }
  }

  /** A publication puts one copy of the event in a's queue for each of its
      queue subscriptions. */
  lemma {:induction false} PushedQueue(queues: map<string, seq<Event>>, subs: seq<Sub>, e: Event, a: string, s: string)
    requires Known(a, s, subs, e.streamId)
    ensures Pushed(queues, subs, e).Keys == queues.Keys
    ensures Key(a, s) in queues ==>
      Pushed(queues, subs, e)[Key(a, s)]
        == queues[Key(a, s)] + (if e.streamId == s then Repeat(e, Queued(subs, a)) else [])
  {
    if subs != [] {
      hide Key;
      PushedQueue(queues, subs[..|subs| - 1], e, a, s);
      assert Key(subs[|subs| - 1].agent, e.streamId) == Key(a, s) <==> subs[|subs| - 1].agent == a && e.streamId == s;
    }
  }

  lemma {:induction false} AlonePrefix(ops: seq<Op>, a: string, s: string)
    requires ops != [] && Alone(ops, a, s)
    ensures Alone(ops[..|ops| - 1], a, s)
  {
    hide Key;
    forall i | 0 <= i < |ops| - 1 ensures ops[..|ops| - 1][i] == ops[i] {
    }
  }

  /** The part of the state that is about subscriptions. */
  ghost predicate Counted(ops: seq<Op>, a: string, s: string) {
    var m := Run(ops);
    && (forall t :: t in m.subs ==> Known(a, s, m.subs[t], t))
    && Queued(SubsOf(m, s), a) == Live(ops, a, s)
    && (Key(a, s) in m.queues <==> Live(ops, a, s) > 0)
  }

  lemma {:induction false} KnownSnoc(a: string, s: string, subs: seq<Sub>, t: string, sub: Sub)
    requires Known(a, s, subs, t) && (Key(sub.agent, t) == Key(a, s) ==> sub.agent == a && t == s)
    ensures Known(a, s, subs + [sub], t)
  {
    hide Key;
  }

  lemma {:induction false} SubscribeCounted(front: seq<Op>, op: Op, a: string, s: string)
    requires op.Subscribe? && Counted(front, a, s)
    requires Key(op.agent, op.sid) == Key(a, s) ==> op.agent == a && op.sid == s
    ensures Counted(front + [op], a, s)
  {
    hide Key, Known, Queued;
    var ops := front + [op];
    assert ops[..|ops| - 1] == front;
    var m, m' := Run(front), Run(ops);
    var subs := SubsOf(m, op.sid);
    var subs' := subs + [Sub(op.agent, op.callback)];
    QueuedSnoc(subs, Sub(op.agent, op.callback), a);
    NobodyKnown(a, s, op.sid);
    KnownSnoc(a, s, subs, op.sid, Sub(op.agent, op.callback));
    assert SubsOf(m', op.sid) == subs';
    if op.sid != s {
      assert SubsOf(m', s) == SubsOf(m, s);
    }
  }

  lemma {:induction false} UnsubscribeCounted(front: seq<Op>, op: Op, a: string, s: string)
    requires op.Unsubscribe? && Counted(front, a, s)
    requires Key(op.agent, op.sid) == Key(a, s) ==> op.agent == a && op.sid == s
    ensures Counted(front + [op], a, s)
  {
    hide Key, Known;
    var ops := front + [op];
    assert ops[..|ops| - 1] == front;
    var m, m' := Run(front), Run(ops);
    NobodyKnown(a, s, op.sid);
    var left := Others(SubsOf(m, op.sid), op.agent);
    OthersKnown(a, s, SubsOf(m, op.sid), op.sid, op.agent);
    QueuedOthers(SubsOf(m, op.sid), a, op.agent);
    assert SubsOf(m', op.sid) == left;
    if op.sid != s {
      assert SubsOf(m', s) == SubsOf(m, s);
    }
  }

  lemma {:induction false} OtherCounted(front: seq<Op>, op: Op, a: string, s: string)
    requires (op.Publish? || op.Poll?) && Counted(front, a, s)
    ensures Counted(front + [op], a, s)
  {
    hide Key, Known;
    var ops := front + [op];
    assert ops[..|ops| - 1] == front;
    if op.Publish? {
      var m := Run(front);
      PushedKeys(m.queues, SubsOf(m, op.event.streamId), op.event);
    }
  }

  lemma {:induction false} PushedKeys(queues: map<string, seq<Event>>, subs: seq<Sub>, e: Event)
    ensures Pushed(queues, subs, e).Keys == queues.Keys
  {
    if subs != [] {
      PushedKeys(queues, subs[..|subs| - 1], e);
    }
  }

  /** In every state, an agent has a queue for a stream exactly when it has a
      live queue subscription there. */
  lemma {:induction false} QueuesMatchSubscriptions(ops: seq<Op>, a: string, s: string)
    requires Alone(ops, a, s)
    ensures Counted(ops, a, s)
  {
    if ops != [] {
      var front, op := ops[..|ops| - 1], ops[|ops| - 1];
      AlonePrefix(ops, a, s);
      QueuesMatchSubscriptions(front, a, s);
      assert ops == front + [op];
      hide Counted, Key;
      match op {
        case Subscribe(_, _, _) => SubscribeCounted(front, op, a, s);
        case Unsubscribe(_, _) => UnsubscribeCounted(front, op, a, s);
        case Publish(_) => OtherCounted(front, op, a, s);
        case Poll(_, _) => OtherCounted(front, op, a, s);
      }
    }
  }

  /** Over every interleaving of calls: what the polls returned, followed by what
      is still queued, is what was published on the stream while the agent was
      subscribed, in order, each event once per queue subscription. */
  lemma {:induction false} DeliveredIsOwed(ops: seq<Op>, a: string, s: string)
    requires Alone(ops, a, s)
    ensures Polled(ops, a, s) + Pending(Run(ops), Key(a, s)) == Owed(ops, a, s)
  {
    if ops != [] {
      var front, op := ops[..|ops| - 1], ops[|ops| - 1];
      AlonePrefix(ops, a, s);
      DeliveredIsOwed(front, a, s);
      QueuesMatchSubscriptions(front, a, s);
      KeyOf(ops, |ops| - 1, a, s);
      hide Key, Alone, Counted, Polled, Pending, Owed, Run;
      assert ops == front + [op];
      if op.Publish? {
        PublishOwed(front, op.event, a, s);
      } else if op.Subscribe? {
        SubscribeOwed(front, op, a, s);
      } else {
        DrainOwed(front, op, a, s);
      }
    }
  }

  lemma {:induction false} SubscribeOwed(front: seq<Op>, op: Op, a: string, s: string)
    requires op.Subscribe?
    ensures var ops := front + [op];
      && Polled(ops, a, s) == Polled(front, a, s) && Owed(ops, a, s) == Owed(front, a, s)
      && Pending(Run(ops), Key(a, s)) == Pending(Run(front), Key(a, s))
  {
    hide Key;
    assert (front + [op])[..|front|] == front;
  }

  lemma {:induction false} DrainOwed(front: seq<Op>, op: Op, a: string, s: string)
    requires op.Unsubscribe? || op.Poll?
    requires Key(op.agent, op.sid) == Key(a, s) <==> op.agent == a && op.sid == s
    requires Polled(front, a, s) + Pending(Run(front), Key(a, s)) == Owed(front, a, s)
    ensures var ops := front + [op];
      Polled(ops, a, s) + Pending(Run(ops), Key(a, s)) == Owed(ops, a, s)
  {
    hide Key, Others;
    var ops := front + [op];
    assert ops[..|front|] == front;
    if op.agent == a && op.sid == s {
      assert Pending(Run(ops), Key(a, s)) == [];
      assert Polled(ops, a, s) + [] == Polled(ops, a, s);
    } else {
      assert Pending(Run(ops), Key(a, s)) == Pending(Run(front), Key(a, s));
    }
  }

  /** Only a's own calls on s touch its queue. */
  lemma {:induction false} KeyOf(ops: seq<Op>, i: nat, a: string, s: string)
    requires Alone(ops, a, s) && i < |ops|
    ensures ops[i].Subscribe? || ops[i].Unsubscribe? || ops[i].Poll? ==>
      (Key(ops[i].agent, ops[i].sid) == Key(a, s) <==> ops[i].agent == a && ops[i].sid == s)
  {
    hide Key;
  }

  lemma {:induction false} PublishOwed(front: seq<Op>, e: Event, a: string, s: string)
    requires Counted(front, a, s)
    requires Polled(front, a, s) + Pending(Run(front), Key(a, s)) == Owed(front, a, s)
    ensures var ops := front + [Publish(e)];
      Polled(ops, a, s) + Pending(Run(ops), Key(a, s)) == Owed(ops, a, s)
  {
    hide Key, Known;
    var ops := front + [Publish(e)];
    assert ops[..|ops| - 1] == front;
    var m := Run(front);
    var subs := SubsOf(m, e.streamId);
    if subs == [] {
      assert Known(a, s, subs, e.streamId) by { NobodyKnown(a, s, e.streamId); }
    }
    PushedQueue(m.queues, subs, e, a, s);
    if Key(a, s) in m.queues {
      assert Pending(Run(ops), Key(a, s))
        == Pending(m, Key(a, s)) + (if e.streamId == s then Repeat(e, Live(front, a, s)) else []);
    } else {
      assert Repeat(e, 0) == [];
    }
  }

  lemma {:induction false} NobodyKnown(a: string, s: string, t: string)
    ensures Known(a, s, [], t)
  {
  }

  /** The events published on s, in order. */
  function PublishedOn(ops: seq<Op>, s: string): seq<Event> {
    if ops == [] then []
    else
      var front := PublishedOn(ops[..|ops| - 1], s);
      match ops[|ops| - 1]
      case Publish(e) => if e.streamId == s then front + [e] else front
      case _ => front
  }

  lemma {:induction false} RepeatOnce(e: Event)
    ensures Repeat(e, 1) == [e]
  {
    assert Repeat(e, 0) == [];
  }

  /** op neither subscribes a to s nor unsubscribes it. */
  predicate Keeps(op: Op, a: string, s: string) {
    match op
    case Subscribe(b, t, _) => b != a || t != s
    case Unsubscribe(b, t) => b != a || t != s
    case _ => true
  }

  lemma {:induction false} NothingOwed(ops: seq<Op>, a: string, s: string)
    requires Live(ops, a, s) == 0
    ensures Owed(ops, a, s) == []
  {
    if ops != [] {
      var front := ops[..|ops| - 1];
      if Live(front, a, s) == 0 {
        NothingOwed(front, a, s);
        if ops[|ops| - 1].Publish? {
          assert Repeat(ops[|ops| - 1].event, 0) == [];
        }
      }
    }
  }

  /** A single subscription is owed every event published since, once. */
  lemma {:induction false} OneSubscription(before: seq<Op>, since: seq<Op>, a: string, s: string)
    requires Live(before, a, s) == 0
    requires forall i :: 0 <= i < |since| ==> Keeps(since[i], a, s)
    ensures var ops := before + [Subscribe(a, s, false)] + since;
      Live(ops, a, s) == 1 && Owed(ops, a, s) == PublishedOn(since, s)
  {
    var ops := before + [Subscribe(a, s, false)] + since;
    hide Repeat;
    if since == [] {
      NothingOwed(before, a, s);
      assert ops[..|ops| - 1] == before;
    } else {
      var n := |since| - 1;
      OneSubscription(before, since[..n], a, s);
      assert ops[..|ops| - 1] == before + [Subscribe(a, s, false)] + since[..n];
      assert ops[|ops| - 1] == since[n] && Keeps(since[n], a, s);
      if since[n].Publish? {
        RepeatOnce(since[n].event);
      }
    }
  }

  // ------------------------------------------------------------ queue names

  predicate ColonFree(s: string) {
    ':' !in s
  }

  /** Stream ids without a colon (UUIDs have none) never share a queue. */
  lemma {:induction false} KeyInjective(a: string, s: string, b: string, t: string)
    requires ColonFree(s) && ColonFree(t) && Key(a, s) == Key(b, t)
    ensures a == b && s == t
  {
    var x, y := a + ":" + s, b + ":" + t;
    assert x[|a|] == ':' && y[|b|] == ':';
    assert forall i :: |a| < i < |x| ==> x[i] == s[i - |a| - 1];
    assert forall i :: |b| < i < |y| ==> y[i] == t[i - |b| - 1];
    assert |a| == |b|;
    assert a == x[..|a|] && b == y[..|b|];
    assert s == x[|a| + 1..] && t == y[|b| + 1..];
  }

  predicate OpColonFree(op: Op) {
    op.Publish? || ColonFree(op.sid)
  }

  lemma {:induction false} ColonFreeAlone(ops: seq<Op>, a: string, s: string)
    requires ColonFree(s) && forall i :: 0 <= i < |ops| ==> OpColonFree(ops[i])
    ensures Alone(ops, a, s)
  {
    hide Key, ColonFree;
    forall i | 0 <= i < |ops| && !ops[i].Publish? && Key(ops[i].agent, ops[i].sid) == Key(a, s)
      ensures ops[i].agent == a && ops[i].sid == s
    {
      KeyInjective(ops[i].agent, ops[i].sid, a, s);
    }
  }

  lemma {:induction false} OwedOnlyItsStream(ops: seq<Op>, a: string, s: string)
    ensures forall i :: 0 <= i < |Owed(ops, a, s)| ==> Owed(ops, a, s)[i].streamId == s
  {
    if ops != [] {
      var front := ops[..|ops| - 1];
      OwedOnlyItsStream(front, a, s);
      if ops[|ops| - 1].Publish? {
        RepeatAll(ops[|ops| - 1].event, Live(front, a, s));
      }
    }
  }

  lemma {:induction false} RepeatAll(e: Event, n: nat)
    ensures |Repeat(e, n)| == n && forall i :: 0 <= i < n ==> Repeat(e, n)[i] == e
  {
    if n > 0 {
      RepeatAll(e, n - 1);
    }
  }

  /** With colon-free stream ids, nothing from another stream is ever polled or
      left waiting. */
  lemma {:induction false} StreamsDoNotLeak(ops: seq<Op>, a: string, s: string)
    requires ColonFree(s) && forall i :: 0 <= i < |ops| ==> OpColonFree(ops[i])
    ensures var got := Polled(ops, a, s) + Pending(Run(ops), Key(a, s));
      got == Owed(ops, a, s) && forall i :: 0 <= i < |got| ==> got[i].streamId == s
  {
    hide Key, Polled, Pending, Run;
    ColonFreeAlone(ops, a, s);
    DeliveredIsOwed(ops, a, s);
    OwedOnlyItsStream(ops, a, s);
  }

  lemma {:induction false} PushedOne(queues: map<string, seq<Event>>, sub: Sub, e: Event)
    requires !sub.callback && Key(sub.agent, e.streamId) in queues
    ensures var key := Key(sub.agent, e.streamId); Pushed(queues, [sub], e) == queues[key := queues[key] + [e]]
  {
    var subs := [sub];
    assert subs[..|subs| - 1] == [];
  }

  /** Two streams that share a queue name leak: one agent's queue receives the
      other stream's event. */
  lemma {:induction false} CollisionLeaks(a: string, s: string, b: string, t: string, e: Event)
    requires Key(a, s) == Key(b, t) && s != t && e.streamId == t
    ensures var ops := [Subscribe(b, t, false), Subscribe(a, s, false), Publish(e)];
      Polled(ops, a, s) == [] && Pending(Run(ops), Key(a, s)) == [e] && Owed(ops, a, s) == []
  {
    var key := Key(a, s);
    var first, second := Subscribe(b, t, false), Subscribe(a, s, false);
    var o1, o2, o3 := [first], [first, second], [first, second, Publish(e)];
    assert o1[..0] == [] && o2[..1] == o1 && o3[..2] == o2;
    assert Run([]) == EMPTY;
    assert Run(o1).queues == map[key := []] && SubsOf(Run(o1), t) == [Sub(b, false)];
    assert Run(o2).queues == map[key := []] && SubsOf(Run(o2), t) == [Sub(b, false)];
    hide Key;
    PushedOne(Run(o2).queues, Sub(b, false), e);
    assert [] + [e] == [e];
    assert Pushed(Run(o2).queues, [Sub(b, false)], e) == Run(o2).queues[key := [e]];
    assert Owed([], a, s) == Owed(o1, a, s) == Owed(o2, a, s) == [];
    assert Polled([], a, s) == Polled(o1, a, s) == Polled(o2, a, s) == [];
  }

  /** A colon in a stream id is enough: agent "x:y" on stream "z" and agent "x"
      on stream "y:z" share a queue. */
  lemma {:induction false} ColonLeaks(x: string, y: string, z: string, e: Event)
    requires e.streamId == z
    ensures var ops := [Subscribe(x + ":" + y, z, false), Subscribe(x, y + ":" + z, false), Publish(e)];
      Pending(Run(ops), Key(x, y + ":" + z)) == [e] && Owed(ops, x, y + ":" + z) == []
  {
    assert x + ":" + y + ":" + z == x + ":" + (y + ":" + z);
    assert |y + ":" + z| > |z|;
    hide Key, Pending, Run, Owed, Polled;
    assert Key(x + ":" + y, z) == Key(x, y + ":" + z) by { KeyShift(x, y, z); }
    CollisionLeaks(x, y + ":" + z, x + ":" + y, z, e);
  }

  lemma {:induction false} KeyShift(x: string, y: string, z: string)
    ensures Key(x + ":" + y, z) == Key(x, y + ":" + z)
  {
    assert x + ":" + y + ":" + z == x + ":" + (y + ":" + z);
  }

  /** The run calls only for agents of A and streams of S. */
  ghost predicate RunOver(ops: seq<Op>, agents: set<string>, streams: set<string>) {
    forall i :: 0 <= i < |ops| ==>
      match ops[i]
      case Publish(e) => e.streamId in streams
      case op => op.agent in agents && op.sid in streams
  }

  /** Everything polled or waiting is of the stream. */
  ghost predicate OwnEvents(ops: seq<Op>, a: string, s: string) {
    var got := Polled(ops, a, s) + Pending(Run(ops), Key(a, s));
    forall i :: 0 <= i < |got| ==> got[i].streamId == s
  }

  /** No run over these agents and streams delivers or leaves a foreign event. */
  ghost predicate LeakFree(agents: set<string>, streams: set<string>) {
    forall ops, a, s :: RunOver(ops, agents, streams) && a in agents && s in streams ==> OwnEvents(ops, a, s)
  }

  /** Queue names determine the stream. */
  ghost predicate Unambiguous(agents: set<string>, streams: set<string>) {
    forall a, s, b, t :: a in agents && b in agents && s in streams && t in streams && Key(a, s) == Key(b, t) ==> s == t
  }

  lemma {:induction false} SameStreamSameAgent(a: string, b: string, s: string)
    requires Key(a, s) == Key(b, s)
    ensures a == b
  {
    var x, y := Key(a, s), Key(b, s);
    assert |a| == |b|;
    assert a == x[..|a|] && b == y[..|b|];
  }

  lemma {:induction false} UnambiguousAlone(ops: seq<Op>, agents: set<string>, streams: set<string>, a: string,
                                            s: string)
    requires Unambiguous(agents, streams) && RunOver(ops, agents, streams) && a in agents && s in streams
    ensures Alone(ops, a, s)
  {
    hide Key;
    forall i | 0 <= i < |ops| && !ops[i].Publish? && Key(ops[i].agent, ops[i].sid) == Key(a, s)
      ensures ops[i].agent == a && ops[i].sid == s
    {
      SameStreamSameAgent(ops[i].agent, a, s);
    }
  }

  lemma {:induction false} AloneOwnEvents(ops: seq<Op>, a: string, s: string)
    requires Alone(ops, a, s)
    ensures OwnEvents(ops, a, s)
  {
    hide Key, Polled, Pending, Run, Alone;
    DeliveredIsOwed(ops, a, s);
    OwedOnlyItsStream(ops, a, s);
  }

  lemma {:induction false} AmbiguousLeaks(agents: set<string>, streams: set<string>, a: string, s: string, b: string,
                                          t: string)
    requires a in agents && b in agents && s in streams && t in streams && Key(a, s) == Key(b, t) && s != t
    ensures !LeakFree(agents, streams)
  {
    var e := Event("", t);
    var ops := [Subscribe(b, t, false), Subscribe(a, s, false), Publish(e)];
    CollisionLeaks(a, s, b, t, e);
    assert RunOver(ops, agents, streams);
    hide Key, Polled, Pending, Run;
    var got := Polled(ops, a, s) + Pending(Run(ops), Key(a, s));
    assert got == [e] && got[0].streamId == t;
    assert !OwnEvents(ops, a, s);
  }

  /** Over given agents and streams no run ever leaks if and only if their queue
      names determine the stream.  The SDK's agent and stream ids are UUIDs
      (walrusos/sdk/agent.py:58-59, walrusos/sdk/stream.py:79-81) and satisfy
      this; only direct calls of `subscribe` with other strings can collide. */
  lemma {:induction false} LeakFreeIff(agents: set<string>, streams: set<string>)
    ensures LeakFree(agents, streams) <==> Unambiguous(agents, streams)
  {
    hide Key, OwnEvents, RunOver;
    if Unambiguous(agents, streams) {
      forall ops, a, s | RunOver(ops, agents, streams) && a in agents && s in streams ensures OwnEvents(ops, a, s) {
        UnambiguousAlone(ops, agents, streams, a, s);
        AloneOwnEvents(ops, a, s);
      }
    } else {
      var a, s, b, t :| a in agents && b in agents && s in streams && t in streams && Key(a, s) == Key(b, t) && s != t;
      AmbiguousLeaks(agents, streams, a, s, b, t);
    }
  }

  /** In particular colon-free streams never leak, whatever the agents are. */
  lemma {:induction false} ColonFreeLeakFree(agents: set<string>, streams: set<string>)
    requires forall s :: s in streams ==> ColonFree(s)
    ensures LeakFree(agents, streams)
  {
    hide Key, ColonFree, LeakFree;
    forall a, s, b, t | a in agents && b in agents && s in streams && t in streams && Key(a, s) == Key(b, t)
      ensures s == t
    {
      KeyInjective(a, s, b, t);
    }
    LeakFreeIff(agents, streams);
  }

  // ------------------------------------------------------------------- the mesh

  class EventMesh {
    var streamSubs: map<string, seq<Sub>>
    var queues: map<string, seq<Event>>

    constructor ()
      ensures State() == EMPTY
    {
      streamSubs, queues := map[], map[];
    }

    ghost function State(): Mesh
      reads this
    {
      Mesh(streamSubs, queues)
    }

    method Subscribe(agent: string, sid: string, callback: bool)
      modifies this
      ensures State() == Step(old(State()), Op.Subscribe(agent, sid, callback))
    {
      if sid !in streamSubs {
        streamSubs := streamSubs[sid := []];
      }
      streamSubs := streamSubs[sid := streamSubs[sid] + [Sub(agent, callback)]];
      if !callback {
        var key := Key(agent, sid);
        if key !in queues {
          queues := queues[key := []];
        }
      }
      assert streamSubs == Step(old(State()), Op.Subscribe(agent, sid, callback)).subs;
    }

    /** All of the agent's subscriptions to the stream go, with a callback or
        without, and all others stay in order. */
    method Unsubscribe(agent: string, sid: string)
      modifies this
      ensures AreOthers(SubsOf(State(), sid), old(SubsOf(State(), sid)), agent)
      ensures sid in streamSubs ==> streamSubs[sid] != []
      ensures forall t :: t != sid ==> SubsOf(State(), t) == old(SubsOf(State(), t))
      ensures queues == old(queues) - {agent + ":" + sid}
      ensures State() == Step(old(State()), Op.Unsubscribe(agent, sid))
    {
      OthersMeaning(SubsOf(State(), sid), |SubsOf(State(), sid)|, agent);
      assert SubsOf(State(), sid)[..|SubsOf(State(), sid)|] == SubsOf(State(), sid);
      if sid in streamSubs {
        var left := Others(streamSubs[sid], agent);
        streamSubs := if left == [] then streamSubs - {sid} else streamSubs[sid := left];
      }
      queues := queues - {Key(agent, sid)};
    }

    /** Queued delivery of `publish_event`, in the order of subscription. */
    method PublishEvent(e: Event)
      modifies this
      ensures State() == Step(old(State()), Publish(e))
    {
      var subs := if e.streamId in streamSubs then streamSubs[e.streamId] else [];
      for i := 0 to |subs|
        invariant streamSubs == old(streamSubs)
        invariant queues == Pushed(old(queues), subs[..i], e)
      {
        assert subs[..i + 1][..i] == subs[..i];
        if !subs[i].callback {
          var key := Key(subs[i].agent, e.streamId);
          if key in queues {
            queues := queues[key := queues[key] + [e]];
          }
        }
      }
      assert subs[..|subs|] == subs;
    }

    /** Draining a queue one event at a time. */
    method Poll(agent: string, sid: string) returns (events: seq<Event>)
      modifies this
      ensures State() == Step(old(State()), Op.Poll(agent, sid))
      ensures events == Pending(old(State()), Key(agent, sid))
    {
      var key := Key(agent, sid);
      if key !in queues {
        return [];
      }
      events := [];
      ghost var all := queues[key];
      while queues[key] != []
        invariant streamSubs == old(streamSubs)
        invariant key in queues && queues == old(queues)[key := queues[key]]
        invariant events + queues[key] == all
        decreases |queues[key]|
      {
        events := events + [queues[key][0]];
        queues := queues[key := queues[key][1..]];
      }
    }
  }
}
