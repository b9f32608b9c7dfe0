/** Notifying the open streams of a space: one capacity-1 signal channel per subscription. */
module MessageObserver {
  import opened Wrappers

  /** Channels are numbered in order of creation. */
  type Channel = nat

  /** The observer's table, each channel's buffered signals, and the topic its unsubscribe callback names. */
  datatype Hub = Hub(subscribers: map<string, set<Channel>>, buffers: map<Channel, nat>, home: map<Channel, string>)

  const EMPTY_HUB := Hub(map[], map[], map[])

  function SubscribersOf(h: Hub, topic: string): set<Channel> {
    if topic in h.subscribers then h.subscribers[topic] else {}
  }

  function Subscribed(h: Hub, topic: string, ch: Channel): Hub {
    Hub(h.subscribers[topic := SubscribersOf(h, topic) + {ch}], h.buffers[ch := 0], h.home[ch := topic])
  }

  function Unsubscribed(h: Hub, topic: string, ch: Channel): Hub {
    var left := SubscribersOf(h, topic) - {ch};
    h.(subscribers := if left == {} then h.subscribers - {topic} else h.subscribers[topic := left])
  }

  /** A non-blocking send to each of the channels: a full buffer is left as it is. */
  function Signalled(buffers: map<Channel, nat>, channels: set<Channel>): map<Channel, nat> {
    map c | c in buffers :: if c in channels && buffers[c] == 0 then 1 else buffers[c]
  }

  function AllSubscribers(h: Hub): set<Channel> {
    set t, c | t in h.subscribers && c in h.subscribers[t] :: c
  }

  function Published(h: Hub, topic: string): Hub {
    h.(buffers := Signalled(h.buffers, SubscribersOf(h, topic)))
  }

  function Resynced(h: Hub): Hub {
    h.(buffers := Signalled(h.buffers, AllSubscribers(h)))
  }

  /** The stream takes the buffered signal. */
  function Received(h: Hub, ch: Channel): Hub
    requires ch in h.buffers && h.buffers[ch] > 0
  {
    h.(buffers := h.buffers[ch := h.buffers[ch] - 1])
  }

  /** What every operation keeps. */
  ghost predicate Sound(h: Hub) {
    && h.home.Keys == h.buffers.Keys
    && (forall t | t in h.subscribers :: h.subscribers[t] != {})
    && (forall t, c | t in h.subscribers && c in h.subscribers[t] :: c in h.home && h.home[c] == t)
    && (forall c | c in h.buffers :: h.buffers[c] <= 1)
  }

  class MessageObserver {
    var subscribers: map<string, set<Channel>>
    var buffers: map<Channel, nat>
    var home: map<Channel, string>
    var created: nat

    ghost function State(): Hub
      reads this
    {
      Hub(subscribers, buffers, home)
    }

    ghost predicate Valid()
      reads this
    {
      Sound(State()) && forall c | c in buffers :: c < created
    }

    constructor ()
      ensures Valid() && State() == EMPTY_HUB
    {
      subscribers, buffers, home, created := map[], map[], map[], 0;
    }

    method Subscribe(space: string) returns (ch: Channel)
      requires Valid()
      modifies this
      ensures Valid() && ch !in old(buffers)
      ensures State() == Subscribed(old(State()), space, ch)
    {
      ch := created;
      created := created + 1;
      buffers := buffers[ch := 0];
      home := home[ch := space];
      if space !in subscribers {
        subscribers := subscribers[space := {}];
      }
      subscribers := subscribers[space := subscribers[space] + {ch}];
      assert State() == Subscribed(old(State()), space, ch);
      SoundStep(old(State()), Op.Subscribe(space, ch));
    }

    /** The callback returned by Subscribe for `ch`. */
    method Unsubscribe(ch: Channel)
      requires Valid() && ch in home
      modifies this
      ensures Valid()
      ensures State() == Unsubscribed(old(State()), old(home)[ch], ch)
    {
      var space := home[ch];
      var left := if space in subscribers then subscribers[space] - {ch} else {};
      if space in subscribers {
        subscribers := subscribers[space := left];
      }
      if |left| == 0 {
        subscribers := subscribers - {space};
      }
    }

    /** Non-blocking sends to a set of channels. */
    method SendAll(channels: set<Channel>)
      requires channels <= buffers.Keys
      modifies this`buffers
      ensures buffers == Signalled(old(buffers), channels) && buffers.Keys == old(buffers.Keys)
    {
      var todo := channels;
      while todo != {}
        invariant todo <= channels <= buffers.Keys
        invariant buffers == Signalled(old(buffers), channels - todo)
        decreases todo
      {
        var ch :| ch in todo;
        if buffers[ch] < 1 {
          buffers := buffers[ch := buffers[ch] + 1];
        }
        todo := todo - {ch};
      }
      assert channels - todo == channels;
    }

    method Publish(space: string)
      requires Valid()
      modifies this`buffers
      ensures Valid() && State() == Published(old(State()), space)
    {
      SendAll(if space in subscribers then subscribers[space] else {});
    }

    method ResyncAll()
      requires Valid()
      modifies this`buffers
      ensures Valid() && State() == Resynced(old(State()))
    {
      ghost var h := State();
      var todo := subscribers.Keys;
      ghost var done: set<Channel> := {};
      while todo != {}
        invariant todo <= subscribers.Keys && buffers.Keys == h.buffers.Keys
        invariant done <= AllSubscribers(h)
        invariant forall t | t in subscribers && t !in todo :: subscribers[t] <= done
        invariant buffers == Signalled(h.buffers, done)
        decreases todo
      {
        var space :| space in todo;
        SendAll(subscribers[space]);
        SignalledTwice(h.buffers, done, subscribers[space]);
        done := done + subscribers[space];
        todo := todo - {space};
      }
      AllDone(h, done);
      SoundStep(h, Resync);
    }
  }

  lemma {:induction false} AllDone(h: Hub, done: set<Channel>)
    requires done <= AllSubscribers(h) && forall t | t in h.subscribers :: h.subscribers[t] <= done
    ensures done == AllSubscribers(h)
  {
  }

  lemma {:induction false} SignalledTwice(buffers: map<Channel, nat>, a: set<Channel>, b: set<Channel>)
    ensures Signalled(Signalled(buffers, a), b) == Signalled(buffers, a + b)
  {
  }

  // ---- runs ----

  datatype Op =
    | Subscribe(topic: string, ch: Channel)
    | Unsubscribe(topic: string, ch: Channel)
    | Publish(topic: string)
    | Resync
    | Receive(ch: Channel)

  predicate Enabled(h: Hub, op: Op) {
    match op
    case Subscribe(_, ch) => ch !in h.buffers
    case Unsubscribe(topic, ch) => ch in h.home && h.home[ch] == topic
    case Publish(_) => true
    case Resync => true
    case Receive(ch) => ch in h.buffers && h.buffers[ch] > 0
  }

  function Apply(h: Hub, op: Op): Hub
    requires Enabled(h, op)
  {
    match op
    case Subscribe(topic, ch) => Subscribed(h, topic, ch)
    case Unsubscribe(topic, ch) => Unsubscribed(h, topic, ch)
    case Publish(topic) => Published(h, topic)
    case Resync => Resynced(h)
    case Receive(ch) => Received(h, ch)
  }

  /** The state after a run, provided every operation is possible in its turn. */
  function Run(ops: seq<Op>): Option<Hub> {
    if ops == [] then Some(EMPTY_HUB)
    else
      var n := |ops| - 1;
      match Run(ops[..n])
      case None => None
      case Some(h) => if Enabled(h, ops[n]) then Some(Apply(h, ops[n])) else None
  }

  /** Just before operation `i`, channel `ch` is subscribed to `topic`. */
  ghost predicate SubscribedAt(ops: seq<Op>, i: nat, topic: string, ch: Channel)
    requires i <= |ops|
  {
    exists s: nat :: s < i && ops[s] == Subscribe(topic, ch)
        && forall u: nat | s < u < i :: ops[u] != Unsubscribe(topic, ch)
  }

  /** Operation `i` concerns channel `ch`: its topic is published, or everyone is resynced. */
  ghost predicate Notifies(ops: seq<Op>, i: nat, ch: Channel)
    requires i < |ops|
  {
    exists topic :: SubscribedAt(ops, i, topic, ch) && (ops[i] == Publish(topic) || ops[i] == Resync)
  }

  /** Some notification of `ch` has not been received yet. */
  ghost predicate Owed(ops: seq<Op>, ch: Channel) {
    exists i: nat :: i < |ops| && Notifies(ops, i, ch) && forall r: nat | i < r < |ops| :: ops[r] != Receive(ch)
  }

  lemma {:induction false} SubscribedAtPrefix(ops: seq<Op>, op: Op, i: nat, topic: string, ch: Channel)
    requires i <= |ops|
    ensures SubscribedAt(ops + [op], i, topic, ch) <==> SubscribedAt(ops, i, topic, ch)
  {
    assert forall u: nat | u < i :: (ops + [op])[u] == ops[u];
  }

  lemma {:induction false} SubscribedAtEnd(ops: seq<Op>, op: Op, topic: string, ch: Channel)
    ensures SubscribedAt(ops + [op], |ops| + 1, topic, ch) <==>
            op == Subscribe(topic, ch) || (SubscribedAt(ops, |ops|, topic, ch) && op != Unsubscribe(topic, ch))
  {
    var longer := ops + [op];
    assert longer[|ops|] == op && forall u: nat | u < |ops| :: longer[u] == ops[u];
    if SubscribedAt(ops, |ops|, topic, ch) && op != Unsubscribe(topic, ch) {
      var s: nat :| s < |ops| && ops[s] == Subscribe(topic, ch)
                    && forall u: nat | s < u < |ops| :: ops[u] != Unsubscribe(topic, ch);
      assert longer[s] == Subscribe(topic, ch);
    }
  }

  lemma {:induction false} NotifiesPrefix(ops: seq<Op>, op: Op, i: nat, ch: Channel)
    requires i < |ops|
    ensures Notifies(ops + [op], i, ch) <==> Notifies(ops, i, ch)
  {
    assert (ops + [op])[i] == ops[i];
    forall topic ensures SubscribedAt(ops + [op], i, topic, ch) <==> SubscribedAt(ops, i, topic, ch) {
      SubscribedAtPrefix(ops, op, i, topic, ch);
    }
  }

  lemma {:induction false} OwedEnd(ops: seq<Op>, op: Op, ch: Channel)
    ensures Owed(ops + [op], ch) <==>
            Notifies(ops + [op], |ops|, ch) || (Owed(ops, ch) && op != Receive(ch))
  {
    var longer := ops + [op];
    assert longer[|ops|] == op && forall u: nat | u < |ops| :: longer[u] == ops[u];
    if Owed(ops, ch) && op != Receive(ch) {
      var i: nat :| i < |ops| && Notifies(ops, i, ch) && forall r: nat | i < r < |ops| :: ops[r] != Receive(ch);
      NotifiesPrefix(ops, op, i, ch);
    }
    if i: nat :| i < |ops| && Notifies(longer, i, ch) && forall r: nat | i < r < |longer| :: longer[r] != Receive(ch) {
      NotifiesPrefix(ops, op, i, ch);
      assert longer[|ops|] != Receive(ch);
      assert forall r: nat | i < r < |ops| :: ops[r] != Receive(ch) by {
        forall r: nat | i < r < |ops| ensures ops[r] != Receive(ch) { assert longer[r] == ops[r]; }
      }
    }
  }

  /** The state and the history agree. */
  ghost predicate Agrees(ops: seq<Op>, h: Hub) {
    && Sound(h)
    && (forall t, c :: c in SubscribersOf(h, t) <==> SubscribedAt(ops, |ops|, t, c))
    && (forall c | c in h.buffers :: h.buffers[c] == 1 <==> Owed(ops, c))
    && (forall c :: Owed(ops, c) ==> c in h.buffers)
  }

  lemma {:induction false} SoundStep(h: Hub, op: Op)
    requires Sound(h) && Enabled(h, op)
    ensures Sound(Apply(h, op))
  {
  }

  lemma {:induction false} NotifiesEnd(ops: seq<Op>, op: Op, h: Hub, ch: Channel)
    requires Agrees(ops, h) && Enabled(h, op)
    ensures Notifies(ops + [op], |ops|, ch) <==>
            (op.Publish? && ch in SubscribersOf(h, op.topic)) || (op.Resync? && ch in AllSubscribers(h))
  {
    assert (ops + [op])[|ops|] == op;
    forall topic ensures SubscribedAt(ops + [op], |ops|, topic, ch) <==> ch in SubscribersOf(h, topic) {
      SubscribedAtPrefix(ops, op, |ops|, topic, ch);
    }
    if op.Resync? && ch in AllSubscribers(h) {
      var t :| t in h.subscribers && ch in h.subscribers[t];
      assert SubscribedAt(ops + [op], |ops|, t, ch);
    }
  }

  lemma {:induction false} AgreesStep(ops: seq<Op>, op: Op, h: Hub)
    requires Agrees(ops, h) && Enabled(h, op)
    ensures Agrees(ops + [op], Apply(h, op))
  {
    var g, longer := Apply(h, op), ops + [op];
    SoundStep(h, op);
    forall t, c ensures c in SubscribersOf(g, t) <==> SubscribedAt(longer, |longer|, t, c) {
      SubscribedAtEnd(ops, op, t, c);
    }
    forall c
      ensures c in g.buffers ==> (g.buffers[c] == 1 <==> Owed(longer, c))
      ensures Owed(longer, c) ==> c in g.buffers
    {
      OwedEnd(ops, op, c);
      NotifiesEnd(ops, op, h, c);
    }
  }

  /**
   No wakeup is lost and none is invented: in every run a channel holds a signal exactly when a
   notification of it has not been received, and it never holds two.
   */
  lemma {:induction false} NoLostWakeups(ops: seq<Op>)
    requires Run(ops).Some?
    ensures Agrees(ops, Run(ops).value)
  {
    if ops != [] {
      var n := |ops| - 1;
      NoLostWakeups(ops[..n]);
      AgreesStep(ops[..n], ops[n], Run(ops[..n]).value);
      assert ops == ops[..n] + [ops[n]];
    }
  }

  /** Unsubscribing changes nothing for any other channel, and doing it twice is doing it once. */
  lemma {:induction false} UnsubscribeIsLocal(h: Hub, topic: string, ch: Channel)
    requires Sound(h) && ch in h.home && h.home[ch] == topic
    ensures var g := Unsubscribed(h, topic, ch);
      && g.buffers == h.buffers
      && (forall t, c | c != ch :: c in SubscribersOf(g, t) <==> c in SubscribersOf(h, t))
      && (forall t :: ch !in SubscribersOf(g, t))
      && Unsubscribed(g, topic, ch) == g
  {
    var g := Unsubscribed(h, topic, ch);
    assert SubscribersOf(g, topic) == SubscribersOf(h, topic) - {ch};
    assert SubscribersOf(g, topic) - {ch} == SubscribersOf(g, topic);
  }
}
