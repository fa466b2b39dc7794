/** internal/api/events.go and handlers_events.go under interleaving: a publish takes a
    number, stores the event and fans it out in separate steps, subscriber by subscriber,
    while sessions subscribe, replay, drain and leave. */
module HubRuns {
  import opened Text
  import opened Events

  type Thread = nat
  type SubId = nat

  /** One call of Publish; k is the position of its event among all stored ones. */
  datatype Pub =
    | Numbered(m: EventMsg)
    | Stored(m: EventMsg, k: nat)
    | Fanning(m: EventMsg, k: nat, todo: set<SubId>)
    | Published(m: EventMsg, k: nat)

  /** What a session asked for and got from Replay; `at` events were stored then. */
  datatype Replayed = Replayed(at: nat, n: int, result: seq<EventMsg>)

  /** A subscription.  `since`, `enqueued`, `lost` and `received` are history: events stored
      before it, events put into the channel, events counted as dropped, events drained. */
  datatype Feed = Feed(
    sub: Subscriber, closed: bool, replay: Option<Replayed>,
    since: nat, enqueued: seq<EventMsg>, lost: seq<EventMsg>, received: seq<EventMsg>)

  datatype State = State(
    num: nat, buf: seq<EventMsg>, pubs: map<Thread, Pub>, feeds: map<SubId, Feed>, nextSub: nat,
    appended: seq<EventMsg>, order: seq<Thread>)

  /** The ring's capacity; `atomic` keeps other publishers out between number and store,
      which the code does not. */
  datatype Setup = Setup(cap: nat, atomic: bool)

  const INITIAL := State(0, [], map[], map[], 0, [], [])
  const REPLAY_CAP := 128

  datatype Action =
    | Number(t: Thread, event: string, data: nat)
    | Store(t: Thread)
    | BeginFan(t: Thread)
    | Give(t: Thread, id: SubId, waiting: bool)
    | EndFan(t: Thread)
    | NumberAttachEvent
    | Subscribe(topics: Topics, size: nat)
    | Replay(id: SubId, n: int)
    | Drain(id: SubId)
    | Unsubscribe(id: SubId)

  predicate Live(s: State, id: SubId) {
    id in s.feeds && !s.feeds[id].closed
  }

  /** The subscriber lock is free for a writer when no fan-out is under way. */
  predicate NoFanOut(s: State) {
    forall t :: t in s.pubs ==> !s.pubs[t].Fanning?
  }

  function Clamp(n: int): int {
    if n > REPLAY_CAP then REPLAY_CAP else n
  }

  /** The non-blocking send.  An unbuffered channel takes the event when a receiver waits. */
  function Offer(f: Feed, m: EventMsg, waiting: bool): Feed {
    if !TopicMatch(f.sub.topics, m.event) then f
    else if f.sub.cap == 0 && waiting then
      f.(enqueued := f.enqueued + [m], received := f.received + [m])
    else
      var sub := Deliver(f.sub, m);
      if sub.dropped == f.sub.dropped then f.(sub := sub, enqueued := f.enqueued + [m])
      else f.(sub := sub, lost := f.lost + [m])
  }

  function Next(w: Setup, s: State, a: Action): Option<State> {
    match a
    case Number(t, event, data) =>
      if t in s.pubs || (w.atomic && exists u :: u in s.pubs && s.pubs[u].Numbered?) then None
      else Some(s.(num := s.num + 1, pubs := s.pubs[t := Numbered(EventMsg(event, s.num + 1, data))]))
    case Store(t) =>
      if t !in s.pubs || !s.pubs[t].Numbered? then None
      else
        var m := s.pubs[t].m;
        Some(s.(buf := LastN(s.buf + [m], w.cap), appended := s.appended + [m], order := s.order + [t],
                pubs := s.pubs[t := Stored(m, |s.appended|)]))
    case BeginFan(t) =>
      if t !in s.pubs || !s.pubs[t].Stored? then None
      else
        var live := set id | id in s.feeds && !s.feeds[id].closed;
        Some(s.(pubs := s.pubs[t := Fanning(s.pubs[t].m, s.pubs[t].k, live)]))
    case Give(t, id, waiting) =>
      if t !in s.pubs || !s.pubs[t].Fanning? || id !in s.pubs[t].todo || id !in s.feeds then None
      else
        var p := s.pubs[t];
        Some(s.(feeds := s.feeds[id := Offer(s.feeds[id], p.m, waiting)],
                pubs := s.pubs[t := Fanning(p.m, p.k, p.todo - {id})]))
    case EndFan(t) =>
      if t !in s.pubs || !s.pubs[t].Fanning? || s.pubs[t].todo != {} then None
      else Some(s.(pubs := s.pubs[t := Published(s.pubs[t].m, s.pubs[t].k)]))
    case NumberAttachEvent => Some(s.(num := s.num + 1))
    case Subscribe(topics, size) =>
      if !NoFanOut(s) then None
      else
        var id := s.nextSub + 1;
        Some(s.(nextSub := id,
                feeds := s.feeds[id := Feed(Subscriber(topics, size, [], 0), false, None, |s.appended|, [], [], [])]))
    case Replay(id, n) =>
      if id !in s.feeds || s.feeds[id].replay.Some? then None
      else
        var f := s.feeds[id];
        Some(s.(feeds := s.feeds[id := f.(replay :=
          Some(Replayed(|s.appended|, n, ReplayOf(f.sub.topics, s.buf, Clamp(n)))))]))
    case Drain(id) =>
      if id !in s.feeds || s.feeds[id].sub.ch == [] then None
      else
        var f := s.feeds[id];
        Some(s.(feeds := s.feeds[id := f.(sub := f.sub.(ch := f.sub.ch[1..]), received := f.received + [f.sub.ch[0]])]))
    case Unsubscribe(id) =>
      if id !in s.feeds || !NoFanOut(s) then None
      else Some(s.(feeds := s.feeds[id := s.feeds[id].(closed := true)]))
  }

  function Exec(w: Setup, acts: seq<Action>): Option<State> {
    if acts == [] then Some(INITIAL)
    else match Exec(w, acts[..|acts| - 1])
      case None => None
      case Some(s) => Next(w, s, acts[|acts| - 1])
  }

  // ---------------------------------------------------------------- invariants

  ghost predicate Storage(w: Setup, s: State) {
    && |s.order| == |s.appended|
    && s.buf == LastN(s.appended, w.cap)
    && (forall k :: 0 <= k < |s.order| ==>
          s.order[k] in s.pubs && !s.pubs[s.order[k]].Numbered?
          && s.pubs[s.order[k]].k == k && s.pubs[s.order[k]].m == s.appended[k])
    && (forall t :: t in s.pubs && !s.pubs[t].Numbered? ==> s.pubs[t].k < |s.order| && s.order[s.pubs[t].k] == t)
  }

  ghost predicate Numbers(s: State) {
    && (forall t :: t in s.pubs ==> 1 <= s.pubs[t].m.num <= s.num)
    && (forall t, u :: t in s.pubs && u in s.pubs && t != u ==> s.pubs[t].m.num != s.pubs[u].m.num)
  }

  /** A fan-out under way has only live subscribers left: none of its channels is closed. */
  ghost predicate OpenChannels(s: State) {
    && (forall t :: t in s.pubs && s.pubs[t].Fanning? ==> forall id :: id in s.pubs[t].todo ==> Live(s, id))
    && (forall id :: id in s.feeds ==> id <= s.nextSub)
  }

  /** This publish is past subscriber id. */
  predicate Handled(p: Pub, id: SubId) {
    p.Published? || (p.Fanning? && id !in p.todo)
  }

  predicate DistinctNums(list: seq<EventMsg>) {
    forall i, j :: 0 <= i < j < |list| ==> list[i].num != list[j].num
  }

  predicate FeedOk(w: Setup, s: State, f: Feed) {
    && f.enqueued == f.received + f.sub.ch
    && |f.sub.ch| <= f.sub.cap
    && f.sub.dropped == |f.lost|
    && DistinctNums(f.enqueued) && DistinctNums(f.lost)
    && (forall i, j :: 0 <= i < |f.enqueued| && 0 <= j < |f.lost| ==> f.enqueued[i].num != f.lost[j].num)
    && f.since <= |s.appended|
    && (f.replay.Some? ==> var r := f.replay.value;
          && f.since <= r.at <= |s.appended|
          && r.result == ReplayOf(f.sub.topics, LastN(s.appended[..r.at], w.cap), Clamp(r.n)))
  }

  ghost predicate FeedsOk(w: Setup, s: State) {
    forall id :: id in s.feeds ==> FeedOk(w, s, s.feeds[id])
  }

  predicate Got(f: Feed, m: EventMsg) {
    m in f.enqueued || m in f.lost
  }

  /** A publish stored since the subscription and past it has left its event there if it
      matches; and only matching events of publishes past it are there. */
  ghost predicate Deliveries(s: State) {
    && (forall t, id :: t in s.pubs && Live(s, id) && Due(s.feeds[id], s.pubs[t], id) ==> Got(s.feeds[id], s.pubs[t].m))
    && (forall id, m :: id in s.feeds && Got(s.feeds[id], m) ==>
          TopicMatch(s.feeds[id].sub.topics, m.event) && Sent(s, m, id))
  }

  /** A publish that has to have left its event with the subscription. */
  predicate Due(f: Feed, p: Pub, id: SubId) {
    Handled(p, id) && p.k >= f.since && TopicMatch(f.sub.topics, p.m.event)
  }

  ghost predicate Sent(s: State, m: EventMsg, id: SubId) {
    exists t :: t in s.pubs && s.pubs[t].m == m && Handled(s.pubs[t], id)
  }

  ghost predicate Inv(w: Setup, s: State) {
    Storage(w, s) && Numbers(s) && OpenChannels(s) && FeedsOk(w, s) && Deliveries(s)
  }

  /** A publish is where it was, or further on with the same event at the same place. */
  predicate PubKept(s: State, s': State, t: Thread) {
    && (t in s.pubs <==> t in s'.pubs)
    && (t in s.pubs ==>
          && s'.pubs[t].m == s.pubs[t].m && s'.pubs[t].Numbered? == s.pubs[t].Numbered?
          && (!s.pubs[t].Numbered? ==> s'.pubs[t].k == s.pubs[t].k))
  }

  /** All steps but taking a number and storing. */
  lemma PubsKept(w: Setup, s: State, a: Action, s': State, t: Thread)
    requires !a.Number? && !a.Store? && Next(w, s, a) == Some(s')
    ensures PubKept(s, s', t)
    ensures s'.buf == s.buf && s'.appended == s.appended && s'.order == s.order && s'.num >= s.num
  {
  }

  lemma StorageFrame(w: Setup, s: State, s': State)
    requires Storage(w, s) && s'.buf == s.buf && s'.appended == s.appended && s'.order == s.order
    requires forall t :: PubKept(s, s', t)
    ensures Storage(w, s')
  {
    forall k | 0 <= k < |s.order| ensures PubKept(s, s', s.order[k]) {}
    forall t | t in s'.pubs ensures PubKept(s, s', t) {}
  }

  lemma StorageStore(w: Setup, s: State, a: Action, s': State)
    requires Storage(w, s) && a.Store? && Next(w, s, a) == Some(s')
    ensures Storage(w, s')
  {
    assert a.t !in s.order;
  }

  lemma StorageStep(w: Setup, s: State, a: Action, s': State)
    requires Storage(w, s) && Next(w, s, a) == Some(s')
    ensures Storage(w, s')
  {
    if a.Store? {
      StorageStore(w, s, a, s');
    } else if !a.Number? {
      forall t ensures PubKept(s, s', t) { PubsKept(w, s, a, s', t); }
      PubsKept(w, s, a, s', 0);
      StorageFrame(w, s, s');
    }
  }

  lemma NumbersFrame(s: State, s': State)
    requires Numbers(s) && s'.num >= s.num && forall t :: PubKept(s, s', t)
    ensures Numbers(s')
  {
    forall t | t in s'.pubs ensures PubKept(s, s', t) {}
  }

  lemma NumbersStep(w: Setup, s: State, a: Action, s': State)
    requires Numbers(s) && Next(w, s, a) == Some(s')
    ensures Numbers(s')
  {
    if !a.Number? && !a.Store? {
      forall t ensures PubKept(s, s', t) { PubsKept(w, s, a, s', t); }
      PubsKept(w, s, a, s', 0);
      NumbersFrame(s, s');
    }
  }

  lemma OpenChannelsStep(w: Setup, s: State, a: Action, s': State)
    requires OpenChannels(s) && Next(w, s, a) == Some(s')
    ensures OpenChannels(s')
  {
  }

  lemma DistinctSnoc(list: seq<EventMsg>, m: EventMsg)
    requires DistinctNums(list) && forall i :: 0 <= i < |list| ==> list[i].num != m.num
    ensures DistinctNums(list + [m])
  {
  }

  lemma OfferKeeps(w: Setup, s: State, f: Feed, m: EventMsg, waiting: bool)
    requires FeedOk(w, s, f)
    requires forall i :: 0 <= i < |f.enqueued| ==> f.enqueued[i].num != m.num
    requires forall i :: 0 <= i < |f.lost| ==> f.lost[i].num != m.num
    ensures FeedOk(w, s, Offer(f, m, waiting))
  {
    DistinctSnoc(f.enqueued, m);
    DistinctSnoc(f.lost, m);
    assert f.received + (f.sub.ch + [m]) == f.received + f.sub.ch + [m];
  }

  lemma OfferAdds(f: Feed, m: EventMsg, waiting: bool)
    ensures var f' := Offer(f, m, waiting);
      && f'.since == f.since && f'.sub.topics == f.sub.topics && f'.closed == f.closed
      && forall x :: Got(f', x) <==> Got(f, x) || (x == m && TopicMatch(f.sub.topics, m.event))
  {
  }

  /** The effect of one send on a subscription. */
  lemma OfferEffect(w: Setup, s: State, f: Feed, m: EventMsg, waiting: bool)
    requires FeedOk(w, s, f) && forall x :: Got(f, x) ==> x.num != m.num
    ensures var f' := Offer(f, m, waiting);
      && FeedOk(w, s, f') && f'.since == f.since && f'.sub.topics == f.sub.topics && f'.closed == f.closed
      && forall x :: Got(f', x) <==> Got(f, x) || (x == m && TopicMatch(f.sub.topics, m.event))
  {
    assert forall i :: 0 <= i < |f.enqueued| ==> Got(f, f.enqueued[i]);
    assert forall i :: 0 <= i < |f.lost| ==> Got(f, f.lost[i]);
    OfferKeeps(w, s, f, m, waiting);
    OfferAdds(f, m, waiting);
  }

  /** The event being sent is new to the subscriber. */
  lemma SentOnce(s: State, t: Thread, id: SubId, x: EventMsg)
    requires Numbers(s) && Deliveries(s) && t in s.pubs && s.pubs[t].Fanning? && id in s.pubs[t].todo && id in s.feeds
    requires Got(s.feeds[id], x)
    ensures x.num != s.pubs[t].m.num
  {
    assert Sent(s, x, id);
    var u :| u in s.pubs && s.pubs[u].m == x && Handled(s.pubs[u], id);
  }

  lemma FeedsOkGive(w: Setup, s: State, a: Action, s': State)
    requires Inv(w, s) && a.Give? && Next(w, s, a) == Some(s')
    ensures FeedsOk(w, s')
  {
    forall x | Got(s.feeds[a.id], x) ensures x.num != s.pubs[a.t].m.num { SentOnce(s, a.t, a.id, x); }
    OfferEffect(w, s, s.feeds[a.id], s.pubs[a.t].m, a.waiting);
    GiveKeepsOthers(w, s, a, s');
  }

  lemma GiveKeepsOthers(w: Setup, s: State, a: Action, s': State)
    requires FeedsOk(w, s) && a.Give? && Next(w, s, a) == Some(s') && FeedOk(w, s, s'.feeds[a.id])
    ensures FeedsOk(w, s')
  {
    SameStore(w, s, s');
  }

  /** Storing another event does not change what a replay saw. */
  lemma FeedsOkStore(w: Setup, s: State, a: Action, s': State)
    requires Inv(w, s) && a.Store? && Next(w, s, a) == Some(s')
    ensures FeedsOk(w, s')
  {
    forall id | id in s.feeds ensures FeedOk(w, s', s.feeds[id]) {
      assert FeedOk(w, s, s.feeds[id]);
      if s.feeds[id].replay.Some? {
        var at := s.feeds[id].replay.value.at;
        assert s'.appended[..at] == s.appended[..at];
      }
    }
  }

  lemma FeedsOkReplay(w: Setup, s: State, a: Action, s': State)
    requires Inv(w, s) && a.Replay? && Next(w, s, a) == Some(s')
    ensures FeedsOk(w, s')
  {
    assert s.appended[..|s.appended|] == s.appended;
    assert FeedOk(w, s, s.feeds[a.id]) && FeedOk(w, s', s'.feeds[a.id]);
  }

  lemma DrainedOk(w: Setup, s: State, f: Feed)
    requires FeedOk(w, s, f) && f.sub.ch != []
    ensures FeedOk(w, s, f.(sub := f.sub.(ch := f.sub.ch[1..]), received := f.received + [f.sub.ch[0]]))
  {
    assert f.received + f.sub.ch == f.received + [f.sub.ch[0]] + f.sub.ch[1..];
  }

  /** What FeedOk says depends on the stored events only. */
  lemma SameStore(w: Setup, s: State, s': State)
    requires FeedsOk(w, s) && s'.appended == s.appended
    ensures forall id :: id in s.feeds ==> FeedOk(w, s', s.feeds[id])
  {
    forall id | id in s.feeds ensures FeedOk(w, s', s.feeds[id]) {
      assert FeedOk(w, s, s.feeds[id]);
    }
  }

  lemma FeedsOkDrain(w: Setup, s: State, a: Action, s': State)
    requires Inv(w, s) && a.Drain? && Next(w, s, a) == Some(s')
    ensures FeedsOk(w, s')
  {
    SameStore(w, s, s');
    DrainedOk(w, s', s.feeds[a.id]);
  }

  /** The other steps store nothing and touch no channel. */
  lemma FeedsOkRest(w: Setup, s: State, a: Action, s': State)
    requires Inv(w, s) && !a.Give? && !a.Store? && !a.Replay? && !a.Drain? && Next(w, s, a) == Some(s')
    ensures FeedsOk(w, s')
  {
    SameStore(w, s, s');
  }

  lemma FeedsOkStep(w: Setup, s: State, a: Action, s': State)
    requires Inv(w, s) && Next(w, s, a) == Some(s')
    ensures FeedsOk(w, s')
  {
    match a {
      case Give(_, _, _) => FeedsOkGive(w, s, a, s');
      case Store(_) => FeedsOkStore(w, s, a, s');
      case Replay(_, _) => FeedsOkReplay(w, s, a, s');
      case Drain(_) => FeedsOkDrain(w, s, a, s');
      case _ => FeedsOkRest(w, s, a, s');
    }
  }

  /** Steps other than a send: nothing new in any subscription, no publish gets past one. */
  predicate SilentFeed(s: State, s': State, id: SubId) {
    id in s'.feeds &&
    if id in s.feeds then
      && s'.feeds[id].since == s.feeds[id].since && s'.feeds[id].sub.topics == s.feeds[id].sub.topics
      && s'.feeds[id].enqueued == s.feeds[id].enqueued && s'.feeds[id].lost == s.feeds[id].lost
      && (s.feeds[id].closed ==> s'.feeds[id].closed)
    else s'.feeds[id].since == |s.appended| && s'.feeds[id].enqueued == [] && s'.feeds[id].lost == []
  }

  predicate SilentPub(s: State, s': State, t: Thread, id: SubId) {
    && (t in s.pubs && Handled(s.pubs[t], id) ==>
          t in s'.pubs && s'.pubs[t].m == s.pubs[t].m && Handled(s'.pubs[t], id))
    && (t in s'.pubs && Live(s, id) && Handled(s'.pubs[t], id) ==>
          t in s.pubs && Handled(s.pubs[t], id) && s'.pubs[t].k == s.pubs[t].k && s'.pubs[t].m == s.pubs[t].m)
    && (t in s'.pubs && s'.pubs[t].Published? ==> s'.pubs[t].k < |s.appended|)
    && (t in s'.pubs && s'.pubs[t].Fanning? ==> s'.pubs[t].k < |s.appended|)
  }

  lemma SilentFeeds(w: Setup, s: State, a: Action, s': State, id: SubId)
    requires OpenChannels(s) && !a.Give? && Next(w, s, a) == Some(s')
    ensures id in s'.feeds ==> SilentFeed(s, s', id)
    ensures id in s.feeds ==> id in s'.feeds
  {
  }

  lemma SilentPubs(w: Setup, s: State, a: Action, s': State, t: Thread, id: SubId)
    requires Storage(w, s) && !a.Give? && Next(w, s, a) == Some(s')
    ensures SilentPub(s, s', t, id)
  {
  }

  lemma DeliveriesFrame(s: State, s': State)
    requires Deliveries(s)
    requires forall t, id :: SilentPub(s, s', t, id)
    requires forall id :: id in s'.feeds ==> SilentFeed(s, s', id)
    ensures Deliveries(s')
  {
    forall id, m | id in s'.feeds && Got(s'.feeds[id], m)
      ensures TopicMatch(s'.feeds[id].sub.topics, m.event) && Sent(s', m, id)
    {
      assert SilentFeed(s, s', id);
      assert id in s.feeds && Got(s.feeds[id], m) && Sent(s, m, id);
      var t :| t in s.pubs && s.pubs[t].m == m && Handled(s.pubs[t], id);
      assert SilentPub(s, s', t, id);
      assert s'.pubs[t].m == m && Handled(s'.pubs[t], id);
    }
    forall t, id | t in s'.pubs && Live(s', id) && Due(s'.feeds[id], s'.pubs[t], id)
      ensures Got(s'.feeds[id], s'.pubs[t].m)
    {
      assert SilentFeed(s, s', id) && SilentPub(s, s', t, id);
      if id in s.feeds { assert Due(s.feeds[id], s.pubs[t], id) && Got(s.feeds[id], s.pubs[t].m); }
    }
  }

  lemma DeliveriesGive(w: Setup, s: State, a: Action, s': State)
    requires Inv(w, s) && a.Give? && Next(w, s, a) == Some(s')
    ensures Deliveries(s')
  {
    var m := s.pubs[a.t].m;
    forall x | Got(s.feeds[a.id], x) ensures x.num != m.num { SentOnce(s, a.t, a.id, x); }
    OfferEffect(w, s, s.feeds[a.id], m, a.waiting);
    GiveFrame(s, a.t, a.id, s');
  }

  lemma DeliveriesSilent(w: Setup, s: State, a: Action, s': State)
    requires Inv(w, s) && !a.Give? && Next(w, s, a) == Some(s')
    ensures Deliveries(s')
  {
    forall t, id ensures SilentPub(s, s', t, id) { SilentPubs(w, s, a, s', t, id); }
    forall id | id in s'.feeds ensures SilentFeed(s, s', id) { SilentFeeds(w, s, a, s', id); }
    DeliveriesFrame(s, s');
  }

  lemma DeliveriesStep(w: Setup, s: State, a: Action, s': State)
    requires Inv(w, s) && Next(w, s, a) == Some(s')
    ensures Deliveries(s')
  {
    if a.Give? {
      DeliveriesGive(w, s, a, s');
    } else {
      DeliveriesSilent(w, s, a, s');
    }
  }

  /** A send adds the event to one subscription and gets one publish past it. */
  lemma GiveFrame(s: State, t: Thread, id: SubId, s': State)
    requires Deliveries(s) && t in s.pubs && s.pubs[t].Fanning?
    requires id in s.pubs[t].todo && id in s.feeds && id in s'.feeds
    requires s'.pubs == s.pubs[t := Fanning(s.pubs[t].m, s.pubs[t].k, s.pubs[t].todo - {id})]
    requires s'.feeds == s.feeds[id := s'.feeds[id]]
    requires var f, f' := s.feeds[id], s'.feeds[id];
      && f'.since == f.since && f'.sub.topics == f.sub.topics && f'.closed == f.closed
      && forall x :: Got(f', x) <==> Got(f, x) || (x == s.pubs[t].m && TopicMatch(f.sub.topics, x.event))
    ensures Deliveries(s')
  {
    var m := s.pubs[t].m;
    forall j, x | j in s'.feeds && Got(s'.feeds[j], x)
      ensures TopicMatch(s'.feeds[j].sub.topics, x.event) && Sent(s', x, j)
    {
      if Got(s.feeds[j], x) {
        assert Sent(s, x, j);
        var u :| u in s.pubs && s.pubs[u].m == x && Handled(s.pubs[u], j);
        assert s'.pubs[u].m == x && Handled(s'.pubs[u], j);
      } else {
        assert s'.pubs[t].m == x && Handled(s'.pubs[t], j);
      }
    }
    forall u, j | u in s'.pubs && Live(s', j) && Due(s'.feeds[j], s'.pubs[u], j)
      ensures Got(s'.feeds[j], s'.pubs[u].m)
    {
      if u != t || j != id { assert Due(s.feeds[j], s.pubs[u], j); }
    }
  }

  lemma {:induction false} RunInvariant(w: Setup, acts: seq<Action>)
    requires Exec(w, acts).Some?
    ensures Inv(w, Exec(w, acts).value)
  {
    if acts != [] {
      var before, a := acts[..|acts| - 1], acts[|acts| - 1];
      RunInvariant(w, before);
      var s, s' := Exec(w, before).value, Exec(w, acts).value;
      StorageStep(w, s, a, s');
      NumbersStep(w, s, a, s');
      OpenChannelsStep(w, s, a, s');
      FeedsOkStep(w, s, a, s');
      DeliveriesStep(w, s, a, s');
    }
  }

  // ---------------------------------------------------------------- main results

  /** Publish of the k-th stored event is not past subscriber id yet. */
  predicate Pending(s: State, k: nat, id: SubId)
    requires k < |s.order| && s.order[k] in s.pubs
  {
    !Handled(s.pubs[s.order[k]], id)
  }

  /** Subscribe, then replay: no gap.  For a live subscriber that has replayed, a matching
      stored event is in the replay, or was evicted, or n newer matches were there at the
      replay; and if stored later, it is in the channel's history, or counted as dropped,
      or its publish is still on the way. */
  lemma NoGap(w: Setup, acts: seq<Action>, id: SubId, k: nat)
    requires Exec(w, acts).Some?
    requires var s := Exec(w, acts).value;
      Live(s, id) && s.feeds[id].replay.Some? && k < |s.appended|
      && TopicMatch(s.feeds[id].sub.topics, s.appended[k].event)
    ensures var s := Exec(w, acts).value;
      var f, e := s.feeds[id], s.appended[k];
      var r := f.replay.value;
      && |s.order| == |s.appended| && s.order[k] in s.pubs && r.at <= |s.appended|
      && |r.result| <= 128 && |r.result| <= (if r.n > 0 then r.n else 0)
      && if k < r.at then
           || k + w.cap < r.at
           || e in r.result
           || |Matching(f.sub.topics, s.appended[k + 1..r.at])| >= (if r.n < 128 then r.n else 128)
         else e in f.enqueued || e in f.lost || Pending(s, k, id)
  {
    RunInvariant(w, acts);
    var s := Exec(w, acts).value;
    var f, e := s.feeds[id], s.appended[k];
    assert FeedOk(w, s, f);
    var r := f.replay.value;
    if k < r.at {
      ReplayedOrOlder(f.sub.topics, s.appended[..r.at], w.cap, Clamp(r.n), k);
      assert s.appended[..r.at][k + 1..] == s.appended[k + 1..r.at];
    } else {
      assert s.pubs[s.order[k]].m == e && s.pubs[s.order[k]].k == k;
    }
  }

  /** A matching event among those stored so far is in a replay of the last `cap` of them
      unless it was evicted or n newer ones match. */
  lemma ReplayedOrOlder(topics: Topics, stored: seq<EventMsg>, cap: nat, n: int, k: nat)
    requires k < |stored| && TopicMatch(topics, stored[k].event)
    ensures || k + cap < |stored|
            || stored[k] in ReplayOf(topics, LastN(stored, cap), n)
            || |Matching(topics, stored[k + 1..])| >= n
  {
    if k + cap >= |stored| && n > 0 {
      var b := LastN(stored, cap);
      var i := k - (|stored| - |b|);
      assert b[i] == stored[k] && b[i + 1..] == stored[k + 1..];
      ReplayExact(topics, b, n, i);
    }
  }

  /** Every send goes to an open channel of a live subscriber. */
  lemma {:induction false} NoSendOnClosed(w: Setup, acts: seq<Action>, t: Thread, id: SubId, waiting: bool)
    requires Exec(w, acts + [Give(t, id, waiting)]).Some?
    ensures Exec(w, acts).Some? && Live(Exec(w, acts).value, id)
  {
    assert (acts + [Give(t, id, waiting)])[..|acts|] == acts;
    RunInvariant(w, acts);
  }

  /** The matching publishes past a subscriber are exactly its enqueued and dropped events,
      each counted once; what is in the channel is what was enqueued and not drained. */
  lemma Accounting(w: Setup, acts: seq<Action>, id: SubId)
    requires Exec(w, acts).Some? && id in Exec(w, acts).value.feeds
    ensures var s := Exec(w, acts).value;
      var f := s.feeds[id];
      && f.sub.dropped == |f.lost|
      && f.enqueued == f.received + f.sub.ch
      && DistinctNums(f.enqueued + f.lost)
      && (forall m :: m in f.enqueued + f.lost ==> TopicMatch(f.sub.topics, m.event) && Sent(s, m, id))
      && (Live(s, id) ==> forall t :: t in s.pubs && Due(f, s.pubs[t], id) ==> s.pubs[t].m in f.enqueued + f.lost)
  {
    RunInvariant(w, acts);
    AccountingAt(w, Exec(w, acts).value, id);
  }

  lemma AccountingAt(w: Setup, s: State, id: SubId)
    requires id in s.feeds && FeedOk(w, s, s.feeds[id]) && Deliveries(s)
    ensures var f := s.feeds[id];
      && f.sub.dropped == |f.lost|
      && f.enqueued == f.received + f.sub.ch
      && DistinctNums(f.enqueued + f.lost)
      && (forall m :: m in f.enqueued + f.lost ==> TopicMatch(f.sub.topics, m.event) && Sent(s, m, id))
      && (Live(s, id) ==> forall t :: t in s.pubs && Due(f, s.pubs[t], id) ==> s.pubs[t].m in f.enqueued + f.lost)
  {
    var f := s.feeds[id];
    DistinctAppend(f.enqueued, f.lost);
    forall m | m in f.enqueued + f.lost ensures TopicMatch(f.sub.topics, m.event) && Sent(s, m, id) {
      assert Got(f, m);
    }
    forall t | Live(s, id) && t in s.pubs && Due(f, s.pubs[t], id) ensures s.pubs[t].m in f.enqueued + f.lost {
      assert Got(f, s.pubs[t].m);
    }
  }

  lemma DistinctAppend(a: seq<EventMsg>, b: seq<EventMsg>)
    requires DistinctNums(a) && DistinctNums(b)
    requires forall i, j :: 0 <= i < |a| && 0 <= j < |b| ==> a[i].num != b[j].num
    ensures DistinctNums(a + b)
  {
  }

  // ---------------------------------------------------------------- progress

  /** A publish has gone on: stored, begun its fan-out, sent to one more subscriber, or finished. */
  ghost predicate Further(s: State, p: Pub, p': Pub) {
    p'.m == p.m &&
    match p
    case Numbered(_) => p'.Stored? && p'.k == |s.appended|
    case Stored(_, k) => p'.Fanning? && p'.k == k && forall id :: id in p'.todo <==> Live(s, id)
    case Fanning(_, k, todo) =>
      && !p'.Numbered? && p'.k == k
      && if todo == {} then p'.Published? else p'.Fanning? && p'.todo < todo && |p'.todo| == |todo| - 1
    case Published(_, _) => false
  }

  /** No publish is ever kept waiting by a subscriber, however slow, nor by another publish once it
      has its number: until it has reached all subscribers it can go on. */
  lemma NeverBlocked(w: Setup, acts: seq<Action>, t: Thread) returns (a: Action)
    requires Exec(w, acts).Some? && t in Exec(w, acts).value.pubs && !Exec(w, acts).value.pubs[t].Published?
    ensures var s := Exec(w, acts).value;
      Next(w, s, a).Some? && t in Next(w, s, a).value.pubs && Further(s, s.pubs[t], Next(w, s, a).value.pubs[t])
  {
    RunInvariant(w, acts);
    var s := Exec(w, acts).value;
    a := GoesOn(w, s, t);
  }

  lemma GoesOn(w: Setup, s: State, t: Thread) returns (a: Action)
    requires OpenChannels(s) && t in s.pubs && !s.pubs[t].Published?
    ensures Next(w, s, a).Some? && t in Next(w, s, a).value.pubs
    ensures Further(s, s.pubs[t], Next(w, s, a).value.pubs[t])
  {
    match s.pubs[t] {
      case Numbered(_) => a := Store(t);
      case Stored(_, _) => a := BeginFan(t);
      case Fanning(_, _, todo) =>
        if todo == {} {
          a := EndFan(t);
        } else {
          var id :| id in todo;
          a := Give(t, id, false);
          assert todo - {id} < todo;
        }
    }
  }

  /** A session that subscribes or leaves is held up only by a fan-out that is running, and is live
      from then on or no longer. */
  lemma ComesAndGoes(w: Setup, s: State, id: SubId, topics: Topics, size: nat)
    ensures var s' := Next(w, s, Subscribe(topics, size));
      if NoFanOut(s) then s'.Some? && Live(s'.value, s.nextSub + 1) && s'.value.nextSub == s.nextSub + 1 else s'.None?
    ensures var s' := Next(w, s, Unsubscribe(id));
      if NoFanOut(s) && id in s.feeds then s'.Some? && !Live(s'.value, id) else s'.None?
  {
  }

  /** It drains the oldest event whenever its channel holds one. */
  lemma DrainsOldest(w: Setup, s: State, id: SubId)
    ensures var s' := Next(w, s, Drain(id));
      if id in s.feeds && |s.feeds[id].sub.ch| > 0 then
        && s'.Some? && id in s'.value.feeds
        && s'.value.feeds[id].received == s.feeds[id].received + [s.feeds[id].sub.ch[0]]
        && s.feeds[id].sub.ch == [s.feeds[id].sub.ch[0]] + s'.value.feeds[id].sub.ch
      else s'.None?
  {
  }

  /** It replays once, what was stored by then. */
  lemma ReplaysOnce(w: Setup, s: State, id: SubId, n: int)
    ensures var s' := Next(w, s, Replay(id, n));
      if id in s.feeds && s.feeds[id].replay.None? then
        s'.Some? && id in s'.value.feeds && s'.value.feeds[id].replay.Some?
        && s'.value.feeds[id].replay.value.at == |s.appended| && s'.value.feeds[id].replay.value.n == n
      else s'.None?
  {
  }

  /** A new publish is held up only where publishes are atomic and one is waiting to be stored. */
  lemma PublishBegins(w: Setup, s: State, t: Thread, event: string, data: nat)
    requires t !in s.pubs
    ensures Next(w, s, Number(t, event, data)).None?
      <==> w.atomic && exists u :: u in s.pubs && s.pubs[u].Numbered?
  {
  }

  // ---------------------------------------------------------------- what is dropped, and when

  /** The step sends m to a subscription that it matches. */
  predicate Sends(s: State, a: Action, id: SubId, m: EventMsg) {
    && a.Give? && a.id == id && id in s.feeds && a.t in s.pubs && s.pubs[a.t].m == m
    && (s.feeds[id].sub.topics.None? || m.event in s.feeds[id].sub.topics.value)
  }

  /** cap undrained events are in the channel and, if it has no buffer, nobody waits. */
  predicate Full(s: State, a: Action, id: SubId) {
    a.Give? && id in s.feeds && |s.feeds[id].sub.ch| == s.feeds[id].sub.cap && !(s.feeds[id].sub.cap == 0 && a.waiting)
  }

  /** The n-th step of the run does so, to a full channel or to one with room. */
  predicate Offered(w: Setup, acts: seq<Action>, n: nat, id: SubId, m: EventMsg, full: bool) {
    && n < |acts| && Exec(w, acts[..n]).Some?
    && Sends(Exec(w, acts[..n]).value, acts[n], id, m) && Full(Exec(w, acts[..n]).value, acts[n], id) == full
  }

  ghost predicate SomeOffered(w: Setup, acts: seq<Action>, id: SubId, m: EventMsg, full: bool) {
    exists n: nat :: Offered(w, acts, n, id, m, full)
  }

  lemma OfferedBefore(w: Setup, acts: seq<Action>, n: nat, id: SubId, m: EventMsg, full: bool)
    requires n + 1 < |acts|
    ensures Offered(w, acts[..|acts| - 1], n, id, m, full) <==> Offered(w, acts, n, id, m, full)
  {
    assert acts[..|acts| - 1][..n] == acts[..n];
  }

  lemma OfferedLast(w: Setup, acts: seq<Action>, id: SubId, m: EventMsg, full: bool)
    requires acts != [] && Exec(w, acts[..|acts| - 1]).Some?
    ensures var s, a := Exec(w, acts[..|acts| - 1]).value, acts[|acts| - 1];
      SomeOffered(w, acts, id, m, full)
      <==> SomeOffered(w, acts[..|acts| - 1], id, m, full) || (Sends(s, a, id, m) && Full(s, a, id) == full)
  {
    var front := acts[..|acts| - 1];
    if n: nat :| Offered(w, acts, n, id, m, full) {
      if n < |front| { OfferedBefore(w, acts, n, id, m, full); }
    }
    if n: nat :| Offered(w, front, n, id, m, full) {
      OfferedBefore(w, acts, n, id, m, full);
    }
    if Sends(Exec(w, front).value, acts[|front|], id, m) && Full(Exec(w, front).value, acts[|front|], id) == full {
      assert Offered(w, acts, |front|, id, m, full);
    }
  }

  /** What one send does to the two records of a subscription. */
  lemma OfferRecords(f: Feed, m: EventMsg, waiting: bool)
    requires |f.sub.ch| <= f.sub.cap
    ensures var f' := Offer(f, m, waiting);
      var matches := f.sub.topics.None? || m.event in f.sub.topics.value;
      var full := |f.sub.ch| == f.sub.cap && !(f.sub.cap == 0 && waiting);
      && f'.sub.cap == f.sub.cap
      && f'.lost == (if matches && full then f.lost + [m] else f.lost)
      && f'.enqueued == (if matches && !full then f.enqueued + [m] else f.enqueued)
  {
  }

  /** What a step adds to the two records of a subscription. */
  lemma StepRecords(w: Setup, s: State, a: Action, s': State, id: SubId, m: EventMsg)
    requires Inv(w, s) && Next(w, s, a) == Some(s') && id in s'.feeds
    ensures m in s'.feeds[id].lost
            <==> (id in s.feeds && m in s.feeds[id].lost) || (Sends(s, a, id, m) && Full(s, a, id))
    ensures m in s'.feeds[id].enqueued
            <==> (id in s.feeds && m in s.feeds[id].enqueued) || (Sends(s, a, id, m) && !Full(s, a, id))
  {
    if a.Give? && a.id == id {
      assert FeedOk(w, s, s.feeds[id]);
      OfferRecords(s.feeds[id], s.pubs[a.t].m, a.waiting);
    } else {
      Unsent(w, s, a, s', id);
    }
  }

  lemma Unsent(w: Setup, s: State, a: Action, s': State, id: SubId)
    requires OpenChannels(s) && Next(w, s, a) == Some(s') && !(a.Give? && a.id == id) && id in s'.feeds
    ensures if id in s.feeds
            then s'.feeds[id].lost == s.feeds[id].lost && s'.feeds[id].enqueued == s.feeds[id].enqueued
                 && s'.feeds[id].sub.cap == s.feeds[id].sub.cap
            else s'.feeds[id].lost == [] && s'.feeds[id].enqueued == []
  {
  }

  /** An event is counted as dropped exactly if it was sent when the channel held cap undrained
      events, and enqueued exactly if it was sent when there was room. */
  lemma {:induction false} DroppedExactly(w: Setup, acts: seq<Action>, id: SubId, m: EventMsg)
    requires Exec(w, acts).Some? && id in Exec(w, acts).value.feeds
    ensures m in Exec(w, acts).value.feeds[id].lost <==> SomeOffered(w, acts, id, m, true)
    ensures m in Exec(w, acts).value.feeds[id].enqueued <==> SomeOffered(w, acts, id, m, false)
  {
    if acts != [] {
      var front := acts[..|acts| - 1];
      RunInvariant(w, front);
      StepRecords(w, Exec(w, front).value, acts[|acts| - 1], Exec(w, acts).value, id, m);
      OfferedLast(w, acts, id, m, true);
      OfferedLast(w, acts, id, m, false);
      if id in Exec(w, front).value.feeds {
        DroppedExactly(w, front, id, m);
      } else {
        NotOfferedYet(w, front, id, m);
      }
    }
  }

  /** Nothing is sent to a subscription that is still to come. */
  lemma {:induction false} NotOfferedYet(w: Setup, acts: seq<Action>, id: SubId, m: EventMsg)
    requires Exec(w, acts).Some? && id !in Exec(w, acts).value.feeds
    ensures !SomeOffered(w, acts, id, m, true) && !SomeOffered(w, acts, id, m, false)
  {
    if acts != [] {
      NotOfferedYet(w, acts[..|acts| - 1], id, m);
      OfferedLast(w, acts, id, m, true);
      OfferedLast(w, acts, id, m, false);
    }
  }

  /** Once something was dropped, the channel had been filled. */
  ghost predicate FilledBeforeLoss(s: State) {
    forall id :: id in s.feeds && s.feeds[id].lost != [] ==> |s.feeds[id].enqueued| >= s.feeds[id].sub.cap
  }

  lemma FilledStep(w: Setup, s: State, a: Action, s': State)
    requires Inv(w, s) && FilledBeforeLoss(s) && Next(w, s, a) == Some(s')
    ensures FilledBeforeLoss(s')
  {
    forall id | id in s'.feeds && s'.feeds[id].lost != []
      ensures |s'.feeds[id].enqueued| >= s'.feeds[id].sub.cap
    {
      if a.Give? && a.id == id {
        assert FeedOk(w, s, s.feeds[id]);
        OfferRecords(s.feeds[id], s.pubs[a.t].m, a.waiting);
      } else {
        Unsent(w, s, a, s', id);
      }
    }
  }

  /** A subscription past which no more matching events were sent than its channel holds has lost
      none, however late they are drained. */
  lemma {:induction false} NoLossWithinCapacity(w: Setup, acts: seq<Action>, id: SubId)
    requires Exec(w, acts).Some? && id in Exec(w, acts).value.feeds
    requires var f := Exec(w, acts).value.feeds[id]; |f.enqueued| + |f.lost| <= f.sub.cap
    ensures Exec(w, acts).value.feeds[id].lost == []
  {
    FilledAlways(w, acts);
  }

  lemma {:induction false} FilledAlways(w: Setup, acts: seq<Action>)
    requires Exec(w, acts).Some?
    ensures FilledBeforeLoss(Exec(w, acts).value)
  {
    if acts != [] {
      var front := acts[..|acts| - 1];
      RunInvariant(w, front);
      FilledAlways(w, front);
      FilledStep(w, Exec(w, front).value, acts[|acts| - 1], Exec(w, acts).value);
    }
  }

  // ---------------------------------------------------------------- order in the buffer

  /** With numbers taken and stored in one step the stored events are in the order of their
      numbers, and a number waiting to be stored is above them all. */
  ghost predicate InOrder(s: State) {
    && Increasing(s.appended)
    && (forall k :: 0 <= k < |s.appended| ==> s.appended[k].num <= s.num)
    && (forall t, k :: t in s.pubs && s.pubs[t].Numbered? && 0 <= k < |s.appended| ==>
          s.appended[k].num < s.pubs[t].m.num <= s.num)
    && (forall t, u :: t in s.pubs && u in s.pubs && s.pubs[t].Numbered? && s.pubs[u].Numbered? ==> t == u)
  }

  lemma InOrderNumber(w: Setup, s: State, a: Action, s': State)
    requires w.atomic && InOrder(s) && Numbers(s) && a.Number? && Next(w, s, a) == Some(s')
    ensures InOrder(s')
  {
  }

  lemma InOrderStore(w: Setup, s: State, a: Action, s': State)
    requires InOrder(s) && Numbers(s) && a.Store? && Next(w, s, a) == Some(s')
    ensures InOrder(s')
  {
    assert s'.appended == s.appended + [s.pubs[a.t].m];
    assert forall t :: t in s'.pubs ==> !s'.pubs[t].Numbered?;
  }

  lemma InOrderOther(s: State, s': State)
    requires InOrder(s) && s'.appended == s.appended && s'.num >= s.num && forall t :: NumbersKept(s, s', t)
    ensures InOrder(s')
  {
    forall t | t in s'.pubs && s'.pubs[t].Numbered? ensures t in s.pubs && s.pubs[t] == s'.pubs[t] {
      assert NumbersKept(s, s', t);
    }
  }

  lemma InOrderStep(w: Setup, s: State, a: Action, s': State)
    requires w.atomic && InOrder(s) && Numbers(s) && Next(w, s, a) == Some(s')
    ensures InOrder(s')
  {
    if a.Number? {
      InOrderNumber(w, s, a, s');
    } else if a.Store? {
      InOrderStore(w, s, a, s');
    } else {
      forall t ensures NumbersKept(s, s', t) { OtherStep(w, s, a, s', t); }
      OtherStep(w, s, a, s', 0);
      InOrderOther(s, s');
    }
  }

  predicate NumbersKept(s: State, s': State, t: Thread) {
    t in s'.pubs && s'.pubs[t].Numbered? ==> t in s.pubs && s.pubs[t] == s'.pubs[t]
  }

  lemma OtherStep(w: Setup, s: State, a: Action, s': State, t: Thread)
    requires !a.Number? && !a.Store? && Next(w, s, a) == Some(s')
    ensures s'.appended == s.appended && s'.num >= s.num && NumbersKept(s, s', t)
  {
  }

  lemma {:induction false} AtomicInOrder(w: Setup, acts: seq<Action>)
    requires w.atomic && Exec(w, acts).Some?
    ensures InOrder(Exec(w, acts).value)
  {
    if acts != [] {
      var before, a := acts[..|acts| - 1], acts[|acts| - 1];
      AtomicInOrder(w, before);
      RunInvariant(w, before);
      InOrderStep(w, Exec(w, before).value, a, Exec(w, acts).value);
    }
  }

  lemma Extend(w: Setup, acts: seq<Action>, a: Action) returns (more: seq<Action>)
    requires Exec(w, acts).Some? && Next(w, Exec(w, acts).value, a).Some?
    ensures more == acts + [a] && Exec(w, more) == Next(w, Exec(w, acts).value, a)
  {
    more := acts + [a];
    assert more[..|acts|] == acts;
  }

  /** Two publishes that store in the opposite order of their numbers. */
  lemma OutOfOrder(w: Setup) returns (acts: seq<Action>)
    requires !w.atomic && w.cap >= 2
    ensures Exec(w, acts).Some? && !Increasing(Exec(w, acts).value.buf)
  {
    acts := Extend(w, [], Number(0, "a", 0));
    acts := Extend(w, acts, Number(1, "b", 0));
    acts := Extend(w, acts, Store(1));
    acts := Extend(w, acts, Store(0));
    var b := Exec(w, acts).value.buf;
    assert |b| == 2 && b[0].num == 2 && b[1].num == 1;
  }

  /** The ring is in the order of the numbers, whatever the interleaving, exactly when no
      publish comes between another one's number and its store, or the ring holds one event. */
  lemma RingOrder(w: Setup)
    requires w.cap >= 1
    ensures (forall acts :: Exec(w, acts).Some? ==> Increasing(Exec(w, acts).value.buf)) <==> w.atomic || w.cap == 1
  {
    if w.atomic || w.cap == 1 {
      forall acts | Exec(w, acts).Some? ensures Increasing(Exec(w, acts).value.buf) {
        RunInvariant(w, acts);
        if w.atomic { AtomicInOrder(w, acts); }
      }
    } else {
      var acts := OutOfOrder(w);
    }
  }
}
