/** internal/api/events.go: the event hub.  Events, subscribers, the ring buffer and
    the effect of one delivery, shared by the atomic class and the interleaved runs. */
module Events {
  import opened Text

  datatype EventMsg = EventMsg(event: string, num: nat, data: nat)

  /** None subscribes to all topics. */
  type Topics = Option<set<string>>

  predicate TopicMatch(topics: Topics, event: string) {
    topics.Some? ==> event in topics.value
  }

  /** A subscriber's bounded channel and its drop counter. */
  datatype Subscriber = Subscriber(topics: Topics, cap: nat, ch: seq<EventMsg>, dropped: nat)

  /** The select statement of the fan-out: enqueue if there is room, else count. */
  function Deliver(sub: Subscriber, m: EventMsg): Subscriber {
    if !TopicMatch(sub.topics, m.event) then sub
    else if |sub.ch| < sub.cap then sub.(ch := sub.ch + [m])
    else sub.(dropped := sub.dropped + 1)
  }

  function Matching(topics: Topics, list: seq<EventMsg>): seq<EventMsg> {
    if list == [] then []
    else
      var front, m := list[..|list| - 1], list[|list| - 1];
      Matching(topics, front) + if TopicMatch(topics, m.event) then [m] else []
  }

  /** What a replay of at most n events has to return. */
  function ReplayOf(topics: Topics, buf: seq<EventMsg>, n: int): seq<EventMsg> {
    if n <= 0 then [] else LastN(Matching(topics, buf), n)
  }

  predicate Increasing(list: seq<EventMsg>) {
    forall i, j :: 0 <= i < j < |list| ==> list[i].num < list[j].num
  }

  lemma {:induction false} MatchingSplit(topics: Topics, a: seq<EventMsg>, b: seq<EventMsg>)
    ensures Matching(topics, a + b) == Matching(topics, a) + Matching(topics, b)
  {
    if b == [] {
      assert a + b == a;
    } else {
      var b' := b[..|b| - 1];
      MatchingSplit(topics, a, b');
      assert (a + b)[..|a + b| - 1] == a + b';
    }
  }

  lemma {:induction false} MatchingMember(topics: Topics, list: seq<EventMsg>, m: EventMsg)
    ensures m in Matching(topics, list) <==> m in list && TopicMatch(topics, m.event)
  {
    if list != [] {
      MatchingMember(topics, list[..|list| - 1], m);
      assert list == list[..|list| - 1] + [list[|list| - 1]];
    }
  }

  lemma {:induction false} MatchingBelow(topics: Topics, list: seq<EventMsg>, n: nat)
    requires forall i :: 0 <= i < |list| ==> list[i].num < n
    ensures forall i :: 0 <= i < |Matching(topics, list)| ==> Matching(topics, list)[i].num < n
  {
    if list != [] {
      MatchingBelow(topics, list[..|list| - 1], n);
    }
  }

  lemma IncreasingSnoc(list: seq<EventMsg>, m: EventMsg)
    requires Increasing(list) && forall i :: 0 <= i < |list| ==> list[i].num < m.num
    ensures Increasing(list + [m])
  {
  }

  lemma {:induction false} MatchingIncreasing(topics: Topics, list: seq<EventMsg>)
    requires Increasing(list)
    ensures Increasing(Matching(topics, list))
  {
    if list != [] {
      var front, m := list[..|list| - 1], list[|list| - 1];
      MatchingIncreasing(topics, front);
      MatchingBelow(topics, front, m.num);
      IncreasingSnoc(Matching(topics, front), m);
    }
  }

  /** A replay holds only matching events of the buffer, in their order there, and an event
      of the buffer is missing only when n newer ones match. */
  lemma ReplayExact(topics: Topics, buf: seq<EventMsg>, n: int, k: nat)
    requires n > 0 && k < |buf|
    ensures var r := ReplayOf(topics, buf, n);
      && |r| <= n
      && (forall m :: m in r ==> m in buf && TopicMatch(topics, m.event))
      && (TopicMatch(topics, buf[k].event) ==> buf[k] in r || |Matching(topics, buf[k + 1..])| >= n)
      && (Increasing(buf) ==> Increasing(r))
  {
    var all := Matching(topics, buf);
    var r := ReplayOf(topics, buf, n);
    forall m | m in r ensures m in buf && TopicMatch(topics, m.event) {
      assert m in all;
      MatchingMember(topics, buf, m);
    }
    if Increasing(buf) { MatchingIncreasing(topics, buf); }
    if TopicMatch(topics, buf[k].event) {
      MatchAt(topics, buf, k);
    }
  }

  /** Where a matching event sits among the matches. */
  lemma MatchAt(topics: Topics, buf: seq<EventMsg>, k: nat)
    requires k < |buf| && TopicMatch(topics, buf[k].event)
    ensures var all, newer := Matching(topics, buf), |Matching(topics, buf[k + 1..])|;
      newer < |all| && all[|all| - 1 - newer] == buf[k]
  {
    var head, tail := buf[..k + 1], buf[k + 1..];
    assert buf == head + tail;
    MatchingSplit(topics, head, tail);
    assert head[..k] == buf[..k];
    assert Matching(topics, head) == Matching(topics, buf[..k]) + [buf[k]];
  }
}
