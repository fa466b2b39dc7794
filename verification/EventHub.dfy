/** internal/api/events.go: the hub with its buffer shifted in place, its methods taken
    one at a time. */
module EventHub {
  import opened Text
  import opened Events

  class Hub {
    const bufCap: nat
    const buf: array<EventMsg>
    var len: nat
    var num: nat
    var subs: map<nat, Subscriber>
    var nextSubID: nat

    /** Every event published so far, in order. */
    ghost var history: seq<EventMsg>

    ghost predicate Valid()
      reads this, buf
    {
      && bufCap >= 1 && buf.Length == bufCap && len <= bufCap
      && Buffer() == LastN(history, bufCap)
      && Increasing(history)
      && (forall i :: 0 <= i < |history| ==> 1 <= history[i].num <= num)
      && (forall id :: id in subs ==> 1 <= id <= nextSubID)
    }

    /** The live part of the ring buffer, oldest first. */
    ghost function Buffer(): seq<EventMsg>
      requires len <= buf.Length
      reads this, buf
    {
      buf[..len]
    }

    constructor (bufferSize: int)
      ensures Valid() && fresh(buf)
      ensures history == [] && num == 0 && subs == map[]
      ensures bufCap == if bufferSize < 1 then 1 else bufferSize
    {
      bufCap := if bufferSize < 1 then 1 else bufferSize;
      buf := new EventMsg[if bufferSize < 1 then 1 else bufferSize];
      len, num, subs, nextSubID := 0, 0, map[], 0;
      history := [];
    }

    method Publish(event: string, data: nat) returns (msg: EventMsg)
      requires Valid()
      modifies this`len, this`num, this`subs, this`history, buf
      ensures Valid()
      ensures msg == EventMsg(event, old(num) + 1, data) && num == old(num) + 1
      ensures history == old(history) + [msg]
      ensures subs.Keys == old(subs).Keys
      ensures forall id :: id in subs ==> subs[id] == Deliver(old(subs)[id], msg)
      ensures forall id :: id in subs ==>
        var before, after := old(subs)[id], subs[id];
        && after.topics == before.topics && after.cap == before.cap
        && if before.topics.Some? && msg.event !in before.topics.value then after == before
           else if |before.ch| < before.cap then after.ch == before.ch + [msg] && after.dropped == before.dropped
           else after.ch == before.ch && after.dropped == before.dropped + 1
    {
      num := num + 1;
      msg := EventMsg(event, num, data);
      Append(msg);
      FanOut(msg);
      IncreasingSnoc(old(history), msg);
    }

    /** copy(h.buf, h.buf[1:]) on a full buffer. */
    method ShiftLeft()
      requires buf.Length == bufCap == len >= 1
      modifies buf
      ensures buf[..len - 1] == old(buf[1..])
    {
      ghost var was := buf[..];
      var i := 0;
      while i < len - 1
        invariant 0 <= i <= len - 1
        invariant forall k :: 0 <= k < i ==> buf[k] == was[k + 1]
        invariant forall k :: i <= k < len ==> buf[k] == was[k]
      {
        buf[i] := buf[i + 1];
        i := i + 1;
      }
    }

    /** Drop the oldest event when full, then append. */
    method Append(msg: EventMsg)
      requires bufCap >= 1 && buf.Length == bufCap && len <= bufCap && Buffer() == LastN(history, bufCap)
      modifies this`len, this`history, buf
      ensures len <= bufCap && history == old(history) + [msg]
      ensures Buffer() == LastN(history, bufCap)
    {
      ghost var was := buf[..len];
      if len == bufCap {
        assert was == buf[..] && was[1..] == buf[1..];
        ShiftLeft();
        len := len - 1;
      }
      assert buf[..len] == if |was| == bufCap then was[1..] else was;
      buf[len] := msg;
      len := len + 1;
      history := history + [msg];
      assert buf[..len] == buf[..len - 1] + [msg];
      LastNSnoc(old(history), bufCap, msg);
    }

    method FanOut(msg: EventMsg)
      modifies this`subs
      ensures subs.Keys == old(subs).Keys
      ensures forall id :: id in subs ==> subs[id] == Deliver(old(subs)[id], msg)
      ensures forall id :: id in subs ==>
        var before, after := old(subs)[id], subs[id];
        && after.topics == before.topics && after.cap == before.cap
        && if before.topics.Some? && msg.event !in before.topics.value then after == before
           else if |before.ch| < before.cap then after.ch == before.ch + [msg] && after.dropped == before.dropped
           else after.ch == before.ch && after.dropped == before.dropped + 1
    {
      var todo := subs.Keys;
      while todo != {}
        invariant todo <= subs.Keys == old(subs).Keys
        invariant forall id :: id in subs ==>
          subs[id] == if id in todo then old(subs)[id] else Deliver(old(subs)[id], msg)
        decreases todo
      {
        var id :| id in todo;
        subs := subs[id := Deliver(subs[id], msg)];
        todo := todo - {id};
      }
    }

    /** Server.NewAttachEvent takes a number from the same counter and stores nothing. */
    method NumberAttachEvent(event: string, data: nat) returns (msg: EventMsg)
      requires Valid()
      modifies this`num
      ensures Valid() && num == old(num) + 1
      ensures msg == EventMsg(event, num, data)
      ensures forall i :: 0 <= i < |history| ==> history[i].num < msg.num
    {
      num := num + 1;
      msg := EventMsg(event, num, data);
    }

    method Subscribe(topics: Topics, bufferSize: nat) returns (id: nat)
      requires Valid()
      modifies this`subs, this`nextSubID
      ensures Valid()
      ensures id !in old(subs) && id == nextSubID == old(nextSubID) + 1
      ensures subs == old(subs)[id := Subscriber(topics, bufferSize, [], 0)]
    {
      nextSubID := nextSubID + 1;
      id := nextSubID;
      subs := subs[id := Subscriber(topics, bufferSize, [], 0)];
    }

    /** `closed`: the channel was closed by this call. */
    method Unsubscribe(id: nat) returns (closed: bool)
      requires Valid()
      modifies this`subs
      ensures Valid()
      ensures closed <==> id in old(subs)
      ensures id !in subs && forall k :: k in old(subs) && k != id ==> k in subs && subs[k] == old(subs)[k]
      ensures subs.Keys <= old(subs).Keys
    {
      closed := id in subs;
      if closed {
        subs := subs - {id};
      }
    }

    /** From the newest event back until n match. */
    method ScanBack(topics: Topics, n: int) returns (collected: array<EventMsg>, count: nat, ghost i: nat)
      requires len <= buf.Length && n > 0
      ensures fresh(collected) && count <= collected.Length && i <= len && count <= n
      ensures Reversed(collected[..count]) == Matching(topics, Buffer()[i..])
      ensures i == 0 || count == n
    {
      ghost var b := Buffer();
      collected := new EventMsg[n];
      count := 0;
      var k := len;
      while k > 0 && count < n
        invariant 0 <= k <= len == |b| && 0 <= count <= n
        invariant Reversed(collected[..count]) == Matching(topics, b[k..])
      {
        k := k - 1;
        MatchingPrepend(topics, b, k);
        if TopicMatch(topics, buf[k].event) {
          collected[count] := buf[k];
          ReversedSnoc(collected[..count], b[k]);
          count := count + 1;
          assert collected[..count] == collected[..count - 1] + [b[k]];
        }
      }
      i := k;
    }

    /** Newest to oldest into a scratch slice, which is then reversed in place. */
    method Replay(topics: Topics, n: int) returns (r: seq<EventMsg>)
      requires Valid()
      ensures r == ReplayOf(topics, LastN(history, bufCap), n)
      ensures Increasing(r)
    {
      if n <= 0 {
        return [];
      }
      var collected, count, i := ScanBack(topics, n);
      ReverseInPlace(collected, count);
      r := collected[..count];
      NewestDecide(topics, Buffer(), i, n);
      ReplayIsIncreasing(topics, Buffer(), n);
    }

    lemma ReplayIsIncreasing(topics: Topics, b: seq<EventMsg>, n: int)
      requires Valid() && b == Buffer() && n > 0
      ensures Increasing(ReplayOf(topics, b, n))
    {
      assert Increasing(b);
      MatchingIncreasing(topics, b);
    }
  }

  lemma MatchingPrepend(topics: Topics, b: seq<EventMsg>, i: nat)
    requires i < |b|
    ensures Matching(topics, b[i..])
         == (if TopicMatch(topics, b[i].event) then [b[i]] else []) + Matching(topics, b[i + 1..])
  {
    assert b[i..] == [b[i]] + b[i + 1..];
    MatchingSplit(topics, [b[i]], b[i + 1..]);
    assert [b[i]][..0] == [];
  }

  /** The events from i on decide a replay of n once they hold n matches. */
  lemma NewestDecide(topics: Topics, b: seq<EventMsg>, i: nat, n: int)
    requires i <= |b| && n > 0 && |Matching(topics, b[i..])| <= n
    requires i == 0 || |Matching(topics, b[i..])| == n
    ensures ReplayOf(topics, b, n) == Matching(topics, b[i..])
  {
    assert b == b[..i] + b[i..];
    MatchingSplit(topics, b[..i], b[i..]);
    if i == 0 { assert b[i..] == b; }
  }

  function Reversed<T>(s: seq<T>): (r: seq<T>)
    ensures |r| == |s|
    ensures forall i :: 0 <= i < |s| ==> r[i] == s[|s| - 1 - i]
  {
    seq(|s|, i requires 0 <= i < |s| => s[|s| - 1 - i])
  }

  lemma ReversedSnoc<T>(s: seq<T>, x: T)
    ensures Reversed(s + [x]) == [x] + Reversed(s)
  {
  }

  method ReverseInPlace(a: array<EventMsg>, n: nat)
    requires n <= a.Length
    modifies a
    ensures a[..n] == Reversed(old(a[..n]))
  {
    var i, j := 0, n - 1;
    while i < j
      invariant 0 <= i && i + j == n - 1
      invariant forall k :: 0 <= k < n && (k < i || k > j) ==> a[k] == old(a[n - 1 - k])
      invariant forall k :: i <= k <= j ==> a[k] == old(a[k])
    {
      a[i], a[j] := a[j], a[i];
      i, j := i + 1, j - 1;
    }
    assert forall k :: 0 <= k < n ==> a[k] == old(a[n - 1 - k]);
  }
}
