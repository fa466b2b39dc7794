/** internal/nickmanager/nickmanager.go: the manager as an object.  Each method is proved
    against the functions of NickState. */
module NickManager {
  import opened Text
  import opened NickState

  class Manager {
    var nicksToCatch: seq<string>
    var priorityNicks: seq<string>
    var secondaryNicks: seq<string>
    var tempUnavailableNicks: map<string, int>
    var noLettersServers: set<string>

    function Value(): State
      reads this
    {
      State(nicksToCatch, priorityNicks, secondaryNicks, tempUnavailableNicks, noLettersServers)
    }

    constructor ()
      ensures Value() == EMPTY
    {
      nicksToCatch, priorityNicks, secondaryNicks, tempUnavailableNicks, noLettersServers := [], [], [], map[], {};
    }

    /** `file`: the nicks in it, or None if it cannot be read or parsed. */
    method LoadNicks(file: Option<seq<string>>) returns (ok: bool)
      modifies this
      ensures ok == file.Some?
      ensures Value() == if ok then Load(old(Value()), file.value) else old(Value())
      ensures ok ==> priorityNicks == file.value && secondaryNicks == old(secondaryNicks) + Letters()
                     && nicksToCatch == priorityNicks + secondaryNicks
    {
      if file.None? {
        return false;
      }
      var nicks := file.value;
      priorityNicks := nicks;
      var i := 0;
      while i < |Letters()|
        invariant 0 <= i <= |Letters()|
        invariant Value() == old(Value()).(priority := nicks, secondary := old(secondaryNicks) + Letters()[..i])
      {
        secondaryNicks := secondaryNicks + [Letters()[i]];
        assert Letters()[..i + 1] == Letters()[..i] + [Letters()[i]];
        i := i + 1;
      }
      assert Letters()[..i] == Letters();
      nicksToCatch := priorityNicks + secondaryNicks;
      return true;
    }

    method GetAvailableBots(bots: seq<Bot>) returns (free: seq<Bot>)
      ensures free == FreeBots(bots, nicksToCatch)
      ensures forall b :: b in free ==> Serves(bots, nicksToCatch, b)
    {
      free := [];
      var i := 0;
      while i < |bots|
        invariant 0 <= i <= |bots|
        invariant free == FreeBots(bots[..i], nicksToCatch)
      {
        assert bots[..i + 1][..i] == bots[..i];
        if bots[i].connected && !ContainsIgnoreCase(nicksToCatch, bots[i].nick) {
          free := free + [bots[i]];
        }
        i := i + 1;
      }
      assert bots[..i] == bots;
      forall b | b in free ensures Serves(bots, nicksToCatch, b) {
        var k :| 0 <= k < |free| && free[k] == b;
        FreeBotServes(bots, nicksToCatch, k);
      }
    }

    method CleanupTempUnavailable(now: int)
      modifies this`tempUnavailableNicks
      ensures tempUnavailableNicks == Cleanup(old(tempUnavailableNicks), now)
    {
      ghost var was := tempUnavailableNicks;
      var todo := tempUnavailableNicks.Keys;
      while todo != {}
        invariant todo <= tempUnavailableNicks.Keys
        invariant tempUnavailableNicks ==
          map n | n in was && (n in todo || now <= was[n]) :: was[n]
        decreases todo
      {
        var nick :| nick in todo;
        todo := todo - {nick};
        if now > tempUnavailableNicks[nick] {
          tempUnavailableNicks := tempUnavailableNicks - {nick};
        }
      }
    }

    method FilterAvailable(nicks: seq<string>, online: seq<string>, now: int) returns (available: seq<string>)
      modifies this`tempUnavailableNicks
      ensures available == Available(nicks, online, old(tempUnavailableNicks), now)
      ensures tempUnavailableNicks == Unexpired(nicks, online, old(tempUnavailableNicks), now)
    {
      var snapshot := tempUnavailableNicks;
      available := [];
      var i := 0;
      while i < |nicks|
        invariant 0 <= i <= |nicks|
        invariant available == At(nicks, AvailableAt(nicks, i, online, snapshot, now))
        invariant tempUnavailableNicks == Unexpired(nicks[..i], online, snapshot, now)
      {
        var nick, lower := nicks[i], ToLower(nicks[i]);
        UnexpiredStep(nicks, i, online, snapshot, now);
        if !ContainsIgnoreCase(online, nick) {
          if lower in snapshot {
            if now > snapshot[lower] {
              available := available + [nick];
              tempUnavailableNicks := tempUnavailableNicks - {lower};
            }
          } else {
            available := available + [nick];
          }
        }
        i := i + 1;
      }
      assert nicks[..i] == nicks;
    }

    /** One of the two assignment loops of handleISONResponse.  `done` went before; `base` are
        the blocks before any assignment. */
    method AssignFrom(list: seq<string>, free: seq<Bot>, stamps: seq<int>,
                      ghost done: seq<string>, ghost base: map<string, int>, assignedBots: nat)
      returns (out: seq<string>, served: nat)
      requires |done| == assignedBots <= |free| <= |stamps|
      requires tempUnavailableNicks == LockAll(base, done, stamps)
      modifies this`tempUnavailableNicks
      ensures out == Greedy(list, free, assignedBots, noLettersServers)
      ensures served == assignedBots + |out| <= |free|
      ensures tempUnavailableNicks == LockAll(base, done + out, stamps)
    {
      var nicks := list;
      ghost var from := 0;
      out, served := [], assignedBots;
      assert done + out == done;
      while served < |free| && |nicks| > 0
        invariant from <= |list| && nicks == list[from..]
        invariant served == assignedBots + |out| <= |free|
        invariant Greedy(list, free, assignedBots, noLettersServers)
               == out + Rest(list, from, free, served, noLettersServers)
        invariant tempUnavailableNicks == LockAll(base, done + out, stamps)
      {
        var nick := nicks[0];
        nicks := nicks[1..];
        var bot := free[served];
        if |nick| == 1 && bot.server in noLettersServers {
          RestSkips(list, from, free, served, noLettersServers);
          from := from + 1;
          continue;
        }
        RestTakes(list, from, free, served, noLettersServers, out);
        LockNext(base, done, out, nick, stamps);
        tempUnavailableNicks := tempUnavailableNicks[ToLower(nick) := stamps[served] + INFLIGHT_LOCK];
        served := served + 1;
        out := out + [nick];
        from := from + 1;
      }
      RestEnds(list, from, free, served, noLettersServers);
    }

    /** `out[i]` is handed to the i-th free bot (a goroutine each). */
    method HandleISONResponse(online: Option<seq<string>>, bots: seq<Bot>, r: Readings) returns (out: seq<string>)
      requires |r.stamps| >= |bots|
      modifies this`tempUnavailableNicks
      ensures (Value(), out) == Ison(old(Value()), online, bots, r)
    {
      if online.None? {
        return [];
      }
      CleanupTempUnavailable(r.cleanup);
      var free := GetAvailableBots(bots);
      FreeBotsLength(bots, nicksToCatch);
      if |free| == 0 {
        return [];
      }
      var prio := FilterAvailable(priorityNicks, online.value, r.priority);
      var sec := FilterAvailable(secondaryNicks, online.value, r.secondary);
      ghost var base := tempUnavailableNicks;
      var first, served := AssignFrom(prio, free, r.stamps, [], base, 0);
      assert [] + first == first;
      var second: seq<string>;
      second, served := AssignFrom(sec, free, r.stamps, first, base, served);
      out := first + second;
    }

    method MarkNickAsTemporarilyUnavailable(nick: string, now: int)
      modifies this`tempUnavailableNicks
      ensures Value() == Mark(old(Value()), nick, now)
    {
      tempUnavailableNicks := tempUnavailableNicks[ToLower(nick) := now + TEMP_UNAVAILABLE];
    }

    method ReturnNickToPool(nick: string, bots: seq<Bot>) returns (offered: Option<Bot>)
      modifies this`tempUnavailableNicks
      ensures (Value(), offered) == Return(old(Value()), nick, bots)
      ensures offered.Some? ==> Serves(bots, nicksToCatch, offered.value)
    {
      offered := None;
      if ContainsIgnoreCase(priorityNicks, nick) || IsLetter(nick) {
        tempUnavailableNicks := tempUnavailableNicks - {ToLower(nick)};
        var free := GetAvailableBots(bots);
        if |free| > 0 { offered := Some(free[0]); }
      }
    }

    method NotifyNickChange(oldNick: string, bots: seq<Bot>) returns (offered: Option<Bot>)
      modifies this`tempUnavailableNicks
      ensures (Value(), offered) == Notify(old(Value()), oldNick, bots)
      ensures offered.Some? ==> Serves(bots, nicksToCatch, offered.value)
    {
      offered := None;
      if ContainsIgnoreCase(nicksToCatch, oldNick) {
        tempUnavailableNicks := tempUnavailableNicks - {ToLower(oldNick)};
        var free := GetAvailableBots(bots);
        if |free| > 0 { offered := Some(free[0]); }
      }
    }

    method MarkServerNoLetters(server: string)
      modifies this`noLettersServers
      ensures forall nick, b :: RefusesLetter(nick, b, noLettersServers) <==>
        RefusesLetter(nick, b, old(noLettersServers)) || (|nick| == 1 && b.server == server)
      ensures noLettersServers == old(noLettersServers) + {server}
    {
      noLettersServers := noLettersServers + {server};
    }

    /** `saved`: whether the list could be written to disk; the lists change either way. */
    method AddNick(nick: string, saved: bool) returns (ok: bool)
      modifies this`priorityNicks, this`nicksToCatch
      ensures ok == (nick !in old(priorityNicks) && saved)
      ensures Value() == Add(old(Value()), nick)
    {
      var i := 0;
      while i < |priorityNicks|
        invariant 0 <= i <= |priorityNicks| && nick !in priorityNicks[..i]
        invariant Value() == old(Value())
      {
        if priorityNicks[i] == nick { return false; }
        i := i + 1;
      }
      priorityNicks := priorityNicks + [nick];
      nicksToCatch := nicksToCatch + [nick];
      ok := saved;
    }

    method IndexOf(list: seq<string>, x: string) returns (index: int)
      ensures index == -1 <==> x !in list
      ensures index >= 0 ==> index < |list| && WithoutFirst(list, x) == list[..index] + list[index + 1..]
      ensures -1 <= index
    {
      var i := 0;
      while i < |list|
        invariant 0 <= i <= |list| && x !in list[..i]
      {
        if list[i] == x {
          WithoutFirstAt(list, x, i);
          return i;
        }
        i := i + 1;
      }
      index := -1;
    }

    method RemoveNick(nick: string, saved: bool) returns (ok: bool)
      modifies this`priorityNicks, this`nicksToCatch
      ensures ok == (nick in old(priorityNicks) && saved)
      ensures Value() == Remove(old(Value()), nick)
    {
      var index := IndexOf(priorityNicks, nick);
      if index == -1 {
        return false;
      }
      priorityNicks := priorityNicks[..index] + priorityNicks[index + 1..];
      index := IndexOf(nicksToCatch, nick);
      if index != -1 {
        nicksToCatch := nicksToCatch[..index] + nicksToCatch[index + 1..];
      } else {
        WithoutAbsent(nicksToCatch, nick);
      }
      ok := saved;
    }
  }

  lemma UnexpiredStep(nicks: seq<string>, i: nat, online: seq<string>, blocks: map<string, int>, now: int)
    requires i < |nicks|
    ensures var lower := ToLower(nicks[i]);
      Unexpired(nicks[..i + 1], online, blocks, now)
      == if !ContainsIgnoreCase(online, nicks[i]) && lower in blocks && now > blocks[lower]
         then Unexpired(nicks[..i], online, blocks, now) - {lower} else Unexpired(nicks[..i], online, blocks, now)
  {
    var a, b := nicks[..i], nicks[..i + 1];
    forall n
      ensures Offline(b, online, n) <==>
        Offline(a, online, n) || (ToLower(nicks[i]) == n && !ContainsIgnoreCase(online, nicks[i]))
    {
      if j :| 0 <= j < |a| && ToLower(a[j]) == n && !ContainsIgnoreCase(online, a[j]) { assert b[j] == a[j]; }
      assert b[i] == nicks[i];
    }
  }

  /** What the loop still has to hand out. */
  ghost function Rest(list: seq<string>, from: nat, free: seq<Bot>, k: nat, noLetters: set<string>): seq<string> {
    At(list, Picks(list, from, free, k, noLetters))
  }

  lemma RestSkips(list: seq<string>, from: nat, free: seq<Bot>, k: nat, noLetters: set<string>)
    requires from < |list| && k < |free| && RefusesLetter(list[from], free[k], noLetters)
    ensures Rest(list, from, free, k, noLetters) == Rest(list, from + 1, free, k, noLetters)
  {
  }

  lemma RestTakes(list: seq<string>, from: nat, free: seq<Bot>, k: nat, noLetters: set<string>, out: seq<string>)
    requires from < |list| && k < |free| && !RefusesLetter(list[from], free[k], noLetters)
    ensures out + Rest(list, from, free, k, noLetters)
         == out + [list[from]] + Rest(list, from + 1, free, k + 1, noLetters)
  {
    assert Rest(list, from, free, k, noLetters) == [list[from]] + Rest(list, from + 1, free, k + 1, noLetters);
  }

  lemma RestEnds(list: seq<string>, from: nat, free: seq<Bot>, k: nat, noLetters: set<string>)
    requires from >= |list| || k >= |free|
    ensures Rest(list, from, free, k, noLetters) == []
  {
  }

  /** One more lock. */
  lemma LockNext(base: map<string, int>, done: seq<string>, out: seq<string>, x: string, stamps: seq<int>)
    requires |done| + |out| < |stamps|
    ensures LockAll(base, done + (out + [x]), stamps)
         == LockAll(base, done + out, stamps)[ToLower(x) := stamps[|done| + |out|] + INFLIGHT_LOCK]
  {
    var longer := done + (out + [x]);
    assert longer[..|longer| - 1] == done + out && longer[|longer| - 1] == x;
  }

  lemma {:induction false} WithoutFirstAt(list: seq<string>, x: string, i: nat)
    requires i < |list| && list[i] == x && x !in list[..i]
    ensures WithoutFirst(list, x) == list[..i] + list[i + 1..]
  {
    if i > 0 {
      assert list[..i][0] == list[0];
      assert list[1..][..i - 1] == list[..i][1..];
      WithoutFirstAt(list[1..], x, i - 1);
    }
  }

  lemma {:induction false} WithoutAbsent(list: seq<string>, x: string)
    requires x !in list
    ensures WithoutFirst(list, x) == list
  {
    if list != [] { WithoutAbsent(list[1..], x); }
  }
}
