/** internal/nickmanager/nickmanager.go over whole runs: the in-flight lock, the consistency
    of the nick lists, and chains of re-offers. */
module NickRuns {
  import opened Text
  import opened NickState

  datatype Op =
    | IsonOp(online: Option<seq<string>>, bots: seq<Bot>, r: Readings)
    | MarkOp(nick: string, now: int)
    | ReturnOp(nick: string, bots: seq<Bot>)
    | NotifyOp(nick: string, bots: seq<Bot>)
    | AddOp(nick: string)
    | RemoveOp(nick: string)
    | ServerOp(server: string)

  predicate WellTimed(op: Op) {
    op.IsonOp? ==> |op.r.stamps| >= |op.bots| && |op.r.stamps| > 0 && Advancing(op.r)
  }

  function Step(s: State, op: Op): State
    requires WellTimed(op)
  {
    match op
    case IsonOp(online, bots, r) => Ison(s, online, bots, r).0
    case MarkOp(nick, now) => Mark(s, nick, now)
    case ReturnOp(nick, bots) => Return(s, nick, bots).0
    case NotifyOp(nick, bots) => Notify(s, nick, bots).0
    case AddOp(nick) => Add(s, nick)
    case RemoveOp(nick) => Remove(s, nick)
    case ServerOp(server) => s.(noLetters := s.noLetters + {server})
  }

  /** The first and the last clock reading of an operation; `now` if it takes none. */
  function Begin(op: Op, now: int): int {
    match op case IsonOp(_, _, r) => r.cleanup case MarkOp(_, t) => t case _ => now
  }
  function End(op: Op, now: int): int
    requires WellTimed(op)
  {
    match op case IsonOp(_, _, r) => r.stamps[|r.stamps| - 1] case MarkOp(_, t) => t case _ => now
  }

  /** A run whose clock, at `now` before it, never goes back. */
  predicate Clocked(ops: seq<Op>, now: int)
    decreases |ops|
  {
    ops == [] || (WellTimed(ops[0]) && now <= Begin(ops[0], now) && Clocked(ops[1..], End(ops[0], now)))
  }

  function RunAll(s: State, ops: seq<Op>, now: int): (State, int)
    requires Clocked(ops, now)
    decreases |ops|
  {
    if ops == [] then (s, now) else RunAll(Step(s, ops[0]), ops[1..], End(ops[0], now))
  }

  // ------------------------------------------------------------ the in-flight lock

  /** The operation gives the nick free on purpose. */
  predicate Releases(op: Op, key: string) {
    (op.ReturnOp? || op.NotifyOp?) && ToLower(op.nick) == key
  }

  /** The nick with this lower-case form is locked until `until`, or that time is past. */
  predicate Locked(s: State, key: string, until: int, now: int) {
    now > until || (key in s.blocks && s.blocks[key] >= until)
  }

  lemma {:induction false} LockAllHas(base: map<string, int>, picked: seq<string>, stamps: seq<int>, a: nat)
    requires a < |picked| <= |stamps|
    requires forall i, j :: 0 <= i < j < |stamps| ==> stamps[i] <= stamps[j]
    ensures var all := LockAll(base, picked, stamps);
      ToLower(picked[a]) in all && all[ToLower(picked[a])] >= stamps[a] + INFLIGHT_LOCK
  {
    var n := |picked| - 1;
    if a < n { LockAllHas(base, picked[..n], stamps, a); }
  }

  lemma {:induction false} LockAllOther(base: map<string, int>, picked: seq<string>, stamps: seq<int>, key: string)
    requires |picked| <= |stamps| && forall i :: 0 <= i < |picked| ==> ToLower(picked[i]) != key
    ensures var all := LockAll(base, picked, stamps);
      (key in all <==> key in base) && (key in base ==> all[key] == base[key])
  {
    if picked != [] { LockAllOther(base, picked[..|picked| - 1], stamps, key); }
  }

  /** Who handles a response: nothing is assigned unless a bot is free. */
  predicate Handles(s: State, op: Op) {
    op.IsonOp? && op.online.Some? && FreeBots(op.bots, s.nicksToCatch) != []
  }

  /** What is available is not locked, neither after the cleanup nor after the first filter. */
  lemma AvailableIsUnlocked(s: State, online: seq<string>, r: Readings, nick: string, until: int, now: int)
    requires Advancing(r) && now <= r.cleanup && Locked(s, ToLower(nick), until, now)
    ensures var b0 := Cleanup(s.blocks, r.cleanup);
      IsAvailable(nick, online, b0, r.priority) ==> r.secondary > until
    ensures var b0 := Cleanup(s.blocks, r.cleanup);
      var b1 := Unexpired(s.priority, online, b0, r.priority);
      IsAvailable(nick, online, b1, r.secondary) ==> r.secondary > until
  {
  }

  lemma FirstUnlocked(s: State, online: seq<string>, bots: seq<Bot>, r: Readings, until: int, now: int, i: nat)
    requires Advancing(r) && now <= r.cleanup && i < |FirstOut(s, online, bots, r)|
    requires Locked(s, ToLower(s.priority[FirstOut(s, online, bots, r)[i]]), until, now)
    ensures r.secondary > until
  {
    FirstSafe(s, online, bots, r, i);
    AvailableIsUnlocked(s, online, r, s.priority[FirstOut(s, online, bots, r)[i]], until, now);
  }

  lemma SecondUnlocked(s: State, online: seq<string>, bots: seq<Bot>, r: Readings, until: int, now: int, i: nat)
    requires Advancing(r) && now <= r.cleanup && i < |SecondOut(s, online, bots, r)|
    requires Locked(s, ToLower(s.secondary[SecondOut(s, online, bots, r)[i]]), until, now)
    ensures r.secondary > until
  {
    SecondSafe(s, online, bots, r, i);
    AvailableIsUnlocked(s, online, r, s.secondary[SecondOut(s, online, bots, r)[i]], until, now);
  }

  /** A locked nick is not assigned before its time. */
  lemma AssignedIsUnlocked(s: State, op: Op, key: string, until: int, now: int, b: nat)
    requires op.IsonOp? && WellTimed(op) && now <= op.r.cleanup && Locked(s, key, until, now)
    requires var out := Ison(s, op.online, op.bots, op.r).1; b < |out| && ToLower(out[b]) == key
    ensures op.r.secondary > until
  {
    assert Handles(s, op);
    var online := op.online.value;
    OutAt(s, online, op.bots, op.r, b);
    var n := |FirstOut(s, online, op.bots, op.r)|;
    if b < n {
      FirstUnlocked(s, online, op.bots, op.r, until, now, b);
    } else {
      SecondUnlocked(s, online, op.bots, op.r, until, now, b - n);
    }
  }

  lemma LockKept(s: State, op: Op, key: string, until: int, now: int)
    requires WellTimed(op) && now <= Begin(op, now) && Locked(s, key, until, now) && !Releases(op, key)
    requires until <= now + TEMP_UNAVAILABLE
    ensures Locked(Step(s, op), key, until, End(op, now))
  {
    if Handles(s, op) {
      var r, out := op.r, Ison(s, op.online, op.bots, op.r).1;
      if b :| 0 <= b < |out| && ToLower(out[b]) == key {
        AssignedIsUnlocked(s, op, key, until, now, b);
      } else {
        var b0 := Cleanup(s.blocks, r.cleanup);
        var b1 := Unexpired(s.priority, op.online.value, b0, r.priority);
        var b2 := Unexpired(s.secondary, op.online.value, b1, r.secondary);
        LockAllOther(b2, out, r.stamps, key);
      }
    }
  }

  lemma {:induction false} LockKeptAlong(s: State, ops: seq<Op>, key: string, until: int, now: int)
    requires Clocked(ops, now) && Locked(s, key, until, now) && until <= now + TEMP_UNAVAILABLE
    requires forall k :: 0 <= k < |ops| ==> !Releases(ops[k], key)
    ensures var (s', now') := RunAll(s, ops, now); Locked(s', key, until, now') && now <= now'
    decreases |ops|
  {
    if ops != [] {
      LockKept(s, ops[0], key, until, now);
      LockKeptAlong(Step(s, ops[0]), ops[1..], key, until, End(ops[0], now));
    }
  }

  /** The operation assigns, as its i-th nick, one with this lower-case form. */
  predicate Assigns(s: State, op: Op, i: nat, key: string) {
    op.IsonOp? && WellTimed(op) && i < |Ison(s, op.online, op.bots, op.r).1|
    && ToLower(Ison(s, op.online, op.bots, op.r).1[i]) == key
  }

  lemma AssigningLocks(s: State, op: Op, a: nat, key: string, now: int)
    requires Assigns(s, op, a, key)
    ensures Locked(Step(s, op), key, op.r.stamps[a] + INFLIGHT_LOCK, End(op, now))
  {
    assert Handles(s, op);
    var r, out := op.r, Ison(s, op.online, op.bots, op.r).1;
    var b0 := Cleanup(s.blocks, r.cleanup);
    var b1 := Unexpired(s.priority, op.online.value, b0, r.priority);
    var b2 := Unexpired(s.secondary, op.online.value, b1, r.secondary);
    LockAllHas(b2, out, r.stamps, a);
  }

  /** No double assignment: whatever happens between two responses, the same nick (up to case)
      is assigned again only more than 1.5 s later, unless it was released in between. */
  lemma {:induction false} NoDoubleAssignment(s: State, now: int, first: Op, between: seq<Op>, second: Op,
                                              a: nat, b: nat, key: string)
    requires Assigns(s, first, a, key) && now <= first.r.cleanup
    requires Clocked(between, End(first, now))
    requires forall k :: 0 <= k < |between| ==> !Releases(between[k], key)
    requires var (s', now') := RunAll(Step(s, first), between, End(first, now));
      Assigns(s', second, b, key) && now' <= second.r.cleanup
    ensures second.r.stamps[b] > first.r.stamps[a] + INFLIGHT_LOCK
  {
    AssigningLocks(s, first, a, key, now);
    LockedTill(Step(s, first), End(first, now), between, second, b, key, first.r.stamps[a] + INFLIGHT_LOCK);
  }

  /** A nick that is locked is not assigned before its time, whatever happens but a release. */
  lemma LockedTill(s: State, now: int, between: seq<Op>, second: Op, b: nat, key: string, until: int)
    requires Clocked(between, now) && Locked(s, key, until, now) && until <= now + TEMP_UNAVAILABLE
    requires forall k :: 0 <= k < |between| ==> !Releases(between[k], key)
    requires var (s', now') := RunAll(s, between, now); Assigns(s', second, b, key) && now' <= second.r.cleanup
    ensures second.r.stamps[b] > until
  {
    LockKeptAlong(s, between, key, until, now);
    var (s', now') := RunAll(s, between, now);
    AssignedIsUnlocked(s', second, key, until, now', b);
  }

  /** A nick marked as unavailable is not assigned within a minute, whatever happens in between,
      unless it was released. */
  lemma MarkedForAMinute(s: State, nick: string, at: int, between: seq<Op>, second: Op, b: nat)
    requires Clocked(between, at)
    requires forall k :: 0 <= k < |between| ==> !Releases(between[k], ToLower(nick))
    requires var (s', now') := RunAll(Step(s, MarkOp(nick, at)), between, at);
      Assigns(s', second, b, ToLower(nick)) && now' <= second.r.cleanup
    ensures second.r.stamps[b] > at + 60000
  {
    LockedTill(Step(s, MarkOp(nick, at)), at, between, second, b, ToLower(nick), at + TEMP_UNAVAILABLE);
  }

  lemma {:induction false} LockAllLast(base: map<string, int>, picked: seq<string>, stamps: seq<int>, a: nat)
    requires a < |picked| <= |stamps| && forall i :: a < i < |picked| ==> ToLower(picked[i]) != ToLower(picked[a])
    ensures var all := LockAll(base, picked, stamps);
      ToLower(picked[a]) in all && all[ToLower(picked[a])] == stamps[a] + INFLIGHT_LOCK
  {
    var n := |picked| - 1;
    if a < n { LockAllLast(base, picked[..n], stamps, a); }
  }

  /** What a handled response does to the blocks: an assigned nick is locked for 1.5 s from its
      stamp; of the others none is added or changed, one that was over at the first reading is gone
      and one that still runs at the last reading is kept. */
  lemma ResponseBlocks(s: State, op: Op, key: string)
    requires WellTimed(op) && Handles(s, op)
    ensures var out, s' := Ison(s, op.online, op.bots, op.r).1, Step(s, op);
      && s' == s.(blocks := s'.blocks)
      && (forall a :: 0 <= a < |out| && LastSpelling(out, a, key) ==>
            key in s'.blocks && s'.blocks[key] == op.r.stamps[a] + 1500)
      && ((forall i :: 0 <= i < |out| ==> ToLower(out[i]) != key) ==>
            && (key in s'.blocks ==> key in s.blocks && s'.blocks[key] == s.blocks[key] >= op.r.cleanup)
            && (key in s.blocks && s.blocks[key] >= op.r.secondary ==> key in s'.blocks))
  {
    var r, out := op.r, Ison(s, op.online, op.bots, op.r).1;
    var b0 := Cleanup(s.blocks, r.cleanup);
    var b1 := Unexpired(s.priority, op.online.value, b0, r.priority);
    var b2 := Unexpired(s.secondary, op.online.value, b1, r.secondary);
    forall a | 0 <= a < |out| && LastSpelling(out, a, key)
      ensures var all := LockAll(b2, out, r.stamps); key in all && all[key] == r.stamps[a] + INFLIGHT_LOCK
    {
      LockAllLast(b2, out, r.stamps, a);
    }
    if forall i :: 0 <= i < |out| ==> ToLower(out[i]) != key {
      LockAllOther(b2, out, r.stamps, key);
    }
  }

  predicate LastSpelling(out: seq<string>, a: nat, key: string)
    requires a < |out|
  {
    ToLower(out[a]) == key && forall i :: a < i < |out| ==> ToLower(out[i]) != key
  }

  /** A nil response changes nothing; one that finds no free bot drops exactly the blocks that are
      over. */
  lemma UnhandledResponse(s: State, op: Op)
    requires WellTimed(op) && op.IsonOp? && !Handles(s, op)
    ensures Ison(s, op.online, op.bots, op.r).1 == []
    ensures var s' := Step(s, op);
      && s' == s.(blocks := s'.blocks)
      && forall key :: key in s'.blocks <==> key in s.blocks && (op.online.None? || s.blocks[key] >= op.r.cleanup)
    ensures forall key :: key in Step(s, op).blocks ==> Step(s, op).blocks[key] == s.blocks[key]
  {
  }

  lemma PositionsInBoth(p: seq<string>, q: seq<string>, at1: seq<nat>, at2: seq<nat>) returns (at: seq<nat>)
    requires Ascending(at1) && Ascending(at2)
    requires forall i :: 0 <= i < |at1| ==> at1[i] < |p|
    requires forall i :: 0 <= i < |at2| ==> at2[i] < |q|
    ensures Ascending(at) && (forall i :: 0 <= i < |at| ==> at[i] < |p + q|)
    ensures At(p, at1) + At(q, at2) == At(p + q, at)
  {
    at := at1 + seq(|at2|, i requires 0 <= i < |at2| => |p| + at2[i]);
  }

  /** Within one response no nick goes to two bots if the lists hold no duplicates. */
  lemma NoDoubleInOneResponse(s: State, op: Op, i: nat, j: nat, key: string)
    requires Assigns(s, op, i, key) && Assigns(s, op, j, key) && DistinctIgnoringCase(s.priority + s.secondary)
    ensures i == j
  {
    assert Handles(s, op);
    var at1, at2 := AssignmentCorrect(s, op.online.value, op.bots, op.r);
    var at := PositionsInBoth(s.priority, s.secondary, at1, at2);
  }

  // ------------------------------------------------------------ servers without letters

  lemma NoLettersKept(s: State, op: Op)
    requires WellTimed(op)
    ensures s.noLetters <= Step(s, op).noLetters
  {
  }

  lemma {:induction false} NoLettersGrow(s: State, ops: seq<Op>, now: int)
    requires Clocked(ops, now)
    ensures s.noLetters <= RunAll(s, ops, now).0.noLetters
    decreases |ops|
  {
    if ops != [] {
      NoLettersKept(s, ops[0]);
      NoLettersGrow(Step(s, ops[0]), ops[1..], End(ops[0], now));
    }
  }

  /** Once a server is known to refuse letters, no response in any later run assigns a one-letter
      nick to a bot on it. */
  lemma RefusedForGood(s: State, now: int, server: string, between: seq<Op>, op: Op, i: nat)
    requires Clocked(between, now) && op.IsonOp? && WellTimed(op)
    requires var s' := RunAll(Step(s, ServerOp(server)), between, now).0;
      i < |Ison(s', op.online, op.bots, op.r).1| && |Ison(s', op.online, op.bots, op.r).1[i]| == 1
    ensures var s' := RunAll(Step(s, ServerOp(server)), between, now).0;
      var free := FreeBots(op.bots, s'.nicksToCatch);
      i < |free| && free[i].server != server
  {
    NoLettersGrow(Step(s, ServerOp(server)), between, now);
    var s' := RunAll(Step(s, ServerOp(server)), between, now).0;
    assert server in s'.noLetters;
    var at1, at2 := AssignmentCorrect(s', op.online.value, op.bots, op.r);
    assert Fits(s', Ison(s', op.online, op.bots, op.r).1, FreeBots(op.bots, s'.nicksToCatch), i);
  }

  // ------------------------------------------------------------ the lists

  ghost predicate Consistent(s: State) {
    multiset(s.nicksToCatch) == multiset(s.priority) + multiset(s.secondary)
  }

  lemma PushMinus(h: string, m: multiset<string>, x: string)
    requires h != x
    ensures multiset{h} + (m - multiset{x}) == multiset{h} + m - multiset{x}
  {
  }

  lemma {:induction false} WithoutFirstCounts(list: seq<string>, x: string)
    ensures multiset(WithoutFirst(list, x)) == multiset(list) - multiset{x}
  {
    if list != [] {
      var rest := list[1..];
      WithoutFirstCounts(rest, x);
      assert list == [list[0]] + rest;
      if list[0] != x {
        PushMinus(list[0], multiset(rest), x);
      }
    }
  }

  lemma RemoveConsistent(s: State, nick: string)
    requires Consistent(s)
    ensures Consistent(Remove(s, nick))
  {
    if nick in s.priority {
      WithoutFirstCounts(s.priority, nick);
      WithoutFirstCounts(s.nicksToCatch, nick);
      assert nick in multiset(s.priority);
    }
  }

  /** The other operations leave the lists alone. */
  lemma ListsUntouched(s: State, op: Op)
    requires WellTimed(op) && !op.AddOp? && !op.RemoveOp?
    ensures var s' := Step(s, op);
      s'.nicksToCatch == s.nicksToCatch && s'.priority == s.priority && s'.secondary == s.secondary
  {
  }

  lemma StepConsistent(s: State, op: Op)
    requires WellTimed(op) && Consistent(s)
    ensures Consistent(Step(s, op)) && Step(s, op).secondary == s.secondary
  {
    if op.RemoveOp? {
      RemoveConsistent(s, op.nick);
    } else if !op.AddOp? {
      ListsUntouched(s, op);
    }
  }

  /** Under any run after loading, the target list is the two lists together, counted with
      multiplicity, and the letters stay among the targets. */
  lemma {:induction false} ListsConsistent(s: State, ops: seq<Op>, now: int)
    requires Clocked(ops, now) && Consistent(s) && s.secondary == Letters()
    ensures Consistent(RunAll(s, ops, now).0) && RunAll(s, ops, now).0.secondary == Letters()
    decreases |ops|
  {
    if ops != [] {
      StepConsistent(s, ops[0]);
      ListsConsistent(Step(s, ops[0]), ops[1..], End(ops[0], now));
    }
  }

  lemma LoadedConsistent(nicks: seq<string>)
    ensures Consistent(Load(EMPTY, nicks)) && Load(EMPTY, nicks).secondary == Letters()
  {
    assert [] + Letters() == Letters();
  }

  // ------------------------------------------------------------ re-offers

  /** Bot.shouldChangeNick says no. */
  predicate Declines(s: State, b: Bot, nick: string) {
    ContainsIgnoreCase(s.nicksToCatch, b.nick) || b.nick == nick
  }

  /** The bots that are asked in turn when `b` is offered a nick and every refusal returns it
      to the pool; at most `fuel` of them are followed. */
  function Chain(s: State, nick: string, b: Bot, bots: seq<Bot>, fuel: nat): seq<Bot>
    decreases fuel
  {
    if fuel == 0 then []
    else if !Declines(s, b, nick) then [b]
    else
      var (s', offered) := Return(s, nick, bots);
      [b] + if offered.Some? then Chain(s', nick, offered.value, bots, fuel - 1) else []
  }

  predicate LettersTracked(s: State) {
    forall c :: 'a' <= c <= 'z' ==> ContainsIgnoreCase(s.nicksToCatch, [c])
  }

  /** A released nick is only offered to a bot that will take it. */
  lemma OfferIsTaken(s: State, nick: string, bots: seq<Bot>)
    requires Consistent(s)
    requires LettersTracked(s) || !IsLetter(nick)
    ensures var (s', offered) := Return(s, nick, bots); offered.Some? ==> !Declines(s', offered.value, nick)
    ensures var (s', offered) := Notify(s, nick, bots); offered.Some? ==> !Declines(s', offered.value, nick)
  {
    var free := FreeBots(bots, s.nicksToCatch);
    if free != [] { FreeBotServes(bots, s.nicksToCatch, 0); }
    if ContainsIgnoreCase(s.priority, nick) {
      var i :| 0 <= i < |s.priority| && ToLower(s.priority[i]) == ToLower(nick);
      assert s.priority[i] in multiset(s.nicksToCatch);
      var k :| 0 <= k < |s.nicksToCatch| && s.nicksToCatch[k] == s.priority[i];
    }
    if IsLetter(nick) { assert nick == [nick[0]]; }
  }

  lemma OneFree(bots: seq<Bot>, targets: seq<string>)
    requires |bots| == 1 && IsFree(bots[0], targets)
    ensures FreeBots(bots, targets) == bots
  {
    assert bots[..0] == [] && FreeBots(bots[..0], targets) == [];
  }

  /** The only bot holds the letter itself: it declines and is the one asked next. */
  lemma AskedAgain(s: State, c: char, bots: seq<Bot>)
    requires 'a' <= c <= 'z' && !ContainsIgnoreCase(s.nicksToCatch, [c]) && bots == [Bot(0, true, [c], "")]
    ensures Declines(s, bots[0], [c])
    ensures var (s', offered) := Return(s, [c], bots);
      offered == Some(bots[0]) && s'.nicksToCatch == s.nicksToCatch
  {
    OneFree(bots, s.nicksToCatch);
  }

  lemma {:induction false} EndlessChain(s: State, c: char, bots: seq<Bot>, fuel: nat)
    requires 'a' <= c <= 'z' && !ContainsIgnoreCase(s.nicksToCatch, [c]) && bots == [Bot(0, true, [c], "")]
    ensures |Chain(s, [c], bots[0], bots, fuel)| == fuel
    decreases fuel
  {
    if fuel > 0 {
      AskedAgain(s, c, bots);
      var s' := Return(s, [c], bots).0;
      EndlessChain(s', c, bots, fuel - 1);
      assert Chain(s, [c], bots[0], bots, fuel) == [bots[0]] + Chain(s', [c], bots[0], bots, fuel - 1);
    }
  }

  /** Re-offer chains end after one hop, for every nick, bot and roster, exactly when all
      twenty-six letters are among the targets, as they are once the list has been loaded. */
  lemma ReoffersEnd(s: State)
    requires Consistent(s)
    ensures (forall nick, b, bots, fuel :: |Chain(s, nick, b, bots, fuel)| <= 2) <==> LettersTracked(s)
  {
    if LettersTracked(s) {
      forall nick, b, bots, fuel ensures |Chain(s, nick, b, bots, fuel)| <= 2 {
        OfferIsTaken(s, nick, bots);
      }
    } else {
      var c :| 'a' <= c <= 'z' && !ContainsIgnoreCase(s.nicksToCatch, [c]);
      var bots := [Bot(0, true, [c], "")];
      EndlessChain(s, c, bots, 3);
    }
  }

  lemma LoadedLettersTracked(s: State)
    requires Consistent(s) && s.secondary == Letters()
    ensures LettersTracked(s)
  {
    forall c | 'a' <= c <= 'z' ensures ContainsIgnoreCase(s.nicksToCatch, [c]) {
      var i := c as int - 'a' as int;
      assert |Letters()| == 26 && Letters()[i] == [c] && Letters()[i] in Letters();
      assert [c] in multiset(s.nicksToCatch);
    }
  }
}
