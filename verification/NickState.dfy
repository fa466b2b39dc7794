/** internal/nickmanager/nickmanager.go: what each operation of the nick manager does to
    its lists and blocks, as functions.  Times are milliseconds. */
module NickState {
  import opened Text

  /** A bot as it answers the manager's questions at one moment. */
  datatype Bot = Bot(id: nat, connected: bool, nick: string, server: string)

  datatype State = State(
    nicksToCatch: seq<string>, priority: seq<string>, secondary: seq<string>,
    blocks: map<string, int>, noLetters: set<string>)

  const TEMP_UNAVAILABLE := 60000
  const INFLIGHT_LOCK := 1500

  /** The clock readings of one handleISONResponse, in the order they are taken; one stamp
      for each assignment. */
  datatype Readings = Readings(cleanup: int, priority: int, secondary: int, stamps: seq<int>)

  predicate Advancing(r: Readings) {
    r.cleanup <= r.priority <= r.secondary
    && (forall i :: 0 <= i < |r.stamps| ==> r.secondary <= r.stamps[i])
    && (forall i, j :: 0 <= i < j < |r.stamps| ==> r.stamps[i] <= r.stamps[j])
  }

  // ------------------------------------------------------------ one ISON response

  /** cleanupTempUnavailableNicks */
  function Cleanup(blocks: map<string, int>, now: int): map<string, int> {
    map n | n in blocks && now <= blocks[n] :: blocks[n]
  }

  predicate Blocked(blocks: map<string, int>, nick: string, now: int) {
    ToLower(nick) in blocks && now <= blocks[ToLower(nick)]
  }

  predicate IsAvailable(nick: string, online: seq<string>, blocks: map<string, int>, now: int) {
    !ContainsIgnoreCase(online, nick) && !Blocked(blocks, nick, now)
  }

  /** filterAvailableNicksNonLocking: the positions, below n, of the nicks let through. */
  function AvailableAt(nicks: seq<string>, n: nat, online: seq<string>, blocks: map<string, int>, now: int)
    : (at: seq<nat>)
    requires n <= |nicks|
    ensures forall i :: 0 <= i < |at| ==> at[i] < n
  {
    if n == 0 then []
    else
      AvailableAt(nicks, n - 1, online, blocks, now)
      + if IsAvailable(nicks[n - 1], online, blocks, now) then [n - 1] else []
  }

  /** The elements at some positions. */
  function At(list: seq<string>, at: seq<nat>): (r: seq<string>)
    requires forall i :: 0 <= i < |at| ==> at[i] < |list|
    ensures |r| == |at|
  {
    seq(|at|, i requires 0 <= i < |at| => list[at[i]])
  }

  function Available(nicks: seq<string>, online: seq<string>, blocks: map<string, int>, now: int): seq<string> {
    At(nicks, AvailableAt(nicks, |nicks|, online, blocks, now))
  }

  /** ... which also drops the expired blocks of the nicks it lets through. */
  function Unexpired(nicks: seq<string>, online: seq<string>, blocks: map<string, int>, now: int): map<string, int> {
    map n | n in blocks && !(now > blocks[n] && Offline(nicks, online, n)) :: blocks[n]
  }

  /** Some nick of the list has this lower-case form and is not online. */
  predicate Offline(nicks: seq<string>, online: seq<string>, lower: string) {
    exists i :: 0 <= i < |nicks| && ToLower(nicks[i]) == lower && !ContainsIgnoreCase(online, nicks[i])
  }

  predicate IsFree(b: Bot, targets: seq<string>) {
    b.connected && !ContainsIgnoreCase(targets, b.nick)
  }

  /** getAvailableBots */
  function FreeBots(bots: seq<Bot>, targets: seq<string>): seq<Bot> {
    if bots == [] then []
    else
      var n := |bots| - 1;
      FreeBots(bots[..n], targets) + if IsFree(bots[n], targets) then [bots[n]] else []
  }

  predicate RefusesLetter(nick: string, b: Bot, noLetters: set<string>) {
    |nick| == 1 && b.server in noLetters
  }

  /** One assignment loop, at nick `from` with k bots served: the positions of the nicks
      that go to bots[k], bots[k+1], ... */
  function Picks(nicks: seq<string>, from: nat, bots: seq<Bot>, k: nat, noLetters: set<string>): (at: seq<nat>)
    ensures forall i :: 0 <= i < |at| ==> from <= at[i] < |nicks|
    ensures k <= |bots| ==> k + |at| <= |bots|
    decreases |nicks| - from
  {
    if from >= |nicks| || k >= |bots| then []
    else if RefusesLetter(nicks[from], bots[k], noLetters) then Picks(nicks, from + 1, bots, k, noLetters)
    else [from] + Picks(nicks, from + 1, bots, k + 1, noLetters)
  }

  function Greedy(nicks: seq<string>, bots: seq<Bot>, k: nat, noLetters: set<string>): seq<string> {
    At(nicks, Picks(nicks, 0, bots, k, noLetters))
  }

  /** The in-flight locks put on the assigned nicks. */
  function LockAll(blocks: map<string, int>, picked: seq<string>, stamps: seq<int>): map<string, int>
    requires |picked| <= |stamps|
  {
    if picked == [] then blocks
    else
      var n := |picked| - 1;
      LockAll(blocks, picked[..n], stamps)[ToLower(picked[n]) := stamps[n] + INFLIGHT_LOCK]
  }

  /** handleISONResponse taken as one step: the new state and the nicks assigned, the i-th
      one to the i-th free bot at the i-th stamp.  None is a nil response. */
  function Ison(s: State, online: Option<seq<string>>, bots: seq<Bot>, r: Readings): (res: (State, seq<string>))
    requires |r.stamps| >= |bots|
    ensures |res.1| <= |bots|
  {
    if online.None? then (s, [])
    else
      var b0 := Cleanup(s.blocks, r.cleanup);
      var free := FreeBots(bots, s.nicksToCatch);
      if free == [] then (s.(blocks := b0), [])
      else
        var prio := Available(s.priority, online.value, b0, r.priority);
        var b1 := Unexpired(s.priority, online.value, b0, r.priority);
        var sec := Available(s.secondary, online.value, b1, r.secondary);
        var b2 := Unexpired(s.secondary, online.value, b1, r.secondary);
        var first := Greedy(prio, free, 0, s.noLetters);
        var second := Greedy(sec, free, |first|, s.noLetters);
        var all := first + second;
        FreeBotsLength(bots, s.nicksToCatch);
        (s.(blocks := LockAll(b2, all, r.stamps)), all)
  }

  lemma {:induction false} FreeBotsLength(bots: seq<Bot>, targets: seq<string>)
    ensures |FreeBots(bots, targets)| <= |bots|
  {
    if bots != [] { FreeBotsLength(bots[..|bots| - 1], targets); }
  }

  // ------------------------------------------------------------ the other operations

  function Mark(s: State, nick: string, now: int): State {
    s.(blocks := s.blocks[ToLower(nick) := now + TEMP_UNAVAILABLE])
  }

  predicate IsLetter(nick: string) {
    |nick| == 1 && 'a' <= nick[0] <= 'z'
  }

  /** ReturnNickToPool and NotifyNickChange release a nick and offer it to the first free
      bot; the offer is the second component. */
  function Release(s: State, nick: string, bots: seq<Bot>): (State, Option<Bot>) {
    var free := FreeBots(bots, s.nicksToCatch);
    (s.(blocks := s.blocks - {ToLower(nick)}), if free == [] then None else Some(free[0]))
  }

  function Return(s: State, nick: string, bots: seq<Bot>): (State, Option<Bot>) {
    if ContainsIgnoreCase(s.priority, nick) || IsLetter(nick) then Release(s, nick, bots) else (s, None)
  }

  function Notify(s: State, oldNick: string, bots: seq<Bot>): (State, Option<Bot>) {
    if ContainsIgnoreCase(s.nicksToCatch, oldNick) then Release(s, oldNick, bots) else (s, None)
  }

  /** The list without the first occurrence of a value. */
  function WithoutFirst(list: seq<string>, x: string): seq<string> {
    if list == [] then []
    else if list[0] == x then list[1..]
    else [list[0]] + WithoutFirst(list[1..], x)
  }

  function Add(s: State, nick: string): State {
    if nick in s.priority then s
    else s.(priority := s.priority + [nick], nicksToCatch := s.nicksToCatch + [nick])
  }

  function Remove(s: State, nick: string): State {
    if nick !in s.priority then s
    else s.(priority := WithoutFirst(s.priority, nick), nicksToCatch := WithoutFirst(s.nicksToCatch, nick))
  }

  /** The nicks "a" to "z". */
  function Letters(): seq<string> {
    seq(26, i requires 0 <= i < 26 => ['a' + i as char])
  }

  const EMPTY := State([], [], [], map[], {})

  /** LoadNicks, for a file that can be read. */
  function Load(s: State, nicks: seq<string>): State {
    var secondary := s.secondary + Letters();
    s.(priority := nicks, secondary := secondary, nicksToCatch := nicks + secondary)
  }

  // ------------------------------------------------------------ what one response guarantees

  predicate Ascending(at: seq<nat>) {
    forall i, j :: 0 <= i < j < |at| ==> at[i] < at[j]
  }

  /** Some bot from lo on, up to and including hi, sits on a server that refuses the letter. */
  predicate Refused(nick: string, bots: seq<Bot>, lo: nat, hi: nat, noLetters: set<string>) {
    |nick| == 1 && exists b :: lo <= b <= hi && b < |bots| && bots[b].server in noLetters
  }

  lemma {:induction false} PicksAscend(nicks: seq<string>, from: nat, bots: seq<Bot>, k: nat, noLetters: set<string>)
    ensures Ascending(Picks(nicks, from, bots, k, noLetters))
    decreases |nicks| - from
  {
    if from < |nicks| && k < |bots| {
      if RefusesLetter(nicks[from], bots[k], noLetters) {
        PicksAscend(nicks, from + 1, bots, k, noLetters);
      } else {
        PicksAscend(nicks, from + 1, bots, k + 1, noLetters);
        var rest := Picks(nicks, from + 1, bots, k + 1, noLetters);
        var at := [from] + rest;
        forall i, j | 0 <= i < j < |at| ensures at[i] < at[j] {
          assert at[j] == rest[j - 1];
          if i > 0 { assert at[i] == rest[i - 1]; }
        }
      }
    }
  }

  /** The i-th pick suits the i-th bot. */
  predicate Suits(nicks: seq<string>, at: seq<nat>, i: nat, bots: seq<Bot>, k: nat, noLetters: set<string>) {
    && i < |at| && at[i] < |nicks| && k + i < |bots|
    && !(|nicks[at[i]]| == 1 && bots[k + i].server in noLetters)
  }

  lemma {:induction false} PickSuits(nicks: seq<string>, from: nat, bots: seq<Bot>, k: nat, noLetters: set<string>,
                                     i: nat)
    requires k <= |bots| && i < |Picks(nicks, from, bots, k, noLetters)|
    ensures Suits(nicks, Picks(nicks, from, bots, k, noLetters), i, bots, k, noLetters)
    decreases |nicks| - from
  {
    if RefusesLetter(nicks[from], bots[k], noLetters) {
      PickSuits(nicks, from + 1, bots, k, noLetters, i);
    } else if i > 0 {
      PickSuits(nicks, from + 1, bots, k + 1, noLetters, i - 1);
    }
  }

  /** An assignment loop takes nicks in order and gives none to a bot whose server refuses it. */
  lemma PicksInOrder(nicks: seq<string>, from: nat, bots: seq<Bot>, k: nat, noLetters: set<string>)
    requires k <= |bots|
    ensures var at := Picks(nicks, from, bots, k, noLetters);
      Ascending(at) && forall i :: 0 <= i < |at| ==> Suits(nicks, at, i, bots, k, noLetters)
  {
    PicksAscend(nicks, from, bots, k, noLetters);
    var at := Picks(nicks, from, bots, k, noLetters);
    forall i | 0 <= i < |at| ensures Suits(nicks, at, i, bots, k, noLetters) {
      PickSuits(nicks, from, bots, k, noLetters, i);
    }
  }

  /** Unless all bots are served, a nick is passed over only for a letter refused by a bot
      that had got no nick yet. */
  lemma {:induction false} PicksAll(nicks: seq<string>, from: nat, bots: seq<Bot>, k: nat, noLetters: set<string>,
                                    j: nat)
    requires k <= |bots| && from <= j < |nicks|
    requires k + |Picks(nicks, from, bots, k, noLetters)| < |bots|
    ensures var at := Picks(nicks, from, bots, k, noLetters);
      j in at || Refused(nicks[j], bots, k, k + |at|, noLetters)
    decreases |nicks| - from
  {
    var at := Picks(nicks, from, bots, k, noLetters);
    if RefusesLetter(nicks[from], bots[k], noLetters) {
      if from < j { PicksAll(nicks, from + 1, bots, k, noLetters, j); }
    } else if from < j {
      var rest := Picks(nicks, from + 1, bots, k + 1, noLetters);
      PicksAll(nicks, from + 1, bots, k + 1, noLetters, j);
      if j in rest { var i :| 0 <= i < |rest| && rest[i] == j; assert at[i + 1] == j; }
    } else {
      assert at[0] == from;
    }
  }

  lemma {:induction false} AvailableAscends(nicks: seq<string>, n: nat, online: seq<string>, blocks: map<string, int>,
                                            now: int)
    requires n <= |nicks|
    ensures Ascending(AvailableAt(nicks, n, online, blocks, now))
  {
    if n > 0 {
      AvailableAscends(nicks, n - 1, online, blocks, now);
    }
  }

  lemma {:induction false} AvailableMember(nicks: seq<string>, n: nat, online: seq<string>, blocks: map<string, int>,
                                           now: int, j: nat)
    requires n <= |nicks|
    ensures j in AvailableAt(nicks, n, online, blocks, now) <==> j < n && IsAvailable(nicks[j], online, blocks, now)
  {
    if n > 0 {
      AvailableMember(nicks, n - 1, online, blocks, now, j);
    }
  }

  /** The filter lets through exactly the nicks that equal nobody online up to case and have no
      block that still runs, in order. */
  lemma AvailableExact(nicks: seq<string>, n: nat, online: seq<string>, blocks: map<string, int>, now: int)
    requires n <= |nicks|
    ensures var at := AvailableAt(nicks, n, online, blocks, now);
      && Ascending(at)
      && forall j: nat :: j in at <==>
           && j < n && (forall i :: 0 <= i < |online| ==> ToLower(online[i]) != ToLower(nicks[j]))
           && (ToLower(nicks[j]) in blocks ==> now > blocks[ToLower(nicks[j])])
  {
    AvailableAscends(nicks, n, online, blocks, now);
    forall j: nat
      ensures j in AvailableAt(nicks, n, online, blocks, now) <==> j < n && IsAvailable(nicks[j], online, blocks, now)
    {
      AvailableMember(nicks, n, online, blocks, now, j);
    }
  }

  /** The blocks it drops are exactly those of the nicks it lets through; the others stay as they
      are. */
  lemma DroppedAreLetThrough(nicks: seq<string>, online: seq<string>, blocks: map<string, int>, now: int, key: string)
    ensures var at, left := AvailableAt(nicks, |nicks|, online, blocks, now), Unexpired(nicks, online, blocks, now);
      && (key in left ==> key in blocks && left[key] == blocks[key])
      && (key in blocks && key !in left <==>
            key in blocks && exists j: nat :: j in at && ToLower(nicks[j]) == key)
  {
    var at := AvailableAt(nicks, |nicks|, online, blocks, now);
    AvailableExact(nicks, |nicks|, online, blocks, now);
    if key in blocks && now > blocks[key] && Offline(nicks, online, key) {
      var j :| 0 <= j < |nicks| && ToLower(nicks[j]) == key && !ContainsIgnoreCase(online, nicks[j]);
      assert j in at;
    }
  }

  /** The positions of the free bots in the roster. */
  function FreeAt(bots: seq<Bot>, targets: seq<string>): (at: seq<nat>)
    ensures forall i :: 0 <= i < |at| ==> at[i] < |bots|
  {
    if bots == [] then []
    else
      var n := |bots| - 1;
      FreeAt(bots[..n], targets) + if IsFree(bots[n], targets) then [n] else []
  }

  lemma {:induction false} FreeAtAscends(bots: seq<Bot>, targets: seq<string>)
    ensures Ascending(FreeAt(bots, targets))
  {
    if bots != [] { FreeAtAscends(bots[..|bots| - 1], targets); }
  }

  lemma {:induction false} FreeAtPoints(bots: seq<Bot>, targets: seq<string>)
    ensures |FreeAt(bots, targets)| == |FreeBots(bots, targets)|
    ensures forall i :: 0 <= i < |FreeBots(bots, targets)| ==>
      FreeBots(bots, targets)[i] == bots[FreeAt(bots, targets)[i]]
  {
    if bots != [] { FreeAtPoints(bots[..|bots| - 1], targets); }
  }

  lemma {:induction false} FreeAtMember(bots: seq<Bot>, targets: seq<string>, j: nat)
    ensures j in FreeAt(bots, targets) <==> j < |bots| && IsFree(bots[j], targets)
  {
    if bots != [] { FreeAtMember(bots[..|bots| - 1], targets, j); }
  }

  /** The free bots are, in roster order, exactly the connected ones whose nick equals no target up
      to case. */
  lemma FreeBotsAre(bots: seq<Bot>, targets: seq<string>) returns (at: seq<nat>)
    ensures Ascending(at) && |at| == |FreeBots(bots, targets)|
    ensures forall i :: 0 <= i < |at| ==> at[i] < |bots| && FreeBots(bots, targets)[i] == bots[at[i]]
    ensures forall j: nat :: j in at <==>
      j < |bots| && bots[j].connected && forall t :: 0 <= t < |targets| ==> ToLower(targets[t]) != ToLower(bots[j].nick)
  {
    at := FreeAt(bots, targets);
    FreeAtAscends(bots, targets);
    FreeAtPoints(bots, targets);
    forall j: nat ensures j in at <==> j < |bots| && IsFree(bots[j], targets) {
      FreeAtMember(bots, targets, j);
    }
  }

  /** A bot of the roster that is connected and holds no target. */
  predicate Serves(bots: seq<Bot>, targets: seq<string>, b: Bot) {
    b in bots && b.connected && forall t :: 0 <= t < |targets| ==> ToLower(targets[t]) != ToLower(b.nick)
  }

  lemma FreeBotServes(bots: seq<Bot>, targets: seq<string>, i: nat)
    requires i < |FreeBots(bots, targets)|
    ensures Serves(bots, targets, FreeBots(bots, targets)[i])
  {
    var at := FreeBotsAre(bots, targets);
    assert at[i] in at;
  }

  /** The bot at k is the first one in the roster that is connected and holds no target. */
  predicate FirstToServe(bots: seq<Bot>, targets: seq<string>, k: nat) {
    && k < |bots| && Serves(bots, targets, bots[k])
    && forall j :: 0 <= j < k ==> !Serves(bots, targets, bots[j])
  }

  lemma BeforeHead(at: seq<nat>, j: nat)
    requires Ascending(at) && at != [] && j < at[0]
    ensures j !in at
  {
  }

  lemma NoneServes(bots: seq<Bot>, targets: seq<string>)
    requires FreeBots(bots, targets) == []
    ensures forall b :: !Serves(bots, targets, b)
  {
    var at := FreeBotsAre(bots, targets);
    forall b | b in bots ensures !Serves(bots, targets, b) {
      var j :| 0 <= j < |bots| && bots[j] == b;
      assert j !in at;
    }
  }

  /** A released nick is offered to the first such bot. */
  lemma FirstIsFirst(bots: seq<Bot>, targets: seq<string>) returns (k: nat)
    requires FreeBots(bots, targets) != []
    ensures FirstToServe(bots, targets, k) && bots[k] == FreeBots(bots, targets)[0]
  {
    var at := FreeBotsAre(bots, targets);
    k := at[0];
    assert k in at;
    forall j: nat | j < k ensures !Serves(bots, targets, bots[j]) {
      BeforeHead(at, j);
    }
  }

  /** A nick of the list was handed out, or is online or blocked at that reading, or is a
      letter refused by a free bot among those from lo to hi. */
  predicate Considered(list: seq<string>, at: seq<nat>, j: nat, online: seq<string>, blocks: map<string, int>, now: int,
                       free: seq<Bot>, lo: nat, hi: nat, noLetters: set<string>)
    requires j < |list|
  {
    || j in at
    || !IsAvailable(list[j], online, blocks, now)
    || Refused(list[j], free, lo, hi, noLetters)
  }

  /** The positions in the list of what filter and loop hand out to free[k..]. */
  function HandedOut(list: seq<string>, online: seq<string>, blocks: map<string, int>, now: int,
                     free: seq<Bot>, k: nat, noLetters: set<string>): (at: seq<nat>)
    ensures forall i :: 0 <= i < |at| ==> at[i] < |list|
    ensures k <= |free| ==> k + |at| <= |free|
  {
    var avail := AvailableAt(list, |list|, online, blocks, now);
    var picks := Picks(At(list, avail), 0, free, k, noLetters);
    seq(|picks|, i requires 0 <= i < |picks| => avail[picks[i]])
  }

  lemma HandedOutOrdered(list: seq<string>, online: seq<string>, blocks: map<string, int>, now: int,
                         free: seq<Bot>, k: nat, noLetters: set<string>)
    requires k <= |free|
    ensures var at := HandedOut(list, online, blocks, now, free, k, noLetters);
      && Ascending(at)
      && At(list, at) == Greedy(Available(list, online, blocks, now), free, k, noLetters)
  {
    var avail := AvailableAt(list, |list|, online, blocks, now);
    AvailableAscends(list, |list|, online, blocks, now);
    PicksAscend(At(list, avail), 0, free, k, noLetters);
  }

  lemma HandedOutSafe(list: seq<string>, online: seq<string>, blocks: map<string, int>, now: int,
                      free: seq<Bot>, k: nat, noLetters: set<string>, i: nat)
    requires k <= |free| && i < |HandedOut(list, online, blocks, now, free, k, noLetters)|
    ensures var at := HandedOut(list, online, blocks, now, free, k, noLetters);
      IsAvailable(list[at[i]], online, blocks, now) && Suits(list, at, i, free, k, noLetters)
  {
    var avail := AvailableAt(list, |list|, online, blocks, now);
    PickSuits(At(list, avail), 0, free, k, noLetters, i);
    var picks := Picks(At(list, avail), 0, free, k, noLetters);
    var at := HandedOut(list, online, blocks, now, free, k, noLetters);
    assert at[i] == avail[picks[i]] && at[i] in avail;
    AvailableMember(list, |list|, online, blocks, now, at[i]);
  }

  lemma HandedOutAll(list: seq<string>, online: seq<string>, blocks: map<string, int>, now: int,
                     free: seq<Bot>, k: nat, noLetters: set<string>, j: nat)
    requires k <= |free| && j < |list|
    requires k + |HandedOut(list, online, blocks, now, free, k, noLetters)| < |free|
    ensures var at := HandedOut(list, online, blocks, now, free, k, noLetters);
      Considered(list, at, j, online, blocks, now, free, k, k + |at|, noLetters)
  {
    var avail := AvailableAt(list, |list|, online, blocks, now);
    AvailableMember(list, |list|, online, blocks, now, j);
    if j in avail {
      var m :| 0 <= m < |avail| && avail[m] == j;
      PicksAll(At(list, avail), 0, free, k, noLetters, m);
      PickedIsHanded(list, online, blocks, now, free, k, noLetters, m);
    }
  }

  lemma PickedIsHanded(list: seq<string>, online: seq<string>, blocks: map<string, int>, now: int,
                       free: seq<Bot>, k: nat, noLetters: set<string>, m: nat)
    requires k <= |free| && m < |AvailableAt(list, |list|, online, blocks, now)|
    ensures var avail := AvailableAt(list, |list|, online, blocks, now);
      m in Picks(At(list, avail), 0, free, k, noLetters) ==>
        avail[m] in HandedOut(list, online, blocks, now, free, k, noLetters)
  {
    var avail := AvailableAt(list, |list|, online, blocks, now);
    var picks := Picks(At(list, avail), 0, free, k, noLetters);
    if m in picks {
      var i :| 0 <= i < |picks| && picks[i] == m;
      assert HandedOut(list, online, blocks, now, free, k, noLetters)[i] == avail[m];
    }
  }

  /** Which positions of the two lists one response hands out. */
  function FirstOut(s: State, online: seq<string>, bots: seq<Bot>, r: Readings): (at: seq<nat>)
    ensures forall i :: 0 <= i < |at| ==> at[i] < |s.priority|
    ensures |at| <= |FreeBots(bots, s.nicksToCatch)|
  {
    var b0 := Cleanup(s.blocks, r.cleanup);
    HandedOut(s.priority, online, b0, r.priority, FreeBots(bots, s.nicksToCatch), 0, s.noLetters)
  }

  function SecondOut(s: State, online: seq<string>, bots: seq<Bot>, r: Readings): (at: seq<nat>)
    ensures forall i :: 0 <= i < |at| ==> at[i] < |s.secondary|
    ensures |FirstOut(s, online, bots, r)| + |at| <= |FreeBots(bots, s.nicksToCatch)|
  {
    var b1 := Unexpired(s.priority, online, Cleanup(s.blocks, r.cleanup), r.priority);
    HandedOut(s.secondary, online, b1, r.secondary, FreeBots(bots, s.nicksToCatch), |FirstOut(s, online, bots, r)|,
              s.noLetters)
  }

  lemma OutIs(s: State, online: seq<string>, bots: seq<Bot>, r: Readings)
    requires |r.stamps| >= |bots| && FreeBots(bots, s.nicksToCatch) != []
    ensures var at1, at2 := FirstOut(s, online, bots, r), SecondOut(s, online, bots, r);
      && Ascending(at1) && Ascending(at2)
      && Ison(s, Some(online), bots, r).1 == At(s.priority, at1) + At(s.secondary, at2)
  {
    var free := FreeBots(bots, s.nicksToCatch);
    var b0 := Cleanup(s.blocks, r.cleanup);
    var b1 := Unexpired(s.priority, online, b0, r.priority);
    HandedOutOrdered(s.priority, online, b0, r.priority, free, 0, s.noLetters);
    HandedOutOrdered(s.secondary, online, b1, r.secondary, free, |FirstOut(s, online, bots, r)|, s.noLetters);
  }

  /** Where the b-th assigned nick comes from. */
  lemma OutAt(s: State, online: seq<string>, bots: seq<Bot>, r: Readings, b: nat)
    requires |r.stamps| >= |bots| && FreeBots(bots, s.nicksToCatch) != []
    requires b < |Ison(s, Some(online), bots, r).1|
    ensures var at1, at2 := FirstOut(s, online, bots, r), SecondOut(s, online, bots, r);
      var nick := Ison(s, Some(online), bots, r).1[b];
      if b < |at1| then nick == s.priority[at1[b]]
      else b - |at1| < |at2| && nick == s.secondary[at2[b - |at1|]]
  {
    OutIs(s, online, bots, r);
  }

  /** The i-th assigned nick may go to the i-th free bot. */
  predicate Fits(s: State, out: seq<string>, free: seq<Bot>, i: nat) {
    i < |out| && i < |free| && !(|out[i]| == 1 && free[i].server in s.noLetters)
  }

  lemma FirstSafe(s: State, online: seq<string>, bots: seq<Bot>, r: Readings, i: nat)
    requires i < |FirstOut(s, online, bots, r)|
    ensures var at1, at2 := FirstOut(s, online, bots, r), SecondOut(s, online, bots, r);
      && IsAvailable(s.priority[at1[i]], online, Cleanup(s.blocks, r.cleanup), r.priority)
      && Fits(s, At(s.priority, at1) + At(s.secondary, at2), FreeBots(bots, s.nicksToCatch), i)
  {
    var b0 := Cleanup(s.blocks, r.cleanup);
    HandedOutSafe(s.priority, online, b0, r.priority, FreeBots(bots, s.nicksToCatch), 0, s.noLetters, i);
  }

  lemma SecondSafe(s: State, online: seq<string>, bots: seq<Bot>, r: Readings, i: nat)
    requires i < |SecondOut(s, online, bots, r)|
    ensures var at1, at2 := FirstOut(s, online, bots, r), SecondOut(s, online, bots, r);
      var b1 := Unexpired(s.priority, online, Cleanup(s.blocks, r.cleanup), r.priority);
      && IsAvailable(s.secondary[at2[i]], online, b1, r.secondary)
      && Fits(s, At(s.priority, at1) + At(s.secondary, at2), FreeBots(bots, s.nicksToCatch), |at1| + i)
  {
    var b1 := Unexpired(s.priority, online, Cleanup(s.blocks, r.cleanup), r.priority);
    var at1, at2 := FirstOut(s, online, bots, r), SecondOut(s, online, bots, r);
    HandedOutSafe(s.secondary, online, b1, r.secondary, FreeBots(bots, s.nicksToCatch), |at1|, s.noLetters, i);
    assert (At(s.priority, at1) + At(s.secondary, at2))[|at1| + i] == s.secondary[at2[i]];
  }

  /** Assignment is safe, ordered and exhaustive.  The i-th assigned nick goes to the i-th free
      bot, so assigned bots are a prefix; each of them is connected and holds no target.  The
      nicks come in list order from the priority list, then from the secondary one; none is online,
      blocked or a letter refused by its bot's server.  Either all free bots are used or every nick
      was handed out or passed over; and a secondary nick is handed out only when that holds of
      every priority nick. */
  lemma AssignmentCorrect(s: State, online: seq<string>, bots: seq<Bot>, r: Readings)
    returns (at1: seq<nat>, at2: seq<nat>)
    requires |r.stamps| >= |bots| && FreeBots(bots, s.nicksToCatch) != []
    ensures Ascending(at1) && (forall i :: 0 <= i < |at1| ==> at1[i] < |s.priority|)
    ensures Ascending(at2) && (forall i :: 0 <= i < |at2| ==> at2[i] < |s.secondary|)
    ensures var out := Ison(s, Some(online), bots, r).1;
      var free := FreeBots(bots, s.nicksToCatch);
      var b0 := Cleanup(s.blocks, r.cleanup);
      var b1 := Unexpired(s.priority, online, b0, r.priority);
      && out == At(s.priority, at1) + At(s.secondary, at2) && |out| <= |free|
      && (forall i :: 0 <= i < |out| ==> Fits(s, out, free, i) && Serves(bots, s.nicksToCatch, free[i]))
      && (forall i :: 0 <= i < |at1| ==> IsAvailable(s.priority[at1[i]], online, b0, r.priority))
      && (forall i :: 0 <= i < |at2| ==> IsAvailable(s.secondary[at2[i]], online, b1, r.secondary))
      && (|out| < |free| || at2 != [] ==> forall j :: 0 <= j < |s.priority| ==>
            Considered(s.priority, at1, j, online, b0, r.priority, free, 0, |at1|, s.noLetters))
      && (|out| < |free| ==> forall j :: 0 <= j < |s.secondary| ==>
            Considered(s.secondary, at2, j, online, b1, r.secondary, free, |at1|, |out|, s.noLetters))
  {
    at1, at2 := FirstOut(s, online, bots, r), SecondOut(s, online, bots, r);
    OutIs(s, online, bots, r);
    OutSafe(s, online, bots, r);
    forall i | 0 <= i < |at1| + |at2| ensures Serves(bots, s.nicksToCatch, FreeBots(bots, s.nicksToCatch)[i]) {
      FreeBotServes(bots, s.nicksToCatch, i);
    }
    FirstExhaustive(s, online, bots, r);
    SecondExhaustive(s, online, bots, r, |at1| + |at2|);
  }

  lemma OutSafe(s: State, online: seq<string>, bots: seq<Bot>, r: Readings)
    ensures var at1, at2 := FirstOut(s, online, bots, r), SecondOut(s, online, bots, r);
      var b0 := Cleanup(s.blocks, r.cleanup);
      var b1 := Unexpired(s.priority, online, b0, r.priority);
      var out := At(s.priority, at1) + At(s.secondary, at2);
      && (forall i :: 0 <= i < |out| ==> Fits(s, out, FreeBots(bots, s.nicksToCatch), i))
      && (forall i :: 0 <= i < |at1| ==> IsAvailable(s.priority[at1[i]], online, b0, r.priority))
      && (forall i :: 0 <= i < |at2| ==> IsAvailable(s.secondary[at2[i]], online, b1, r.secondary))
  {
    var at1, at2 := FirstOut(s, online, bots, r), SecondOut(s, online, bots, r);
    var b0 := Cleanup(s.blocks, r.cleanup);
    var b1 := Unexpired(s.priority, online, b0, r.priority);
    var out, free := At(s.priority, at1) + At(s.secondary, at2), FreeBots(bots, s.nicksToCatch);
    forall i | 0 <= i < |at1| ensures IsAvailable(s.priority[at1[i]], online, b0, r.priority) && Fits(s, out, free, i) {
      FirstSafe(s, online, bots, r, i);
    }
    forall i | 0 <= i < |at2| ensures IsAvailable(s.secondary[at2[i]], online, b1, r.secondary) {
      SecondSafe(s, online, bots, r, i);
    }
    forall i | |at1| <= i < |out| ensures Fits(s, out, free, i) {
      SecondSafe(s, online, bots, r, i - |at1|);
    }
  }

  lemma FirstExhaustive(s: State, online: seq<string>, bots: seq<Bot>, r: Readings)
    ensures var at, free := FirstOut(s, online, bots, r), FreeBots(bots, s.nicksToCatch);
      var b0 := Cleanup(s.blocks, r.cleanup);
      |at| < |free| ==> forall j :: 0 <= j < |s.priority| ==>
        Considered(s.priority, at, j, online, b0, r.priority, free, 0, |at|, s.noLetters)
  {
    var at, free := FirstOut(s, online, bots, r), FreeBots(bots, s.nicksToCatch);
    var b0 := Cleanup(s.blocks, r.cleanup);
    if |at| < |free| {
      forall j | 0 <= j < |s.priority|
        ensures Considered(s.priority, at, j, online, b0, r.priority, free, 0, |at|, s.noLetters)
      {
        HandedOutAll(s.priority, online, b0, r.priority, free, 0, s.noLetters, j);
      }
    }
  }

  lemma SecondExhaustive(s: State, online: seq<string>, bots: seq<Bot>, r: Readings, hi: nat)
    requires hi == |FirstOut(s, online, bots, r)| + |SecondOut(s, online, bots, r)|
    ensures var lo, at := |FirstOut(s, online, bots, r)|, SecondOut(s, online, bots, r);
      var free := FreeBots(bots, s.nicksToCatch);
      var b1 := Unexpired(s.priority, online, Cleanup(s.blocks, r.cleanup), r.priority);
      hi < |free| ==> forall j :: 0 <= j < |s.secondary| ==>
        Considered(s.secondary, at, j, online, b1, r.secondary, free, lo, hi, s.noLetters)
  {
    var lo, at := |FirstOut(s, online, bots, r)|, SecondOut(s, online, bots, r);
    var free := FreeBots(bots, s.nicksToCatch);
    var b1 := Unexpired(s.priority, online, Cleanup(s.blocks, r.cleanup), r.priority);
    if hi < |free| {
      forall j | 0 <= j < |s.secondary|
        ensures Considered(s.secondary, at, j, online, b1, r.secondary, free, lo, hi, s.noLetters)
      {
        HandedOutAll(s.secondary, online, b1, r.secondary, free, lo, s.noLetters, j);
      }
    }
  }

  // ------------------------------------------------------------ what the other operations guarantee

  /** A marked nick is blocked, in any spelling, up to a minute from then and no longer; other nicks
      are as they were. */
  lemma MarkedExactly(s: State, nick: string, at: int, other: string, now: int)
    ensures var s' := Mark(s, nick, at);
      && s' == s.(blocks := s'.blocks)
      && (Blocked(s'.blocks, other, now) <==>
            if ToLower(other) == ToLower(nick) then now <= at + 60000 else Blocked(s.blocks, other, now))
  {
  }

  /** The nick is unblocked, in any spelling and for good, other nicks are as they were; the offer
      goes to the first connected bot that holds no target, if there is one. */
  ghost predicate Released(s: State, nick: string, bots: seq<Bot>, s': State, offered: Option<Bot>) {
    && s' == s.(blocks := s'.blocks)
    && (forall other, now :: Blocked(s'.blocks, other, now) <==>
          ToLower(other) != ToLower(nick) && Blocked(s.blocks, other, now))
    && match offered
       case None => forall b :: !Serves(bots, s.nicksToCatch, b)
       case Some(b) => exists k: nat :: FirstToServe(bots, s.nicksToCatch, k) && bots[k] == b
  }

  lemma ReleaseReleases(s: State, nick: string, bots: seq<Bot>)
    ensures var (s', offered) := Release(s, nick, bots); Released(s, nick, bots, s', offered)
  {
    if FreeBots(bots, s.nicksToCatch) == [] {
      NoneServes(bots, s.nicksToCatch);
    } else {
      var k := FirstIsFirst(bots, s.nicksToCatch);
    }
  }

  /** A nick given back is released exactly if it is a priority nick or a letter, a nick seen to be
      free exactly if it is a target; otherwise nothing happens. */
  lemma ReleasedExactly(s: State, nick: string, bots: seq<Bot>)
    ensures var (s', offered) := Return(s, nick, bots);
      if (exists i :: 0 <= i < |s.priority| && ToLower(s.priority[i]) == ToLower(nick))
         || exists c :: 'a' <= c <= 'z' && nick == [c]
      then Released(s, nick, bots, s', offered) else s' == s && offered.None?
    ensures var (s', offered) := Notify(s, nick, bots);
      if exists i :: 0 <= i < |s.nicksToCatch| && ToLower(s.nicksToCatch[i]) == ToLower(nick)
      then Released(s, nick, bots, s', offered) else s' == s && offered.None?
  {
    ReleaseReleases(s, nick, bots);
    if IsLetter(nick) { assert nick == [nick[0]]; }
  }

  lemma {:induction false} WithoutFirstOfAppended(list: seq<string>, x: string)
    requires x !in list
    ensures WithoutFirst(list + [x], x) == list
  {
    if list != [] {
      assert (list + [x])[1..] == list[1..] + [x];
      WithoutFirstOfAppended(list[1..], x);
    }
  }

  /** Adding a new nick and removing it again restores the lists. */
  lemma AddThenRemove(s: State, nick: string)
    requires nick !in s.nicksToCatch && nick !in s.priority
    ensures var s' := Add(s, nick);
      s'.priority == s.priority + [nick] && s'.nicksToCatch == s.nicksToCatch + [nick] && Remove(s', nick) == s
  {
    WithoutFirstOfAppended(s.priority, nick);
    WithoutFirstOfAppended(s.nicksToCatch, nick);
  }
}
