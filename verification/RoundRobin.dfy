/** internal/bot/manager.go: the choice of the sending bot, round robin over the roster, and
    removals from it. */
module RoundRobin {
  import opened Text

  /** A roster entry.  A nil entry answers nothing, so it is in no view. */
  type BotRef = nat

  /** A bot's answers at the time of a send. */
  datatype View = View(connected: bool, joined: set<string>)

  predicate IsChannelTarget(target: string) {
    target != "" && target[0] in ['#', '&', '+', '!']
  }

  predicate Eligible(views: map<BotRef, View>, channel: string, b: BotRef) {
    b in views && views[b].connected && (IsChannelTarget(channel) ==> channel in views[b].joined)
  }

  function EligibleSet(views: map<BotRef, View>, channel: string): set<BotRef> {
    set b | b in views && Eligible(views, channel, b)
  }

  /** A connected bot that, for a channel, is on it. */
  predicate MaySend(views: map<BotRef, View>, target: string, b: BotRef) {
    && b in views && views[b].connected
    && (target != "" && target[0] in "#&+!" ==> target in views[b].joined)
  }

  /** The roster as the search goes through it. */
  function Rotated(bots: seq<BotRef>, start: nat): seq<BotRef>
    requires start <= |bots|
  {
    bots[start..] + bots[..start]
  }

  function Chosen(list: seq<BotRef>, eligible: set<BotRef>): seq<BotRef> {
    if list == [] then []
    else (if list[0] in eligible then [list[0]] else []) + Chosen(list[1..], eligible)
  }

  /** x modulo n for x below 2n. */
  function Wrap(x: nat, n: nat): nat
    requires x < 2 * n
  {
    if x < n then x else x - n
  }

  /** The source's % on the indices it meets. */
  method Mod(x: nat, n: nat) returns (r: nat)
    requires x < 2 * n
    ensures r == Wrap(x, n)
  {
    r := x % n;
    if x >= n {
      assert x == 1 * n + (x - n);
    }
  }

  /** The two tests a candidate has to pass. */
  method Usable(views: map<BotRef, View>, channel: string, candidate: BotRef) returns (usable: bool)
    ensures usable == (candidate in EligibleSet(views, channel))
    ensures usable <==> MaySend(views, channel, candidate)
  {
    if candidate !in views || !views[candidate].connected {
      return false;
    }
    usable := !IsChannelTarget(channel) || channel in views[candidate].joined;
  }

  /** The scan over the roster: the offset of the first bot from `start` on that passes. */
  method Search(bots: seq<BotRef>, start: nat, views: map<BotRef, View>, channel: string) returns (found: Option<nat>)
    requires start < |bots|
    ensures found == FirstFrom(bots, start, 0, EligibleSet(views, channel))
  {
    ghost var eligible := EligibleSet(views, channel);
    var i := 0;
    while i < |bots|
      invariant 0 <= i <= |bots|
      invariant FirstFrom(bots, start, 0, eligible) == FirstFrom(bots, start, i, eligible)
    {
      var idx := Mod(start + i, |bots|);
      var usable := Usable(views, channel, bots[idx]);
      if usable {
        return Some(i);
      }
      i := i + 1;
    }
    return None;
  }

  lemma EligibleMay(views: map<BotRef, View>, channel: string)
    ensures forall b :: b in EligibleSet(views, channel) <==> MaySend(views, channel, b)
  {
  }

  class Manager {
    var bots: seq<BotRef>
    var commandBotIndex: nat

    /** The roster after startup: distinct bots. */
    ghost predicate Valid()
      reads this
    {
      && Distinct(bots)
      && (bots == [] ==> commandBotIndex == 0) && (bots != [] ==> commandBotIndex < |bots|)
    }

    constructor (roster: seq<BotRef>)
      requires Distinct(roster)
      ensures Valid() && bots == roster && commandBotIndex == 0
    {
      bots, commandBotIndex := roster, 0;
    }

    /** The bot that gets the message, if any. */
    method SendSingleMsg(views: map<BotRef, View>, channel: string) returns (bot: Option<BotRef>)
      requires Valid()
      modifies this`commandBotIndex
      ensures Valid()
      ensures (commandBotIndex, bot) == Send(bots, old(commandBotIndex), EligibleSet(views, channel))
      ensures bot.Some? ==> bot.value in bots && MaySend(views, channel, bot.value)
      ensures bot.None? ==> forall b :: b in bots ==> !MaySend(views, channel, b)
    {
      AlwaysSent(bots, commandBotIndex, EligibleSet(views, channel));
      EligibleMay(views, channel);
      if |bots| == 0 {
        return None;
      }
      var start := Mod(commandBotIndex, |bots|);
      var found := Search(bots, start, views, channel);
      if found.None? {
        return None;
      }
      var idx := Mod(start + found.value, |bots|);
      bot := Some(bots[idx]);
      commandBotIndex := Mod(idx + 1, |bots|);
    }

    method RemoveBotFromManager(b: BotRef) returns (found: bool)
      requires Valid()
      modifies this
      ensures Valid()
      ensures found == (b in old(bots))
      ensures bots == Without(old(bots), b)
      ensures commandBotIndex == if found && old(commandBotIndex) >= |bots| then 0 else old(commandBotIndex)
    {
      var newBots: seq<BotRef> := [];
      found := false;
      var i := 0;
      while i < |bots|
        invariant 0 <= i <= |bots|
        invariant newBots == Without(bots[..i], b)
        invariant found == (b in bots[..i])
        invariant bots == old(bots) && commandBotIndex == old(commandBotIndex)
      {
        assert bots[..i + 1] == bots[..i] + [bots[i]];
        WithoutSnoc(bots[..i], bots[i], b);
        if bots[i] != b {
          newBots := newBots + [bots[i]];
        } else {
          found := true;
        }
        i := i + 1;
      }
      assert bots[..i] == bots;
      WithoutMembers(bots, b);
      WithoutDistinct(bots, b);
      if !found {
        return;
      }
      bots := newBots;
      if commandBotIndex >= |bots| {
        commandBotIndex := 0;
      }
    }
  }

  function Without(list: seq<BotRef>, b: BotRef): seq<BotRef> {
    if list == [] then [] else (if list[0] == b then [] else [list[0]]) + Without(list[1..], b)
  }

  lemma WithoutCons(head: BotRef, tail: seq<BotRef>, b: BotRef)
    ensures Without([head] + tail, b) == (if head == b then [] else [head]) + Without(tail, b)
  {
    assert ([head] + tail)[1..] == tail;
  }

  lemma {:induction false} WithoutSnoc(list: seq<BotRef>, x: BotRef, b: BotRef)
    ensures Without(list + [x], b) == Without(list, b) + if x == b then [] else [x]
  {
    if list == [] {
      assert list + [x] == [x] + [];
      WithoutCons(x, [], b);
    } else {
      var head, tail := list[0], list[1..];
      assert list + [x] == [head] + (tail + [x]) && list == [head] + tail;
      WithoutCons(head, tail + [x], b);
      WithoutCons(head, tail, b);
      WithoutSnoc(tail, x, b);
    }
  }

  lemma {:induction false} WithoutMembers(list: seq<BotRef>, b: BotRef)
    ensures forall x :: x in Without(list, b) <==> x in list && x != b
    ensures b !in list ==> Without(list, b) == list
    ensures |Without(list, b)| <= |list|
  {
    if list != [] {
      WithoutMembers(list[1..], b);
      assert forall x :: x in list <==> x == list[0] || x in list[1..];
    }
  }

  lemma {:induction false} WithoutDistinct(list: seq<BotRef>, b: BotRef)
    requires Distinct(list)
    ensures Distinct(Without(list, b))
  {
    if list != [] {
      WithoutDistinct(list[1..], b);
      WithoutMembers(list[1..], b);
      assert list[0] !in list[1..];
    }
  }

  // ------------------------------------------------------------ sends

  /** The offset from `start`, at least i, of the first eligible bot. */
  function FirstFrom(bots: seq<BotRef>, start: nat, i: nat, eligible: set<BotRef>): (r: Option<nat>)
    requires start < |bots|
    ensures r.Some? ==> i <= r.value < |bots| && bots[Wrap(start + r.value, |bots|)] in eligible
    decreases |bots| - i
  {
    if i >= |bots| then None
    else if bots[Wrap(start + i, |bots|)] in eligible then Some(i)
    else FirstFrom(bots, start, i + 1, eligible)
  }

  /** One send from an index into the roster: the new index and the bot used. */
  function Send(bots: seq<BotRef>, index: nat, eligible: set<BotRef>): (r: (nat, Option<BotRef>))
    requires bots != [] ==> index < |bots|
    ensures bots != [] ==> r.0 < |bots|
  {
    if bots == [] then (index, None)
    else
      match FirstFrom(bots, index, 0, eligible)
      case None => (index, None)
      case Some(i) =>
        var idx := Wrap(index + i, |bots|);
        (Wrap(idx + 1, |bots|), Some(bots[idx]))
  }

  /** The bots used by m sends in a row. */
  function Sends(bots: seq<BotRef>, index: nat, eligible: set<BotRef>, m: nat): seq<Option<BotRef>>
    requires bots != [] ==> index < |bots|
    decreases m
  {
    if m == 0 then []
    else
      var (index', bot) := Send(bots, index, eligible);
      [bot] + Sends(bots, index', eligible, m - 1)
  }

  lemma RotatedAt(bots: seq<BotRef>, start: nat, i: nat)
    requires start < |bots| && i < |bots|
    ensures Rotated(bots, start)[i] == bots[Wrap(start + i, |bots|)]
  {
  }

  lemma {:induction false} FirstIsHead(bots: seq<BotRef>, start: nat, i: nat, eligible: set<BotRef>)
    requires start < |bots| && i <= |bots|
    ensures var r := FirstFrom(bots, start, i, eligible);
      var c := Chosen(Rotated(bots, start)[i..], eligible);
      && (r.None? <==> c == [])
      && (r.Some? ==> c == [Rotated(bots, start)[r.value]] + Chosen(Rotated(bots, start)[r.value + 1..], eligible))
    decreases |bots| - i
  {
    if i < |bots| {
      var R := Rotated(bots, start);
      RotatedAt(bots, start, i);
      assert R[i..][0] == R[i] && R[i..][1..] == R[i + 1..];
      FirstIsHead(bots, start, i + 1, eligible);
    }
  }

  lemma {:induction false} NoneSkipped(bots: seq<BotRef>, start: nat, i: nat, eligible: set<BotRef>)
    requires start < |bots| && i <= |bots| && FirstFrom(bots, start, i, eligible).Some?
    ensures Chosen(Rotated(bots, start)[i..FirstFrom(bots, start, i, eligible).value], eligible) == []
    decreases |bots| - i
  {
    var R := Rotated(bots, start);
    RotatedAt(bots, start, i);
    var r := FirstFrom(bots, start, i, eligible).value;
    if R[i] !in eligible {
      assert R[i..r][0] == R[i] && R[i..r][1..] == R[i + 1..r];
      NoneSkipped(bots, start, i + 1, eligible);
    }
  }

  lemma {:induction false} ChosenAppend(a: seq<BotRef>, b: seq<BotRef>, eligible: set<BotRef>)
    ensures Chosen(a + b, eligible) == Chosen(a, eligible) + Chosen(b, eligible)
  {
    if a == [] {
      assert a + b == b;
    } else {
      assert a + b == [a[0]] + (a[1..] + b);
      ChosenAppend(a[1..], b, eligible);
      var head := if a[0] in eligible then [a[0]] else [];
      assert Chosen(a + b, eligible) == head + Chosen(a[1..] + b, eligible);
      assert Chosen(a, eligible) == head + Chosen(a[1..], eligible);
    }
  }

  lemma RotatedFurther(bots: seq<BotRef>, start: nat, i: nat)
    requires start < |bots| && i < |bots|
    ensures Rotated(bots, Wrap(Wrap(start + i, |bots|) + 1, |bots|))
         == Rotated(bots, start)[i + 1..] + Rotated(bots, start)[..i + 1]
  {
  }

  lemma ChosenRotated(bots: seq<BotRef>, start: nat, i: nat, eligible: set<BotRef>)
    requires start < |bots| && i < |bots| && bots[Wrap(start + i, |bots|)] in eligible
    requires Chosen(Rotated(bots, start)[0..i], eligible) == []
    ensures Chosen(Rotated(bots, Wrap(Wrap(start + i, |bots|) + 1, |bots|)), eligible)
            == Chosen(Rotated(bots, start)[i + 1..], eligible) + [bots[Wrap(start + i, |bots|)]]
  {
    var R := Rotated(bots, start);
    RotatedAt(bots, start, i);
    RotatedFurther(bots, start, i);
    ChosenAppend(R[i + 1..], R[..i + 1], eligible);
    assert R[..i + 1] == R[0..i] + [R[i]];
    ChosenAppend(R[0..i], [R[i]], eligible);
    assert Chosen([R[i]], eligible) == [R[i]];
  }

  /** After one send the next one starts behind the bot just used. */
  lemma SendRotates(bots: seq<BotRef>, index: nat, eligible: set<BotRef>)
    requires index < |bots| && Chosen(Rotated(bots, index), eligible) != []
    ensures var c := Chosen(Rotated(bots, index), eligible);
      var (index', bot) := Send(bots, index, eligible);
      bot == Some(c[0]) && Chosen(Rotated(bots, index'), eligible) == c[1..] + [c[0]]
  {
    assert Rotated(bots, index)[0..] == Rotated(bots, index);
    FirstIsHead(bots, index, 0, eligible);
    NoneSkipped(bots, index, 0, eligible);
    var i := FirstFrom(bots, index, 0, eligible).value;
    RotatedAt(bots, index, i);
    ChosenRotated(bots, index, i, eligible);
  }

  /** Fairness: any k consecutive sends, k being the number of eligible bots, use the eligible
      bots in roster order from the current index on: each exactly once. */
  lemma {:induction false} RoundRobinOrder(bots: seq<BotRef>, index: nat, eligible: set<BotRef>, m: nat)
    requires index < |bots| && m <= |Chosen(Rotated(bots, index), eligible)|
    ensures var used := Sends(bots, index, eligible, m);
      |used| == m && forall i :: 0 <= i < m ==> used[i] == Some(Chosen(Rotated(bots, index), eligible)[i])
    decreases m
  {
    if m > 0 {
      SendRotates(bots, index, eligible);
      var index' := Send(bots, index, eligible).0;
      RoundRobinOrder(bots, index', eligible, m - 1);
    }
  }

  lemma {:induction false} ChosenExact(list: seq<BotRef>, eligible: set<BotRef>)
    ensures forall b :: b in Chosen(list, eligible) <==> b in list && b in eligible
    ensures Distinct(list) ==> Distinct(Chosen(list, eligible))
  {
    if list != [] {
      ChosenExact(list[1..], eligible);
      assert forall b :: b in list <==> b == list[0] || b in list[1..];
      assert Distinct(list) ==> list[0] !in list[1..];
    }
  }

  lemma RotatedSame(bots: seq<BotRef>, start: nat)
    requires start < |bots| && Distinct(bots)
    ensures Distinct(Rotated(bots, start)) && forall b :: b in Rotated(bots, start) <==> b in bots
  {
    assert bots == bots[..start] + bots[start..];
  }

  /** With a fixed roster and a fixed set of eligible bots of which k are in the roster, k
      consecutive sends reach each of them, and none twice. */
  lemma RoundRobinFair(bots: seq<BotRef>, index: nat, eligible: set<BotRef>, k: nat)
    requires Distinct(bots) && index < |bots| && k == |set b | b in bots && b in eligible|
    ensures var used := Sends(bots, index, eligible, k);
      && |used| == k
      && (forall i :: 0 <= i < k ==> used[i].Some? && used[i].value in bots && used[i].value in eligible)
      && (forall i, j :: 0 <= i < j < k ==> used[i] != used[j])
      && (forall b :: b in bots && b in eligible ==> Some(b) in used)
  {
    var c := Chosen(Rotated(bots, index), eligible);
    RotatedSame(bots, index);
    ChosenExact(Rotated(bots, index), eligible);
    assert (set b | b in bots && b in eligible) == Elements(c);
    DistinctCount(c);
    RoundRobinOrder(bots, index, eligible, k);
    var used := Sends(bots, index, eligible, k);
    forall i | 0 <= i < k ensures used[i] == Some(c[i]) && c[i] in c {}
    forall b | b in bots && b in eligible ensures Some(b) in used {
      var i :| 0 <= i < |c| && c[i] == b;
      assert used[i] == Some(b);
    }
  }

  function Elements(c: seq<BotRef>): set<BotRef> {
    set b | b in c
  }

  lemma {:induction false} DistinctCount(c: seq<BotRef>)
    requires Distinct(c)
    ensures |Elements(c)| == |c|
  {
    if c != [] {
      DistinctCount(c[1..]);
      assert c[0] !in Elements(c[1..]);
      assert Elements(c) == {c[0]} + Elements(c[1..]);
    }
  }

  /** The message is sent exactly when some bot of the roster is eligible. */
  lemma AlwaysSent(bots: seq<BotRef>, index: nat, eligible: set<BotRef>)
    requires bots != [] ==> index < |bots|
    ensures Send(bots, index, eligible).1.Some? <==> exists b :: b in bots && b in eligible
  {
    if bots != [] {
      var R := Rotated(bots, index);
      assert R[0..] == R;
      FirstIsHead(bots, index, 0, eligible);
      ChosenExact(R, eligible);
      assert bots == bots[..index] + bots[index..];
      assert forall b :: b in R <==> b in bots;
      if Chosen(R, eligible) != [] { assert Chosen(R, eligible)[0] in Chosen(R, eligible); }
    }
  }
}
