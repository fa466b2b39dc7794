/** internal/bot/bot.go and manager.go: the probe-then-kill watchdog over connections.
    Times are nanosecond counts after the epoch, so positive. */
module Liveness {

  datatype WdAction = WdNone | WdProbe | WdKill | WdClear

  /** One bot as the watchdog sees it; probe 0 means that no probe is pending. */
  datatype Watch = Watch(last: int, probe: int, connected: bool)

  /** livenessDecision */
  function Decision(now: int, last: int, probe: int, idle: int, grace: int): WdAction {
    if probe != 0 then
      if last > probe then WdClear
      else if now - probe > grace then WdKill
      else WdNone
    else if now - last > idle then WdProbe
    else WdNone
  }

  /** One bot's share of sweepLiveness: applyLiveness, and on a kill the probe is reset. */
  function Sweep(w: Watch, now: int, idle: int, grace: int): (Watch, WdAction) {
    if !w.connected then (w, WdNone)
    else
      var act := Decision(now, w.last, w.probe, idle, grace);
      (match act
       case WdProbe => w.(probe := now)
       case WdNone => w
       case _ => w.(probe := 0), act)
  }

  // ------------------------------------------------------------------ the code's form

  class Bot {
    var lastEventAt: int
    var wdProbeAt: int
    var isConnected: bool

    function Watched(): Watch
      reads this
    {
      Watch(lastEventAt, wdProbeAt, isConnected)
    }

    constructor (now: int)
      ensures Watched() == Watch(now, 0, false)
    {
      lastEventAt, wdProbeAt, isConnected := now, 0, false;
    }

    /** The "*" callback. */
    method OnLine(now: int)
      modifies this`lastEventAt
      ensures Watched() == old(Watched()).(last := now)
    {
      lastEventAt := now;
    }

    /** The watchdog part of the 001 callback; a bot that has given up is not registered. */
    method OnRegistered(now: int, gaveUp: bool)
      modifies this
      ensures Watched() == if old(isConnected) || gaveUp then old(Watched()) else Watch(now, 0, true)
    {
      if isConnected {
        return;
      }
      if gaveUp {
        return;
      }
      isConnected, lastEventAt, wdProbeAt := true, now, 0;
    }

    method ApplyLiveness(now: int, idle: int, grace: int) returns (act: WdAction)
      modifies this`wdProbeAt
      ensures act == Decision(now, lastEventAt, old(wdProbeAt), idle, grace)
      ensures wdProbeAt == match act case WdProbe => now case WdClear => 0 case _ => old(wdProbeAt)
    {
      act := Decision(now, lastEventAt, wdProbeAt, idle, grace);
      match act {
        case WdProbe => wdProbeAt := now;
        case WdClear => wdProbeAt := 0;
        case _ =>
      }
    }
  }

  /** sweepLiveness: every bot is treated as if it were alone; `killed` are the ones that
      are force-disconnected, in roster order. */
  method SweepLiveness(bots: seq<Bot>, now: int, idle: int, grace: int) returns (killed: seq<nat>)
    requires forall i, j :: 0 <= i < j < |bots| ==> bots[i] != bots[j]
    modifies set b | b in bots
    ensures forall i :: 0 <= i < |bots| ==> bots[i].Watched() == Sweep(old(bots[i].Watched()), now, idle, grace).0
    ensures forall i :: 0 <= i < |bots| ==> (i in killed <==> Sweep(old(bots[i].Watched()), now, idle, grace).1.WdKill?)
    ensures forall a, b :: 0 <= a < b < |killed| ==> killed[a] < killed[b] < |bots|
  {
    killed := [];
    var k := 0;
    while k < |bots|
      invariant 0 <= k <= |bots|
      invariant forall i :: 0 <= i < k ==> bots[i].Watched() == Sweep(old(bots[i].Watched()), now, idle, grace).0
      invariant forall i :: k <= i < |bots| ==> bots[i].Watched() == old(bots[i].Watched())
      invariant forall i :: 0 <= i < k ==> (i in killed <==> Sweep(old(bots[i].Watched()), now, idle, grace).1.WdKill?)
      invariant forall a :: 0 <= a < |killed| ==> killed[a] < k
      invariant forall a, b :: 0 <= a < b < |killed| ==> killed[a] < killed[b]
    {
      var bot := bots[k];
      if bot.isConnected {
        var act := bot.ApplyLiveness(now, idle, grace);
        if act.WdKill? {
          bot.wdProbeAt := 0;
          killed := killed + [k];
        }
      }
      k := k + 1;
    }
  }

  // ------------------------------------------------------------------ whole runs: no false kill

  datatype Event = Line(at: int) | Registered(at: int, gaveUp: bool) | Dropped(at: int) | Swept(at: int)

  function Step(w: Watch, e: Event, idle: int, grace: int): Watch {
    match e
    case Line(t) => w.(last := t)
    case Registered(t, gaveUp) => if w.connected || gaveUp then w else Watch(t, 0, true)
    case Dropped(_) => w.(connected := false)
    case Swept(t) => Sweep(w, t, idle, grace).0
  }

  function After(born: int, run: seq<Event>, idle: int, grace: int): Watch {
    if run == [] then Watch(born, 0, false)
    else Step(After(born, run[..|run| - 1], idle, grace), run[|run| - 1], idle, grace)
  }

  /** The clock strictly advances from the bot's construction on. */
  predicate Clocked(born: int, run: seq<Event>) {
    0 < born && (forall i :: 0 <= i < |run| ==> born < run[i].at)
    && (forall i, j :: 0 <= i < j < |run| ==> run[i].at < run[j].at)
  }

  /** The k-th event of the run is an inbound line or a registration that is accepted. */
  predicate Inbound(born: int, run: seq<Event>, k: nat, idle: int, grace: int)
    requires k < |run|
  {
    || run[k].Line?
    || (run[k].Registered? && !run[k].gaveUp && !After(born, run[..k], idle, grace).connected)
  }

  /** The k-th event is the sweep that sent the probe. */
  predicate ProbedAt(born: int, run: seq<Event>, k: nat, idle: int, grace: int)
    requires k < |run|
  {
    run[k].Swept? && Sweep(After(born, run[..k], idle, grace), run[k].at, idle, grace).1.WdProbe?
  }

  /** The idle clock is the time of the last inbound line, or of the bot's construction. */
  ghost predicate LastLine(born: int, run: seq<Event>, idle: int, grace: int) {
    var w := After(born, run, idle, grace);
    && born <= w.last && (|run| > 0 ==> w.last <= run[|run| - 1].at)
    && (w.last == born || exists j :: 0 <= j < |run| && Inbound(born, run, j, idle, grace) && run[j].at == w.last)
    && (forall j :: 0 <= j < |run| && Inbound(born, run, j, idle, grace) ==> run[j].at <= w.last)
  }

  /** The k-th event is a registration that is accepted. */
  predicate Registers(born: int, run: seq<Event>, k: nat, idle: int, grace: int)
    requires k < |run|
  {
    run[k].Registered? && !run[k].gaveUp && !After(born, run[..k], idle, grace).connected
  }

  /** The bot is connected exactly if it was registered, with no drop since. */
  ghost predicate Connects(born: int, run: seq<Event>, idle: int, grace: int) {
    After(born, run, idle, grace).connected <==>
      exists k :: 0 <= k < |run| && Registers(born, run, k, idle, grace)
        && forall j :: k < j < |run| ==> !run[j].Dropped?
  }

  /** The p-th event sent a probe at this time, and no registration has been accepted since. */
  ghost predicate SentAt(born: int, run: seq<Event>, p: nat, at: int, idle: int, grace: int)
    requires p < |run|
  {
    && ProbedAt(born, run, p, idle, grace) && run[p].at == at
    && forall j :: p < j < |run| ==> !Registers(born, run, j, idle, grace)
  }

  /** A pending probe is one that was sent, after more than idle if no line has answered it. */
  ghost predicate LastProbe(born: int, run: seq<Event>, idle: int, grace: int) {
    var w := After(born, run, idle, grace);
    w.probe != 0 ==>
      && (exists p :: 0 <= p < |run| && SentAt(born, run, p, w.probe, idle, grace))
      && (w.last <= w.probe ==> w.probe - w.last > idle)
  }

  /** Whether an event is inbound or a probe depends on the events before it. */
  lemma SamePast(born: int, run: seq<Event>, n: nat, j: nat, idle: int, grace: int)
    requires j < n <= |run|
    ensures Inbound(born, run[..n], j, idle, grace) == Inbound(born, run, j, idle, grace)
    ensures ProbedAt(born, run[..n], j, idle, grace) == ProbedAt(born, run, j, idle, grace)
    ensures Registers(born, run[..n], j, idle, grace) == Registers(born, run, j, idle, grace)
  {
    assert run[..n][..j] == run[..j];
  }

  lemma LineRemembered(born: int, run: seq<Event>, idle: int, grace: int)
    requires Clocked(born, run) && run != [] && LastLine(born, run[..|run| - 1], idle, grace)
    ensures LastLine(born, run, idle, grace)
  {
    var n := |run| - 1;
    forall j | 0 <= j < n ensures Inbound(born, run[..n], j, idle, grace) == Inbound(born, run, j, idle, grace) {
      SamePast(born, run, n, j, idle, grace);
    }
    var w, w' := After(born, run[..n], idle, grace), After(born, run, idle, grace);
    if w'.last == w.last {
      if w.last != born {
        var j :| 0 <= j < n && Inbound(born, run[..n], j, idle, grace) && run[..n][j].at == w.last;
        assert Inbound(born, run, j, idle, grace) && run[j].at == w'.last;
      }
    } else {
      assert Inbound(born, run, n, idle, grace) && run[n].at == w'.last;
    }
  }

  lemma ConnectionRemembered(born: int, run: seq<Event>, idle: int, grace: int)
    requires run != [] && Connects(born, run[..|run| - 1], idle, grace)
    ensures Connects(born, run, idle, grace)
  {
    var n := |run| - 1;
    forall k | 0 <= k < n ensures Registers(born, run[..n], k, idle, grace) == Registers(born, run, k, idle, grace) {
      SamePast(born, run, n, k, idle, grace);
    }
    if After(born, run[..n], idle, grace).connected && !run[n].Dropped? {
      var k :| 0 <= k < n && Registers(born, run[..n], k, idle, grace)
        && forall j :: k < j < n ==> !run[..n][j].Dropped?;
      assert Registers(born, run, k, idle, grace);
    }
    if k :| 0 <= k < n && Registers(born, run, k, idle, grace) && forall j :: k < j < |run| ==> !run[j].Dropped? {
      assert Registers(born, run[..n], k, idle, grace);
    }
    if Registers(born, run, n, idle, grace) { assert After(born, run, idle, grace).connected; }
  }

  lemma SentBefore(born: int, run: seq<Event>, p: nat, at: int, idle: int, grace: int)
    requires p + 1 < |run| && SentAt(born, run[..|run| - 1], p, at, idle, grace)
    requires !Registers(born, run, |run| - 1, idle, grace)
    ensures SentAt(born, run, p, at, idle, grace)
  {
    var n := |run| - 1;
    SamePast(born, run, n, p, idle, grace);
    forall j | p < j < |run| ensures !Registers(born, run, j, idle, grace) {
      if j < n { SamePast(born, run, n, j, idle, grace); }
    }
  }

  lemma ProbeRemembered(born: int, run: seq<Event>, idle: int, grace: int)
    requires Clocked(born, run) && run != []
    requires LastLine(born, run[..|run| - 1], idle, grace) && LastProbe(born, run[..|run| - 1], idle, grace)
    ensures LastProbe(born, run, idle, grace)
  {
    var n := |run| - 1;
    var w, w' := After(born, run[..n], idle, grace), After(born, run, idle, grace);
    if w'.probe != 0 {
      if ProbedAt(born, run, n, idle, grace) {
        assert SentAt(born, run, n, w'.probe, idle, grace);
      } else {
        var p :| 0 <= p < n && SentAt(born, run[..n], p, w.probe, idle, grace);
        SentBefore(born, run, p, w.probe, idle, grace);
      }
    }
  }

  /** What the two clocks and the flag say about the run. */
  lemma {:induction false} ClocksRemember(born: int, run: seq<Event>, idle: int, grace: int)
    requires Clocked(born, run)
    ensures LastLine(born, run, idle, grace) && LastProbe(born, run, idle, grace) && Connects(born, run, idle, grace)
  {
    if run != [] {
      ClocksRemember(born, run[..|run| - 1], idle, grace);
      ConnectionRemembered(born, run, idle, grace);
      LineRemembered(born, run, idle, grace);
      ProbeRemembered(born, run, idle, grace);
    }
  }

  /** The p-th event sent a probe that nothing has answered. */
  ghost predicate Unanswered(born: int, run: seq<Event>, p: nat, idle: int, grace: int)
    requires p < |run|
  {
    && ProbedAt(born, run, p, idle, grace)
    && forall j :: p <= j < |run| ==> !Inbound(born, run, j, idle, grace)
  }

  /** A bot is killed only for silence: its probe was sent more than grace ago, no line arrived
      after the probe, and every line is more than idle + grace old. */
  lemma KillMeansSilence(born: int, run: seq<Event>, now: int, idle: int, grace: int)
    requires Clocked(born, run) && born < now && forall i :: 0 <= i < |run| ==> run[i].at < now
    requires Sweep(After(born, run, idle, grace), now, idle, grace).1.WdKill?
    ensures exists p :: 0 <= p < |run| && Unanswered(born, run, p, idle, grace) && now - run[p].at > grace
    ensures forall j :: 0 <= j < |run| && Inbound(born, run, j, idle, grace) ==> now - run[j].at > idle + grace
    ensures now - born > idle + grace
  {
    ClocksRemember(born, run, idle, grace);
    var w := After(born, run, idle, grace);
    assert w.probe != 0 && w.last <= w.probe && now - w.probe > grace;
    var p :| 0 <= p < |run| && SentAt(born, run, p, w.probe, idle, grace);
    forall j | p <= j < |run| ensures !Inbound(born, run, j, idle, grace) {
      assert j == p || run[p].at < run[j].at;
    }
    assert Unanswered(born, run, p, idle, grace);
  }

  // ------------------------------------------------------------------ whole runs: kills come in time

  function Max(a: int, b: int): int { if a > b then a else b }

  /** The verdict of the k-th of a row of sweeps with nothing else in between. */
  function Verdict(w: Watch, sweeps: seq<int>, k: nat, idle: int, grace: int): WdAction
    requires k < |sweeps|
    decreases k
  {
    var (w', act) := Sweep(w, sweeps[0], idle, grace);
    if k == 0 then act else Verdict(w', sweeps[1..], k - 1, idle, grace)
  }

  /** The sweep after the i-th follows it within a period. */
  predicate Spaced(sweeps: seq<int>, i: nat, period: int) {
    i + 1 < |sweeps| ==> sweeps[i] < sweeps[i + 1] <= sweeps[i] + period
  }

  /** Sweeps at most `period` apart, the first one at most that after `from`. */
  ghost predicate Periodic(from: int, sweeps: seq<int>, period: int) {
    |sweeps| > 0 && from < sweeps[0] <= from + period && forall i: nat :: Spaced(sweeps, i, period)
  }

  lemma PeriodicTail(from: int, sweeps: seq<int>, period: int)
    requires Periodic(from, sweeps, period) && |sweeps| > 1
    ensures Periodic(sweeps[0], sweeps[1..], period)
  {
    assert Spaced(sweeps, 0, period);
    forall i: nat ensures Spaced(sweeps[1..], i, period) {
      assert Spaced(sweeps, i + 1, period);
    }
  }

  /** A pending probe that stays unanswered. */
  lemma {:induction false} KillAfterProbe(w: Watch, sweeps: seq<int>, from: int, period: int, idle: int, grace: int)
    returns (k: nat)
    requires w.connected && w.probe != 0 && w.last <= w.probe
    requires Periodic(from, sweeps, period) && w.probe <= from <= w.probe + grace
    requires sweeps[|sweeps| - 1] > w.probe + grace
    ensures k < |sweeps| && Verdict(w, sweeps, k, idle, grace) == WdKill
    ensures sweeps[k] <= w.probe + grace + period
    decreases |sweeps|
  {
    if sweeps[0] - w.probe > grace {
      k := 0;
    } else {
      PeriodicTail(from, sweeps, period);
      var j := KillAfterProbe(w, sweeps[1..], sweeps[0], period, idle, grace);
      k := j + 1;
    }
  }

  /** No probe pending: the bot is probed once it has been idle, then killed. */
  lemma {:induction false} KillAfterIdle(w: Watch, sweeps: seq<int>, from: int, limit: int, period: int,
                                         idle: int, grace: int) returns (k: nat)
    requires w.connected && w.probe == 0 && 0 < w.last <= from && idle <= limit && 0 <= grace && 0 <= idle
    requires Periodic(from, sweeps, period) && from <= w.last + limit
    requires sweeps[|sweeps| - 1] > w.last + limit + grace + period
    ensures k < |sweeps| && Verdict(w, sweeps, k, idle, grace) == WdKill
    ensures sweeps[k] <= w.last + limit + grace + 2 * period
    decreases |sweeps|
  {
    PeriodicTail(from, sweeps, period);
    if sweeps[0] - w.last > idle {
      var w' := w.(probe := sweeps[0]);
      var j := KillAfterProbe(w', sweeps[1..], sweeps[0], period, idle, grace);
      k := j + 1;
    } else {
      var j := KillAfterIdle(w, sweeps[1..], sweeps[0], limit, period, idle, grace);
      k := j + 1;
    }
  }

  /** A connected bot, silent since `w.last` (a probe may be pending, but that line answered it),
      and a row of sweeps that is long enough. */
  ghost predicate Silent(w: Watch, sweeps: seq<int>, period: int, idle: int, grace: int) {
    && w.connected && 0 < w.last && 0 <= w.probe < w.last && Periodic(w.last, sweeps, period)
    && sweeps[|sweeps| - 1] > w.last + Max(idle, period) + grace + period
  }

  /** A connected bot that falls silent at `w.last` is killed within
      max(idle, period) + grace + 2 periods, also when an answered probe was still pending;
      with a period of at most idle this is idle + grace + 2 periods. */
  lemma SilenceIsKilled(w: Watch, sweeps: seq<int>, period: int, idle: int, grace: int) returns (k: nat)
    requires 0 <= idle && 0 <= grace && 0 < period && Silent(w, sweeps, period, idle, grace)
    ensures k < |sweeps| && Verdict(w, sweeps, k, idle, grace) == WdKill
    ensures sweeps[k] <= w.last + Max(idle, period) + grace + 2 * period
    ensures period <= idle ==> sweeps[k] <= w.last + idle + grace + 2 * period
  {
    var limit := Max(idle, period);
    if w.probe == 0 {
      k := KillAfterIdle(w, sweeps, w.last, limit, period, idle, grace);
    } else {
      PeriodicTail(w.last, sweeps, period);
      var j := KillAfterIdle(w.(probe := 0), sweeps[1..], sweeps[0], limit, period, idle, grace);
      k := j + 1;
    }
  }

  // ------------------------------------------------------------------ the bound is exact

  /** Some sweep up to `bound` kills. */
  predicate KilledBy(w: Watch, sweeps: seq<int>, bound: int, idle: int, grace: int) {
    exists k :: 0 <= k < |sweeps| && sweeps[k] <= bound && Verdict(w, sweeps, k, idle, grace) == WdKill
  }

  /** Sweeps a period apart from `from` on, the last two at `target` and a period later. */
  function Row(from: int, target: int, period: int): seq<int>
    requires 0 < period
    decreases target - from
  {
    if target <= from then [from + period]
    else if target <= from + period then [target, target + period]
    else [from + period] + Row(from + period, target, period)
  }

  lemma PeriodicCons(from: int, x: int, rest: seq<int>, period: int)
    requires from < x <= from + period && Periodic(x, rest, period)
    ensures Periodic(from, [x] + rest, period)
  {
    var r := [x] + rest;
    forall i: nat ensures Spaced(r, i, period) {
      if i > 0 {
        assert Spaced(rest, i - 1, period);
        if i + 1 < |r| { assert r[i] == rest[i - 1] && r[i + 1] == rest[i]; }
      }
    }
  }

  /** The last sweep is the only one after `target`. */
  predicate LastAfter(row: seq<int>, target: int) {
    |row| > 0 && row[|row| - 1] > target && forall i :: 0 <= i < |row| - 1 ==> row[i] <= target
  }

  lemma LastAfterCons(x: int, rest: seq<int>, target: int)
    requires x <= target && LastAfter(rest, target)
    ensures LastAfter([x] + rest, target) && ([x] + rest)[|rest|] == rest[|rest| - 1]
  {
    var r := [x] + rest;
    forall i | 0 <= i < |r| - 1 ensures r[i] <= target {
      if i > 0 { assert r[i] == rest[i - 1]; }
    }
  }

  lemma {:induction false} RowPeriodic(from: int, target: int, period: int)
    requires 0 < period && from <= target
    ensures var r := Row(from, target, period);
      Periodic(from, r, period) && LastAfter(r, target) && r[|r| - 1] == target + period
    decreases target - from
  {
    if target > from + period {
      RowPeriodic(from + period, target, period);
      PeriodicCons(from, from + period, Row(from + period, target, period), period);
      LastAfterCons(from + period, Row(from + period, target, period), target);
    } else if target > from {
      PeriodicCons(from, target, [target + period], period);
      assert Row(from, target, period) == [target] + [target + period];
    }
  }

  /** While the grace of an unanswered probe runs nothing is killed. */
  lemma {:induction false} NoneInGrace(w: Watch, sweeps: seq<int>, k: nat, idle: int, grace: int)
    requires w.connected && w.probe != 0 && w.last <= w.probe && k < |sweeps|
    requires forall i :: 0 <= i <= k ==> sweeps[i] <= w.probe + grace
    ensures Verdict(w, sweeps, k, idle, grace) == WdNone
    decreases k
  {
    if k > 0 {
      NoneInGrace(w, sweeps[1..], k - 1, idle, grace);
    }
  }

  /** With a period longer than idle: the line at 10 answers the probe of 5, the sweep one period
      later only clears it, the next one probes, one falls on the very end of the grace. */
  function LateRow(period: int, grace: int): seq<int>
    requires 0 < period
  {
    [10 + period, 10 + 2 * period] + Row(10 + 2 * period, 10 + 2 * period + grace, period)
  }

  lemma LateRowPeriodic(period: int, grace: int)
    requires 0 < period && 0 <= grace
    ensures var r := LateRow(period, grace);
      Periodic(10, r, period) && LastAfter(r, 10 + 2 * period + grace) && r[|r| - 1] == 10 + 3 * period + grace
  {
    var target := 10 + 2 * period + grace;
    var row := Row(10 + 2 * period, target, period);
    RowPeriodic(10 + 2 * period, target, period);
    var second := [10 + 2 * period] + row;
    PeriodicCons(10 + period, 10 + 2 * period, row, period);
    LastAfterCons(10 + 2 * period, row, target);
    PeriodicCons(10, 10 + period, second, period);
    LastAfterCons(10 + period, second, target);
    assert LateRow(period, grace) == [10 + period] + second;
  }

  /** On that row no sweep within idle + grace + 2 periods kills. */
  lemma LateKill(period: int, idle: int, grace: int)
    requires 0 <= idle < period && 0 <= grace
    ensures Silent(Watch(10, 5, true), LateRow(period, grace), period, idle, grace)
    ensures !KilledBy(Watch(10, 5, true), LateRow(period, grace), 10 + idle + grace + 2 * period, idle, grace)
  {
    var w, r := Watch(10, 5, true), LateRow(period, grace);
    LateRowPeriodic(period, grace);
    var probed := Watch(10, 10 + 2 * period, true);
    assert r[1..][1..] == r[2..];
    assert Sweep(w, r[0], idle, grace) == (Watch(10, 0, true), WdClear);
    assert Sweep(Watch(10, 0, true), r[1], idle, grace) == (probed, WdProbe);
    forall k | 0 <= k < |r| && r[k] <= 10 + idle + grace + 2 * period
      ensures Verdict(w, r, k, idle, grace) != WdKill
    {
      if k >= 2 {
        assert k < |r| - 1;
        NoneInGrace(probed, r[2..], k - 2, idle, grace);
        assert Verdict(w, r, k, idle, grace) == Verdict(probed, r[2..], k - 2, idle, grace);
      }
    }
  }

  /** Every silent bot is killed within idle + grace + 2 periods, whatever its probe and the row
      of sweeps, if and only if the period is at most idle. */
  lemma BoundHoldsExactly(period: int, idle: int, grace: int)
    requires 0 < period && 0 <= idle && 0 <= grace
    ensures (forall w, sweeps :: Silent(w, sweeps, period, idle, grace) ==>
               KilledBy(w, sweeps, w.last + idle + grace + 2 * period, idle, grace))
            <==> period <= idle
  {
    if period <= idle {
      forall w, sweeps | Silent(w, sweeps, period, idle, grace)
        ensures KilledBy(w, sweeps, w.last + idle + grace + 2 * period, idle, grace)
      {
        var k := SilenceIsKilled(w, sweeps, period, idle, grace);
      }
    } else {
      LateKill(period, idle, grace);
    }
  }
}
