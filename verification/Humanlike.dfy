/** internal/bot/humanlike.go: the runner that joins a channel, stays and leaves. */
module Humanlike {

  const NONE := ""

  // ------------------------------------------------------------ durations

  const SECOND := 1000000000

  /** pickDuration for non-negative bounds in nanoseconds; `draw` is the random number below
      the span. */
  function Span(min: nat, max: nat): int {
    max / SECOND - min / SECOND + 1
  }

  function PickDuration(min: nat, max: nat, draw: nat): nat {
    if max <= min || Span(min, max) <= 1 then min else min + draw * SECOND
  }

  lemma SpanFits(min: nat, max: nat)
    requires min < max
    ensures min + (Span(min, max) - 1) * SECOND <= max <==> min % SECOND <= max % SECOND
  {
    assert min == min / SECOND * SECOND + min % SECOND;
    assert max == max / SECOND * SECOND + max % SECOND;
  }

  /** Whatever is drawn, the duration lies in [min, max], exactly when the bounds' fractions of
      a second are in order too; so for whole-second bounds always. */
  lemma DurationInBounds(min: nat, max: nat)
    requires min <= max
    ensures (forall draw: nat :: draw < Span(min, max) ==> min <= PickDuration(min, max, draw) <= max)
            <==> (min == max || min % SECOND <= max % SECOND)
    ensures min % SECOND == 0 && max % SECOND == 0 ==>
              (forall draw: nat :: draw < Span(min, max) ==> min <= PickDuration(min, max, draw) <= max)
  {
    if min < max {
      SpanFits(min, max);
      var top := Span(min, max) - 1;
      if min % SECOND <= max % SECOND {
        forall draw: nat | draw < Span(min, max) ensures PickDuration(min, max, draw) <= max {
          assert draw * SECOND <= top * SECOND;
        }
      } else if top >= 1 {
        assert PickDuration(min, max, top) > max;
      }
    }
  }

  // ------------------------------------------------------------ one runner

  /** A change of the bot's membership that is not the runner's doing: kicks, other joins and
      parts, the reset by a reconnect, a JOIN the server refuses. */
  datatype Change = Change(joined: set<string>, left: set<string>)

  const NOTHING := Change({}, {})

  /** What the surroundings decide in one turn of the loop.  A sleep is false when stop was
      closed first; `draw` picks among the candidates.  Membership changes by `atPick` up to the
      choice of a channel and by `atPart` up to the part. */
  datatype Turn = Turn(
    off: bool, channels: seq<string>, draw: nat, atPick: Change, connectedAtJoin: bool,
    stay: bool, connectedAtPart: bool, atPart: Change)

  /** JOIN and PART commands sent; Forget: the channel is no longer tracked, nothing is sent. */
  datatype Act = Join(channel: string) | Part(channel: string) | Forget(channel: string)

  /** tracked: r.joined; on: the channels the bot is on; finished: run has returned. */
  datatype State = State(tracked: string, on: set<string>, trace: seq<Act>, finished: bool)

  function Start(on: set<string>): State {
    State(NONE, on, [], false)
  }

  function Changed(on: set<string>, c: Change): set<string> {
    on + c.joined - c.left
  }

  function Candidates(list: seq<string>, on: set<string>): seq<string> {
    if list == [] then []
    else Candidates(list[..|list| - 1], on) + if list[|list| - 1] in on then [] else [list[|list| - 1]]
  }

  function PickChannel(t: Turn, on: set<string>): string {
    var c := Candidates(t.channels, on);
    if c == [] then NONE else c[t.draw % |c|]
  }

  function PartIfJoined(s: State, connected: bool): State {
    if s.tracked == NONE then s
    else if connected && s.tracked in s.on
    then s.(tracked := NONE, on := s.on - {s.tracked}, trace := s.trace + [Part(s.tracked)])
    else s.(tracked := NONE, trace := s.trace + [Forget(s.tracked)])
  }

  /** The part, after what happened to the membership before it. */
  function Parting(s: State, t: Turn): State {
    PartIfJoined(s.(on := Changed(s.on, t.atPart)), t.connectedAtPart)
  }

  /** The JOIN of a channel, which takes effect unless a change undoes it. */
  function Joining(s: State, channel: string): State {
    s.(tracked := channel, on := s.on + {channel}, trace := s.trace + [Join(channel)])
  }

  /** One turn: idle, join, stay, part.  Both ways out run the deferred part. */
  function TurnStep(s: State, t: Turn): State {
    if s.finished then s
    else if !t.off then Parting(s, t).(finished := true)
    else
      var s1 := s.(on := Changed(s.on, t.atPick));
      var channel := PickChannel(t, s1.on);
      if channel == NONE || !t.connectedAtJoin then s1
      else Parting(Joining(s1, channel), t).(finished := !t.stay)
  }

  function RunTurns(on: set<string>, turns: seq<Turn>): State {
    if turns == [] then Start(on) else TurnStep(RunTurns(on, turns[..|turns| - 1]), turns[|turns| - 1])
  }

  class Runner {
    var joined: string
    var trace: seq<Act>
    /** The channels of the runner's bot. */
    var on: set<string>

    function Value(finished: bool): State
      reads this
    {
      State(joined, on, trace, finished)
    }

    constructor (on: set<string>)
      ensures Value(false) == Start(on)
    {
      joined, this.on, trace := NONE, on, [];
    }

    method Pick(t: Turn) returns (channel: string)
      ensures channel == PickChannel(t, on)
    {
      if |t.channels| == 0 {
        return NONE;
      }
      var candidates := [];
      var i := 0;
      while i < |t.channels|
        invariant 0 <= i <= |t.channels|
        invariant candidates == Candidates(t.channels[..i], on)
      {
        assert t.channels[..i + 1][..i] == t.channels[..i];
        if t.channels[i] !in on {
          candidates := candidates + [t.channels[i]];
        }
        i := i + 1;
      }
      assert t.channels[..i] == t.channels;
      if |candidates| == 0 {
        return NONE;
      }
      channel := candidates[t.draw % |candidates|];
    }

    method PartJoined(connected: bool)
      modifies this
      ensures Value(false) == PartIfJoined(old(Value(false)), connected)
    {
      var ch := joined;
      joined := NONE;
      if ch == NONE {
        return;
      }
      if !connected || ch !in on {
        trace := trace + [Forget(ch)];
        return;
      }
      trace := trace + [Part(ch)];
      on := on - {ch};
    }

    /** The endless loop, followed for as many turns as the schedule has. */
    method Run(turns: seq<Turn>) returns (finished: bool)
      requires joined == NONE && trace == []
      modifies this
      ensures Value(finished) == RunTurns(old(on), turns)
    {
      finished := false;
      ghost var start := on;
      var i := 0;
      while i < |turns|
        invariant 0 <= i <= |turns|
        invariant !finished
        invariant Value(finished) == RunTurns(start, turns[..i])
      {
        var t := turns[i];
        assert turns[..i + 1][..i] == turns[..i];
        i := i + 1;
        if !t.off {
          on := Changed(on, t.atPart);
          PartJoined(t.connectedAtPart);
          finished := true;
          FinishedStays(start, turns, i);
          return;
        }
        on := Changed(on, t.atPick);
        var channel := Pick(t);
        if channel == NONE || !t.connectedAtJoin {
          continue;
        }
        trace := trace + [Join(channel)];
        on := on + {channel};
        joined := channel;
        on := Changed(on, t.atPart);
        PartJoined(t.connectedAtPart);
        if !t.stay {
          finished := true;
          FinishedStays(start, turns, i);
          return;
        }
      }
      assert turns[..i] == turns;
    }
  }

  lemma {:induction false} FinishedStays(on: set<string>, turns: seq<Turn>, i: nat)
    requires i <= |turns| && RunTurns(on, turns[..i]).finished
    ensures RunTurns(on, turns) == RunTurns(on, turns[..i])
    decreases |turns| - i
  {
    if i < |turns| {
      assert turns[..i + 1][..i] == turns[..i];
      FinishedStays(on, turns, i + 1);
    } else {
      assert turns[..i] == turns;
    }
  }

  // ------------------------------------------------------------ traces

  /** The channel tracked after a trace. */
  function Tracked(trace: seq<Act>): string {
    if trace == [] then NONE
    else match trace[|trace| - 1]
      case Join(c) => c
      case _ => NONE
  }

  /** A JOIN comes only when nothing is tracked, a PART or Forget only for the channel of the
      JOIN right before it: so a PART names the latest JOIN, and there is one for it at most. */
  predicate Disciplined(trace: seq<Act>) {
    forall i :: 0 <= i < |trace| ==> Follows(trace[..i], trace[i])
  }

  predicate Follows(before: seq<Act>, a: Act) {
    match a
    case Join(c) => c != NONE && Tracked(before) == NONE
    case Part(c) => before != [] && before[|before| - 1] == Join(c)
    case Forget(c) => before != [] && before[|before| - 1] == Join(c)
  }

  lemma DisciplinedAppend(trace: seq<Act>, a: Act)
    requires Disciplined(trace) && Follows(trace, a)
    ensures Disciplined(trace + [a])
  {
    var more := trace + [a];
    forall i | 0 <= i < |more| ensures Follows(more[..i], more[i]) {
      assert more[..i] == if i < |trace| then trace[..i] else trace;
    }
  }

  /** What every point of a run satisfies. */
  predicate Sound(s: State) {
    Disciplined(s.trace) && s.tracked == Tracked(s.trace)
  }

  lemma PartingSound(s: State, t: Turn)
    requires Sound(s)
    ensures Sound(Parting(s, t)) && Parting(s, t).tracked == NONE
  {
    if s.tracked != NONE {
      DisciplinedAppend(s.trace, Part(s.tracked));
      DisciplinedAppend(s.trace, Forget(s.tracked));
    }
  }

  lemma TurnSound(s: State, t: Turn)
    requires Sound(s) && s.tracked == NONE
    ensures Sound(TurnStep(s, t)) && TurnStep(s, t).tracked == NONE
  {
    var channel := PickChannel(t, Changed(s.on, t.atPick));
    if !s.finished && t.off && channel != NONE && t.connectedAtJoin {
      DisciplinedAppend(s.trace, Join(channel));
      PartingSound(Joining(s.(on := Changed(s.on, t.atPick)), channel), t);
    } else {
      PartingSound(s, t);
    }
  }

  /** Every schedule gives a disciplined trace that ends with nothing tracked: after each whole
      turn, and so at termination. */
  lemma {:induction false} RunDisciplined(on: set<string>, turns: seq<Turn>)
    ensures var s := RunTurns(on, turns); Disciplined(s.trace) && s.tracked == NONE == Tracked(s.trace)
  {
    if turns != [] {
      RunDisciplined(on, turns[..|turns| - 1]);
      TurnSound(RunTurns(on, turns[..|turns| - 1]), turns[|turns| - 1]);
    }
  }

  function Joins(trace: seq<Act>): nat {
    if trace == [] then 0 else Joins(trace[..|trace| - 1]) + if trace[|trace| - 1].Join? then 1 else 0
  }

  function Parts(trace: seq<Act>): nat {
    if trace == [] then 0 else Parts(trace[..|trace| - 1]) + if trace[|trace| - 1].Part? then 1 else 0
  }

  function Forgets(trace: seq<Act>): nat {
    if trace == [] then 0 else Forgets(trace[..|trace| - 1]) + if trace[|trace| - 1].Forget? then 1 else 0
  }

  /** Joins the trace has not closed. */
  function Open(trace: seq<Act>): int {
    Joins(trace) - Parts(trace) - Forgets(trace)
  }

  lemma CountsAppend(trace: seq<Act>, a: Act)
    ensures Joins(trace + [a]) == Joins(trace) + if a.Join? then 1 else 0
    ensures Parts(trace + [a]) == Parts(trace) + if a.Part? then 1 else 0
    ensures Forgets(trace + [a]) == Forgets(trace) + if a.Forget? then 1 else 0
  {
    assert (trace + [a])[..|trace|] == trace;
  }

  lemma PartingCloses(s: State, t: Turn)
    ensures Open(Parting(s, t).trace) == Open(s.trace) - if s.tracked == NONE then 0 else 1
  {
    CountsAppend(s.trace, Part(s.tracked));
    CountsAppend(s.trace, Forget(s.tracked));
  }

  /** Whatever happens around the runner, every JOIN is closed: by a PART, or because the bot was
      disconnected or no longer on the channel. */
  lemma {:induction false} JoinsAccounted(on: set<string>, turns: seq<Turn>)
    ensures var trace := RunTurns(on, turns).trace; Joins(trace) == Parts(trace) + Forgets(trace)
  {
    if turns != [] {
      var s, t := RunTurns(on, turns[..|turns| - 1]), turns[|turns| - 1];
      JoinsAccounted(on, turns[..|turns| - 1]);
      RunDisciplined(on, turns[..|turns| - 1]);
      var s1 := s.(on := Changed(s.on, t.atPick));
      var channel := PickChannel(t, s1.on);
      CountsAppend(s.trace, Join(channel));
      PartingCloses(s, t);
      PartingCloses(Joining(s1, channel), t);
    }
  }

  /** The bot stays connected and only the runner changes its membership. */
  predicate OnlyRunner(t: Turn) {
    t.connectedAtJoin && t.connectedAtPart && t.atPick == NOTHING && t.atPart == NOTHING
  }

  lemma {:induction false} CandidatesExact(list: seq<string>, on: set<string>)
    ensures forall c :: c in Candidates(list, on) <==> c in list && c !in on
  {
    if list != [] {
      CandidatesExact(list[..|list| - 1], on);
      assert list == list[..|list| - 1] + [list[|list| - 1]];
    }
  }

  /** The runner picks a listed channel that the bot is not on, whenever there is one. */
  lemma PickedIsEligible(t: Turn, on: set<string>)
    ensures PickChannel(t, on) != NONE ==> PickChannel(t, on) in t.channels && PickChannel(t, on) !in on
    ensures (exists c :: c in t.channels && c !in on && c != NONE) && NONE !in t.channels ==> PickChannel(t, on) != NONE
    ensures (forall c :: c in t.channels ==> c in on) ==> PickChannel(t, on) == NONE
  {
    CandidatesExact(t.channels, on);
    var c := Candidates(t.channels, on);
    if c != [] {
      assert c[t.draw % |c|] in c;
      assert c[0] in c;
    }
  }

  /** And each such channel is picked for some draw. */
  lemma AnyMayBePicked(t: Turn, on: set<string>, channel: string) returns (draw: nat)
    requires channel in t.channels && channel !in on
    ensures draw < |t.channels| && PickChannel(t.(draw := draw), on) == channel
  {
    CandidatesExact(t.channels, on);
    CandidatesFew(t.channels, on);
    var c := Candidates(t.channels, on);
    draw :| 0 <= draw < |c| && c[draw] == channel;
    SmallMod(draw, |c|);
  }

  lemma {:induction false} CandidatesFew(list: seq<string>, on: set<string>)
    ensures |Candidates(list, on)| <= |list|
  {
    if list != [] { CandidatesFew(list[..|list| - 1], on); }
  }

  lemma SmallMod(x: nat, n: nat)
    requires x < n
    ensures x % n == x
  {
  }

  /** Alone, the runner parts what it joined and leaves the membership as it found it. */
  lemma AloneTurn(s: State, t: Turn)
    requires OnlyRunner(t) && s.tracked == NONE
    ensures TurnStep(s, t).on == s.on && Forgets(TurnStep(s, t).trace) == Forgets(s.trace)
  {
    assert Changed(s.on, NOTHING) == s.on;
    var channel := PickChannel(t, s.on);
    if !s.finished && t.off && channel != NONE {
      PickedIsEligible(t, s.on);
      var joined := Joining(s, channel);
      assert Changed(joined.on, NOTHING) == joined.on;
      assert joined.on - {channel} == s.on;
      CountsAppend(s.trace, Join(channel));
      CountsAppend(joined.trace, Part(channel));
    }
  }

  /** If the bot stays connected and only the runner changes its membership, JOINs and PARTs are
      equal in number and the bot ends on the channels it began on. */
  lemma {:induction false} JoinsEqualParts(on: set<string>, turns: seq<Turn>)
    requires forall i :: 0 <= i < |turns| ==> OnlyRunner(turns[i])
    ensures var s := RunTurns(on, turns); Joins(s.trace) == Parts(s.trace) && s.on == on
  {
    NothingForgotten(on, turns);
    JoinsAccounted(on, turns);
  }

  lemma {:induction false} NothingForgotten(on: set<string>, turns: seq<Turn>)
    requires forall i :: 0 <= i < |turns| ==> OnlyRunner(turns[i])
    ensures var s := RunTurns(on, turns); Forgets(s.trace) == 0 && s.on == on
  {
    if turns != [] {
      NothingForgotten(on, turns[..|turns| - 1]);
      RunDisciplined(on, turns[..|turns| - 1]);
      AloneTurn(RunTurns(on, turns[..|turns| - 1]), turns[|turns| - 1]);
    }
  }

  // ------------------------------------------------------------ what a turn does

  /** The turn joins a channel: the idle sleep ran out, the bot is connected, and some listed channel
      is not one it is on. */
  predicate JoinsIn(s: State, t: Turn) {
    && !s.finished && t.off && t.connectedAtJoin
    && exists c :: c in t.channels && c !in Changed(s.on, t.atPick)
  }

  /** A turn of a runner that tracks nothing adds exactly these acts: a JOIN exactly if it can, of a
      listed channel that the bot is not on, and then, before it idles again, a PART of that channel
      if the bot is still connected and on it, and nothing otherwise.  The runner is finished
      exactly if stop cut one of the two sleeps short. */
  lemma TurnExactly(s: State, t: Turn) returns (c: string)
    requires s.tracked == NONE && NONE !in t.channels
    ensures TurnStep(s, t).finished <==> s.finished || !t.off || (JoinsIn(s, t) && !t.stay)
    ensures !JoinsIn(s, t) ==> TurnStep(s, t).trace == s.trace
    ensures JoinsIn(s, t) ==>
      && c in t.channels && c !in Changed(s.on, t.atPick)
      && var still := c in Changed(Changed(s.on, t.atPick) + {c}, t.atPart);
      TurnStep(s, t).trace == s.trace + [Join(c)] + [if t.connectedAtPart && still then Part(c) else Forget(c)]
  {
    var on := Changed(s.on, t.atPick);
    CandidatesExact(t.channels, on);
    PickedIsEligible(t, on);
    c := PickChannel(t, on);
    if JoinsIn(s, t) {
      assert c in t.channels && c != NONE;
    }
  }
}
