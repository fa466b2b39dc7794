/** internal/dcc/dcc_tunnel.go: what one call of Start, Stop or broadcast has done by the time it
    is over, whatever the other threads of the run do meanwhile. */
module PartyCalls {
  import opened Text
  import opened PartyLine

  /** One move of a thread: where it stood, and what was shared then. */
  datatype Move = Move(sh: Shared, pc: Pc)

  /** The moves of thread i in the run. */
  function Moves(p: Policy, acts: seq<Action>, i: Thread): seq<Move> {
    if acts == [] then []
    else Moves(p, acts[..|acts| - 1], i) + MoveOf(Exec(p, acts[..|acts| - 1]), acts[|acts| - 1], i)
  }

  function MoveOf(s: Option<State>, a: Action, i: Thread): seq<Move> {
    if s.Some? && a.Run? && a.i == i && i in s.value.threads then [Move(s.value.sh, s.value.threads[i])] else []
  }

  // ------------------------------------------------------------ the records of a call

  /** The move in which the recipients were collected. */
  function Collected(moves: seq<Move>): Option<Move> {
    if moves == [] then None
    else
      var m := moves[|moves| - 1];
      if m.pc.CollectHold? then Some(m) else Collected(moves[..|moves| - 1])
  }

  /** The tunnels locked to send them the message, in order. */
  function SentTo(moves: seq<Move>): seq<Tunnel> {
    if moves == [] then []
    else
      var m := moves[|moves| - 1];
      SentTo(moves[..|moves| - 1]) + if m.pc.SendHold? then [m.pc.u] else []
  }

  /** What was added to the log. */
  function Logs(moves: seq<Move>): seq<Message> {
    if moves == [] then []
    else
      var m := moves[|moves| - 1];
      Logs(moves[..|moves| - 1]) + if m.pc.LogHold? then [Message(m.pc.c.sender, m.pc.c.text)] else []
  }

  /** The move in which the history was copied. */
  function Copied(moves: seq<Move>): Option<Move> {
    if moves == [] then None
    else
      var m := moves[|moves| - 1];
      if m.pc.HistHold? then Some(m) else Copied(moves[..|moves| - 1])
  }

  /** The messages of the history that were sent to the tunnel itself, in order. */
  function Shown(moves: seq<Move>): seq<Message> {
    if moves == [] then []
    else
      var m := moves[|moves| - 1];
      Shown(moves[..|moves| - 1]) + if m.pc.HistSend? && m.pc.rest != [] then [m.pc.rest[0]] else []
  }

  /** The move in which Stop took its tunnel out of the map, if it was there. */
  function Removed(moves: seq<Move>): Option<Move> {
    if moves == [] then None
    else
      var m := moves[|moves| - 1];
      if m.pc.RemoveHold? then Some(m) else Removed(moves[..|moves| - 1])
  }

  lemma MovesSnoc(moves: seq<Move>, m: Move)
    ensures Collected(moves + [m]) == if m.pc.CollectHold? then Some(m) else Collected(moves)
    ensures SentTo(moves + [m]) == SentTo(moves) + if m.pc.SendHold? then [m.pc.u] else []
    ensures Logs(moves + [m]) == Logs(moves) + if m.pc.LogHold? then [Message(m.pc.c.sender, m.pc.c.text)] else []
  {
    assert (moves + [m])[..|moves|] == moves;
  }

  lemma MovesSnocStart(moves: seq<Move>, m: Move)
    ensures Copied(moves + [m]) == if m.pc.HistHold? then Some(m) else Copied(moves)
    ensures Removed(moves + [m]) == if m.pc.RemoveHold? then Some(m) else Removed(moves)
    ensures Shown(moves + [m])
         == Shown(moves) + if m.pc.HistSend? && m.pc.rest != [] then [m.pc.rest[0]] else []
  {
    assert (moves + [m])[..|moves|] == moves;
  }

  // ------------------------------------------------------------ broadcasts

  /** A broadcast after its collection. */
  predicate Casting(pc: Pc) {
    pc.Send? || pc.SendWant? || pc.SendHold? || pc.LogWant? || pc.LogHold?
  }

  predicate Over(pc: Pc) { pc.Finish? || pc.Done? }

  /** Nobody for a line that leaves nobody out; otherwise the one left out exactly if it is in the
      map, and System exactly if it is not. */
  predicate TrueSender(sessions: set<Tunnel>, exclude: Option<Tunnel>, sender: Sender) {
    match exclude
    case None => sender == Nobody
    case Some(t) => (sender == Owner(t) <==> t in sessions) && (sender == System <==> t !in sessions)
  }

  /** The broadcast under way is the one collected then, with its sender as it was then. */
  predicate SameCast(m: Move, c: Cast) {
    && m.pc.CollectHold? && c.own == m.pc.c.own && c.exclude == m.pc.c.exclude && c.text == m.pc.c.text
    && (NeedToLog(c.text) ==> TrueSender(m.sh.sessions, c.exclude, c.sender))
  }

  /** Who is to get the message collected in move m. */
  predicate Recipient(m: Move, u: Tunnel) {
    m.pc.CollectHold? && u in m.sh.sessions && m.pc.c.exclude != Some(u)
  }

  /** Each recipient has been sent the message or is still to be, and not both. */
  ghost predicate SendsExactly(m: Move, sent: seq<Tunnel>, todo: set<Tunnel>) {
    && Distinct(sent)
    && (forall u: Tunnel :: u in sent ==> u !in todo)
    && forall u: Tunnel :: Recipient(m, u) <==> u in sent || u in todo
  }

  /** A line is logged once, when all have been sent it, an announcement never. */
  predicate LogsExactly(m: Move, logs: seq<Message>, over: bool) {
    m.pc.CollectHold? &&
    if over && NeedToLog(m.pc.c.text)
    then |logs| == 1 && logs[0].text == m.pc.c.text && TrueSender(m.sh.sessions, m.pc.c.exclude, logs[0].sender)
    else logs == []
  }

  ghost predicate CastStory(moves: seq<Move>, pc: Pc) {
    match Collected(moves)
    case None => SentTo(moves) == [] && Logs(moves) == [] && !Casting(pc)
    case Some(m) =>
      && (Casting(pc) || Over(pc))
      && (Casting(pc) ==> SameCast(m, pc.c))
      && (pc.LogWant? || pc.LogHold? ==> NeedToLog(m.pc.c.text))
      && (pc.SendWant? || pc.SendHold? ==> pc.u !in pc.todo)
      && SendsExactly(m, SentTo(moves), Waiting(pc))
      && LogsExactly(m, Logs(moves), Over(pc))
  }

  lemma CollectStory(moves: seq<Move>, sh: Shared, pc: Pc, x: Tunnel, sh': Shared, pc': Pc)
    requires CastStory(moves, pc) && pc.CollectHold? && Act(sh, pc, x) == Some((sh', pc'))
    ensures CastStory(moves + [Move(sh, pc)], pc')
  {
    MovesSnoc(moves, Move(sh, pc));
  }

  lemma SendsNext(m: Move, sent: seq<Tunnel>, todo: set<Tunnel>, u: Tunnel)
    requires SendsExactly(m, sent, todo + {u}) && u !in todo
    ensures SendsExactly(m, sent + [u], todo)
  {
    assert u !in sent;
  }

  lemma SentStory(moves: seq<Move>, sh: Shared, pc: Pc, x: Tunnel, sh': Shared, pc': Pc)
    requires CastStory(moves, pc) && pc.SendHold? && Act(sh, pc, x) == Some((sh', pc'))
    ensures CastStory(moves + [Move(sh, pc)], pc')
  {
    MovesSnoc(moves, Move(sh, pc));
    SendsNext(Collected(moves).value, SentTo(moves), pc.todo, pc.u);
  }

  lemma ChooseStory(moves: seq<Move>, sh: Shared, pc: Pc, x: Tunnel, sh': Shared, pc': Pc)
    requires CastStory(moves, pc) && pc.Send? && pc.todo != {} && Act(sh, pc, x) == Some((sh', pc'))
    ensures CastStory(moves + [Move(sh, pc)], pc')
  {
    MovesSnoc(moves, Move(sh, pc));
    assert pc' == SendWant(pc.c, pc.todo - {x}, x) && Waiting(pc') == pc.todo - {x} + {x} == pc.todo;
  }

  lemma AllSentStory(moves: seq<Move>, sh: Shared, pc: Pc, x: Tunnel, sh': Shared, pc': Pc)
    requires CastStory(moves, pc) && pc.Send? && pc.todo == {} && Act(sh, pc, x) == Some((sh', pc'))
    ensures CastStory(moves + [Move(sh, pc)], pc')
  {
    MovesSnoc(moves, Move(sh, pc));
    assert Waiting(pc') == Waiting(pc) == {};
  }

  lemma WantStory(moves: seq<Move>, sh: Shared, pc: Pc, x: Tunnel, sh': Shared, pc': Pc)
    requires CastStory(moves, pc) && pc.SendWant? && Act(sh, pc, x) == Some((sh', pc'))
    ensures CastStory(moves + [Move(sh, pc)], pc')
  {
    MovesSnoc(moves, Move(sh, pc));
    assert Waiting(pc') == Waiting(pc);
  }

  /** Before the collection nothing is sent or logged. */
  lemma EarlyStory(moves: seq<Move>, sh: Shared, pc: Pc, x: Tunnel, sh': Shared, pc': Pc)
    requires CastStory(moves, pc) && !pc.CollectHold? && !Casting(pc) && !Over(pc) && Act(sh, pc, x) == Some((sh', pc'))
    ensures CastStory(moves + [Move(sh, pc)], pc')
  {
    MovesSnoc(moves, Move(sh, pc));
    StaysEarly(sh, pc, x, sh', pc');
  }

  lemma StaysEarly(sh: Shared, pc: Pc, x: Tunnel, sh': Shared, pc': Pc)
    requires Act(sh, pc, x) == Some((sh', pc')) && !pc.CollectHold? && !Casting(pc)
    ensures !Casting(pc')
  {
  }

  lemma LogStory(moves: seq<Move>, sh: Shared, pc: Pc, x: Tunnel, sh': Shared, pc': Pc)
    requires CastStory(moves, pc) && (pc.LogWant? || pc.LogHold?) && Act(sh, pc, x) == Some((sh', pc'))
    ensures CastStory(moves + [Move(sh, pc)], pc')
  {
    MovesSnoc(moves, Move(sh, pc));
    assert Waiting(pc') == Waiting(pc) == {};
  }

  lemma EndStory(moves: seq<Move>, sh: Shared, pc: Pc, x: Tunnel, sh': Shared, pc': Pc)
    requires CastStory(moves, pc) && Over(pc) && Act(sh, pc, x) == Some((sh', pc'))
    ensures CastStory(moves + [Move(sh, pc)], pc')
  {
    MovesSnoc(moves, Move(sh, pc));
    assert pc' == Done && Waiting(pc') == Waiting(pc) == {};
  }

  lemma CastStep(moves: seq<Move>, sh: Shared, pc: Pc, x: Tunnel, sh': Shared, pc': Pc)
    requires CastStory(moves, pc) && Act(sh, pc, x) == Some((sh', pc'))
    ensures CastStory(moves + [Move(sh, pc)], pc')
  {
    if pc.CollectHold? {
      CollectStory(moves, sh, pc, x, sh', pc');
    } else if pc.SendHold? {
      SentStory(moves, sh, pc, x, sh', pc');
    } else if pc.SendWant? {
      WantStory(moves, sh, pc, x, sh', pc');
    } else if pc.Send? && pc.todo != {} {
      ChooseStory(moves, sh, pc, x, sh', pc');
    } else if pc.Send? {
      AllSentStory(moves, sh, pc, x, sh', pc');
    } else if pc.LogWant? || pc.LogHold? {
      LogStory(moves, sh, pc, x, sh', pc');
    } else if Over(pc) {
      EndStory(moves, sh, pc, x, sh', pc');
    } else {
      EarlyStory(moves, sh, pc, x, sh', pc');
    }
  }

  // ------------------------------------------------------------ Start and Stop

  const JOINING := Cast(None, None, "*** joined the party line ***", Nobody)

  /** A Start that has copied the history and not yet shown all of it. */
  predicate Showing(pc: Pc) {
    pc.AddWant? || pc.AddHold? || pc.Hist? || pc.HistSend?
  }

  /** A Start after it has copied the history: it shows all of it, in order, and then announces the
      tunnel to everybody. */
  predicate StartStory(moves: seq<Move>, pc: Pc) {
    match Copied(moves)
    case None => Shown(moves) == [] && !Showing(pc)
    case Some(m) =>
      m.pc.HistHold? &&
      if Showing(pc)
      then && pc.t == m.pc.t && Shown(moves) + pc.rest == m.sh.log
           && (pc.HistSend? ==> pc.rest != []) && Collected(moves).None?
      else Shown(moves) == m.sh.log && Announces(moves, pc, JOINING)
  }

  /** The broadcast is about to be collected, or has been. */
  predicate Announces(moves: seq<Move>, pc: Pc, c: Cast) {
    match Collected(moves)
    case None => pc == CollectWant(c) || pc == CollectHold(c)
    case Some(m) => m.pc == CollectHold(c) && (Casting(pc) || Over(pc))
  }

  /** A Stop after the removal: it announces it to the others exactly if the tunnel was there. */
  predicate StopStory(moves: seq<Move>, pc: Pc) {
    match Removed(moves)
    case None => true
    case Some(m) =>
      m.pc.RemoveHold? &&
      var t := m.pc.t;
      if t in m.sh.sessions
      then Announces(moves, pc, Cast(Some(t), Some(t), "*** left the party line ***", Nobody))
      else Collected(moves).None? && Over(pc)
  }

  predicate Announcing(pc: Pc) {
    Casting(pc) || Over(pc) || pc.CollectWant? || pc.CollectHold?
  }

  /** The order of a call: it copies the history or removes its tunnel, then it broadcasts. */
  predicate OneStory(moves: seq<Move>, pc: Pc) {
    && (Copied(moves).Some? ==> Removed(moves).None?)
    && (Copied(moves).Some? ==> Announcing(pc) || Showing(pc))
    && (Removed(moves).Some? ==> Announcing(pc))
    && (Collected(moves).Some? ==> Casting(pc) || Over(pc))
  }

  lemma OneStep(moves: seq<Move>, sh: Shared, pc: Pc, x: Tunnel, sh': Shared, pc': Pc)
    requires OneStory(moves, pc) && Act(sh, pc, x) == Some((sh', pc'))
    ensures OneStory(moves + [Move(sh, pc)], pc')
  {
    MovesSnoc(moves, Move(sh, pc));
    MovesSnocStart(moves, Move(sh, pc));
  }

  lemma ShowStep(moves: seq<Move>, sh: Shared, pc: Pc, x: Tunnel, sh': Shared, pc': Pc)
    requires StartStory(moves, pc) && Showing(pc) && Act(sh, pc, x) == Some((sh', pc'))
    ensures StartStory(moves + [Move(sh, pc)], pc')
  {
    MovesSnoc(moves, Move(sh, pc));
    MovesSnocStart(moves, Move(sh, pc));
    if pc.HistSend? && pc.rest != [] {
      assert Shown(moves) + [pc.rest[0]] + pc.rest[1..] == Shown(moves) + pc.rest;
    }
  }

  /** A broadcast that is announced stays so. */
  lemma AnnouncesStep(moves: seq<Move>, sh: Shared, pc: Pc, x: Tunnel, sh': Shared, pc': Pc, c: Cast)
    requires Announces(moves, pc, c) && Act(sh, pc, x) == Some((sh', pc'))
    ensures Announces(moves + [Move(sh, pc)], pc', c)
  {
    MovesSnoc(moves, Move(sh, pc));
  }

  lemma CopyStep(moves: seq<Move>, sh: Shared, pc: Pc, x: Tunnel, sh': Shared, pc': Pc)
    requires StartStory(moves, pc) && OneStory(moves, pc) && Copied(moves).None? && Act(sh, pc, x) == Some((sh', pc'))
    ensures StartStory(moves + [Move(sh, pc)], pc')
  {
    MovesSnocStart(moves, Move(sh, pc));
    if pc.HistHold? {
      MovesSnoc(moves, Move(sh, pc));
      assert pc' == AddWant(pc.t, sh.log) && [] + sh.log == sh.log;
    } else {
      NotShowing(sh, pc, x, sh', pc');
    }
  }

  lemma NotShowing(sh: Shared, pc: Pc, x: Tunnel, sh': Shared, pc': Pc)
    requires Act(sh, pc, x) == Some((sh', pc')) && !Showing(pc) && !pc.HistHold?
    ensures !Showing(pc')
  {
  }

  lemma StartStep(moves: seq<Move>, sh: Shared, pc: Pc, x: Tunnel, sh': Shared, pc': Pc)
    requires StartStory(moves, pc) && OneStory(moves, pc) && Act(sh, pc, x) == Some((sh', pc'))
    ensures StartStory(moves + [Move(sh, pc)], pc')
  {
    if Showing(pc) {
      ShowStep(moves, sh, pc, x, sh', pc');
    } else {
      if Copied(moves).Some? {
        MovesSnocStart(moves, Move(sh, pc));
        AnnouncesStep(moves, sh, pc, x, sh', pc', JOINING);
      } else {
        CopyStep(moves, sh, pc, x, sh', pc');
      }
    }
  }

  lemma StopStep(moves: seq<Move>, sh: Shared, pc: Pc, x: Tunnel, sh': Shared, pc': Pc)
    requires StopStory(moves, pc) && OneStory(moves, pc) && Act(sh, pc, x) == Some((sh', pc'))
    ensures StopStory(moves + [Move(sh, pc)], pc')
  {
    MovesSnocStart(moves, Move(sh, pc));
    if Removed(moves).Some? && Removed(moves).value.pc.t in Removed(moves).value.sh.sessions {
      var t := Removed(moves).value.pc.t;
      AnnouncesStep(moves, sh, pc, x, sh', pc', Leave(t));
    } else {
      MovesSnoc(moves, Move(sh, pc));
    }
  }

  // ------------------------------------------------------------ whole runs

  ghost predicate Story(moves: seq<Move>, pc: Pc) {
    CastStory(moves, pc) && OneStory(moves, pc) && StartStory(moves, pc) && StopStory(moves, pc)
  }

  lemma StoryMove(p: Policy, acts: seq<Action>, i: Thread)
    requires acts != [] && Exec(p, acts).Some? && acts[|acts| - 1].Run? && acts[|acts| - 1].i == i
    requires Story(Moves(p, acts[..|acts| - 1], i), Exec(p, acts[..|acts| - 1]).value.threads[i])
    ensures Story(Moves(p, acts, i), Exec(p, acts).value.threads[i])
  {
    var front, x := acts[..|acts| - 1], acts[|acts| - 1].x;
    var s, s' := Exec(p, front).value, Exec(p, acts).value;
    RunMoves(p, s, i, x, s');
    CastStep(Moves(p, front, i), s.sh, s.threads[i], x, s'.sh, s'.threads[i]);
    OneStep(Moves(p, front, i), s.sh, s.threads[i], x, s'.sh, s'.threads[i]);
    StartStep(Moves(p, front, i), s.sh, s.threads[i], x, s'.sh, s'.threads[i]);
    StopStep(Moves(p, front, i), s.sh, s.threads[i], x, s'.sh, s'.threads[i]);
  }

  lemma {:induction false} StoryKept(p: Policy, acts: seq<Action>, i: Thread)
    requires Exec(p, acts).Some?
    ensures if i in Exec(p, acts).value.threads then Story(Moves(p, acts, i), Exec(p, acts).value.threads[i])
            else Moves(p, acts, i) == []
  {
    if acts != [] {
      var front, a := acts[..|acts| - 1], acts[|acts| - 1];
      StoryKept(p, front, i);
      if a.Run? && a.i == i {
        StoryMove(p, acts, i);
      } else {
        assert Moves(p, acts, i) == Moves(p, front, i);
      }
    }
  }

  /** When a call is over, its broadcast has been sent to each session that was in the map when the
      recipients were collected, but for the one left out, once, and to nobody else; a line is then
      in the log once, under the name of the one left out exactly if that was in the map at that
      moment, under System otherwise; announcements are not logged. */
  lemma BroadcastDone(p: Policy, acts: seq<Action>, i: Thread)
    requires Exec(p, acts).Some? && i in Exec(p, acts).value.threads && Exec(p, acts).value.threads[i].Done?
    requires Collected(Moves(p, acts, i)).Some?
    ensures var moves := Moves(p, acts, i);
      var m := Collected(moves).value;
      && m.pc.CollectHold? && Distinct(SentTo(moves))
      && (forall u: Tunnel :: u in SentTo(moves) <==> u in m.sh.sessions && m.pc.c.exclude != Some(u))
      && if "***" <= m.pc.c.text then Logs(moves) == []
         else |Logs(moves)| == 1 && Logs(moves)[0].text == m.pc.c.text
              && TrueSender(m.sh.sessions, m.pc.c.exclude, Logs(moves)[0].sender)
  {
    StoryKept(p, acts, i);
    var m := Collected(Moves(p, acts, i)).value;
    forall u: Tunnel ensures u in SentTo(Moves(p, acts, i)) <==> Recipient(m, u) {}
  }

  /** When a Start that took effect is over, it has shown the tunnel the whole log as it was when it
      was copied, in order, and announced the tunnel; its broadcast leaves nobody out. */
  lemma StartDone(p: Policy, acts: seq<Action>, i: Thread)
    requires Exec(p, acts).Some? && i in Exec(p, acts).value.threads && Exec(p, acts).value.threads[i].Done?
    requires Copied(Moves(p, acts, i)).Some?
    ensures var moves := Moves(p, acts, i);
      && Shown(moves) == Copied(moves).value.sh.log
      && Collected(moves).Some? && Collected(moves).value.pc == CollectHold(JOINING)
  {
    StoryKept(p, acts, i);
  }

  /** When a Stop is over, it has announced its tunnel to the others exactly if the tunnel was in the
      map when it was to be removed. */
  lemma StopDone(p: Policy, acts: seq<Action>, i: Thread)
    requires Exec(p, acts).Some? && i in Exec(p, acts).value.threads && Exec(p, acts).value.threads[i].Done?
    requires Removed(Moves(p, acts, i)).Some?
    ensures var moves := Moves(p, acts, i);
      var m := Removed(moves).value;
      && m.pc.RemoveHold?
      && (Collected(moves).Some? <==> m.pc.t in m.sh.sessions)
      && (Collected(moves).Some? ==> var c := Collected(moves).value.pc;
            c.CollectHold? && c.c.exclude == Some(m.pc.t) && c.c.text == "*** left the party line ***")
  {
    StoryKept(p, acts, i);
  }

  // ------------------------------------------------------------ the log

  /** The message is logged by some thread of the run. */
  ghost predicate LoggedBySome(p: Policy, acts: seq<Action>, m: Message) {
    exists i :: m in Logs(Moves(p, acts, i))
  }

  lemma {:induction false} LogsOfThreads(p: Policy, acts: seq<Action>)
    requires Exec(p, acts).Some?
    ensures forall m :: m in Exec(p, acts).value.sh.logged <==> LoggedBySome(p, acts, m)
  {
    if acts == [] {
      assert forall i :: Logs(Moves(p, acts, i)) == [];
    } else {
      var front, a := acts[..|acts| - 1], acts[|acts| - 1];
      LogsOfThreads(p, front);
      forall m ensures m in Exec(p, acts).value.sh.logged <==> LoggedBySome(p, acts, m) {
        OneMoreLog(p, acts, m);
      }
    }
  }

  lemma LoggedStep(sh: Shared, pc: Pc, x: Tunnel, sh': Shared, pc': Pc)
    requires Act(sh, pc, x) == Some((sh', pc'))
    ensures sh'.logged == sh.logged + if pc.LogHold? then [Message(pc.c.sender, pc.c.text)] else []
  {
  }

  /** What one step adds to the log is what it adds to its thread's record. */
  lemma LoggedMove(p: Policy, acts: seq<Action>)
    requires acts != [] && Exec(p, acts).Some? && acts[|acts| - 1].Run?
    ensures var front, i := acts[..|acts| - 1], acts[|acts| - 1].i;
      var s, s' := Exec(p, front).value, Exec(p, acts).value;
      i in s.threads &&
      var more := if s.threads[i].LogHold? then [Message(s.threads[i].c.sender, s.threads[i].c.text)] else [];
      s'.sh.logged == s.sh.logged + more && Logs(Moves(p, acts, i)) == Logs(Moves(p, front, i)) + more
  {
    var front, a := acts[..|acts| - 1], acts[|acts| - 1];
    var s, s' := Exec(p, front).value, Exec(p, acts).value;
    RunMoves(p, s, a.i, a.x, s');
    LoggedStep(s.sh, s.threads[a.i], a.x, s'.sh, s'.threads[a.i]);
    MovesSnoc(Moves(p, front, a.i), Move(s.sh, s.threads[a.i]));
  }

  lemma OtherMoves(p: Policy, acts: seq<Action>, i: Thread)
    requires acts != [] && Exec(p, acts).Some?
    requires acts[|acts| - 1].Spawn? || acts[|acts| - 1].i != i
    ensures Moves(p, acts, i) == Moves(p, acts[..|acts| - 1], i)
  {
  }

  /** What was logged by some thread stays so, ... */
  lemma LogKept(p: Policy, acts: seq<Action>, m: Message)
    requires acts != [] && Exec(p, acts).Some? && LoggedBySome(p, acts[..|acts| - 1], m)
    ensures LoggedBySome(p, acts, m)
  {
    var front, a := acts[..|acts| - 1], acts[|acts| - 1];
    var i :| m in Logs(Moves(p, front, i));
    if a.Run? && a.i == i { LoggedMove(p, acts); } else { OtherMoves(p, acts, i); }
    assert m in Logs(Moves(p, acts, i));
  }

  /** ... and what is new is the mover's. */
  lemma LogFound(p: Policy, acts: seq<Action>, m: Message)
    requires acts != [] && Exec(p, acts).Some? && LoggedBySome(p, acts, m)
    requires LoggedBySome(p, acts[..|acts| - 1], m) ==> m in Exec(p, acts[..|acts| - 1]).value.sh.logged
    ensures LoggedBySome(p, acts[..|acts| - 1], m) || (acts[|acts| - 1].Run? && m in Exec(p, acts).value.sh.logged)
  {
    var front, a := acts[..|acts| - 1], acts[|acts| - 1];
    var i :| m in Logs(Moves(p, acts, i));
    if a.Run? && a.i == i {
      LoggedMove(p, acts);
      if m in Logs(Moves(p, front, i)) { assert LoggedBySome(p, front, m); }
    } else {
      OtherMoves(p, acts, i);
      assert m in Logs(Moves(p, front, i));
    }
  }

  /** The log only grows, by what the mover logs. */
  lemma LoggedGrows(p: Policy, acts: seq<Action>, m: Message)
    requires acts != [] && Exec(p, acts).Some?
    ensures m in Exec(p, acts[..|acts| - 1]).value.sh.logged ==> m in Exec(p, acts).value.sh.logged
    ensures m in Exec(p, acts).value.sh.logged ==>
      m in Exec(p, acts[..|acts| - 1]).value.sh.logged || LoggedBySome(p, acts, m)
  {
    var a := acts[|acts| - 1];
    if a.Run? {
      LoggedMove(p, acts);
      if m in Logs(Moves(p, acts, a.i)) { assert LoggedBySome(p, acts, m); }
    }
  }

  lemma OneMoreLog(p: Policy, acts: seq<Action>, m: Message)
    requires acts != [] && Exec(p, acts).Some?
    requires m in Exec(p, acts[..|acts| - 1]).value.sh.logged <==> LoggedBySome(p, acts[..|acts| - 1], m)
    ensures m in Exec(p, acts).value.sh.logged <==> LoggedBySome(p, acts, m)
  {
    LoggedGrows(p, acts, m);
    if LoggedBySome(p, acts[..|acts| - 1], m) { LogKept(p, acts, m); }
    if LoggedBySome(p, acts, m) { LogFound(p, acts, m); }
  }

  lemma LogIsTrue(moves: seq<Move>, pc: Pc, message: Message)
    requires (moves == [] || CastStory(moves, pc)) && message in Logs(moves)
    ensures Collected(moves).Some? && Collected(moves).value.pc.CollectHold?
    ensures var m := Collected(moves).value;
      message.text == m.pc.c.text && TrueSender(m.sh.sessions, m.pc.c.exclude, message.sender)
  {
  }

  /** In every run, whoever is still under way: each logged message is the line of a broadcast and
      carries the owner of the session that this left out exactly if that session was in the map when
      the recipients were collected, System exactly if it was not. */
  lemma SendersTrue(p: Policy, acts: seq<Action>, k: nat) returns (i: Thread)
    requires Exec(p, acts).Some? && k < |Exec(p, acts).value.sh.logged|
    ensures var message, m := Exec(p, acts).value.sh.logged[k], Collected(Moves(p, acts, i));
      && m.Some? && m.value.pc.CollectHold? && message.text == m.value.pc.c.text
      && match m.value.pc.c.exclude
         case None => message.sender == Nobody
         case Some(t) => (message.sender == Owner(t) <==> t in m.value.sh.sessions)
                         && (message.sender == System <==> t !in m.value.sh.sessions)
  {
    var message := Exec(p, acts).value.sh.logged[k];
    LogsOfThreads(p, acts);
    assert LoggedBySome(p, acts, message);
    i :| message in Logs(Moves(p, acts, i));
    StoryKept(p, acts, i);
    var threads := Exec(p, acts).value.threads;
    LogIsTrue(Moves(p, acts, i), if i in threads then threads[i] else Done, message);
  }
}
