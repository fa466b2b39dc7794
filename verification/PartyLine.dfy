/** internal/dcc/dcc_tunnel.go: the DCC party line, as threads that interleave at
    every lock operation.  The locks are one mutex per tunnel and the party line's
    readers-writer mutex; who holds a lock is read off the program counters. */
module PartyLine {
  import opened Text

  /** A tunnel, identified with its session id. */
  type Tunnel = nat
  type Thread = nat

  /** Who a logged line is attributed to. */
  datatype Sender = Nobody | System | Owner(t: Tunnel)

  datatype Message = Message(sender: Sender, text: string)

  /** One call of broadcast: the tunnel whose mutex the caller keeps (Stop does), the session left
      out, the text, and the sender found while the recipients were collected. */
  datatype Cast = Cast(own: Option<Tunnel>, exclude: Option<Tunnel>, text: string, sender: Sender)

  /** Where a thread stands.  `...Want` is blocked on a lock, `...Hold` has it.  `rest` is the
      history a joining tunnel is still to be shown. */
  datatype Pc =
    | StartWant(t: Tunnel) | StartHold(t: Tunnel)
    | HistWant(t: Tunnel) | HistHold(t: Tunnel)
    | AddWant(t: Tunnel, rest: seq<Message>) | AddHold(t: Tunnel, rest: seq<Message>)
    | Hist(t: Tunnel, rest: seq<Message>) | HistSend(t: Tunnel, rest: seq<Message>)
    | StopWant(t: Tunnel) | StopHold(t: Tunnel)
    | RemoveWant(t: Tunnel) | RemoveHold(t: Tunnel)
    | CollectWant(c: Cast) | CollectHold(c: Cast)
    | Send(c: Cast, todo: set<Tunnel>)
    | SendWant(c: Cast, todo: set<Tunnel>, u: Tunnel) | SendHold(c: Cast, todo: set<Tunnel>, u: Tunnel)
    | LogWant(c: Cast) | LogHold(c: Cast)
    | Finish(t: Tunnel)
    | Done

  /** What the threads share.  `spawned`, `starts`, `stops`, `removedAt`, `clock` and
      `logged` are history. */
  datatype Shared = Shared(
    active: set<Tunnel>,
    sessions: set<Tunnel>,
    log: seq<Message>,
    spawned: set<Tunnel>,
    starts: map<Tunnel, nat>,
    stops: map<Tunnel, nat>,
    removedAt: map<Tunnel, nat>,
    clock: nat,
    logged: seq<Message>)

  datatype State = State(threads: map<Thread, Pc>, sh: Shared)

  const INITIAL := State(map[], Shared({}, {}, [], {}, map[], map[], map[], 0, []))
  const MAX_LOG := 100
  const JOINED := "*** joined the party line ***"
  const LEFT := "*** left the party line ***"

  // ------------------------------------------------------------------- locks

  predicate HoldsTunnel(pc: Pc, t: Tunnel) {
    match pc
    case StartHold(u) => u == t
    case HistSend(u, _) => u == t
    case StopHold(u) => u == t
    case SendHold(c, _, u) => u == t || c.own == Some(t)
    case _ => Stopping(pc, t)
  }

  /** Inside Stop, after `active` has been cleared and before the mutex is released. */
  predicate Stopping(pc: Pc, t: Tunnel) {
    match pc
    case RemoveWant(u) => u == t
    case RemoveHold(u) => u == t
    case Finish(u) => u == t
    case CollectWant(c) => c.own == Some(t)
    case CollectHold(c) => c.own == Some(t)
    case Send(c, _) => c.own == Some(t)
    case SendWant(c, _, _) => c.own == Some(t)
    case SendHold(c, _, _) => c.own == Some(t)
    case LogWant(c) => c.own == Some(t)
    case LogHold(c) => c.own == Some(t)
    case _ => false
  }

  predicate HoldsRead(pc: Pc) { pc.HistHold? || pc.CollectHold? }
  predicate HoldsWrite(pc: Pc) { pc.AddHold? || pc.RemoveHold? || pc.LogHold? }
  predicate WantsRead(pc: Pc) { pc.HistWant? || pc.CollectWant? }
  predicate WantsWrite(pc: Pc) { pc.AddWant? || pc.RemoveWant? || pc.LogWant? }

  /** The tunnel mutex a thread is about to lock, if it is about to lock one. */
  function WantsTunnel(pc: Pc): Option<Tunnel> {
    match pc
    case StartWant(t) => Some(t)
    case Hist(t, rest) => if rest != [] then Some(t) else None
    case StopWant(t) => Some(t)
    case SendWant(_, _, u) => Some(u)
    case _ => None
  }

  predicate FreeTunnel(s: State, t: Tunnel) {
    forall i :: i in s.threads ==> !HoldsTunnel(s.threads[i], t)
  }
  predicate FreeForReader(s: State) {
    forall i :: i in s.threads ==> !HoldsWrite(s.threads[i])
  }
  predicate FreeForWriter(s: State) {
    forall i :: i in s.threads ==> !HoldsWrite(s.threads[i]) && !HoldsRead(s.threads[i])
  }

  // ------------------------------------------------------------------- steps

  function Count(m: map<Tunnel, nat>, t: Tunnel): nat {
    if t in m then m[t] else 0
  }

  /** addToMessageLog */
  function AddToLog(log: seq<Message>, m: Message): seq<Message> {
    (if |log| >= MAX_LOG then log[1..] else log) + [m]
  }

  /** The recipients that broadcast collects under the read lock. */
  function Recipients(sessions: set<Tunnel>, exclude: Option<Tunnel>): set<Tunnel> {
    if exclude.Some? then sessions - {exclude.value} else sessions
  }

  predicate NeedToLog(text: string) { !("***" <= text) }

  /** The sender, found under the same lock: the excluded session's, if it is still there. */
  function SenderOf(sessions: set<Tunnel>, exclude: Option<Tunnel>, text: string): Sender {
    if !NeedToLog(text) || exclude.None? then Nobody
    else if exclude.value in sessions then Owner(exclude.value) else System
  }

  function AfterCast(c: Cast): Pc {
    if c.own.Some? then Finish(c.own.value) else Done
  }

  /** The cast by which a tunnel announces that it leaves. */
  function Leave(t: Tunnel): Cast {
    Cast(Some(t), Some(t), LEFT, Nobody)
  }

  /** The lock, if any, that the thread asks for next is free. */
  predicate Ready(s: State, pc: Pc) {
    && (WantsTunnel(pc).Some? ==> FreeTunnel(s, WantsTunnel(pc).value))
    && (WantsRead(pc) ==> FreeForReader(s))
    && (WantsWrite(pc) ==> FreeForWriter(s))
  }

  /** What a thread at `pc` does between two lock operations; x is the recipient it takes
      next where it has a choice (map iteration order).  None: finished, or x is no choice. */
  function Act(sh: Shared, pc: Pc, x: Tunnel): Option<(Shared, Pc)> {
    match pc
    case StartWant(t) => Some((sh, StartHold(t)))
    case StartHold(t) =>
      if t in sh.active then Some((sh, Done))
      else Some((sh.(active := sh.active + {t}, starts := sh.starts[t := Count(sh.starts, t) + 1]), HistWant(t)))
    case HistWant(t) => Some((sh, HistHold(t)))
    case HistHold(t) => Some((sh, AddWant(t, sh.log)))
    case AddWant(t, rest) => Some((sh, AddHold(t, rest)))
    case AddHold(t, rest) => Some((sh.(sessions := sh.sessions + {t}), Hist(t, rest)))
    case Hist(t, rest) =>
      Some((sh, if rest == [] then CollectWant(Cast(None, None, JOINED, Nobody)) else HistSend(t, rest)))
    case HistSend(t, rest) => Some((sh, Hist(t, if rest == [] then [] else rest[1..])))
    case StopWant(t) => Some((sh, StopHold(t)))
    case StopHold(t) =>
      if t !in sh.active then Some((sh, Done))
      else Some((sh.(active := sh.active - {t}), RemoveWant(t)))
    case RemoveWant(t) => Some((sh, RemoveHold(t)))
    case RemoveHold(t) =>
      if t in sh.sessions then
        Some((sh.(sessions := sh.sessions - {t}, removedAt := sh.removedAt[t := sh.clock], clock := sh.clock + 1),
              CollectWant(Leave(t))))
      else Some((sh, Finish(t)))
    case CollectWant(c) => Some((sh, CollectHold(c)))
    case CollectHold(c) =>
      Some((sh, Send(c.(sender := SenderOf(sh.sessions, c.exclude, c.text)), Recipients(sh.sessions, c.exclude))))
    case Send(c, todo) =>
      if todo == {} then Some((sh, if NeedToLog(c.text) then LogWant(c) else AfterCast(c)))
      else if x in todo then Some((sh, SendWant(c, todo - {x}, x))) else None
    case SendWant(c, todo, u) => Some((sh, SendHold(c, todo, u)))
    case SendHold(c, todo, u) => Some((sh, Send(c, todo)))
    case LogWant(c) => Some((sh, LogHold(c)))
    case LogHold(c) =>
      var m := Message(c.sender, c.text);
      Some((sh.(log := AddToLog(sh.log, m), logged := sh.logged + [m]), AfterCast(c)))
    case Finish(t) => Some((sh.(stops := sh.stops[t := Count(sh.stops, t) + 1]), Done))
    case Done => None
  }

  datatype Action = Spawn(i: Thread, pc: Pc) | Run(i: Thread, x: Tunnel)

  /** What callers may do.  `restarts`: Start may be called again on a tunnel (bot.go makes a new
      tunnel for every Start).  `overtaking`: Stop may take a tunnel's mutex between its Start's
      setting `active` and the insertion into the session map (bot.go publishes the tunnel before
      it starts it, so it may). */
  datatype Policy = Policy(restarts: bool, overtaking: bool)

  /** The calls from outside: Start, Stop and a typed line. */
  predicate MaySpawn(p: Policy, s: State, i: Thread, pc: Pc) {
    i !in s.threads &&
    match pc
    case StartWant(t) => p.restarts || t !in s.sh.spawned
    case StopWant(t) => true
    case CollectWant(c) => c.own.None? && c.sender.Nobody?
    case _ => false
  }

  /** Between setting `active` and the insertion into the session map. */
  predicate Entering(pc: Pc, t: Tunnel) {
    match pc
    case HistWant(u) => u == t
    case HistHold(u) => u == t
    case AddWant(u, _) => u == t
    case AddHold(u, _) => u == t
    case _ => false
  }

  predicate SomeEntering(s: State, t: Tunnel) {
    exists j :: j in s.threads && Entering(s.threads[j], t)
  }

  predicate Overtakes(s: State, pc: Pc) {
    pc.StopWant? && SomeEntering(s, pc.t)
  }

  function Next(p: Policy, s: State, a: Action): Option<State> {
    match a
    case Spawn(i, pc) =>
      if MaySpawn(p, s, i, pc) then
        var sh := if pc.StartWant? then s.sh.(spawned := s.sh.spawned + {pc.t}) else s.sh;
        Some(State(s.threads[i := pc], sh))
      else None
    case Run(i, x) =>
      if i in s.threads && Ready(s, s.threads[i]) && (p.overtaking || !Overtakes(s, s.threads[i])) then
        match Act(s.sh, s.threads[i], x)
        case None => None
        case Some((sh, pc)) => Some(State(s.threads[i := pc], sh))
      else None
  }

  /** The state after a list of actions, if each is possible. */
  function Exec(p: Policy, acts: seq<Action>): Option<State> {
    if acts == [] then Some(INITIAL)
    else match Exec(p, acts[..|acts| - 1])
      case None => None
      case Some(s) => Next(p, s, acts[|acts| - 1])
  }

  /** Thread i has moved from s to s'. */
  predicate Moved(s: State, i: Thread, x: Tunnel, s': State) {
    && i in s.threads && i in s'.threads && Ready(s, s.threads[i])
    && Act(s.sh, s.threads[i], x) == Some((s'.sh, s'.threads[i]))
    && s'.threads == s.threads[i := s'.threads[i]]
  }

  lemma RunMoves(p: Policy, s: State, i: Thread, x: Tunnel, s': State)
    requires Next(p, s, Run(i, x)) == Some(s')
    ensures Moved(s, i, x, s') && (p.overtaking || !Overtakes(s, s.threads[i]))
  {
  }

  // ------------------------------------------------------------- deadlock

  /** A thread at p cannot go on before one at q does.  A reader also waits for a pending
      writer (Go's RWMutex lets no reader overtake one). */
  predicate Blocks(p: Pc, q: Pc) {
    || (WantsTunnel(p).Some? && HoldsTunnel(q, WantsTunnel(p).value))
    || (WantsRead(p) && (HoldsWrite(q) || WantsWrite(q)))
    || (WantsWrite(p) && (HoldsWrite(q) || HoldsRead(q)))
  }

  predicate BlockedBy(s: State, i: Thread, j: Thread)
    requires i in s.threads && j in s.threads
  {
    Blocks(s.threads[i], s.threads[j])
  }

  ghost predicate BlockedWithin(s: State, d: set<Thread>, i: Thread)
    requires i in d && d <= s.threads.Keys
  {
    exists j :: j in d && BlockedBy(s, i, j)
  }

  /** A set of threads each of which waits for another one of them. */
  ghost predicate Deadlock(s: State, d: set<Thread>) {
    d != {} && d <= s.threads.Keys &&
    forall i {:trigger BlockedWithin(s, d, i)} :: i in d ==> BlockedWithin(s, d, i)
  }

  // ------------------------------------------------------------- mutual exclusion

  ghost predicate Mutex(s: State) {
    forall i, j, t: Tunnel ::
      i in s.threads && j in s.threads && HoldsTunnel(s.threads[i], t) && HoldsTunnel(s.threads[j], t) ==> i == j
  }

  /** A lock is only gained by a thread that asked for it. */
  lemma GainsWhatItWants(sh: Shared, pc: Pc, x: Tunnel, sh': Shared, pc': Pc, t: Tunnel)
    requires Act(sh, pc, x) == Some((sh', pc')) && HoldsTunnel(pc', t)
    ensures HoldsTunnel(pc, t) || WantsTunnel(pc) == Some(t)
  {
  }

  lemma MutexRun(s: State, i: Thread, x: Tunnel, s': State)
    requires Mutex(s) && Moved(s, i, x, s')
    ensures Mutex(s')
  {
    forall t: Tunnel | HoldsTunnel(s'.threads[i], t) ensures HoldsTunnel(s.threads[i], t) || FreeTunnel(s, t) {
      GainsWhatItWants(s.sh, s.threads[i], x, s'.sh, s'.threads[i], t);
    }
  }

  lemma MutexSpawn(p: Policy, s: State, i: Thread, pc: Pc, s': State)
    requires Mutex(s) && Next(p, s, Spawn(i, pc)) == Some(s')
    ensures Mutex(s')
  {
    assert forall t: Tunnel :: !HoldsTunnel(pc, t);
  }

  // ------------------------------------------------------------- starts and onStop

  ghost predicate SomeStopping(s: State, t: Tunnel) {
    exists i :: i in s.threads && Stopping(s.threads[i], t)
  }

  /** Every successful Start of t is paid for by one onStop, now or later. */
  ghost predicate Balanced(s: State, t: Tunnel) {
    Count(s.sh.starts, t)
    == Count(s.sh.stops, t) + (if t in s.sh.active then 1 else 0) + (if SomeStopping(s, t) then 1 else 0)
  }

  ghost predicate Counts(s: State) {
    forall t: Tunnel :: Balanced(s, t)
  }

  /** How a move shifts the balance of starts and onStop calls. */
  function Balance(sh: Shared, pc: Pc, t: Tunnel): int {
    Count(sh.starts, t) - Count(sh.stops, t) - (if t in sh.active then 1 else 0) - (if Stopping(pc, t) then 1 else 0)
  }

  lemma BalanceKept(sh: Shared, pc: Pc, x: Tunnel, sh': Shared, pc': Pc, t: Tunnel)
    requires Act(sh, pc, x) == Some((sh', pc'))
    ensures Balance(sh', pc', t) == Balance(sh, pc, t)
    ensures Stopping(pc', t) ==> HoldsTunnel(pc, t)
  {
  }

  lemma BalancedRun(s: State, i: Thread, x: Tunnel, s': State, t: Tunnel)
    requires Mutex(s) && Balanced(s, t) && Moved(s, i, x, s')
    ensures Balanced(s', t)
  {
    BalanceKept(s.sh, s.threads[i], x, s'.sh, s'.threads[i], t);
    if j :| j in s.threads && j != i && Stopping(s.threads[j], t) {
      assert HoldsTunnel(s.threads[j], t);
      assert s'.threads[j] == s.threads[j];
    } else if Stopping(s.threads[i], t) {
      assert SomeStopping(s, t);
    }
    if Stopping(s'.threads[i], t) { assert SomeStopping(s', t); }
  }

  lemma BalancedSpawn(p: Policy, s: State, i: Thread, pc: Pc, s': State, t: Tunnel)
    requires Balanced(s, t) && Next(p, s, Spawn(i, pc)) == Some(s')
    ensures Balanced(s', t)
  {
    assert !Stopping(pc, t);
    if j :| j in s.threads && Stopping(s.threads[j], t) {
      assert Stopping(s'.threads[j], t);
    }
  }

  // ------------------------------------------------------------- without restarts

  predicate BeforeStarted(pc: Pc, t: Tunnel) {
    match pc
    case StartWant(u) => u == t
    case StartHold(u) => u == t
    case _ => false
  }

  /** On its way from Start to the insertion into the session map. */
  predicate Adding(pc: Pc, t: Tunnel) {
    BeforeStarted(pc, t) || Entering(pc, t)
  }

  /** What a thread that is to add the tunnel relies on. */
  predicate Fresh(sh: Shared, pc: Pc, t: Tunnel) {
    Adding(pc, t) ==>
      t in sh.spawned && t !in sh.sessions && t !in sh.removedAt && (BeforeStarted(pc, t) ==> Count(sh.starts, t) == 0)
  }

  predicate Tidy(sh: Shared, t: Tunnel) {
    && (t in sh.sessions || t in sh.removedAt || Count(sh.starts, t) > 0 ==> t in sh.spawned)
    && (t in sh.removedAt ==> t !in sh.sessions)
    && Count(sh.starts, t) <= 1
  }

  /** Without restarts a tunnel is added at most once, and never after its removal. */
  ghost predicate Once(s: State) {
    && (forall t: Tunnel :: Tidy(s.sh, t))
    && (forall i, t: Tunnel :: i in s.threads ==> Fresh(s.sh, s.threads[i], t))
    && (forall i, j, t: Tunnel ::
          i in s.threads && j in s.threads && Adding(s.threads[i], t) && Adding(s.threads[j], t) ==> i == j)
  }

  /** Only the two steps of Start, the two of Stop and the removal change these fields. */
  lemma OtherStepsKeep(sh: Shared, pc: Pc, x: Tunnel, sh': Shared, pc': Pc)
    requires Act(sh, pc, x) == Some((sh', pc')) && !pc.StartHold? && !pc.AddHold? && !pc.RemoveHold?
    ensures sh'.sessions == sh.sessions && sh'.removedAt == sh.removedAt && sh'.clock == sh.clock
    ensures sh'.starts == sh.starts && sh'.spawned == sh.spawned
  {
  }

  lemma AddingFrom(sh: Shared, pc: Pc, x: Tunnel, sh': Shared, pc': Pc, t: Tunnel)
    requires Act(sh, pc, x) == Some((sh', pc'))
    ensures Adding(pc', t) ==> Adding(pc, t)
    ensures BeforeStarted(pc', t) ==> BeforeStarted(pc, t) && !pc.StartHold?
    ensures Entering(pc', t) ==> Entering(pc, t) || (pc == StartHold(t) && sh'.active == sh.active + {t})
    ensures pc.AddHold? ==> !Adding(pc', t)
  {
  }

  /** The mover's own step, for one tunnel. */
  lemma TidyStep(sh: Shared, pc: Pc, x: Tunnel, sh': Shared, pc': Pc, t: Tunnel)
    requires Act(sh, pc, x) == Some((sh', pc')) && Tidy(sh, t) && Fresh(sh, pc, t)
    ensures Tidy(sh', t) && Fresh(sh', pc', t)
  {
    AddingFrom(sh, pc, x, sh', pc', t);
    if !pc.StartHold? && !pc.AddHold? && !pc.RemoveHold? {
      OtherStepsKeep(sh, pc, x, sh', pc');
    } else if pc == StartHold(t) {
      assert Adding(pc, t) && Count(sh.starts, t) == 0;
    } else if pc.AddHold? && pc.t == t {
      assert Adding(pc, t);
    }
  }

  /** What a thread relies on that is not adding the same tunnel as the mover. */
  lemma FreshElsewhere(sh: Shared, pc: Pc, x: Tunnel, sh': Shared, pc': Pc, q: Pc, t: Tunnel)
    requires Act(sh, pc, x) == Some((sh', pc')) && Tidy(sh, t) && Fresh(sh, q, t)
    requires !Adding(pc, t) || !Adding(q, t)
    ensures Fresh(sh', q, t)
  {
    if !pc.StartHold? && !pc.AddHold? && !pc.RemoveHold? {
      OtherStepsKeep(sh, pc, x, sh', pc');
    }
  }

  lemma OnceRun(s: State, i: Thread, x: Tunnel, s': State)
    requires Once(s) && Moved(s, i, x, s')
    ensures Once(s')
  {
    var pc, pc' := s.threads[i], s'.threads[i];
    forall t: Tunnel
      ensures Tidy(s'.sh, t) && Fresh(s'.sh, pc', t) && (Adding(pc', t) ==> Adding(pc, t))
    {
      assert Tidy(s.sh, t) && Fresh(s.sh, pc, t);
      TidyStep(s.sh, pc, x, s'.sh, pc', t);
      AddingFrom(s.sh, pc, x, s'.sh, pc', t);
    }
    forall j, t: Tunnel | j in s'.threads && j != i ensures Fresh(s'.sh, s'.threads[j], t) {
      assert Tidy(s.sh, t) && Fresh(s.sh, s.threads[j], t);
      FreshElsewhere(s.sh, pc, x, s'.sh, pc', s.threads[j], t);
    }
  }

  lemma OnceSpawn(p: Policy, s: State, i: Thread, pc: Pc, s': State)
    requires Once(s) && !p.restarts && Next(p, s, Spawn(i, pc)) == Some(s')
    ensures Once(s')
  {
    forall t: Tunnel ensures Tidy(s'.sh, t) && (Adding(pc, t) ==> pc == StartWant(t) && t !in s.sh.spawned) {
      assert Tidy(s.sh, t);
    }
    forall j, t: Tunnel | j in s'.threads ensures Fresh(s'.sh, s'.threads[j], t) {
      assert Tidy(s.sh, t);
      if j != i { assert Fresh(s.sh, s.threads[j], t); }
    }
    forall j, t: Tunnel | j in s.threads && Adding(s.threads[j], t) ensures !Adding(pc, t) {
      assert Fresh(s.sh, s.threads[j], t);
    }
  }

  // ------------------------------------------------------------- without overtaking

  /** Stop has the tunnel's mutex. */
  predicate Barring(pc: Pc, t: Tunnel) {
    pc == StopHold(t) || Stopping(pc, t)
  }

  /** ... and has not yet taken it out of the session map. */
  predicate Removing(pc: Pc, t: Tunnel) {
    pc == RemoveWant(t) || pc == RemoveHold(t)
  }

  predicate SomeRemoving(s: State, t: Tunnel) {
    exists j :: j in s.threads && Removing(s.threads[j], t)
  }

  /** While one thread stops the tunnel the other one is not entering it. */
  predicate Apart(p: Pc, q: Pc, t: Tunnel) {
    (Barring(p, t) ==> !Entering(q, t)) && (Barring(q, t) ==> !Entering(p, t))
  }

  /** What the position of a thread says about the tunnel's two flags. */
  predicate Placed(sh: Shared, pc: Pc, t: Tunnel) {
    && (Entering(pc, t) ==> t in sh.active)
    && (Stopping(pc, t) ==> t !in sh.active)
    && (Stopping(pc, t) && !Removing(pc, t) ==> t !in sh.sessions)
  }

  /** A tunnel is in the map exactly while it is active, but for the threads under way. */
  ghost predicate Matched(s: State, t: Tunnel) {
    && (t in s.sh.active ==> t in s.sh.sessions || SomeEntering(s, t))
    && (t in s.sh.sessions ==> t in s.sh.active || SomeRemoving(s, t))
  }

  ghost predicate Paired(s: State) {
    && (forall i, j, t: Tunnel :: i in s.threads && j in s.threads ==> Apart(s.threads[i], s.threads[j], t))
    && (forall i, t: Tunnel :: i in s.threads ==> Placed(s.sh, s.threads[i], t))
    && (forall t: Tunnel :: Matched(s, t))
  }

  lemma BarringHolds(pc: Pc, t: Tunnel)
    ensures Barring(pc, t) ==> HoldsTunnel(pc, t)
    ensures pc == StartHold(t) ==> HoldsTunnel(pc, t)
  {
  }

  lemma BarringFrom(sh: Shared, pc: Pc, x: Tunnel, sh': Shared, pc': Pc, t: Tunnel)
    requires Act(sh, pc, x) == Some((sh', pc'))
    ensures Barring(pc', t) ==> Barring(pc, t) || pc == StopWant(t)
    ensures Stopping(pc', t) ==> Stopping(pc, t) || (pc == StopHold(t) && sh'.active == sh.active - {t})
  {
  }

  lemma RemovingFrom(sh: Shared, pc: Pc, x: Tunnel, sh': Shared, pc': Pc, t: Tunnel)
    requires Act(sh, pc, x) == Some((sh', pc'))
    ensures pc == StopHold(t) && Stopping(pc', t) ==> Removing(pc', t)
    ensures Stopping(pc', t) && !Removing(pc', t) && Removing(pc, t) ==> t !in sh'.sessions
  {
  }

  /** A move keeps two threads apart if the mutex did, and Stop does not overtake. */
  lemma ApartStep(sh: Shared, pc: Pc, x: Tunnel, sh': Shared, pc': Pc, q: Pc, t: Tunnel)
    requires Act(sh, pc, x) == Some((sh', pc')) && Apart(pc, q, t)
    requires HoldsTunnel(pc, t) ==> !HoldsTunnel(q, t)
    requires pc == StopWant(t) ==> !Entering(q, t)
    ensures Apart(pc', q, t)
  {
    AddingFrom(sh, pc, x, sh', pc', t);
    BarringFrom(sh, pc, x, sh', pc', t);
    BarringHolds(pc, t);
    BarringHolds(q, t);
  }

  /** How the flags of one tunnel change. */
  lemma FlagSteps(sh: Shared, pc: Pc, x: Tunnel, sh': Shared, pc': Pc, t: Tunnel)
    requires Act(sh, pc, x) == Some((sh', pc'))
    ensures t in sh'.active <==>
      if pc == StartHold(t) then true else if pc == StopHold(t) then false else t in sh.active
    ensures t in sh'.sessions <==>
      if pc.AddHold? && pc.t == t then true else if pc == RemoveHold(t) then false else t in sh.sessions
  {
  }

  lemma PlacedStep(sh: Shared, pc: Pc, x: Tunnel, sh': Shared, pc': Pc, t: Tunnel)
    requires Act(sh, pc, x) == Some((sh', pc')) && Placed(sh, pc, t) && Apart(pc, pc, t)
    ensures Placed(sh', pc', t)
  {
    AddingFrom(sh, pc, x, sh', pc', t);
    BarringFrom(sh, pc, x, sh', pc', t);
    RemovingFrom(sh, pc, x, sh', pc', t);
    FlagSteps(sh, pc, x, sh', pc', t);
  }

  lemma PlacedElsewhere(sh: Shared, pc: Pc, x: Tunnel, sh': Shared, pc': Pc, q: Pc, t: Tunnel)
    requires Act(sh, pc, x) == Some((sh', pc')) && Placed(sh, q, t) && Apart(pc, q, t)
    requires HoldsTunnel(pc, t) ==> !HoldsTunnel(q, t)
    ensures Placed(sh', q, t)
  {
    FlagSteps(sh, pc, x, sh', pc', t);
    BarringHolds(pc, t);
    BarringHolds(q, t);
  }

  lemma SomeKept(s: State, i: Thread, x: Tunnel, s': State, t: Tunnel)
    requires Moved(s, i, x, s')
    ensures SomeEntering(s, t) ==> SomeEntering(s', t) || Entering(s.threads[i], t)
    ensures SomeRemoving(s, t) ==> SomeRemoving(s', t) || Removing(s.threads[i], t)
    ensures Entering(s'.threads[i], t) ==> SomeEntering(s', t)
    ensures Removing(s'.threads[i], t) ==> SomeRemoving(s', t)
  {
    if j :| j in s.threads && j != i && Entering(s.threads[j], t) {
      assert Entering(s'.threads[j], t);
    }
    if j :| j in s.threads && j != i && Removing(s.threads[j], t) {
      assert Removing(s'.threads[j], t);
    }
  }

  /** Where a thread that enters, removes or changes a flag of the tunnel goes. */
  lemma ThroughFlags(sh: Shared, pc: Pc, x: Tunnel, sh': Shared, pc': Pc, t: Tunnel)
    requires Act(sh, pc, x) == Some((sh', pc'))
    ensures Entering(pc, t) ==> Entering(pc', t) || t in sh'.sessions
    ensures Removing(pc, t) ==> Removing(pc', t) || t !in sh'.sessions
    ensures pc == StartHold(t) && t !in sh.active ==> Entering(pc', t)
    ensures pc == StopHold(t) && t in sh.active ==> Removing(pc', t)
  {
  }

  lemma MatchedRun(s: State, i: Thread, x: Tunnel, s': State, t: Tunnel)
    requires Moved(s, i, x, s') && Matched(s, t)
    requires Placed(s.sh, s.threads[i], t) && Placed(s'.sh, s'.threads[i], t)
    ensures Matched(s', t)
  {
    var pc, pc' := s.threads[i], s'.threads[i];
    SomeKept(s, i, x, s', t);
    FlagSteps(s.sh, pc, x, s'.sh, pc', t);
    ThroughFlags(s.sh, pc, x, s'.sh, pc', t);
    RemovesOnly(s.sh, pc, x, s'.sh, pc', t);
  }

  /** Only a Stop that has cleared `active` removes, only a Start that has set it inserts. */
  lemma RemovesOnly(sh: Shared, pc: Pc, x: Tunnel, sh': Shared, pc': Pc, t: Tunnel)
    requires Act(sh, pc, x) == Some((sh', pc')) && Placed(sh, pc, t)
    ensures pc == RemoveHold(t) ==> t !in sh'.active
    ensures pc.AddHold? && pc.t == t ==> t in sh'.active
  {
  }

  lemma PairedRun(s: State, i: Thread, x: Tunnel, s': State)
    requires Mutex(s) && Paired(s) && Moved(s, i, x, s') && !Overtakes(s, s.threads[i])
    ensures Paired(s')
  {
    var pc, pc' := s.threads[i], s'.threads[i];
    forall t: Tunnel ensures Placed(s'.sh, pc', t) && Matched(s', t) && Apart(pc', pc', t) {
      assert Placed(s.sh, pc, t) && Matched(s, t) && Apart(pc, pc, t);
      PlacedStep(s.sh, pc, x, s'.sh, pc', t);
      MatchedRun(s, i, x, s', t);
      NeverBoth(pc', t);
    }
    forall j, t: Tunnel | j in s'.threads && j != i
      ensures Apart(pc', s'.threads[j], t) && Placed(s'.sh, s'.threads[j], t)
    {
      var q := s.threads[j];
      assert Apart(pc, q, t) && Placed(s.sh, q, t);
      EnteringIsSome(s, j, t);
      ApartStep(s.sh, pc, x, s'.sh, pc', q, t);
      PlacedElsewhere(s.sh, pc, x, s'.sh, pc', q, t);
    }
    forall j, k, t: Tunnel | j in s'.threads && k in s'.threads ensures Apart(s'.threads[j], s'.threads[k], t) {
      if j != i && k != i {
        assert Apart(s.threads[j], s.threads[k], t);
      } else {
        assert Apart(pc', s'.threads[if j == i then k else j], t);
      }
    }
  }

  lemma EnteringIsSome(s: State, j: Thread, t: Tunnel)
    requires j in s.threads
    ensures Entering(s.threads[j], t) ==> SomeEntering(s, t)
  {
  }

  lemma NeverBoth(pc: Pc, t: Tunnel)
    ensures !(Barring(pc, t) && Entering(pc, t))
  {
  }

  lemma PairedSpawn(p: Policy, s: State, i: Thread, pc: Pc, s': State)
    requires Paired(s) && Next(p, s, Spawn(i, pc)) == Some(s')
    ensures Paired(s')
  {
    forall t: Tunnel ensures Matched(s', t) && !Entering(pc, t) && !Barring(pc, t) {
      assert Matched(s, t);
      if j :| j in s.threads && Entering(s.threads[j], t) { assert Entering(s'.threads[j], t); }
      if j :| j in s.threads && Removing(s.threads[j], t) { assert Removing(s'.threads[j], t); }
    }
    forall j, t: Tunnel | j in s'.threads ensures Placed(s'.sh, s'.threads[j], t) {
      if j != i { assert Placed(s.sh, s.threads[j], t); }
    }
    forall j, k, t: Tunnel | j in s'.threads && k in s'.threads ensures Apart(s'.threads[j], s'.threads[k], t) {
      if j != i && k != i { assert Apart(s.threads[j], s.threads[k], t); }
    }
  }

  // ------------------------------------------------------------- the order of removal

  predicate Clocked(sh: Shared, t: Tunnel) {
    t in sh.removedAt ==> sh.removedAt[t] < sh.clock
  }

  /** u is still in the session map or left it after t did. */
  predicate Later(sh: Shared, t: Tunnel, u: Tunnel) {
    u != t && (u in sh.sessions || (u in sh.removedAt && t in sh.removedAt && sh.removedAt[t] < sh.removedAt[u]))
  }

  function Waiting(pc: Pc): set<Tunnel> {
    match pc
    case Send(_, todo) => todo
    case SendWant(_, todo, u) => todo + {u}
    case SendHold(_, todo, u) => todo + {u}
    case _ => {}
  }

  /** The tunnel a stopping broadcaster keeps locked. */
  function OwnOf(pc: Pc): Option<Tunnel> {
    match pc
    case CollectWant(c) => c.own
    case CollectHold(c) => c.own
    case Send(c, _) => c.own
    case SendWant(c, _, _) => c.own
    case SendHold(c, _, _) => c.own
    case _ => None
  }

  predicate ExcludesOwn(pc: Pc) {
    match pc
    case CollectWant(c) => c.own.Some? ==> c.exclude == c.own
    case CollectHold(c) => c.own.Some? ==> c.exclude == c.own
    case _ => true
  }

  ghost predicate OrderedPc(sh: Shared, pc: Pc) {
    && ExcludesOwn(pc)
    && (OwnOf(pc).Some? ==>
          && OwnOf(pc).value in sh.removedAt
          && forall u :: u in Waiting(pc) ==> Later(sh, OwnOf(pc).value, u))
  }

  /** The recipients of a stopping tunnel leave the session map after it: waits follow
      the order of removal. */
  ghost predicate Ordered(s: State) {
    && (forall t: Tunnel :: Clocked(s.sh, t))
    && (forall i :: i in s.threads ==> OrderedPc(s.sh, s.threads[i]))
  }

  /** A tunnel that is announcing that it leaves is not in the map. */
  ghost predicate Barred(s: State) {
    forall i :: i in s.threads && OwnOf(s.threads[i]).Some? ==> OwnOf(s.threads[i]).value !in s.sh.sessions
  }

  lemma OwnIsStopping(pc: Pc)
    ensures OwnOf(pc).Some? ==>
      var t := OwnOf(pc).value; Stopping(pc, t) && !Removing(pc, t) && HoldsTunnel(pc, t) && !pc.RemoveHold?
  {
  }

  lemma BarredWhenOnce(s: State)
    requires Once(s) && Ordered(s)
    ensures Barred(s)
  {
    forall i | i in s.threads && OwnOf(s.threads[i]).Some? ensures OwnOf(s.threads[i]).value !in s.sh.sessions {
      assert OrderedPc(s.sh, s.threads[i]) && Tidy(s.sh, OwnOf(s.threads[i]).value);
    }
  }

  lemma BarredWhenPaired(s: State)
    requires Paired(s)
    ensures Barred(s)
  {
    forall i | i in s.threads && OwnOf(s.threads[i]).Some? ensures OwnOf(s.threads[i]).value !in s.sh.sessions {
      OwnIsStopping(s.threads[i]);
      assert Placed(s.sh, s.threads[i], OwnOf(s.threads[i]).value);
    }
  }

  lemma ClockedStep(sh: Shared, pc: Pc, x: Tunnel, sh': Shared, pc': Pc, t: Tunnel)
    requires Act(sh, pc, x) == Some((sh', pc')) && Clocked(sh, t)
    ensures Clocked(sh', t)
  {
    if !pc.StartHold? && !pc.AddHold? && !pc.RemoveHold? {
      OtherStepsKeep(sh, pc, x, sh', pc');
    }
  }

  /** A recipient stays later, whatever a thread does that is not removing t itself. */
  lemma LaterStep(sh: Shared, pc: Pc, x: Tunnel, sh': Shared, pc': Pc, t: Tunnel, u: Tunnel)
    requires Act(sh, pc, x) == Some((sh', pc')) && Clocked(sh, t)
    requires t in sh.removedAt && Later(sh, t, u) && pc != RemoveHold(t)
    ensures t in sh'.removedAt && Later(sh', t, u)
  {
    if !pc.StartHold? && !pc.AddHold? && !pc.RemoveHold? {
      OtherStepsKeep(sh, pc, x, sh', pc');
    }
  }

  lemma RemovedStays(sh: Shared, pc: Pc, x: Tunnel, sh': Shared, pc': Pc, t: Tunnel)
    requires Act(sh, pc, x) == Some((sh', pc')) && t in sh.removedAt
    ensures t in sh'.removedAt
  {
  }

  lemma OwnStepKeeps(sh: Shared, pc: Pc, x: Tunnel, sh': Shared, pc': Pc)
    requires Act(sh, pc, x) == Some((sh', pc')) && OwnOf(pc').Some? && !pc.RemoveHold?
    ensures sh' == sh && OwnOf(pc) == OwnOf(pc')
    ensures pc.CollectHold? ==> Waiting(pc') == Recipients(sh.sessions, pc.c.exclude)
    ensures !pc.CollectHold? ==> Waiting(pc') <= Waiting(pc)
  {
  }

  lemma OrderedMove(sh: Shared, pc: Pc, x: Tunnel, sh': Shared, pc': Pc)
    requires Act(sh, pc, x) == Some((sh', pc')) && OrderedPc(sh, pc)
    ensures OrderedPc(sh', pc')
  {
    ExcludesStep(sh, pc, x, sh', pc');
    if OwnOf(pc').Some? {
      if pc.RemoveHold? {
        assert pc' == CollectWant(Leave(pc.t));
      } else {
        OwnStepKeeps(sh, pc, x, sh', pc');
      }
    }
  }

  lemma ExcludesStep(sh: Shared, pc: Pc, x: Tunnel, sh': Shared, pc': Pc)
    requires Act(sh, pc, x) == Some((sh', pc')) && ExcludesOwn(pc)
    ensures ExcludesOwn(pc')
  {
  }

  lemma OrderedElsewhere(sh: Shared, pc: Pc, x: Tunnel, sh': Shared, pc': Pc, q: Pc)
    requires Act(sh, pc, x) == Some((sh', pc')) && OrderedPc(sh, q)
    requires OwnOf(q).Some? ==> Clocked(sh, OwnOf(q).value) && pc != RemoveHold(OwnOf(q).value)
    ensures OrderedPc(sh', q)
  {
    if OwnOf(q).Some? {
      var t := OwnOf(q).value;
      RemovedStays(sh, pc, x, sh', pc', t);
      forall u | u in Waiting(q) ensures Later(sh', t, u) {
        LaterStep(sh, pc, x, sh', pc', t, u);
      }
    }
  }

  lemma OrderedRun(s: State, i: Thread, x: Tunnel, s': State)
    requires Mutex(s) && Ordered(s) && Moved(s, i, x, s')
    ensures Ordered(s')
  {
    var pc, pc' := s.threads[i], s'.threads[i];
    forall t: Tunnel ensures Clocked(s'.sh, t) {
      ClockedStep(s.sh, pc, x, s'.sh, pc', t);
    }
    OrderedMove(s.sh, pc, x, s'.sh, pc');
    forall j | j in s'.threads && j != i ensures OrderedPc(s'.sh, s'.threads[j]) {
      var q := s.threads[j];
      OwnIsStopping(q);
      if OwnOf(q).Some? && pc == RemoveHold(OwnOf(q).value) { assert HoldsTunnel(pc, OwnOf(q).value); }
      OrderedElsewhere(s.sh, pc, x, s'.sh, pc', q);
    }
  }

  lemma OrderedSpawn(p: Policy, s: State, i: Thread, pc: Pc, s': State)
    requires Ordered(s) && Next(p, s, Spawn(i, pc)) == Some(s')
    ensures Ordered(s')
  {
    forall j | j in s'.threads ensures OrderedPc(s'.sh, s'.threads[j]) {
      if j != i { assert OrderedPc(s.sh, s.threads[j]); }
    }
    forall t: Tunnel ensures Clocked(s'.sh, t) { assert Clocked(s.sh, t); }
  }

  // ------------------------------------------------------------- whole runs

  ghost predicate Inv(p: Policy, s: State) {
    && Mutex(s) && Counts(s) && Ordered(s)
    && (!p.restarts ==> Once(s))
    && (!p.overtaking ==> Paired(s))
  }

  lemma InvRun(p: Policy, s: State, i: Thread, x: Tunnel, s': State)
    requires Inv(p, s) && Next(p, s, Run(i, x)) == Some(s')
    ensures Inv(p, s')
  {
    RunMoves(p, s, i, x, s');
    MutexRun(s, i, x, s');
    forall t: Tunnel ensures Balanced(s', t) { BalancedRun(s, i, x, s', t); }
    OrderedRun(s, i, x, s');
    if !p.restarts { OnceRun(s, i, x, s'); }
    if !p.overtaking { PairedRun(s, i, x, s'); }
  }

  lemma InvSpawn(p: Policy, s: State, i: Thread, pc: Pc, s': State)
    requires Inv(p, s) && Next(p, s, Spawn(i, pc)) == Some(s')
    ensures Inv(p, s')
  {
    MutexSpawn(p, s, i, pc, s');
    forall t: Tunnel ensures Balanced(s', t) { BalancedSpawn(p, s, i, pc, s', t); }
    OrderedSpawn(p, s, i, pc, s');
    if !p.restarts { OnceSpawn(p, s, i, pc, s'); }
    if !p.overtaking { PairedSpawn(p, s, i, pc, s'); }
  }

  lemma InvStart(p: Policy)
    ensures Inv(p, INITIAL)
  {
    forall t: Tunnel ensures Balanced(INITIAL, t) { assert !SomeStopping(INITIAL, t); }
  }

  /** Mutual exclusion, the balance of Start and onStop and the order of removal hold in every
      reachable state; without restarts a tunnel is added once, without overtaking the map and
      the `active` flags agree but for the threads under way. */
  lemma {:induction false} RunInvariant(p: Policy, acts: seq<Action>)
    requires Exec(p, acts).Some?
    ensures Inv(p, Exec(p, acts).value)
  {
    if acts == [] {
      InvStart(p);
    } else {
      var before, a := acts[..|acts| - 1], acts[|acts| - 1];
      RunInvariant(p, before);
      var s, s' := Exec(p, before).value, Exec(p, acts).value;
      match a {
        case Run(i, x) => InvRun(p, s, i, x, s');
        case Spawn(i, pc) => InvSpawn(p, s, i, pc, s');
      }
    }
  }

  /** onStop runs at most once for every Start that took effect; with one Start a tunnel,
      at most once. */
  lemma OnStopBounded(p: Policy, acts: seq<Action>, t: Tunnel)
    requires Exec(p, acts).Some?
    ensures var sh := Exec(p, acts).value.sh;
      && Count(sh.stops, t) <= Count(sh.starts, t)
      && (t in sh.active ==> Count(sh.stops, t) < Count(sh.starts, t))
      && (!p.restarts ==> Count(sh.stops, t) <= 1)
  {
    RunInvariant(p, acts);
    var s := Exec(p, acts).value;
    assert Balanced(s, t);
    if !p.restarts { assert Tidy(s.sh, t); }
  }

  // ------------------------------------------------------------- no deadlock

  /** Nobody waits inside the party line's critical sections, and the only waiting thread
      that keeps a tunnel mutex is a broadcasting Stop. */
  lemma WhoWaits(pc: Pc)
    ensures HoldsRead(pc) || HoldsWrite(pc) ==> WantsTunnel(pc).None? && !WantsRead(pc) && !WantsWrite(pc)
    ensures WantsTunnel(pc).Some? ==> !WantsRead(pc) && !WantsWrite(pc)
    ensures forall t: Tunnel :: WantsTunnel(pc).Some? && HoldsTunnel(pc, t) ==> pc.SendWant? && pc.c.own == Some(t)
  {
  }

  /** Where waiting goes on for five threads, the first does not wait for the party line's
      own lock and the second is a stopping tunnel that keeps its mutex. */
  lemma WaitChain(p: Pc, q: Pc, r: Pc, y: Pc, z: Pc)
    requires Blocks(p, q) && Blocks(q, r) && Blocks(r, y) && Blocks(y, z)
    ensures WantsTunnel(p).Some? && q.SendWant? && q.c.own == WantsTunnel(p)
  {
    WhoWaits(q);
    WhoWaits(r);
    WhoWaits(y);
  }

  lemma Blocker(s: State, d: set<Thread>, i: Thread) returns (j: Thread)
    requires Deadlock(s, d) && i in d
    ensures j in d && Blocks(s.threads[i], s.threads[j])
  {
    assert BlockedWithin(s, d, i);
    j :| j in d && BlockedBy(s, i, j);
  }

  lemma OnlyStoppersBlock(s: State, d: set<Thread>, i: Thread) returns (j: Thread)
    requires Deadlock(s, d) && i in d
    ensures WantsTunnel(s.threads[i]).Some?
    ensures j in d && s.threads[j].SendWant? && s.threads[j].c.own == WantsTunnel(s.threads[i])
  {
    j := Blocker(s, d, i);
    var k := Blocker(s, d, j);
    var m := Blocker(s, d, k);
    var n := Blocker(s, d, m);
    WaitChain(s.threads[i], s.threads[j], s.threads[k], s.threads[m], s.threads[n]);
  }

  predicate Stopper(s: State, k: Thread) {
    k in s.threads && s.threads[k].SendWant? && s.threads[k].c.own.Some?
  }

  /** When the tunnel that the stopper keeps locked left the map. */
  function LeftAt(s: State, k: Thread): nat {
    if Stopper(s, k) && s.threads[k].c.own.value in s.sh.removedAt
    then s.sh.removedAt[s.threads[k].c.own.value] else 0
  }

  /** Two broadcasting stoppers: the awaited one left the session map later. */
  lemma AwaitedLeftLater(s: State, i: Thread, j: Thread)
    requires Ordered(s) && Barred(s) && Stopper(s, i) && Stopper(s, j)
    requires s.threads[j].c.own == Some(s.threads[i].u)
    ensures LeftAt(s, i) < LeftAt(s, j)
  {
    assert OrderedPc(s.sh, s.threads[i]) && OrderedPc(s.sh, s.threads[j]);
    assert OwnOf(s.threads[j]) == Some(s.threads[i].u);
    assert s.threads[i].u in Waiting(s.threads[i]);
  }

  lemma LastToLeave(s: State, d: set<Thread>) returns (top: Thread)
    requires d != {}
    ensures top in d && forall j :: j in d ==> LeftAt(s, j) <= LeftAt(s, top)
    decreases |d|
  {
    var x :| x in d;
    if d == {x} {
      top := x;
    } else {
      var rest := LastToLeave(s, d - {x});
      top := if LeftAt(s, x) <= LeftAt(s, rest) then rest else x;
      assert forall j :: j in d ==> j == x || j in d - {x};
    }
  }

  lemma NoDeadlock(s: State, d: set<Thread>)
    requires Ordered(s) && Barred(s)
    ensures !Deadlock(s, d)
  {
    if Deadlock(s, d) {
      var i :| i in d;
      var j := OnlyStoppersBlock(s, d, i);
      var stoppers := set k | k in d && Stopper(s, k);
      assert j in stoppers;
      var top := LastToLeave(s, stoppers);
      var next := OnlyStoppersBlock(s, d, top);
      assert next in stoppers;
      AwaitedLeftLater(s, top, next);
    }
  }

  // ------------------------------------------------------------- witnesses: one thread at a time

  lemma Extend(p: Policy, acts: seq<Action>, s: State, a: Action, s': State) returns (more: seq<Action>)
    requires Exec(p, acts) == Some(s) && Next(p, s, a) == Some(s')
    ensures more == acts + [a] && Exec(p, more) == Some(s')
  {
    more := acts + [a];
    assert more[..|more| - 1] == acts;
  }

  /** The state s with thread i and the shared part replaced. */
  function At(s: State, i: Thread, pc: Pc, sh: Shared): State {
    State(s.threads[i := pc], sh)
  }

  /** No thread but i is inside a critical section of the party line. */
  ghost predicate Alone(s: State, i: Thread) {
    forall j :: j in s.threads && j != i ==> !HoldsRead(s.threads[j]) && !HoldsWrite(s.threads[j])
  }

  /** No thread but i has the tunnel's mutex. */
  ghost predicate Off(s: State, i: Thread, t: Tunnel) {
    forall j :: j in s.threads && j != i ==> !HoldsTunnel(s.threads[j], t)
  }

  lemma AloneReady(s: State, i: Thread, pc: Pc, sh: Shared)
    requires Alone(s, i)
    requires WantsTunnel(pc).Some? ==> Off(s, i, WantsTunnel(pc).value) && !HoldsTunnel(pc, WantsTunnel(pc).value)
    ensures Ready(At(s, i, pc, sh), pc)
  {
    WhoWaits(pc);
    var s1 := At(s, i, pc, sh);
    if WantsRead(pc) || WantsWrite(pc) {
      forall j | j in s1.threads ensures !HoldsRead(s1.threads[j]) && !HoldsWrite(s1.threads[j]) {}
    }
  }

  /** One step of a thread that meets nobody. */
  lemma Solo(p: Policy, acts: seq<Action>, s: State, i: Thread, x: Tunnel, pc: Pc, sh: Shared, pc': Pc, sh': Shared)
    returns (more: seq<Action>)
    requires p.overtaking && Exec(p, acts) == Some(At(s, i, pc, sh)) && Alone(s, i)
    requires WantsTunnel(pc).Some? ==> Off(s, i, WantsTunnel(pc).value) && !HoldsTunnel(pc, WantsTunnel(pc).value)
    requires Act(sh, pc, x) == Some((sh', pc'))
    ensures Exec(p, more) == Some(At(s, i, pc', sh'))
  {
    AloneReady(s, i, pc, sh);
    assert s.threads[i := pc][i := pc'] == s.threads[i := pc'];
    more := Extend(p, acts, At(s, i, pc, sh), Run(i, x), At(s, i, pc', sh'));
  }

  /** A new Start has set `active` and, with an empty log, wants to insert. */
  lemma StartWaits(p: Policy, acts: seq<Action>, s: State, i: Thread, t: Tunnel) returns (more: seq<Action>, sh: Shared)
    requires p.overtaking && Exec(p, acts) == Some(s) && Alone(s, i) && i !in s.threads && Off(s, i, t)
    requires t !in s.sh.active && (p.restarts || t !in s.sh.spawned) && s.sh.log == []
    ensures Exec(p, more) == Some(At(s, i, AddWant(t, []), sh))
    ensures sh.active == s.sh.active + {t} && sh.sessions == s.sh.sessions && sh.log == []
  {
    var sh1 := s.sh.(spawned := s.sh.spawned + {t});
    more := Extend(p, acts, s, Spawn(i, StartWant(t)), At(s, i, StartWant(t), sh1));
    sh := sh1.(active := sh1.active + {t}, starts := sh1.starts[t := Count(sh1.starts, t) + 1]);
    more := Solo(p, more, s, i, 0, StartWant(t), sh1, StartHold(t), sh1);
    more := Solo(p, more, s, i, 0, StartHold(t), sh1, HistWant(t), sh);
    more := Solo(p, more, s, i, 0, HistWant(t), sh, HistHold(t), sh);
    more := Solo(p, more, s, i, 0, HistHold(t), sh, AddWant(t, []), sh);
  }

  /** It enters the session map. */
  lemma Inserts(p: Policy, acts: seq<Action>, s: State, i: Thread, t: Tunnel, sh: Shared) returns (more: seq<Action>)
    requires p.overtaking && Exec(p, acts) == Some(At(s, i, AddWant(t, []), sh)) && Alone(s, i)
    ensures Exec(p, more) == Some(At(s, i, Hist(t, []), sh.(sessions := sh.sessions + {t})))
  {
    more := Solo(p, acts, s, i, 0, AddWant(t, []), sh, AddHold(t, []), sh);
    more := Solo(p, more, s, i, 0, AddHold(t, []), sh, Hist(t, []), sh.(sessions := sh.sessions + {t}));
  }

  /** Stop of an active tunnel up to the session map. */
  lemma StopBegins(p: Policy, acts: seq<Action>, s: State, i: Thread, t: Tunnel) returns (more: seq<Action>)
    requires p.overtaking && Exec(p, acts) == Some(s) && Alone(s, i) && i !in s.threads && Off(s, i, t)
    requires t in s.sh.active
    ensures Exec(p, more) == Some(At(s, i, RemoveHold(t), s.sh.(active := s.sh.active - {t})))
  {
    var sh := s.sh.(active := s.sh.active - {t});
    more := Extend(p, acts, s, Spawn(i, StopWant(t)), At(s, i, StopWant(t), s.sh));
    more := Solo(p, more, s, i, 0, StopWant(t), s.sh, StopHold(t), s.sh);
    more := Solo(p, more, s, i, 0, StopHold(t), s.sh, RemoveWant(t), sh);
    more := Solo(p, more, s, i, 0, RemoveWant(t), sh, RemoveHold(t), sh);
  }

  /** Stop of a tunnel that is active but not in the session map. */
  lemma StopUnknown(p: Policy, acts: seq<Action>, s: State, i: Thread, t: Tunnel)
    returns (more: seq<Action>, sh: Shared)
    requires p.overtaking && Exec(p, acts) == Some(s) && Alone(s, i) && i !in s.threads && Off(s, i, t)
    requires t in s.sh.active && t !in s.sh.sessions
    ensures Exec(p, more) == Some(At(s, i, Done, sh))
    ensures sh.active == s.sh.active - {t} && sh.sessions == s.sh.sessions && sh.log == s.sh.log
  {
    more := StopBegins(p, acts, s, i, t);
    more, sh := RemovesNothing(p, more, s, i, t, s.sh.(active := s.sh.active - {t}));
  }

  lemma RemovesNothing(p: Policy, acts: seq<Action>, s: State, i: Thread, t: Tunnel, sh: Shared)
    returns (more: seq<Action>, sh': Shared)
    requires p.overtaking && Exec(p, acts) == Some(At(s, i, RemoveHold(t), sh)) && Alone(s, i) && t !in sh.sessions
    ensures Exec(p, more) == Some(At(s, i, Done, sh'))
    ensures sh'.active == sh.active && sh'.sessions == sh.sessions && sh'.log == sh.log
  {
    more := Solo(p, acts, s, i, 0, RemoveHold(t), sh, Finish(t), sh);
    sh' := sh.(stops := sh.stops[t := Count(sh.stops, t) + 1]);
    more := Solo(p, more, s, i, 0, Finish(t), sh, Done, sh');
  }

  /** Stop of a member: it leaves the map and goes for the first recipient. */
  lemma StopLeaves(p: Policy, acts: seq<Action>, s: State, i: Thread, t: Tunnel, x: Tunnel)
    returns (more: seq<Action>, sh: Shared)
    requires p.overtaking && Exec(p, acts) == Some(s) && Alone(s, i) && i !in s.threads && Off(s, i, t)
    requires t in s.sh.active && s.sh.sessions == {t, x} && t != x
    ensures Exec(p, more) == Some(At(s, i, SendWant(Leave(t), {}, x), sh))
    ensures sh.active == s.sh.active - {t} && sh.sessions == {x} && sh.log == s.sh.log
  {
    more := StopBegins(p, acts, s, i, t);
    var sh1 := s.sh.(active := s.sh.active - {t});
    sh := sh1.(sessions := sh1.sessions - {t}, removedAt := sh1.removedAt[t := sh1.clock], clock := sh1.clock + 1);
    more := Solo(p, more, s, i, 0, RemoveHold(t), sh1, CollectWant(Leave(t)), sh);
    assert sh.sessions == {x} && Recipients(sh.sessions, Some(t)) == {x};
    more := CastBegins(p, more, s, i, Leave(t), x, sh);
  }

  /** A broadcast that collects one recipient goes for it. */
  lemma CastBegins(p: Policy, acts: seq<Action>, s: State, i: Thread, c: Cast, x: Tunnel, sh: Shared)
    returns (more: seq<Action>)
    requires p.overtaking && Exec(p, acts) == Some(At(s, i, CollectWant(c), sh)) && Alone(s, i)
    requires Recipients(sh.sessions, c.exclude) == {x} && c.sender.Nobody? && !NeedToLog(c.text)
    ensures Exec(p, more) == Some(At(s, i, SendWant(c, {}, x), sh))
  {
    more := Collects(p, acts, s, i, c, sh);
    assert {x} - {x} == {};
    more := Solo(p, more, s, i, x, Send(c, {x}), sh, SendWant(c, {}, x), sh);
  }

  lemma Collects(p: Policy, acts: seq<Action>, s: State, i: Thread, c: Cast, sh: Shared) returns (more: seq<Action>)
    requires p.overtaking && Exec(p, acts) == Some(At(s, i, CollectWant(c), sh)) && Alone(s, i)
    requires c.sender.Nobody? && !NeedToLog(c.text)
    ensures Exec(p, more) == Some(At(s, i, Send(c, Recipients(sh.sessions, c.exclude)), sh))
  {
    more := Solo(p, acts, s, i, 0, CollectWant(c), sh, CollectHold(c), sh);
    assert c.(sender := SenderOf(sh.sessions, c.exclude, c.text)) == c;
    more := Solo(p, more, s, i, 0, CollectHold(c), sh, Send(c, Recipients(sh.sessions, c.exclude)), sh);
  }

  // ------------------------------------------------------------- a restarted, overtaken tunnel

  const ANYTHING := Policy(true, true)

  /** Tunnel 2 is in the map, tunnel 1 on its way there. */
  lemma TwoStarted() returns (acts: seq<Action>, s: State)
    ensures Exec(ANYTHING, acts) == Some(s) && s.sh.log == []
    ensures s.threads == map[10 := Hist(2, []), 11 := AddWant(1, [])]
    ensures s.sh.sessions == {2} && s.sh.active == {1, 2}
  {
    var sh: Shared;
    acts, sh := StartWaits(ANYTHING, [], INITIAL, 10, 2);
    acts := Inserts(ANYTHING, acts, INITIAL, 10, 2, sh);
    s := At(INITIAL, 10, Hist(2, []), sh.(sessions := sh.sessions + {2}));
    acts, sh := StartWaits(ANYTHING, acts, s, 11, 1);
    s := At(s, 11, AddWant(1, []), sh);
  }

  /** Tunnel 1 is stopped before its Start gets there. */
  lemma StoppedTooEarly() returns (acts: seq<Action>, s: State)
    ensures Exec(ANYTHING, acts) == Some(s) && s.sh.log == []
    ensures s.threads == map[10 := Hist(2, []), 11 := AddWant(1, []), 12 := Done]
    ensures s.sh.sessions == {2} && s.sh.active == {2}
  {
    acts, s := TwoStarted();
    var sh: Shared;
    acts, sh := StopUnknown(ANYTHING, acts, s, 12, 1);
    s := At(s, 12, Done, sh);
  }

  /** A second Start of tunnel 1 is on its way to the map, too. */
  lemma SecondStartPending() returns (acts: seq<Action>, s: State)
    ensures Exec(ANYTHING, acts) == Some(s) && s.sh.log == []
    ensures s.threads == map[10 := Hist(2, []), 11 := AddWant(1, []), 12 := Done, 13 := AddWant(1, [])]
    ensures s.sh.sessions == {2} && s.sh.active == {1, 2}
  {
    acts, s := StoppedTooEarly();
    var sh: Shared;
    acts, sh := StartWaits(ANYTHING, acts, s, 13, 1);
    s := At(s, 13, AddWant(1, []), sh);
  }

  /** The first Start inserts tunnel 1. */
  lemma BothInserted() returns (acts: seq<Action>, s: State)
    ensures Exec(ANYTHING, acts) == Some(s) && s.sh.log == []
    ensures s.threads == map[10 := Hist(2, []), 11 := Hist(1, []), 12 := Done, 13 := AddWant(1, [])]
    ensures s.sh.sessions == {1, 2} && s.sh.active == {1, 2}
  {
    acts, s := SecondStartPending();
    assert At(s, 11, AddWant(1, []), s.sh) == s;
    acts := Inserts(ANYTHING, acts, s, 11, 1, s.sh);
    s := At(s, 11, Hist(1, []), s.sh.(sessions := s.sh.sessions + {1}));
  }

  /** Tunnel 1 stops, has left the map and waits for tunnel 2. */
  lemma FirstWaits() returns (acts: seq<Action>, s: State)
    ensures Exec(ANYTHING, acts) == Some(s)
    ensures s.threads ==
      map[10 := Hist(2, []), 11 := Hist(1, []), 12 := Done, 13 := AddWant(1, []), 14 := SendWant(Leave(1), {}, 2)]
    ensures s.sh.sessions == {2} && s.sh.active == {2}
  {
    acts, s := BothInserted();
    var sh: Shared;
    acts, sh := StopLeaves(ANYTHING, acts, s, 14, 1, 2);
    s := At(s, 14, SendWant(Leave(1), {}, 2), sh);
  }

  /** It re-enters the map meanwhile. */
  lemma ReenteredWhileStopping() returns (acts: seq<Action>, s: State)
    ensures Exec(ANYTHING, acts) == Some(s)
    ensures s.threads ==
      map[10 := Hist(2, []), 11 := Hist(1, []), 12 := Done, 13 := Hist(1, []), 14 := SendWant(Leave(1), {}, 2)]
    ensures s.sh.sessions == {1, 2} && s.sh.active == {2}
  {
    acts, s := FirstWaits();
    assert At(s, 13, AddWant(1, []), s.sh) == s;
    acts := Inserts(ANYTHING, acts, s, 13, 1, s.sh);
    s := At(s, 13, Hist(1, []), s.sh.(sessions := s.sh.sessions + {1}));
  }

  lemma NobodyInTheWay(s: State)
    requires s.threads ==
      map[10 := Hist(2, []), 11 := Hist(1, []), 12 := Done, 13 := Hist(1, []), 14 := SendWant(Leave(1), {}, 2)]
    ensures 15 !in s.threads && 14 in s.threads && s.threads[14] == SendWant(Leave(1), {}, 2)
    ensures Alone(s, 15) && Off(s, 15, 2)
  {
  }

  /** Tunnel 2 stops in turn and finds tunnel 1 in the map. */
  lemma BothStopping() returns (acts: seq<Action>, s: State)
    ensures Exec(ANYTHING, acts) == Some(s) && {14, 15} <= s.threads.Keys
    ensures s.threads[14] == SendWant(Leave(1), {}, 2) && s.threads[15] == SendWant(Leave(2), {}, 1)
  {
    acts, s := ReenteredWhileStopping();
    NobodyInTheWay(s);
    var sh: Shared;
    acts, sh := StopLeaves(ANYTHING, acts, s, 15, 2, 1);
    s := At(s, 15, SendWant(Leave(2), {}, 1), sh);
  }

  /** With a tunnel started a second time, after a Stop that overtook its first Start, two stopping
      tunnels come to wait for each other. */
  lemma RestartDeadlock() returns (acts: seq<Action>, d: set<Thread>)
    ensures Exec(ANYTHING, acts).Some? && Deadlock(Exec(ANYTHING, acts).value, d)
  {
    var s: State;
    acts, s := BothStopping();
    d := {14, 15};
    assert BlockedBy(s, 14, 15) && BlockedBy(s, 15, 14);
    assert BlockedWithin(s, d, 14) && BlockedWithin(s, d, 15);
  }

  /** No interleaving of starts, stops and broadcasts deadlocks, exactly unless a tunnel may both
      be started again and be stopped before its Start has inserted it. */
  lemma DeadlockFree(p: Policy)
    ensures (forall acts, d :: Exec(p, acts).Some? ==> !Deadlock(Exec(p, acts).value, d))
            <==> !(p.restarts && p.overtaking)
  {
    if p.restarts && p.overtaking {
      var acts, d := RestartDeadlock();
    } else {
      forall acts, d | Exec(p, acts).Some? ensures !Deadlock(Exec(p, acts).value, d) {
        RunInvariant(p, acts);
        var s := Exec(p, acts).value;
        if !p.restarts { BarredWhenOnce(s); } else { BarredWhenPaired(s); }
        NoDeadlock(s, d);
      }
    }
  }

  // ------------------------------------------------------------- complete teardown

  predicate AllDone(s: State) {
    forall i :: i in s.threads ==> s.threads[i].Done?
  }

  /** When every call is over, the map holds exactly the active tunnels. */
  predicate TornDown(p: Policy, acts: seq<Action>) {
    Exec(p, acts).Some? && AllDone(Exec(p, acts).value) ==>
      Exec(p, acts).value.sh.sessions == Exec(p, acts).value.sh.active
  }

  /** The end of an unlogged broadcast. */
  lemma CastEnds(p: Policy, acts: seq<Action>, s: State, i: Thread, c: Cast, x: Tunnel, sh: Shared)
    returns (more: seq<Action>)
    requires p.overtaking && Exec(p, acts) == Some(At(s, i, SendWant(c, {}, x), sh)) && Alone(s, i) && Off(s, i, x)
    requires c.own.None? && !NeedToLog(c.text)
    ensures Exec(p, more) == Some(At(s, i, Done, sh))
  {
    more := Solo(p, acts, s, i, 0, SendWant(c, {}, x), sh, SendHold(c, {}, x), sh);
    more := Solo(p, more, s, i, 0, SendHold(c, {}, x), sh, Send(c, {}), sh);
    more := CastDone(p, more, s, i, c, sh);
  }

  lemma CastDone(p: Policy, acts: seq<Action>, s: State, i: Thread, c: Cast, sh: Shared) returns (more: seq<Action>)
    requires p.overtaking && Exec(p, acts) == Some(At(s, i, Send(c, {}), sh)) && Alone(s, i)
    requires c.own.None? && !NeedToLog(c.text)
    ensures Exec(p, more) == Some(At(s, i, Done, sh))
  {
    more := Solo(p, acts, s, i, 0, Send(c, {}), sh, Done, sh);
  }

  /** The joining broadcast of a tunnel that is alone in the map. */
  lemma JoinsAlone(p: Policy, acts: seq<Action>, s: State, i: Thread, t: Tunnel, sh: Shared) returns (more: seq<Action>)
    requires p.overtaking && Exec(p, acts) == Some(At(s, i, Hist(t, []), sh)) && Alone(s, i) && Off(s, i, t)
    requires sh.sessions == {t}
    ensures Exec(p, more) == Some(At(s, i, Done, sh))
  {
    var c := Cast(None, None, JOINED, Nobody);
    more := Solo(p, acts, s, i, 0, Hist(t, []), sh, CollectWant(c), sh);
    more := CastBegins(p, more, s, i, c, t, sh);
    more := CastEnds(p, more, s, i, c, t, sh);
  }

  /** One Start, one Stop that overtakes its insertion. */
  lemma StoppedBeforeInsertion(p: Policy) returns (acts: seq<Action>, sh: Shared)
    requires p.overtaking
    ensures Exec(p, acts) == Some(At(State(map[11 := Done], sh), 10, AddWant(1, []), sh))
    ensures sh.active == {} && sh.sessions == {}
  {
    acts, sh := StartWaits(p, [], INITIAL, 10, 1);
    var s := At(INITIAL, 10, AddWant(1, []), sh);
    acts, sh := StopUnknown(p, acts, s, 11, 1);
    assert s.threads[11 := Done] == map[11 := Done][10 := AddWant(1, [])];
  }

  /** The stopped tunnel stays in the map. */
  lemma StoppedStays(p: Policy) returns (acts: seq<Action>)
    requires p.overtaking
    ensures !TornDown(p, acts)
  {
    var sh: Shared;
    acts, sh := StoppedBeforeInsertion(p);
    var s := State(map[11 := Done], sh);
    acts := Inserts(p, acts, s, 10, 1, sh);
    sh := sh.(sessions := sh.sessions + {1});
    acts := JoinsAlone(p, acts, s, 10, 1, sh);
    assert AllDone(At(s, 10, Done, sh)) && 1 in sh.sessions && 1 !in sh.active;
  }

  /** Teardown is complete in every run exactly if no Stop takes a tunnel between its Start's
      setting `active` and its insertion, whether or not tunnels are started again. */
  lemma TeardownComplete(p: Policy)
    ensures (forall acts :: TornDown(p, acts)) <==> !p.overtaking
  {
    if p.overtaking {
      var acts := StoppedStays(p);
    } else {
      forall acts ensures TornDown(p, acts) {
        if Exec(p, acts).Some? && AllDone(Exec(p, acts).value) {
          RunInvariant(p, acts);
          NothingUnderWay(Exec(p, acts).value);
        }
      }
    }
  }

  lemma NothingUnderWay(s: State)
    requires Paired(s) && AllDone(s)
    ensures s.sh.sessions == s.sh.active
  {
    forall t: Tunnel ensures t in s.sh.sessions <==> t in s.sh.active {
      assert Matched(s, t) && !SomeEntering(s, t) && !SomeRemoving(s, t);
    }
  }

  // ------------------------------------------------------------- the message log

  lemma LogIsSuffix(logged: seq<Message>, m: Message)
    ensures AddToLog(LastN(logged, MAX_LOG), m) == LastN(logged + [m], MAX_LOG)
  {
    LastNSnoc(logged, MAX_LOG, m);
  }

  lemma ActKeepsLog(sh: Shared, pc: Pc, x: Tunnel)
    requires !pc.LogHold? && Act(sh, pc, x).Some?
    ensures var sh' := Act(sh, pc, x).value.0; sh'.log == sh.log && sh'.logged == sh.logged
  {
  }

  /** The log is always the last hundred messages that were logged. */
  lemma {:induction false} LogKeepsLatest(p: Policy, acts: seq<Action>)
    requires Exec(p, acts).Some?
    ensures var sh := Exec(p, acts).value.sh; sh.log == LastN(sh.logged, MAX_LOG)
  {
    if acts != [] {
      LogKeepsLatest(p, acts[..|acts| - 1]);
      var s, a := Exec(p, acts[..|acts| - 1]).value, acts[|acts| - 1];
      if a.Run? && s.threads[a.i].LogHold? {
        var c := s.threads[a.i].c;
        LogIsSuffix(s.sh.logged, Message(c.sender, c.text));
      } else if a.Run? {
        ActKeepsLog(s.sh, s.threads[a.i], a.x);
      }
    }
  }

  /** A thread about to log has a line to log; only a Stop broadcasts for itself, and that is
      no such line. */
  predicate Logs(pc: Pc) {
    (pc.LogWant? || pc.LogHold?) ==> NeedToLog(pc.c.text)
  }

  lemma LogsStep(sh: Shared, pc: Pc, x: Tunnel, sh': Shared, pc': Pc)
    requires Act(sh, pc, x) == Some((sh', pc')) && Logs(pc)
    ensures Logs(pc')
    ensures sh'.logged == sh.logged || (|sh'.logged| == |sh.logged| + 1 && sh'.logged[..|sh.logged|] == sh.logged
                                        && NeedToLog(sh'.logged[|sh.logged|].text))
  {
  }

  ghost predicate LinesOnly(s: State) {
    && (forall i :: i in s.threads ==> Logs(s.threads[i]))
    && (forall k :: 0 <= k < |s.sh.logged| ==> NeedToLog(s.sh.logged[k].text))
  }

  lemma LinesOnlyStep(p: Policy, s: State, a: Action, s': State)
    requires LinesOnly(s) && Next(p, s, a) == Some(s')
    ensures LinesOnly(s')
  {
    if a.Run? {
      LogsStep(s.sh, s.threads[a.i], a.x, s'.sh, s'.threads[a.i]);
      forall k | 0 <= k < |s'.sh.logged| ensures NeedToLog(s'.sh.logged[k].text) {
        if k < |s.sh.logged| { assert s'.sh.logged[k] == s'.sh.logged[..|s.sh.logged|][k]; }
      }
    }
  }

  /** Joining and leaving are announced and never logged: the log holds users' lines only. */
  lemma {:induction false} OnlyLinesLogged(p: Policy, acts: seq<Action>)
    requires Exec(p, acts).Some?
    ensures LinesOnly(Exec(p, acts).value)
  {
    if acts != [] {
      var front := acts[..|acts| - 1];
      OnlyLinesLogged(p, front);
      LinesOnlyStep(p, Exec(p, front).value, acts[|acts| - 1], Exec(p, acts).value);
    }
  }

  // ------------------------------------------------------------- the object

  /** The party line itself: its methods are the critical sections of the steps above, and do to
      the map and the log what the steps do. */
  class Line {
    var sessions: set<Tunnel>
    var messageLog: seq<Message>

    ghost predicate Shows(sh: Shared)
      reads this
    {
      sessions == sh.sessions && messageLog == sh.log
    }

    constructor ()
      ensures Shows(INITIAL.sh)
    {
      sessions, messageLog := {}, [];
    }

    /** The AddHold step. */
    method Insert(t: Tunnel)
      modifies this`sessions
      ensures forall sh: Shared, rest: seq<Message> :: old(Shows(sh)) ==> Shows(Act(sh, AddHold(t, rest), 0).value.0)
      ensures forall u :: u in sessions <==> u in old(sessions) || u == t
    {
      sessions := sessions + {t};
    }

    /** The RemoveHold step; a session that was there is announced. */
    method Delete(t: Tunnel) returns (found: bool)
      modifies this`sessions
      ensures forall sh: Shared :: old(Shows(sh)) ==>
        var (sh', pc) := Act(sh, RemoveHold(t), 0).value; Shows(sh') && (found <==> pc == CollectWant(Leave(t)))
      ensures forall u :: u in sessions <==> u in old(sessions) && u != t
    {
      found := t in sessions;
      if found {
        sessions := sessions - {t};
      }
    }

    /** The CollectHold step: the loop over the map, and what is found out under the same lock. */
    method Collect(exclude: Option<Tunnel>, text: string)
      returns (recipients: seq<Tunnel>, needToLog: bool, sender: Sender)
      ensures forall t: Tunnel :: t in recipients <==> t in Recipients(sessions, exclude)
      ensures forall t: Tunnel :: t in recipients <==> t in sessions && exclude != Some(t)
      ensures Distinct(recipients)
      ensures needToLog && exclude.Some? ==>
        && (sender == Owner(exclude.value) <==> exclude.value in sessions)
        && (sender == System <==> exclude.value !in sessions)
      ensures needToLog <==> !("***" <= text)
      ensures needToLog == NeedToLog(text) && sender == SenderOf(sessions, exclude, text)
    {
      recipients := [];
      var rest := sessions;
      while rest != {}
        invariant rest <= sessions
        invariant forall t: Tunnel :: t in recipients <==> t in Recipients(sessions - rest, exclude)
        invariant Distinct(recipients)
        decreases rest
      {
        var t :| t in rest;
        assert t !in recipients;
        rest := rest - {t};
        if exclude != Some(t) {
          recipients := recipients + [t];
        }
      }
      assert sessions - rest == sessions;
      needToLog := !("***" <= text);
      sender := Nobody;
      if needToLog && exclude.Some? {
        if exclude.value in sessions {
          sender := Owner(exclude.value);
        } else {
          sender := System;
        }
      }
    }

    /** The LogHold step. */
    method AddToMessageLog(m: Message)
      modifies this`messageLog
      ensures messageLog == AddToLog(old(messageLog), m)
      ensures forall sh: Shared, c: Cast :: c.sender == m.sender && c.text == m.text && old(Shows(sh)) ==>
        Shows(Act(sh, LogHold(c), 0).value.0)
    {
      if |messageLog| >= MAX_LOG {
        messageLog := messageLog[1..];
      }
      messageLog := messageLog + [m];
    }
  }
}
