/** internal/bot/bot.go: host-limit strikes, bans and the terminal gaveUp latch.  Each callback
    is one step; the back-off goroutine takes one step per phase. */
module StrikeBudget {
  import opened Text

  const MAX_ATTEMPTS := 3

  /** Where the back-off goroutine is; anything but Idle is tmhcInProgress. */
  datatype Backoff = Idle | Started(attempt: nat) | Cooling(attempt: nat) | Connecting

  /** What an observer sees. */
  datatype Out = BotConnected | BotDisconnected | BotBanned(code: nat) | Strike | CoolDownReconnect

  /** signalled: the channel that connectWithRetry waits on is closed. */
  datatype State = State(connected: bool, signalled: bool, gaveUp: bool, banHandled: bool, attempts: nat,
                         backoff: Backoff, log: seq<Out>)

  const INITIAL := State(false, false, false, false, 0, Idle, [])

  /** Quit, Reconnect and RemoveBot come from outside; BackoffRetries is the next attempt of
      connectWithRetry, BackoffEnds its return. */
  datatype Event =
    | Welcome
    | Error(msg: string)
    | Banned(code: nat)
    | Disconnected
    | BackoffBegins
    | BackoffWakes
    | BackoffRetries
    | BackoffEnds(ok: bool)
    | Quit
    | Reconnect
    | ReconnectFailed
    | RemoveBot

  predicate Contains(s: string, sub: string) {
    sub <= s || (s != "" && Contains(s[1..], sub))
  }

  predicate IsTooManyHostConnectionsError(msg: string) {
    Contains(ToLower(msg), "too many host connections")
  }

  function OnWelcome(s: State): State {
    if s.connected || s.gaveUp then s
    else s.(connected := true, signalled := true, attempts := 0, log := s.log + [BotConnected])
  }

  function OnError(s: State, msg: string): State {
    if IsTooManyHostConnectionsError(msg) then OnHostLimit(s) else s
  }

  function OnHostLimit(s: State): State {
    if !s.backoff.Idle? then s
    else s.(attempts := s.attempts + 1, backoff := Started(s.attempts + 1), log := s.log + [Strike])
  }

  function OnBanned(s: State, code: nat): State {
    if s.banHandled then s
    else s.(banHandled := true, gaveUp := true, log := s.log + [BotBanned(code)])
  }

  function OnDisconnected(s: State): State {
    s.(connected := false, log := s.log + [BotDisconnected])
  }

  function OnQuit(s: State): State {
    s.(connected := false, signalled := true)
  }

  function OnRemove(s: State): State {
    OnQuit(s.(gaveUp := true))
  }

  /** The old connection is closed and a new channel made before the operator's reconnect. */
  function OnReconnect(s: State): State {
    OnDisconnected(s).(signalled := false)
  }

  /** handleTMHCBackoff up to the cool-down: it closes the connection, and after the last strike
      removes the bot. */
  function BackoffBegin(s: State): State {
    if !s.backoff.Started? then s
    else
      var closed := OnDisconnected(s);
      if s.backoff.attempt >= MAX_ATTEMPTS
      then OnRemove(closed.(log := closed.log + [BotDisconnected])).(backoff := Idle)
      else closed.(backoff := Cooling(s.backoff.attempt))
  }

  function BackoffWake(s: State): State {
    if !s.backoff.Cooling? then s
    else if s.gaveUp then s.(backoff := Idle)
    else s.(connected := false, signalled := false, backoff := Connecting, log := s.log + [CoolDownReconnect])
  }

  function BackoffRetry(s: State): State {
    if !s.backoff.Connecting? then s else s.(connected := false, signalled := false)
  }

  function BackoffEnd(s: State, ok: bool): State {
    if !s.backoff.Connecting? then s
    else if ok then s.(backoff := Idle)
    else s.(backoff := Idle, connected := false, gaveUp := true)
  }

  function Step(s: State, e: Event): State {
    match e
    case Welcome => OnWelcome(s)
    case Error(msg) => OnError(s, msg)
    case Banned(code) => OnBanned(s, code)
    case Disconnected => OnDisconnected(s)
    case BackoffBegins => BackoffBegin(s)
    case BackoffWakes => BackoffWake(s)
    case BackoffRetries => BackoffRetry(s)
    case BackoffEnds(ok) => BackoffEnd(s, ok)
    case Quit => OnQuit(s)
    case Reconnect => OnReconnect(s)
    case ReconnectFailed => s.(gaveUp := true)
    case RemoveBot => OnRemove(s)
  }

  class Bot {
    var connected: bool
    var signalled: bool
    var gaveUp: bool
    var banHandled: bool
    var tmhcAttempts: nat
    var backoff: Backoff
    var log: seq<Out>

    function Value(): State
      reads this
    {
      State(connected, signalled, gaveUp, banHandled, tmhcAttempts, backoff, log)
    }

    constructor ()
      ensures Value() == INITIAL
    {
      connected, signalled, gaveUp, banHandled, tmhcAttempts := false, false, false, false, 0;
      backoff, log := Idle, [];
    }

    method WelcomeCallback()
      modifies this
      ensures Value() == OnWelcome(old(Value()))
    {
      if connected {
        return;
      }
      if gaveUp {
        return;
      }
      connected := true;
      tmhcAttempts := 0;
      log := log + [BotConnected];
      if !signalled {
        signalled := true;
      }
    }

    method ErrorCallback(msg: string)
      modifies this
      ensures Value() == OnError(old(Value()), msg)
    {
      if !IsTooManyHostConnectionsError(msg) {
        return;
      }
      if !backoff.Idle? {
        return;
      }
      tmhcAttempts := tmhcAttempts + 1;
      log := log + [Strike];
      backoff := Started(tmhcAttempts);
    }

    /** The 465 and 466 callbacks. */
    method BanCallback(code: nat)
      modifies this
      ensures Value() == OnBanned(old(Value()), code)
    {
      if banHandled {
        return;
      }
      banHandled := true;
      gaveUp := true;
      log := log + [BotBanned(code)];
    }

    method DisconnectedCallback()
      modifies this
      ensures Value() == OnDisconnected(old(Value()))
    {
      connected := false;
      log := log + [BotDisconnected];
    }

    method Quit()
      modifies this
      ensures Value() == OnQuit(old(Value()))
    {
      connected := false;
      if !signalled {
        signalled := true;
      }
    }

    method RemoveBot()
      modifies this
      ensures Value() == OnRemove(old(Value()))
    {
      gaveUp := true;
      Quit();
    }

    method HandleBackoffStart()
      requires backoff.Started?
      modifies this
      ensures Value() == BackoffBegin(old(Value()))
    {
      var attempt := backoff.attempt;
      DisconnectedCallback();
      if attempt >= MAX_ATTEMPTS {
        log := log + [BotDisconnected];
        RemoveBot();
        backoff := Idle;
        return;
      }
      backoff := Cooling(attempt);
    }

    method HandleBackoffWake()
      requires backoff.Cooling?
      modifies this
      ensures Value() == BackoffWake(old(Value()))
    {
      if gaveUp {
        backoff := Idle;
        return;
      }
      connected := false;
      signalled := false;
      log := log + [CoolDownReconnect];
      backoff := Connecting;
    }
  }

  // ------------------------------------------------------------ runs

  /** A back-off that has not yet reached its reconnect but may. */
  predicate Sleeping(b: Backoff) {
    b.Cooling? || (b.Started? && b.attempt < MAX_ATTEMPTS)
  }

  /** connectWithRetry succeeds only on a closed channel or a connected bot.  `overlap`: a
      registration may be accepted while a back-off is asleep (an operator's reconnect can bring
      one about).  `quits`: the bot may be told to quit without being removed. */
  predicate Possible(overlap: bool, quits: bool, s: State, e: Event) {
    match e
    case BackoffEnds(ok) => ok ==> s.connected || s.signalled
    case Welcome => overlap || !Sleeping(s.backoff)
    case Quit => quits
    case _ => true
  }

  function Run(overlap: bool, quits: bool, events: seq<Event>): Option<State> {
    if events == [] then Some(INITIAL)
    else match Run(overlap, quits, events[..|events| - 1])
      case None => None
      case Some(s) =>
        var e := events[|events| - 1];
        if Possible(overlap, quits, s, e) then Some(Step(s, e)) else None
  }

  /** How often `what` was seen since the last BotConnected. */
  function Since(log: seq<Out>, what: Out): nat {
    if log == [] || log[|log| - 1] == BotConnected then 0
    else Since(log[..|log| - 1], what) + if log[|log| - 1] == what then 1 else 0
  }

  lemma SinceAppend(log: seq<Out>, o: Out, what: Out)
    ensures Since(log + [o], what) == if o == BotConnected then 0 else Since(log, what) + if o == what then 1 else 0
  {
    assert (log + [o])[..|log|] == log;
  }

  function Bans(log: seq<Out>): nat {
    if log == [] then 0 else Bans(log[..|log| - 1]) + if log[|log| - 1].BotBanned? then 1 else 0
  }

  lemma BansAppend(log: seq<Out>, o: Out)
    ensures Bans(log + [o]) == Bans(log) + if o.BotBanned? then 1 else 0
  {
    assert (log + [o])[..|log|] == log;
  }

  lemma CountsAppend(log: seq<Out>, o: Out)
    ensures Since(log + [o], Strike)
         == if o == BotConnected then 0 else Since(log, Strike) + if o == Strike then 1 else 0
    ensures Since(log + [o], CoolDownReconnect)
         == if o == BotConnected then 0 else Since(log, CoolDownReconnect) + if o == CoolDownReconnect then 1 else 0
    ensures Bans(log + [o]) == Bans(log) + if o.BotBanned? then 1 else 0
  {
    SinceAppend(log, o, Strike);
    SinceAppend(log, o, CoolDownReconnect);
    BansAppend(log, o);
  }

  function Min(a: int, b: int): int { if a < b then a else b }

  /** The strikes since the registration are the counter; they pay for the reconnects, with at
      most one more from a back-off that the registration overlapped. */
  ghost predicate Budget(overlap: bool, s: State) {
    && s.attempts == Since(s.log, Strike)
    && Since(s.log, CoolDownReconnect) + (if Sleeping(s.backoff) then 1 else 0)
         <= Min(s.attempts, MAX_ATTEMPTS - 1) + (if overlap then 1 else 0)
    && (s.attempts >= MAX_ATTEMPTS ==> s.gaveUp || (s.backoff.Started? && s.backoff.attempt >= MAX_ATTEMPTS))
    && Bans(s.log) == (if s.banHandled then 1 else 0)
    && (s.banHandled ==> s.gaveUp)
  }

  /** Without quits a bot that has not given up gets from a reconnect to the next strike only
      through a registration. */
  ghost predicate Frugal(s: State) {
    && Since(s.log, CoolDownReconnect) <= 1
    && (!s.gaveUp ==>
          && (Since(s.log, CoolDownReconnect) == 1 ==> s.backoff.Connecting? && !s.signalled && !s.connected)
          && s.attempts == Since(s.log, Strike) <= (if s.backoff.Idle? then 0 else 1)
          && (s.backoff.Connecting? && (s.signalled || s.connected) ==> s.attempts == 0))
  }

  lemma BudgetWelcome(overlap: bool, s: State)
    ensures Budget(overlap, s) && (overlap || !Sleeping(s.backoff)) ==> Budget(overlap, OnWelcome(s))
    ensures Frugal(s) ==> Frugal(OnWelcome(s))
  {
    CountsAppend(s.log, BotConnected);
  }

  lemma BudgetStrike(overlap: bool, s: State)
    ensures Budget(overlap, s) ==> Budget(overlap, OnHostLimit(s))
    ensures Frugal(s) ==> Frugal(OnHostLimit(s))
  {
    CountsAppend(s.log, Strike);
  }

  lemma BudgetBanned(overlap: bool, s: State, code: nat)
    ensures Budget(overlap, s) ==> Budget(overlap, OnBanned(s, code))
    ensures Frugal(s) ==> Frugal(OnBanned(s, code))
  {
    CountsAppend(s.log, BotBanned(code));
  }

  lemma BudgetDisconnected(overlap: bool, s: State)
    ensures Budget(overlap, s) ==> Budget(overlap, OnDisconnected(s)) && Budget(overlap, OnReconnect(s))
    ensures Frugal(s) ==> Frugal(OnDisconnected(s)) && Frugal(OnReconnect(s))
  {
    CountsAppend(s.log, BotDisconnected);
  }

  lemma BudgetBegin(overlap: bool, s: State)
    ensures Budget(overlap, s) ==> Budget(overlap, BackoffBegin(s))
  {
    CountsAppend(s.log, BotDisconnected);
    CountsAppend(s.log + [BotDisconnected], BotDisconnected);
  }

  lemma FrugalBegin(s: State)
    ensures Frugal(s) ==> Frugal(BackoffBegin(s))
  {
    CountsAppend(s.log, BotDisconnected);
    CountsAppend(s.log + [BotDisconnected], BotDisconnected);
  }

  lemma BudgetWake(overlap: bool, s: State)
    ensures Budget(overlap, s) ==> Budget(overlap, BackoffWake(s))
    ensures Frugal(s) ==> Frugal(BackoffWake(s))
  {
    CountsAppend(s.log, CoolDownReconnect);
  }

  /** The events that say nothing. */
  lemma BudgetQuiet(overlap: bool, quits: bool, s: State, e: Event)
    requires e.BackoffRetries? || e.BackoffEnds? || e.Quit? || e.ReconnectFailed? || e.RemoveBot?
    requires Budget(overlap, s) && Possible(overlap, quits, s, e)
    ensures Budget(overlap, Step(s, e))
    ensures !quits && Frugal(s) ==> Frugal(Step(s, e))
  {
  }

  lemma BudgetStep(overlap: bool, quits: bool, s: State, e: Event)
    requires Budget(overlap, s) && Possible(overlap, quits, s, e)
    ensures Budget(overlap, Step(s, e))
    ensures !quits && Frugal(s) ==> Frugal(Step(s, e))
  {
    match e {
      case Welcome => BudgetWelcome(overlap, s);
      case Error(_) => BudgetStrike(overlap, s);
      case Banned(code) => BudgetBanned(overlap, s, code);
      case Disconnected => BudgetDisconnected(overlap, s);
      case Reconnect => BudgetDisconnected(overlap, s);
      case BackoffBegins =>
        BudgetBegin(overlap, s);
        FrugalBegin(s);
      case BackoffWakes => BudgetWake(overlap, s);
      case _ => BudgetQuiet(overlap, quits, s, e);
    }
  }

  lemma {:induction false} BudgetKept(overlap: bool, quits: bool, events: seq<Event>)
    requires Run(overlap, quits, events).Some?
    ensures Budget(overlap, Run(overlap, quits, events).value)
    ensures !quits ==> Frugal(Run(overlap, quits, events).value)
  {
    if events != [] {
      var front := events[..|events| - 1];
      BudgetKept(overlap, quits, front);
      BudgetStep(overlap, quits, Run(overlap, quits, front).value, events[|events| - 1]);
    }
  }

  /** Three strikes since the last registration: once the back-off they started has begun, the
      bot has given up. */
  lemma {:induction false} ThirdStrikeIsTerminal(overlap: bool, quits: bool, events: seq<Event>)
    requires Run(overlap, quits, events).Some?
    requires Since(Run(overlap, quits, events).value.log, Strike) >= MAX_ATTEMPTS
    ensures var s := Run(overlap, quits, events).value; s.gaveUp || BackoffBegin(s).gaveUp
    ensures var s := Run(overlap, quits, events).value; !s.backoff.Started? ==> s.gaveUp
  {
    BudgetKept(overlap, quits, events);
  }

  /** BotBanned is emitted at most once, and only by a bot that has given up. */
  lemma {:induction false} BannedOnce(overlap: bool, quits: bool, events: seq<Event>)
    requires Run(overlap, quits, events).Some?
    ensures Bans(Run(overlap, quits, events).value.log) <= 1
    ensures Bans(Run(overlap, quits, events).value.log) == 1 ==> Run(overlap, quits, events).value.gaveUp
  {
    BudgetKept(overlap, quits, events);
  }

  function StepAll(s: State, events: seq<Event>): State
    decreases |events|
  {
    if events == [] then s else StepAll(Step(s, events[0]), events[1..])
  }

  /** What was added to the log is neither a registration nor a cool-down reconnect. */
  predicate Silently(log: seq<Out>, more: seq<Out>) {
    && log <= more
    && forall i :: |log| <= i < |more| ==> more[i] != BotConnected && more[i] != CoolDownReconnect
  }

  lemma SilentlyOn(a: seq<Out>, b: seq<Out>, c: seq<Out>)
    requires Silently(a, b) && Silently(b, c)
    ensures Silently(a, c)
  {
    forall i | |a| <= i < |c| ensures c[i] != BotConnected && c[i] != CoolDownReconnect {
      if i < |b| { assert c[i] == b[i]; }
    }
  }

  lemma SilentlyOne(log: seq<Out>, o: Out)
    requires o != BotConnected && o != CoolDownReconnect
    ensures Silently(log, log + [o])
  {
  }

  lemma GaveUpStep(s: State, e: Event)
    requires s.gaveUp
    ensures Step(s, e).gaveUp && Silently(s.log, Step(s, e).log)
  {
    match e {
      case Error(_) => SilentlyOne(s.log, Strike);
      case Banned(code) => SilentlyOne(s.log, BotBanned(code));
      case Disconnected => SilentlyOne(s.log, BotDisconnected);
      case Reconnect => SilentlyOne(s.log, BotDisconnected);
      case BackoffBegins =>
        SilentlyOne(s.log, BotDisconnected);
        SilentlyOne(s.log + [BotDisconnected], BotDisconnected);
        SilentlyOn(s.log, s.log + [BotDisconnected], s.log + [BotDisconnected] + [BotDisconnected]);
      case _ =>
    }
  }

  /** gaveUp is for good: nothing clears it, no later 001 emits BotConnected, and no
      cool-down ends in a reconnect. */
  lemma {:induction false} GaveUpForGood(s: State, events: seq<Event>)
    requires s.gaveUp
    ensures StepAll(s, events).gaveUp && Silently(s.log, StepAll(s, events).log)
    decreases |events|
  {
    if events != [] {
      var m := Step(s, events[0]);
      GaveUpStep(s, events[0]);
      GaveUpForGood(m, events[1..]);
      SilentlyOn(s.log, m.log, StepAll(m, events[1..]).log);
    }
  }

  // ------------------------------------------------------------ the budget is exact

  lemma Extend(overlap: bool, quits: bool, events: seq<Event>, s: State, e: Event) returns (more: seq<Event>, s': State)
    requires Run(overlap, quits, events) == Some(s) && Possible(overlap, quits, s, e)
    ensures more == events + [e] && s' == Step(s, e) && Run(overlap, quits, more) == Some(s')
  {
    more, s' := events + [e], Step(s, e);
    assert more[..|events|] == events;
  }

  const HOST_LIMIT := "too many host connections"

  lemma ItsOwnMessage()
    ensures IsTooManyHostConnectionsError(HOST_LIMIT)
  {
    assert ToLower(HOST_LIMIT) == HOST_LIMIT;
  }

  lemma StrikeStep(s: State)
    ensures Step(s, Error(HOST_LIMIT)) == OnHostLimit(s)
  {
    ItsOwnMessage();
  }

  /** One strike and the reconnect after its cool-down. */
  lemma StrikeAndReconnect(overlap: bool, quits: bool, events: seq<Event>, s: State)
    returns (more: seq<Event>, s': State)
    requires Run(overlap, quits, events) == Some(s) && s.backoff.Idle? && !s.gaveUp && s.attempts + 1 < MAX_ATTEMPTS
    ensures Run(overlap, quits, more) == Some(s') && s'.backoff.Connecting? && !s'.gaveUp
    ensures s'.attempts == s.attempts + 1 && s'.log == s.log + [Strike] + [BotDisconnected] + [CoolDownReconnect]
    ensures Since(s'.log, CoolDownReconnect) == Since(s.log, CoolDownReconnect) + 1
  {
    StrikeStep(s);
    more, s' := Extend(overlap, quits, events, s, Error(HOST_LIMIT));
    more, s' := Extend(overlap, quits, more, s', BackoffBegins);
    more, s' := Extend(overlap, quits, more, s', BackoffWakes);
    CountsAppend(s.log, Strike);
    CountsAppend(s.log + [Strike], BotDisconnected);
    CountsAppend(s.log + [Strike] + [BotDisconnected], CoolDownReconnect);
  }

  /** A quit ends the reconnect without a registration; the operator brings the bot back. */
  lemma QuitAndBack(overlap: bool, events: seq<Event>, s: State) returns (more: seq<Event>, s': State)
    requires Run(overlap, true, events) == Some(s) && s.backoff.Connecting? && !s.gaveUp
    ensures Run(overlap, true, more) == Some(s') && s'.backoff.Idle? && !s'.gaveUp && s'.attempts == s.attempts
    ensures Since(s'.log, CoolDownReconnect) == Since(s.log, CoolDownReconnect)
  {
    more, s' := Extend(overlap, true, events, s, Quit);
    more, s' := Extend(overlap, true, more, s', BackoffEnds(true));
    more, s' := Extend(overlap, true, more, s', Reconnect);
    CountsAppend(s.log, BotDisconnected);
  }

  lemma OneReconnect(overlap: bool, quits: bool) returns (events: seq<Event>, s: State)
    ensures Run(overlap, quits, events) == Some(s) && s.backoff.Connecting? && !s.gaveUp && s.attempts == 1
    ensures Since(s.log, CoolDownReconnect) == 1
  {
    events, s := StrikeAndReconnect(overlap, quits, [], INITIAL);
  }

  lemma TwoReconnects(overlap: bool) returns (events: seq<Event>, s: State)
    ensures Run(overlap, true, events) == Some(s) && Since(s.log, CoolDownReconnect) == 2
  {
    events, s := OneReconnect(overlap, true);
    events, s := QuitAndBack(overlap, events, s);
    events, s := StrikeAndReconnect(overlap, true, events, s);
  }

  lemma StrikeAndRegistration() returns (events: seq<Event>, s: State)
    ensures Run(true, true, events) == Some(s) && s.backoff.Cooling? && !s.gaveUp && s.attempts == 0
    ensures s.log != [] && s.log[|s.log| - 1] == BotConnected
  {
    StrikeStep(INITIAL);
    events, s := Extend(true, true, [], INITIAL, Error(HOST_LIMIT));
    events, s := Extend(true, true, events, s, BackoffBegins);
    events, s := Extend(true, true, events, s, Reconnect);
    events, s := Extend(true, true, events, s, Welcome);
  }

  /** A registration while a back-off sleeps clears its strike but not its reconnect. */
  lemma OverlappedReconnect() returns (events: seq<Event>, s: State)
    ensures Run(true, true, events) == Some(s) && s.backoff.Connecting? && !s.gaveUp && s.attempts == 0
    ensures Since(s.log, CoolDownReconnect) == 1
  {
    events, s := StrikeAndRegistration();
    CountsAppend(s.log, CoolDownReconnect);
    events, s := Extend(true, true, events, s, BackoffWakes);
  }

  lemma ThreeReconnects() returns (events: seq<Event>, s: State)
    ensures Run(true, true, events) == Some(s) && Since(s.log, CoolDownReconnect) == 3
  {
    events, s := OverlappedReconnect();
    events, s := QuitAndBack(true, events, s);
    events, s := StrikeAndReconnect(true, true, events, s);
    events, s := QuitAndBack(true, events, s);
    events, s := StrikeAndReconnect(true, true, events, s);
  }

  /** A run of these events ends with at most n cool-down reconnects since the registration. */
  predicate Within(overlap: bool, quits: bool, events: seq<Event>, n: nat) {
    Run(overlap, quits, events).Some? ==> Since(Run(overlap, quits, events).value.log, CoolDownReconnect) <= n
  }

  /** The most cool-down reconnects between registrations. */
  function Bound(overlap: bool, quits: bool): nat {
    if !quits then 1 else if !overlap then 2 else 3
  }

  lemma BoundIsReached(overlap: bool, quits: bool) returns (events: seq<Event>, s: State)
    ensures Run(overlap, quits, events) == Some(s) && Since(s.log, CoolDownReconnect) == Bound(overlap, quits)
  {
    if !quits {
      events, s := OneReconnect(overlap, quits);
    } else if !overlap {
      events, s := TwoReconnects(overlap);
    } else {
      events, s := ThreeReconnects();
    }
  }

  /** The budget, exactly: between registrations there are at most one cool-down reconnect, two if
      the bot may be told to quit meanwhile, three if besides a registration may be accepted while
      a back-off is asleep; and each of these numbers is reached. */
  lemma {:induction false} ReconnectBudget(overlap: bool, quits: bool, n: nat)
    ensures (forall events :: Within(overlap, quits, events, n)) <==> n >= Bound(overlap, quits)
  {
    if n >= Bound(overlap, quits) {
      forall events ensures Within(overlap, quits, events, n) {
        if Run(overlap, quits, events).Some? { BudgetKept(overlap, quits, events); }
      }
    } else {
      var events, s := BoundIsReached(overlap, quits);
      assert !Within(overlap, quits, events, n);
    }
  }

  /** Unless it may be told to quit, a bot has given up before its second strike since a
      registration: the budget of three is never used up. */
  lemma {:induction false} SecondStrikeNeedsQuit(overlap: bool, events: seq<Event>)
    requires Run(overlap, false, events).Some? && !Run(overlap, false, events).value.gaveUp
    ensures Since(Run(overlap, false, events).value.log, Strike) <= 1
  {
    BudgetKept(overlap, false, events);
  }

  // ------------------------------------------------------------ what the latches and counters say

  /** The text stands in the message at i, in any spelling. */
  predicate SpelledAt(msg: string, text: string, i: nat) {
    i + |text| <= |msg| && ToLower(msg[i..i + |text|]) == text
  }

  ghost predicate SaysHostLimit(msg: string) {
    exists i: nat :: SpelledAt(msg, HOST_LIMIT, i)
  }

  predicate OccursAt(s: string, sub: string, i: nat) {
    i + |sub| <= |s| && s[i..i + |sub|] == sub
  }

  lemma OccursShifted(s: string, sub: string, i: nat)
    requires s != ""
    ensures OccursAt(s[1..], sub, i) <==> OccursAt(s, sub, i + 1)
  {
    if i + 1 + |sub| <= |s| { assert s[1..][i..i + |sub|] == s[i + 1..i + 1 + |sub|]; }
  }

  lemma {:induction false} ContainsAt(s: string, sub: string)
    ensures Contains(s, sub) <==> exists i: nat :: OccursAt(s, sub, i)
  {
    if sub <= s {
      assert OccursAt(s, sub, 0);
    } else if s != "" {
      ContainsAt(s[1..], sub);
      if i: nat :| OccursAt(s[1..], sub, i) {
        OccursShifted(s, sub, i);
      }
      if i: nat :| OccursAt(s, sub, i) {
        assert i > 0;
        OccursShifted(s, sub, i - 1);
      }
    }
  }

  lemma SpelledInLower(msg: string, text: string)
    ensures Contains(ToLower(msg), text) <==> exists i: nat :: SpelledAt(msg, text, i)
  {
    var low := ToLower(msg);
    ContainsAt(low, text);
    forall i: nat ensures OccursAt(low, text, i) <==> SpelledAt(msg, text, i) {
      if i + |text| <= |msg| { assert low[i..i + |text|] == ToLower(msg[i..i + |text|]); }
    }
  }

  /** A host-limit error is recognised wherever the text stands in it and however it is spelled. */
  lemma HostLimitExactly(msg: string)
    ensures IsTooManyHostConnectionsError(msg) <==> SaysHostLimit(msg)
  {
    SpelledInLower(msg, HOST_LIMIT);
  }

  /** The event is a host-limit error that meets no back-off. */
  ghost predicate Strikes(s: State, e: Event) {
    e.Error? && SaysHostLimit(e.msg) && s.backoff.Idle?
  }

  /** The event ends the bot's life. */
  predicate Ends(s: State, e: Event) {
    match e
    case Banned(_) => true
    case RemoveBot => true
    case ReconnectFailed => true
    case BackoffBegins => s.backoff.Started? && s.backoff.attempt >= 3
    case BackoffEnds(ok) => s.backoff.Connecting? && !ok
    case _ => false
  }

  /** The event takes the bot off the server. */
  predicate Drops(s: State, e: Event) {
    match e
    case Disconnected => true
    case Quit => true
    case Reconnect => true
    case RemoveBot => true
    case BackoffBegins => s.backoff.Started?
    case BackoffWakes => s.backoff.Cooling? && !s.gaveUp
    case BackoffRetries => s.backoff.Connecting?
    case BackoffEnds(ok) => s.backoff.Connecting? && !ok
    case _ => false
  }

  ghost predicate StrikesAt(overlap: bool, quits: bool, events: seq<Event>, i: nat) {
    && i < |events| && Run(overlap, quits, events[..i]).Some?
    && Strikes(Run(overlap, quits, events[..i]).value, events[i])
  }

  predicate EndsAt(overlap: bool, quits: bool, events: seq<Event>, i: nat) {
    && i < |events| && Run(overlap, quits, events[..i]).Some?
    && Ends(Run(overlap, quits, events[..i]).value, events[i])
  }

  predicate DropsAt(overlap: bool, quits: bool, events: seq<Event>, i: nat) {
    && i < |events| && Run(overlap, quits, events[..i]).Some?
    && Drops(Run(overlap, quits, events[..i]).value, events[i])
  }

  function CountStrikes(log: seq<Out>): nat {
    if log == [] then 0 else CountStrikes(log[..|log| - 1]) + if log[|log| - 1] == Strike then 1 else 0
  }

  /** How many of the first n events are strikes. */
  ghost function StrikesUpto(overlap: bool, quits: bool, events: seq<Event>, n: nat): nat {
    if n == 0 then 0
    else StrikesUpto(overlap, quits, events, n - 1) + if StrikesAt(overlap, quits, events, n - 1) then 1 else 0
  }

  lemma CountAppend(log: seq<Out>, o: Out)
    ensures CountStrikes(log + [o]) == CountStrikes(log) + if o == Strike then 1 else 0
  {
    assert (log + [o])[..|log|] == log;
  }

  lemma GaveUpNext(s: State, e: Event)
    requires s.banHandled ==> s.gaveUp
    ensures Step(s, e).gaveUp <==> s.gaveUp || Ends(s, e)
  {
  }

  lemma BanNext(s: State, e: Event)
    ensures Step(s, e).banHandled <==> s.banHandled || e.Banned?
  {
  }

  lemma ConnectedNext(s: State, e: Event)
    ensures Step(s, e).connected <==> (e.Welcome? && !s.gaveUp) || (s.connected && !Drops(s, e))
  {
  }

  lemma ErrorStrikes(s: State, msg: string)
    ensures CountStrikes(OnError(s, msg).log) == CountStrikes(s.log) + if Strikes(s, Error(msg)) then 1 else 0
  {
    HostLimitExactly(msg);
    CountAppend(s.log, Strike);
  }

  lemma BeginStrikes(s: State)
    ensures CountStrikes(BackoffBegin(s).log) == CountStrikes(s.log)
  {
    CountAppend(s.log, BotDisconnected);
    CountAppend(s.log + [BotDisconnected], BotDisconnected);
  }

  /** The log has at most grown by something else than a strike. */
  predicate NoStrike(log: seq<Out>, more: seq<Out>) {
    more == log || (|more| == |log| + 1 && more[..|log|] == log && more[|log|] != Strike)
  }

  lemma NoStrikeCounts(log: seq<Out>, more: seq<Out>)
    requires NoStrike(log, more)
    ensures CountStrikes(more) == CountStrikes(log)
  {
  }

  lemma OtherStrikes(s: State, e: Event)
    requires !e.Error? && !e.BackoffBegins?
    ensures CountStrikes(Step(s, e).log) == CountStrikes(s.log)
  {
    assert NoStrike(s.log, Step(s, e).log);
    NoStrikeCounts(s.log, Step(s, e).log);
  }

  lemma StrikesNext(s: State, e: Event)
    ensures CountStrikes(Step(s, e).log) == CountStrikes(s.log) + if Strikes(s, e) then 1 else 0
  {
    if e.Error? {
      ErrorStrikes(s, e.msg);
    } else if e.BackoffBegins? {
      BeginStrikes(s);
    } else {
      OtherStrikes(s, e);
    }
  }

  lemma AtBefore(overlap: bool, quits: bool, events: seq<Event>, i: nat)
    requires i + 1 < |events|
    ensures EndsAt(overlap, quits, events[..|events| - 1], i) <==> EndsAt(overlap, quits, events, i)
    ensures DropsAt(overlap, quits, events[..|events| - 1], i) <==> DropsAt(overlap, quits, events, i)
    ensures StrikesAt(overlap, quits, events[..|events| - 1], i) <==> StrikesAt(overlap, quits, events, i)
  {
    assert events[..|events| - 1][..i] == events[..i];
  }

  lemma BannedHasGivenUp(overlap: bool, quits: bool, events: seq<Event>)
    requires Run(overlap, quits, events).Some?
    ensures Run(overlap, quits, events).value.banHandled ==> Run(overlap, quits, events).value.gaveUp
  {
    BudgetKept(overlap, quits, events);
  }

  ghost predicate Ended(overlap: bool, quits: bool, events: seq<Event>) {
    exists i: nat :: EndsAt(overlap, quits, events, i)
  }

  lemma EndedNext(overlap: bool, quits: bool, events: seq<Event>)
    requires events != [] && Run(overlap, quits, events[..|events| - 1]).Some?
    ensures Ended(overlap, quits, events)
      <==> Ended(overlap, quits, events[..|events| - 1])
           || Ends(Run(overlap, quits, events[..|events| - 1]).value, events[|events| - 1])
  {
    var n := |events| - 1;
    if i: nat :| EndsAt(overlap, quits, events[..n], i) {
      AtBefore(overlap, quits, events, i);
    }
    if i: nat :| EndsAt(overlap, quits, events, i) {
      if i < n { AtBefore(overlap, quits, events, i); }
    }
    if Ends(Run(overlap, quits, events[..n]).value, events[n]) { assert EndsAt(overlap, quits, events, n); }
  }

  /** A bot has given up exactly if it was banned or removed, a reconnect failed, or a back-off
      began for its third strike. */
  lemma {:induction false} GaveUpExactly(overlap: bool, quits: bool, events: seq<Event>)
    requires Run(overlap, quits, events).Some?
    ensures Run(overlap, quits, events).value.gaveUp <==> Ended(overlap, quits, events)
  {
    if events != [] {
      var front := events[..|events| - 1];
      GaveUpExactly(overlap, quits, front);
      BannedHasGivenUp(overlap, quits, front);
      var s, e := Run(overlap, quits, front).value, events[|front|];
      GaveUpNext(s, e);
      EndedNext(overlap, quits, events);
      assert Run(overlap, quits, events) == Some(Step(s, e));
    }
  }

  predicate EverBanned(events: seq<Event>) {
    exists i :: 0 <= i < |events| && events[i].Banned?
  }

  lemma EverBannedNext(events: seq<Event>)
    requires events != []
    ensures EverBanned(events) <==> EverBanned(events[..|events| - 1]) || events[|events| - 1].Banned?
  {
    var front := events[..|events| - 1];
    if EverBanned(front) {
      var i :| 0 <= i < |front| && front[i].Banned?;
      assert events[i].Banned?;
    }
    if EverBanned(events) {
      var i :| 0 <= i < |events| && events[i].Banned?;
      if i < |front| { assert front[i].Banned?; }
    }
  }

  /** BotBanned has been emitted once if the bot was ever banned, and not at all otherwise. */
  lemma {:induction false} BannedExactly(overlap: bool, quits: bool, events: seq<Event>)
    requires Run(overlap, quits, events).Some?
    ensures Bans(Run(overlap, quits, events).value.log) == if EverBanned(events) then 1 else 0
  {
    BudgetKept(overlap, quits, events);
    BanLatched(overlap, quits, events);
  }

  lemma {:induction false} BanLatched(overlap: bool, quits: bool, events: seq<Event>)
    requires Run(overlap, quits, events).Some?
    ensures Run(overlap, quits, events).value.banHandled <==> EverBanned(events)
  {
    if events != [] {
      var front := events[..|events| - 1];
      BanLatched(overlap, quits, front);
      BanNext(Run(overlap, quits, front).value, events[|front|]);
      assert Run(overlap, quits, events) == Some(Step(Run(overlap, quits, front).value, events[|front|]));
      EverBannedNext(events);
    }
  }

  /** The i-th event registers the bot, and nothing has taken it off the server since. */
  ghost predicate RegisteredAt(overlap: bool, quits: bool, events: seq<Event>, i: nat) {
    && i < |events| && events[i].Welcome?
    && Run(overlap, quits, events[..i]).Some? && !Run(overlap, quits, events[..i]).value.gaveUp
    && forall j: nat :: i < j < |events| ==> !DropsAt(overlap, quits, events, j)
  }

  lemma RegisteredBefore(overlap: bool, quits: bool, events: seq<Event>, i: nat)
    requires i + 1 < |events|
    ensures RegisteredAt(overlap, quits, events, i)
      <==> RegisteredAt(overlap, quits, events[..|events| - 1], i) && !DropsAt(overlap, quits, events, |events| - 1)
  {
    var front := events[..|events| - 1];
    assert front[..i] == events[..i];
    forall j: nat | i < j < |front| ensures DropsAt(overlap, quits, front, j) <==> DropsAt(overlap, quits, events, j) {
      AtBefore(overlap, quits, events, j);
    }
  }

  /** A bot is connected exactly if it was registered, not having given up, and nothing has taken it
      off the server since. */
  lemma {:induction false} ConnectedExactly(overlap: bool, quits: bool, events: seq<Event>)
    requires Run(overlap, quits, events).Some?
    ensures Run(overlap, quits, events).value.connected <==> exists i: nat :: RegisteredAt(overlap, quits, events, i)
  {
    if events != [] {
      var n := |events| - 1;
      ConnectedExactly(overlap, quits, events[..n]);
      ConnectedNext(Run(overlap, quits, events[..n]).value, events[n]);
      forall i: nat | i < n
        ensures RegisteredAt(overlap, quits, events, i)
          <==> RegisteredAt(overlap, quits, events[..n], i) && !DropsAt(overlap, quits, events, n)
      {
        RegisteredBefore(overlap, quits, events, i);
      }
      if events[n].Welcome? && !Run(overlap, quits, events[..n]).value.gaveUp {
        assert RegisteredAt(overlap, quits, events, n);
      }
    }
  }

  lemma {:induction false} StrikesUptoSame(overlap: bool, quits: bool, events: seq<Event>, n: nat)
    requires n < |events|
    ensures StrikesUpto(overlap, quits, events[..|events| - 1], n) == StrikesUpto(overlap, quits, events, n)
  {
    if n > 0 {
      StrikesUptoSame(overlap, quits, events, n - 1);
      AtBefore(overlap, quits, events, n - 1);
    }
  }

  /** The strikes are exactly the host-limit errors that met no back-off. */
  lemma {:induction false} StrikesExactly(overlap: bool, quits: bool, events: seq<Event>)
    requires Run(overlap, quits, events).Some?
    ensures CountStrikes(Run(overlap, quits, events).value.log) == StrikesUpto(overlap, quits, events, |events|)
  {
    if events != [] {
      var n := |events| - 1;
      StrikesExactly(overlap, quits, events[..n]);
      StrikesNext(Run(overlap, quits, events[..n]).value, events[n]);
      StrikesUptoSame(overlap, quits, events, n);
    }
  }
}
