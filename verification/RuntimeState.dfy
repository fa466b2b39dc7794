/** internal/runtime/state.go: setters, readers and observers as interleaved steps under the
    locks setMu and mu, and the same operations as methods. */
module RuntimeState {
  import opened Text
  import Lists = ChannelLists

  datatype Watchdog = Watchdog(enabled: bool, channel: string)
  datatype Humanlike = Humanlike(enabled: bool, channels: seq<string>)
  datatype Snapshot = Snapshot(watchdog: Watchdog, humanlike: Humanlike)

  /** The argument of a setter. */
  datatype Change = ToWatchdog(watchdog: Watchdog) | ToHumanlike(humanlike: Humanlike)

  /** The checks before any lock is taken: what will be stored, if they pass. */
  function Checked(c: Change): Option<Change> {
    match c
    case ToWatchdog(w) =>
      var channel := Lists.TrimSpace(w.channel);
      if channel != "" && !Lists.ValidChannel(channel) then None
      else Some(ToWatchdog(w.(channel := channel)))
    case ToHumanlike(h) =>
      match Lists.Normalized(h.channels)
      case Err(_, _) => None
      case Ok(clean) => Some(ToHumanlike(Humanlike(h.enabled, clean)))
  }

  function Applied(s: Snapshot, c: Change): Snapshot {
    match c
    case ToWatchdog(w) => s.(watchdog := w)
    case ToHumanlike(h) => s.(humanlike := h)
  }

  // ------------------------------------------------------------ interleaved calls

  /** Where one call of a setter or of Get is. */
  datatype Pc =
    | Queued(change: Change)      // waiting for setMu
    | Locking(change: Change)     // holds setMu, waits for mu
    | Writing(change: Change)     // holds both
    | Saving                      // memory changed, about to persist
    | Copying                     // persisted, about to take the snapshot
    | Unlocking(snap: Snapshot)   // about to release mu
    | Failing                     // persist failed, about to release mu
    | Leaving(ok: bool)           // about to release setMu
    | Notifying(snap: Snapshot)   // about to copy the listener list
    | Telling(snap: Snapshot, n: nat, next: nat) // calling listener `next` of n
    | Finished(ok: bool)
    | Asking(since: nat)          // a reader waiting for mu
    | Reading(since: nat)         // holds mu for reading
    | HalfRead(since: nat, watchdog: Watchdog)
    | Answering(since: nat, snap: Snapshot)
    | Answered(since: nat, at: nat, snap: Snapshot)

  predicate HoldsSet(pc: Pc) {
    || pc.Locking? || pc.Writing? || pc.Saving? || pc.Copying? || pc.Unlocking? || pc.Failing?
    || pc.Leaving? || pc.Notifying? || pc.Telling?
  }

  predicate HoldsMu(pc: Pc) {
    pc.Writing? || pc.Saving? || pc.Copying? || pc.Unlocking? || pc.Failing?
  }

  predicate Reads(pc: Pc) {
    pc.Reading? || pc.HalfRead? || pc.Answering?
  }

  /** `saved` lists what was persisted, beginning with the loaded state; `settled` lists what
      memory held whenever mu was free; `from[k]` says how much had been persisted and handed
      out when listener k registered.  They only record. */
  datatype State = State(
    memory: Snapshot,
    disk: Snapshot,
    setMu: Option<nat>,
    writer: Option<nat>,
    readers: set<nat>,
    calls: seq<Pc>,
    logs: seq<seq<Snapshot>>,
    lastSetOk: bool,
    saved: seq<Snapshot>,
    settled: seq<Snapshot>,
    from: seq<nat>)

  datatype Action = Set(change: Change) | Get | OnChange | Step(call: nat, diskOk: bool)

  function Start(loaded: Snapshot): State {
    State(loaded, loaded, None, None, {}, [], [], true, [loaded], [loaded], [])
  }

  /** The call holding setMu has persisted a state no listener has been told yet. */
  predicate Undelivered(s: State) {
    && s.setMu.Some? && s.setMu.value < |s.calls|
    && var pc := s.calls[s.setMu.value]; pc.Copying? || pc.Unlocking? || pc.Notifying?
  }

  predicate Enabled(s: State, a: Action) {
    a.Step? ==>
      && a.call < |s.calls|
      && match s.calls[a.call]
         case Queued(_) => s.setMu.None?
         case Locking(_) => s.writer.None? && s.readers == {}
         case Asking(_) => s.writer.None?
         case Finished(_) => false
         case Answered(_, _, _) => false
         case _ => true
  }

  /** One step of call t; persisting succeeds or fails as `diskOk` says. */
  function Exec(s: State, t: nat, diskOk: bool): State
    requires t < |s.calls| && Enabled(s, Step(t, diskOk)) && |s.settled| > 0
  {
    match s.calls[t]
    case Queued(c) => s.(setMu := Some(t), calls := s.calls[t := Locking(c)])
    case Locking(c) => s.(writer := Some(t), calls := s.calls[t := Writing(c)])
    case Writing(c) => s.(memory := Applied(s.memory, c), calls := s.calls[t := Saving])
    case Saving =>
      if diskOk then
        s.(disk := s.memory, saved := s.saved + [s.memory], lastSetOk := true, calls := s.calls[t := Copying])
      else s.(lastSetOk := false, calls := s.calls[t := Failing])
    case Copying => s.(calls := s.calls[t := Unlocking(s.memory)])
    case Unlocking(snap) =>
      s.(writer := None, settled := s.settled + [s.memory], calls := s.calls[t := Notifying(snap)])
    case Failing =>
      s.(writer := None, settled := s.settled + [s.memory], calls := s.calls[t := Leaving(false)])
    case Notifying(snap) => s.(calls := s.calls[t := Telling(snap, |s.logs|, 0)])
    case Telling(snap, n, next) =>
      if next < n && next < |s.logs| then
        s.(logs := s.logs[next := s.logs[next] + [snap]], calls := s.calls[t := Telling(snap, n, next + 1)])
      else s.(calls := s.calls[t := Leaving(true)])
    case Leaving(ok) => s.(setMu := None, calls := s.calls[t := Finished(ok)])
    case Asking(since) => s.(readers := s.readers + {t}, calls := s.calls[t := Reading(since)])
    case Reading(since) => s.(calls := s.calls[t := HalfRead(since, s.memory.watchdog)])
    case HalfRead(since, w) => s.(calls := s.calls[t := Answering(since, Snapshot(w, s.memory.humanlike))])
    case Answering(since, snap) =>
      s.(readers := s.readers - {t}, calls := s.calls[t := Answered(since, |s.settled| - 1, snap)])
  }

  function Next(s: State, a: Action): State
    requires |s.settled| > 0 && |s.saved| > 0
  {
    match a
    case Set(c) =>
      s.(calls := s.calls + [Entry(c)])
    case Get => s.(calls := s.calls + [Asking(|s.settled| - 1)])
    case OnChange =>
      s.(logs := s.logs + [[]], from := s.from + [|s.saved| - if Undelivered(s) then 1 else 0])
    case Step(t, diskOk) => if Enabled(s, a) then Exec(s, t, diskOk) else s
  }

  function Run(s: State, actions: seq<Action>): (r: State)
    requires |s.settled| > 0 && |s.saved| > 0
    ensures |r.settled| > 0 && |r.saved| > 0
    decreases |actions|
  {
    if actions == [] then s else Next(Run(s, actions[..|actions| - 1]), actions[|actions| - 1])
  }

  // ------------------------------------------------------------ invariants

  /** The locks are held by the calls whose position says so. */
  ghost predicate LockInv(s: State) {
    SetMuInv(s) && MuInv(s)
  }

  ghost predicate SetMuInv(s: State) {
    && (s.setMu.Some? ==> s.setMu.value < |s.calls| && HoldsSet(s.calls[s.setMu.value]))
    && (forall t :: 0 <= t < |s.calls| && HoldsSet(s.calls[t]) ==> s.setMu == Some(t))
  }

  ghost predicate MuInv(s: State) {
    && (s.writer.Some? ==> s.writer.value < |s.calls| && HoldsMu(s.calls[s.writer.value]) && s.readers == {})
    && (forall t :: 0 <= t < |s.calls| && HoldsMu(s.calls[t]) ==> s.writer == Some(t))
    && (forall t: nat :: t in s.readers <==> t < |s.calls| && Reads(s.calls[t]))
  }

  /** What the position of a call says about the shared state. */
  ghost predicate CallInv(s: State, pc: Pc)
    requires |s.settled| > 0
  {
    match pc
    case Copying => s.lastSetOk && s.memory == s.disk
    case Unlocking(snap) => s.lastSetOk && snap == s.memory == s.disk
    case Notifying(snap) => s.lastSetOk && snap == s.memory == s.disk
    case Telling(snap, n, next) => s.lastSetOk && snap == s.memory == s.disk && next <= n <= |s.logs|
    case Failing => !s.lastSetOk
    case Leaving(ok) => s.lastSetOk == ok
    case Asking(since) => since < |s.settled|
    case Reading(since) => since < |s.settled|
    case HalfRead(since, w) => since < |s.settled| && w == s.memory.watchdog
    case Answering(since, snap) => since < |s.settled| && snap == s.memory
    case Answered(since, at, snap) => since <= at < |s.settled| && s.settled[at] == snap
    case _ => true
  }

  ghost predicate CallsInv(s: State)
    requires |s.settled| > 0
  {
    forall t :: 0 <= t < |s.calls| ==> CallInv(s, s.calls[t])
  }

  predicate MidWrite(pc: Pc) {
    pc.Saving? || pc.Copying? || pc.Unlocking? || pc.Failing?
  }

  /** The call holding mu for writing has changed memory. */
  predicate Unsettled(s: State) {
    s.writer.Some? && s.writer.value < |s.calls| && MidWrite(s.calls[s.writer.value])
  }

  predicate Persisting(s: State) {
    s.writer.Some? && s.writer.value < |s.calls| && s.calls[s.writer.value].Saving?
  }

  ghost predicate MemoryInv(s: State) {
    && |s.saved| > 0 && |s.settled| > 0
    && s.disk == s.saved[|s.saved| - 1]
    && (Unsettled(s) || s.memory == s.settled[|s.settled| - 1])
    && (s.lastSetOk ==> Persisting(s) || s.memory == s.disk)
  }

  /** Listener k is still to be told the newest persisted state. */
  predicate Pending(s: State, k: nat) {
    || Undelivered(s)
    || (s.setMu.Some? && s.setMu.value < |s.calls|
        && var pc := s.calls[s.setMu.value]; pc.Telling? && pc.next <= k < pc.n)
  }

  ghost predicate LogInv(s: State, k: nat)
    requires k < |s.logs| && k < |s.from|
  {
    && s.from[k] + |s.logs[k]| + (if Pending(s, k) then 1 else 0) == |s.saved|
    && s.logs[k] == s.saved[s.from[k]..s.from[k] + |s.logs[k]|]
  }

  ghost predicate LogsInv(s: State) {
    && |s.from| == |s.logs|
    && forall k :: 0 <= k < |s.logs| ==> LogInv(s, k)
  }

  ghost predicate Inv(s: State) {
    LockInv(s) && MemoryInv(s) && CallsInv(s) && LogsInv(s)
  }

  /** The call's step as far as the locks go: where it leads ... */
  ghost predicate PlaceMove(s: State, t: nat, s': State) {
    && t < |s.calls| && |s'.calls| == |s.calls| && s'.calls == s.calls[t := s'.calls[t]]
    && var pc, pc' := s.calls[t], s'.calls[t];
    && (HoldsSet(pc') <==> pc.Queued? || (HoldsSet(pc) && !pc.Leaving?))
    && (HoldsMu(pc') <==> pc.Locking? || (HoldsMu(pc) && !pc.Unlocking? && !pc.Failing?))
    && (Reads(pc') <==> pc.Asking? || (Reads(pc) && !pc.Answering?))
  }

  /** ... what it found free, and what it takes and gives back. */
  ghost predicate LockMove(s: State, t: nat, s': State) {
    && t < |s.calls|
    && var pc := s.calls[t];
    && (pc.Queued? ==> s.setMu.None?)
    && (pc.Locking? ==> s.writer.None? && s.readers == {})
    && (pc.Asking? ==> s.writer.None?)
    && s'.setMu == (if pc.Queued? then Some(t) else if pc.Leaving? then None else s.setMu)
    && s'.writer == (if pc.Locking? then Some(t) else if pc.Unlocking? || pc.Failing? then None else s.writer)
    && s'.readers ==
       (if pc.Asking? then s.readers + {t} else if pc.Answering? then s.readers - {t} else s.readers)
  }

  lemma ExecLocks(s: State, t: nat, diskOk: bool)
    requires t < |s.calls| && Enabled(s, Step(t, diskOk)) && |s.settled| > 0
    ensures LockMove(s, t, Exec(s, t, diskOk))
  {
  }

  lemma ExecPlaces(s: State, t: nat, diskOk: bool)
    requires t < |s.calls| && Enabled(s, Step(t, diskOk)) && |s.settled| > 0
    ensures PlaceMove(s, t, Exec(s, t, diskOk))
  {
  }

  lemma SetMuKept(s: State, t: nat, s': State)
    requires SetMuInv(s) && LockMove(s, t, s') && PlaceMove(s, t, s')
    ensures SetMuInv(s')
  {
  }

  lemma MuKept(s: State, t: nat, s': State)
    requires MuInv(s) && LockMove(s, t, s') && PlaceMove(s, t, s')
    ensures MuInv(s')
  {
  }

  lemma MemoryExec(s: State, t: nat, diskOk: bool)
    requires LockInv(s) && MemoryInv(s) && CallInvAt(s, t) && Enabled(s, Step(t, diskOk))
    ensures MemoryInv(Exec(s, t, diskOk))
  {
  }

  ghost predicate CallInvAt(s: State, t: nat) {
    |s.settled| > 0 && t < |s.calls| && CallInv(s, s.calls[t])
  }

  /** A step keeps what every other call relies on. */
  lemma OtherCallKept(s: State, t: nat, diskOk: bool, u: nat)
    requires LockInv(s) && MemoryInv(s) && CallsInv(s)
    requires t < |s.calls| && u < |s.calls| && u != t && Enabled(s, Step(t, diskOk))
    ensures CallInv(Exec(s, t, diskOk), s.calls[u])
  {
    assert CallInv(s, s.calls[u]);
  }

  lemma OwnCallKept(s: State, t: nat, diskOk: bool)
    requires LockInv(s) && MemoryInv(s) && CallsInv(s)
    requires t < |s.calls| && Enabled(s, Step(t, diskOk))
    ensures CallInv(Exec(s, t, diskOk), Exec(s, t, diskOk).calls[t])
  {
    assert CallInv(s, s.calls[t]);
  }

  lemma LogRegistered(s: State, k: nat)
    requires Inv(s) && k <= |s.logs|
    ensures LogInv(Next(s, OnChange), k)
  {
    if s.setMu.Some? { assert CallInv(s, s.calls[s.setMu.value]); }
    if k < |s.logs| { assert LogInv(s, k); }
  }

  lemma LogTold(s: State, t: nat, k: nat)
    requires Inv(s) && k < |s.logs| && t < |s.calls| && s.calls[t].Telling?
    ensures LogInv(Exec(s, t, true), k)
  {
    assert CallInv(s, s.calls[t]) && LogInv(s, k);
    assert s.setMu == Some(t);
    if s.calls[t].next == k < s.calls[t].n {
      assert s.saved[s.from[k]..] == s.saved[s.from[k]..|s.saved| - 1] + [s.calls[t].snap];
    }
  }

  lemma PrefixSlice(saved: seq<Snapshot>, more: seq<Snapshot>, lo: nat, hi: nat)
    requires saved <= more && lo <= hi <= |saved|
    ensures more[lo..hi] == saved[lo..hi]
  {
  }

  /** A reader or a setter still waiting for setMu leaves the logs alone. */
  lemma LogPassedBy(s: State, t: nat, diskOk: bool, k: nat)
    requires SetMuInv(s) && |s.settled| > 0 && k < |s.logs| && k < |s.from| && LogInv(s, k)
    requires t < |s.calls| && !HoldsSet(s.calls[t]) && Enabled(s, Step(t, diskOk))
    ensures LogInv(Exec(s, t, diskOk), k)
  {
  }

  /** So does the setter that holds it, but for the one thing it has to tell. */
  lemma LogByHolder(s: State, t: nat, diskOk: bool, k: nat)
    requires |s.settled| > 0 && k < |s.logs| && k < |s.from| && LogInv(s, k)
    requires t < |s.calls| && s.setMu == Some(t) && HoldsSet(s.calls[t]) && !s.calls[t].Telling?
    requires Enabled(s, Step(t, diskOk))
    ensures LogInv(Exec(s, t, diskOk), k)
  {
    PrefixSlice(s.saved, Exec(s, t, diskOk).saved, s.from[k], s.from[k] + |s.logs[k]|);
  }

  lemma LogExec(s: State, t: nat, diskOk: bool, k: nat)
    requires Inv(s) && t < |s.calls| && Enabled(s, Step(t, diskOk)) && k < |s.logs|
    ensures LogInv(Exec(s, t, diskOk), k)
  {
    assert LogInv(s, k);
    if s.calls[t].Telling? {
      LogTold(s, t, k);
    } else if HoldsSet(s.calls[t]) {
      LogByHolder(s, t, diskOk, k);
    } else {
      LogPassedBy(s, t, diskOk, k);
    }
  }

  lemma ExecShape(s: State, t: nat, diskOk: bool)
    requires t < |s.calls| && Enabled(s, Step(t, diskOk)) && |s.settled| > 0
    ensures var s' := Exec(s, t, diskOk); |s'.logs| == |s.logs| && s'.from == s.from && |s'.settled| > 0
  {
  }

  lemma InvExec(s: State, t: nat, diskOk: bool)
    requires Inv(s) && t < |s.calls| && Enabled(s, Step(t, diskOk))
    ensures Inv(Exec(s, t, diskOk))
  {
    var s' := Exec(s, t, diskOk);
    ExecShape(s, t, diskOk);
    ExecLocks(s, t, diskOk);
    ExecPlaces(s, t, diskOk);
    SetMuKept(s, t, s');
    MuKept(s, t, s');
    MemoryExec(s, t, diskOk);
    forall u | 0 <= u < |s'.calls| ensures CallInv(s', s'.calls[u]) {
      if u == t {
        OwnCallKept(s, t, diskOk);
      } else {
        OtherCallKept(s, t, diskOk, u);
      }
    }
    forall k | 0 <= k < |s'.logs| ensures LogInv(s', k) {
      LogExec(s, t, diskOk, k);
    }
  }

  lemma InvOnChange(s: State)
    requires Inv(s)
    ensures Inv(Next(s, OnChange))
  {
    var s' := Next(s, OnChange);
    forall u | 0 <= u < |s'.calls| ensures CallInv(s', s'.calls[u]) {
      assert CallInv(s, s.calls[u]);
    }
    forall k | 0 <= k < |s'.logs| ensures LogInv(s', k) {
      LogRegistered(s, k);
    }
  }

  /** A new call holds nothing. */
  lemma InvCalled(s: State, pc: Pc)
    requires Inv(s) && !HoldsSet(pc) && !HoldsMu(pc) && !Reads(pc) && CallInv(s, pc)
    ensures Inv(s.(calls := s.calls + [pc]))
  {
    var s' := s.(calls := s.calls + [pc]);
    forall u | 0 <= u < |s'.calls| ensures CallInv(s', s'.calls[u]) {
      assert CallInv(s, s'.calls[u]);
    }
    forall k | 0 <= k < |s'.logs| ensures LogInv(s', k) {
      assert LogInv(s, k);
    }
  }

  /** Where a setter begins. */
  function Entry(c: Change): Pc {
    match Checked(c) case None => Finished(false) case Some(c') => Queued(c')
  }

  lemma InvStep(s: State, a: Action)
    requires Inv(s)
    ensures Inv(Next(s, a))
  {
    match a {
      case Set(c) => InvCalled(s, Entry(c));
      case Get => InvCalled(s, Asking(|s.settled| - 1));
      case OnChange => InvOnChange(s);
      case Step(t, diskOk) => if Enabled(s, a) { InvExec(s, t, diskOk); }
    }
  }

  lemma {:induction false} RunInvariant(loaded: Snapshot, actions: seq<Action>)
    ensures Inv(Run(Start(loaded), actions))
  {
    if actions != [] {
      RunInvariant(loaded, actions[..|actions| - 1]);
      InvStep(Run(Start(loaded), actions[..|actions| - 1]), actions[|actions| - 1]);
    }
  }

  lemma WriterHoldsSetMu(s: State)
    requires LockInv(s)
    ensures s.writer.Some? ==> s.setMu == s.writer
  {
  }

  // ------------------------------------------------------------ what observers and readers see

  /** However calls interleave, a listener has been told the persisted states in the order they
      were persisted, each once, from its registration on; only the newest can be still on its
      way, and only while a setter is running. */
  lemma ObserverOrder(loaded: Snapshot, actions: seq<Action>, k: nat)
    requires k < |Run(Start(loaded), actions).logs|
    ensures var s := Run(Start(loaded), actions);
      && |s.from| == |s.logs|
      && var told := |s.logs[k]|;
      && |s.saved| - 1 <= s.from[k] + told <= |s.saved|
      && s.logs[k] == s.saved[s.from[k]..s.from[k] + told]
      && (s.setMu.None? ==> s.from[k] + told == |s.saved|)
  {
    RunInvariant(loaded, actions);
    assert LogInv(Run(Start(loaded), actions), k);
  }

  /** A listener that registers while no setter is running is owed what is persisted from then on. */
  lemma RegistersFromNow(s: State)
    requires Inv(s) && s.setMu.None?
    ensures var s' := Next(s, OnChange);
      && s' == s.(logs := s.logs + [[]], from := s'.from) && |s'.from| == |s.from| + 1
      && s'.from[..|s.from|] == s.from && s'.from[|s.from|] == |s.saved|
  {
  }

  /** Memory, the disk and the last snapshot each listener was told agree; a listener that was told
      nothing registered after the last success. */
  predicate Agreed(s: State) {
    && |s.saved| > 0 && s.memory == s.disk == s.saved[|s.saved| - 1]
    && |s.from| == |s.logs|
    && forall k :: 0 <= k < |s.logs| ==>
         if s.logs[k] == [] then s.from[k] == |s.saved| else s.logs[k][|s.logs[k]| - 1] == s.memory
  }

  lemma AgreedWhenSettled(s: State)
    requires Inv(s) && s.setMu.None? && s.lastSetOk
    ensures Agreed(s)
  {
    WriterHoldsSetMu(s);
    forall k | 0 <= k < |s.logs|
      ensures if s.logs[k] == [] then s.from[k] == |s.saved| else s.logs[k][|s.logs[k]| - 1] == s.memory
    {
      LastTold(s, k);
    }
  }

  /** Whenever no setter is running and the last one succeeded, memory, disk and listeners agree,
      whatever failed before. */
  lemma SettledAgreement(loaded: Snapshot, actions: seq<Action>)
    ensures var s := Run(Start(loaded), actions); s.setMu.None? && s.lastSetOk ==> Agreed(s)
  {
    RunInvariant(loaded, actions);
    var s := Run(Start(loaded), actions);
    if s.setMu.None? && s.lastSetOk { AgreedWhenSettled(s); }
  }

  lemma LastTold(s: State, k: nat)
    requires LogsInv(s) && |s.saved| > 0 && k < |s.logs| && s.setMu.None?
    ensures if s.logs[k] == [] then s.from[k] == |s.saved|
            else s.logs[k][|s.logs[k]| - 1] == s.saved[|s.saved| - 1]
  {
    assert LogInv(s, k);
  }

  // ------------------------------------------------------------ what setters leave behind

  /** What each call was asked to do; None is a Get. */
  function Requests(actions: seq<Action>): seq<Option<Change>> {
    if actions == [] then []
    else
      Requests(actions[..|actions| - 1]) +
      match actions[|actions| - 1] case Set(c) => [Some(c)] case Get => [None] case _ => []
  }

  /** The writes to memory, in order, each with the call that made it. */
  function Written(loaded: Snapshot, actions: seq<Action>): seq<(nat, Change)> {
    if actions == [] then []
    else
      Written(loaded, actions[..|actions| - 1])
      + Writes(Run(Start(loaded), actions[..|actions| - 1]), actions[|actions| - 1])
  }

  function Writes(s: State, a: Action): seq<(nat, Change)> {
    if a.Step? && Enabled(s, a) && s.calls[a.call].Writing? then [(a.call, s.calls[a.call].change)] else []
  }

  function LastWatchdog(written: seq<(nat, Change)>, loaded: Watchdog): Watchdog {
    if written == [] then loaded
    else
      match written[|written| - 1].1
      case ToWatchdog(w) => w
      case ToHumanlike(_) => LastWatchdog(written[..|written| - 1], loaded)
  }

  function LastHumanlike(written: seq<(nat, Change)>, loaded: Humanlike): Humanlike {
    if written == [] then loaded
    else
      match written[|written| - 1].1
      case ToHumanlike(h) => h
      case ToWatchdog(_) => LastHumanlike(written[..|written| - 1], loaded)
  }

  /** A step changes memory only by a write, and by that what was written. */
  lemma MemoryNext(s: State, a: Action)
    requires |s.settled| > 0 && |s.saved| > 0
    ensures var m, m' := s.memory, Next(s, a).memory;
      if Writes(s, a) == [] then m' == m
      else match Writes(s, a)[0].1
           case ToWatchdog(w) => m'.watchdog == w && m'.humanlike == m.humanlike
           case ToHumanlike(h) => m'.humanlike == h && m'.watchdog == m.watchdog
  {
  }

  lemma LastOfMore(written: seq<(nat, Change)>, w: (nat, Change), loaded: Snapshot)
    ensures LastWatchdog(written + [w], loaded.watchdog)
         == if w.1.ToWatchdog? then w.1.watchdog else LastWatchdog(written, loaded.watchdog)
    ensures LastHumanlike(written + [w], loaded.humanlike)
         == if w.1.ToHumanlike? then w.1.humanlike else LastHumanlike(written, loaded.humanlike)
  {
    assert (written + [w])[..|written|] == written;
  }

  /** In every reachable state each part of memory is the one written last, or the loaded one. */
  lemma {:induction false} MemoryIsLastWritten(loaded: Snapshot, actions: seq<Action>)
    ensures var s, written := Run(Start(loaded), actions), Written(loaded, actions);
      && s.memory.watchdog == LastWatchdog(written, loaded.watchdog)
      && s.memory.humanlike == LastHumanlike(written, loaded.humanlike)
  {
    if actions != [] {
      var front, a := actions[..|actions| - 1], actions[|actions| - 1];
      var s, written := Run(Start(loaded), front), Written(loaded, front);
      MemoryIsLastWritten(loaded, front);
      MemoryNext(s, a);
      if Writes(s, a) == [] {
        assert written + [] == written;
      } else {
        assert Writes(s, a) == [Writes(s, a)[0]];
        LastOfMore(written, Writes(s, a)[0], loaded);
      }
    }
  }

  /** Call t has written the change, once; or nothing. */
  predicate WroteOnce(written: seq<(nat, Change)>, t: nat, c: Change) {
    exists k :: 0 <= k < |written| && written[k] == (t, c)
      && forall j :: 0 <= j < |written| && j != k ==> written[j].0 != t
  }

  predicate WroteNothing(written: seq<(nat, Change)>, t: nat) {
    forall k :: 0 <= k < |written| ==> written[k].0 != t
  }

  /** Where a call is, what it was asked and what it wrote fit together. */
  ghost predicate Fitting(pc: Pc, request: Option<Change>, written: seq<(nat, Change)>, t: nat) {
    match request
    case None => !HoldsSet(pc) && !pc.Queued? && !pc.Finished? && WroteNothing(written, t)
    case Some(r) =>
      && !Reads(pc) && !pc.Asking? && !pc.Answered?
      && match Checked(r)
         case None => pc == Finished(false) && WroteNothing(written, t)
         case Some(c) =>
           if pc.Queued? || pc.Locking? || pc.Writing? then pc.change == c && WroteNothing(written, t)
           else WroteOnce(written, t, c)
  }

  ghost predicate AllFitting(s: State, requests: seq<Option<Change>>, written: seq<(nat, Change)>) {
    && |requests| == |s.calls|
    && (forall t :: 0 <= t < |s.calls| ==> Fitting(s.calls[t], requests[t], written, t))
    && forall k :: 0 <= k < |written| ==> written[k].0 < |s.calls|
  }

  lemma WroteMore(written: seq<(nat, Change)>, u: nat, d: Change, t: nat, c: Change)
    requires u != t
    ensures WroteNothing(written, t) ==> WroteNothing(written + [(u, d)], t)
    ensures WroteOnce(written, t, c) ==> WroteOnce(written + [(u, d)], t, c)
  {
    if WroteOnce(written, t, c) {
      var k :| 0 <= k < |written| && written[k] == (t, c)
        && forall j :: 0 <= j < |written| && j != k ==> written[j].0 != t;
      assert (written + [(u, d)])[k] == (t, c);
    }
  }

  lemma WroteFirst(written: seq<(nat, Change)>, t: nat, c: Change)
    requires WroteNothing(written, t)
    ensures WroteOnce(written + [(t, c)], t, c)
  {
    assert (written + [(t, c)])[|written|] == (t, c);
  }

  lemma FittingExec(s: State, t: nat, diskOk: bool, request: Option<Change>, written: seq<(nat, Change)>)
    requires t < |s.calls| && Enabled(s, Step(t, diskOk)) && |s.settled| > 0
    requires Fitting(s.calls[t], request, written, t)
    ensures Fitting(Exec(s, t, diskOk).calls[t], request, written + Writes(s, Step(t, diskOk)), t)
  {
    if s.calls[t].Writing? {
      WroteFirst(written, t, s.calls[t].change);
    } else {
      assert written + [] == written;
    }
  }

  lemma FittingElsewhere(pc: Pc, request: Option<Change>, written: seq<(nat, Change)>, t: nat, u: nat, d: Change)
    requires Fitting(pc, request, written, t) && u != t
    ensures Fitting(pc, request, written + [(u, d)], t)
  {
    WroteMore(written, u, d, t, d);
    if request.Some? && Checked(request.value).Some? { WroteMore(written, u, d, t, Checked(request.value).value); }
  }

  lemma ExecElsewhere(s: State, t: nat, diskOk: bool)
    requires t < |s.calls| && Enabled(s, Step(t, diskOk)) && |s.settled| > 0
    ensures var s' := Exec(s, t, diskOk); s'.calls == s.calls[t := s'.calls[t]]
  {
  }

  lemma AllFittingExec(s: State, t: nat, diskOk: bool, requests: seq<Option<Change>>, written: seq<(nat, Change)>)
    requires t < |s.calls| && Enabled(s, Step(t, diskOk)) && |s.settled| > 0
    requires AllFitting(s, requests, written)
    ensures AllFitting(Exec(s, t, diskOk), requests, written + Writes(s, Step(t, diskOk)))
  {
    ExecElsewhere(s, t, diskOk);
    var s', written' := Exec(s, t, diskOk), written + Writes(s, Step(t, diskOk));
    forall u | 0 <= u < |s'.calls| ensures Fitting(s'.calls[u], requests[u], written', u) {
      if u == t {
        FittingExec(s, t, diskOk, requests[t], written);
      } else if s.calls[t].Writing? {
        FittingElsewhere(s.calls[u], requests[u], written, u, t, s.calls[t].change);
      } else {
        assert written' == written;
      }
    }
  }

  lemma AllFittingCalled(s: State, pc: Pc, request: Option<Change>, requests: seq<Option<Change>>,
                         written: seq<(nat, Change)>)
    requires AllFitting(s, requests, written) && Fitting(pc, request, [], |s.calls|)
    ensures AllFitting(s.(calls := s.calls + [pc]), requests + [request], written)
  {
    var t := |s.calls|;
    assert Fitting(pc, request, written, t);
  }

  lemma AllFittingNext(s: State, a: Action, requests: seq<Option<Change>>, written: seq<(nat, Change)>)
    requires |s.settled| > 0 && |s.saved| > 0 && AllFitting(s, requests, written)
    ensures var asked := match a case Set(c) => [Some(c)] case Get => [None] case _ => [];
      AllFitting(Next(s, a), requests + asked, written + Writes(s, a))
  {
    assert requests + [] == requests;
    if a.Step? && Enabled(s, a) {
      AllFittingExec(s, a.call, a.diskOk, requests, written);
    } else {
      assert written + Writes(s, a) == written;
      match a {
        case Set(c) => AllFittingCalled(s, Entry(c), Some(c), requests, written);
        case Get => AllFittingCalled(s, Asking(|s.settled| - 1), None, requests, written);
        case _ =>
      }
    }
  }

  lemma {:induction false} AllFit(loaded: Snapshot, actions: seq<Action>)
    ensures AllFitting(Run(Start(loaded), actions), Requests(actions), Written(loaded, actions))
  {
    if actions != [] {
      var front, a := actions[..|actions| - 1], actions[|actions| - 1];
      AllFit(loaded, front);
      AllFittingNext(Run(Start(loaded), front), a, Requests(front), Written(loaded, front));
    }
  }

  /** A finished setter has written what it was asked to, once, if it passed the checks; otherwise
      it failed and has written nothing. */
  lemma SettersTakeEffect(loaded: Snapshot, actions: seq<Action>, t: nat)
    requires t < |Run(Start(loaded), actions).calls| && Run(Start(loaded), actions).calls[t].Finished?
    ensures var s, written := Run(Start(loaded), actions), Written(loaded, actions);
      && |Requests(actions)| == |s.calls| && Requests(actions)[t].Some?
      && match Checked(Requests(actions)[t].value)
         case None => !s.calls[t].ok && WroteNothing(written, t)
         case Some(c) => WroteOnce(written, t, c)
  {
    AllFit(loaded, actions);
    var s := Run(Start(loaded), actions);
    assert Fitting(s.calls[t], Requests(actions)[t], Written(loaded, actions), t);
  }

  // ------------------------------------------------------------ one call on its own

  /** n steps of call t. */
  function Steps(s: State, t: nat, diskOk: bool, n: nat): (r: State)
    requires |s.settled| > 0 && |s.saved| > 0
    ensures |r.settled| > 0 && |r.saved| > 0
  {
    if n == 0 then s else Next(Steps(s, t, diskOk, n - 1), Step(t, diskOk))
  }

  function Repeat(a: Action, n: nat): seq<Action> {
    seq(n, i => a)
  }

  lemma {:induction false} StepsAreARun(s: State, t: nat, diskOk: bool, n: nat)
    requires |s.settled| > 0 && |s.saved| > 0
    ensures Steps(s, t, diskOk, n) == Run(s, Repeat(Step(t, diskOk), n))
  {
    if n > 0 {
      StepsAreARun(s, t, diskOk, n - 1);
      assert Repeat(Step(t, diskOk), n)[..n - 1] == Repeat(Step(t, diskOk), n - 1);
    }
  }

  predicate Quiet(s: State) {
    s.setMu.None? && s.writer.None? && s.readers == {} && |s.settled| > 0 && |s.saved| > 0
  }

  /** What a setter changes: memory holds the change in any case; disk and listeners see it
      only if it was persisted. */
  datatype Store = Store(memory: Snapshot, disk: Snapshot, logs: seq<seq<Snapshot>>)

  function Outcome(s: Store, c: Change, diskOk: bool): Store {
    var memory := Applied(s.memory, c);
    if diskOk then Store(memory, memory, ToldFirst(s.logs, memory, |s.logs|)) else s.(memory := memory)
  }

  function AfterSet(s: State, t: nat, c: Change, diskOk: bool): State
    requires t < |s.calls|
  {
    var o := Outcome(Store(s.memory, s.disk, s.logs), c, diskOk);
    s.(memory := o.memory, disk := o.disk, logs := o.logs, lastSetOk := diskOk,
       saved := s.saved + if diskOk then [o.memory] else [],
       settled := s.settled + [o.memory], calls := s.calls[t := Finished(diskOk)])
  }

  /** The logs once the first k listeners have been told. */
  function ToldFirst(logs: seq<seq<Snapshot>>, snap: Snapshot, k: nat): seq<seq<Snapshot>>
    requires k <= |logs|
  {
    seq(|logs|, i requires 0 <= i < |logs| => if i < k then logs[i] + [snap] else logs[i])
  }

  /** The lock is taken, memory changed. */
  lemma SoloWrites(s: State, t: nat, c: Change, diskOk: bool)
    requires Quiet(s) && t < |s.calls| && s.calls[t] == Queued(c)
    ensures Steps(s, t, diskOk, 3)
            == s.(memory := Applied(s.memory, c), setMu := Some(t), writer := Some(t), calls := s.calls[t := Saving])
  {
    var s1 := Steps(s, t, diskOk, 1);
    assert Steps(s, t, diskOk, 0) == s;
    assert s1 == s.(setMu := Some(t), calls := s.calls[t := Locking(c)]);
    var s2 := Steps(s, t, diskOk, 2);
    assert s2 == s.(setMu := Some(t), writer := Some(t), calls := s.calls[t := Writing(c)]);
  }

  lemma SoloFails(s: State, t: nat, c: Change)
    requires Quiet(s) && t < |s.calls| && s.calls[t] == Queued(c)
    ensures Steps(s, t, false, 6) == AfterSet(s, t, c, false)
  {
    SoloWrites(s, t, c, false);
    var s3 := Steps(s, t, false, 3);
    var s4 := Steps(s, t, false, 4);
    assert s4 == s3.(lastSetOk := false, calls := s.calls[t := Failing]);
    var s5 := Steps(s, t, false, 5);
    assert s5 == s4.(writer := None, settled := s.settled + [s4.memory], calls := s.calls[t := Leaving(false)]);
  }

  /** The state in which k listeners have been told the persisted change. */
  function TellState(s: State, t: nat, c: Change, k: nat): State
    requires t < |s.calls| && k <= |s.logs|
  {
    var memory := Applied(s.memory, c);
    s.(memory := memory, disk := memory, lastSetOk := true, setMu := Some(t),
       saved := s.saved + [memory], settled := s.settled + [memory],
       logs := ToldFirst(s.logs, memory, k), calls := s.calls[t := Telling(memory, |s.logs|, k)])
  }

  lemma SoloSaves(s: State, t: nat, c: Change)
    requires Quiet(s) && t < |s.calls| && s.calls[t] == Queued(c)
    ensures Steps(s, t, true, 7) == TellState(s, t, c, 0)
  {
    SoloWrites(s, t, c, true);
    var memory := Applied(s.memory, c);
    var s3 := Steps(s, t, true, 3);
    var s4 := Steps(s, t, true, 4);
    assert s4 == s3.(disk := memory, saved := s.saved + [memory], lastSetOk := true, calls := s.calls[t := Copying]);
    var s5 := Steps(s, t, true, 5);
    assert s5 == s4.(calls := s.calls[t := Unlocking(memory)]);
    var s6 := Steps(s, t, true, 6);
    assert s6 == s5.(writer := None, settled := s.settled + [memory], calls := s.calls[t := Notifying(memory)]);
    assert ToldFirst(s.logs, memory, 0) == s.logs;
  }

  lemma TellsOne(s: State, t: nat, snap: Snapshot, k: nat)
    requires t < |s.calls| && k < |s.logs| && s.calls[t] == Telling(snap, |s.logs|, k)
    requires |s.settled| > 0 && |s.saved| > 0
    ensures Next(s, Step(t, true))
            == s.(logs := s.logs[k := s.logs[k] + [snap]], calls := s.calls[t := Telling(snap, |s.logs|, k + 1)])
  {
  }

  lemma ToldNext(logs: seq<seq<Snapshot>>, snap: Snapshot, k: nat)
    requires k < |logs|
    ensures var told := ToldFirst(logs, snap, k); ToldFirst(logs, snap, k + 1) == told[k := told[k] + [snap]]
  {
  }

  lemma TellStateNext(s: State, t: nat, c: Change, k: nat)
    requires t < |s.calls| && k < |s.logs|
    ensures Next(TellState(s, t, c, k), Step(t, true)) == TellState(s, t, c, k + 1)
  {
    var memory := Applied(s.memory, c);
    ToldNext(s.logs, memory, k);
    TellsOne(TellState(s, t, c, k), t, memory, k);
  }

  lemma StepsOn(s: State, t: nat, n: nat, now: State, next: State)
    requires |s.settled| > 0 && |s.saved| > 0 && |now.settled| > 0 && |now.saved| > 0
    requires Steps(s, t, true, n) == now && Next(now, Step(t, true)) == next
    ensures Steps(s, t, true, n + 1) == next
  {
  }

  lemma {:induction false} SoloTells(s: State, t: nat, c: Change, k: nat, n: nat)
    requires Quiet(s) && t < |s.calls| && k <= |s.logs| && n == 7 + k
    requires Steps(s, t, true, 7) == TellState(s, t, c, 0)
    ensures Steps(s, t, true, n) == TellState(s, t, c, k)
    decreases k
  {
    if k > 0 {
      SoloTells(s, t, c, k - 1, n - 1);
      TellStateNext(s, t, c, k - 1);
      StepsOn(s, t, n - 1, TellState(s, t, c, k - 1), TellState(s, t, c, k));
    }
  }

  lemma AllTold(s: State, t: nat, c: Change)
    requires Quiet(s) && t < |s.calls| && s.calls[t] == Queued(c)
    ensures var told := TellState(s, t, c, |s.logs|);
      Next(told, Step(t, true)) == told.(calls := s.calls[t := Leaving(true)])
  {
  }

  lemma LeavesDone(s: State, t: nat, c: Change)
    requires Quiet(s) && t < |s.calls| && s.calls[t] == Queued(c)
    ensures var leaving := TellState(s, t, c, |s.logs|).(calls := s.calls[t := Leaving(true)]);
      Next(leaving, Step(t, true)) == AfterSet(s, t, c, true)
  {
  }

  /** A setter running alone does in one go what AfterSet says. */
  lemma SoloSucceeds(s: State, t: nat, c: Change)
    requires Quiet(s) && t < |s.calls| && s.calls[t] == Queued(c)
    ensures Steps(s, t, true, 9 + |s.logs|) == AfterSet(s, t, c, true)
  {
    var n := |s.logs|;
    SoloSaves(s, t, c);
    SoloTells(s, t, c, n, 7 + n);
    var told := TellState(s, t, c, n);
    var leaving := told.(calls := s.calls[t := Leaving(true)]);
    AllTold(s, t, c);
    LeavesDone(s, t, c);
    StepsOn(s, t, 7 + n, told, leaving);
    StepsOn(s, t, 8 + n, leaving, AfterSet(s, t, c, true));
  }

  /** A reader that meets no setter answers what memory holds, and leaves everything as it was. */
  lemma SoloReads(s: State, t: nat)
    requires Quiet(s) && t < |s.calls| && s.calls[t].Asking?
    ensures Steps(s, t, true, 4)
            == s.(calls := s.calls[t := Answered(s.calls[t].since, |s.settled| - 1, s.memory)])
  {
    var since := s.calls[t].since;
    var s1 := s.(readers := {t}, calls := s.calls[t := Reading(since)]);
    var s2 := s1.(calls := s.calls[t := HalfRead(since, s.memory.watchdog)]);
    var s3 := s2.(calls := s.calls[t := Answering(since, s.memory)]);
    assert Steps(s, t, true, 0) == s;
    ReaderMoves(s, t, since);
    ReaderAnswers(s, t, since);
    StepsOn(s, t, 0, s, s1);
    StepsOn(s, t, 1, s1, s2);
    StepsOn(s, t, 2, s2, s3);
    StepsOn(s, t, 3, s3, s.(calls := s.calls[t := Answered(since, |s.settled| - 1, s.memory)]));
  }

  lemma ReaderMoves(s: State, t: nat, since: nat)
    requires Quiet(s) && t < |s.calls| && s.calls[t] == Asking(since)
    ensures var s1 := s.(readers := {t}, calls := s.calls[t := Reading(since)]);
      var s2 := s1.(calls := s.calls[t := HalfRead(since, s.memory.watchdog)]);
      Next(s, Step(t, true)) == s1 && Next(s1, Step(t, true)) == s2
  {
  }

  lemma ReaderAnswers(s: State, t: nat, since: nat)
    requires Quiet(s) && t < |s.calls|
    ensures var s2 := s.(readers := {t}, calls := s.calls[t := HalfRead(since, s.memory.watchdog)]);
      var s3 := s2.(calls := s.calls[t := Answering(since, s.memory)]);
      && Next(s2, Step(t, true)) == s3
      && Next(s3, Step(t, true)) == s.(calls := s.calls[t := Answered(since, |s.settled| - 1, s.memory)])
  {
    assert {t} - {t} == {};
  }

  /** Memory, disk and listeners can only fall apart by a failed persist, and any failed persist
      of a change that changes something does it. */
  lemma FailedPersistDiverges(s: State, t: nat, c: Change)
    requires Quiet(s) && t < |s.calls| && s.calls[t] == Queued(c) && s.memory == s.disk
    ensures var s' := Run(s, Repeat(Step(t, false), 6));
      Quiet(s') && t < |s'.calls| && s'.calls[t] == Finished(false) && s'.logs == s.logs
      && (s'.memory != s'.disk <==> Applied(s.memory, c) != s.memory)
  {
    SoloFails(s, t, c);
    StepsAreARun(s, t, false, 6);
  }

  /** Get returns what memory held at one moment when no setter was inside mu, and not before
      the call began: a reader never sees half of a change, nor an older state than one it
      could have seen when it was called. */
  lemma ReadsAreSettled(loaded: Snapshot, actions: seq<Action>, t: nat)
    requires t < |Run(Start(loaded), actions).calls| && Run(Start(loaded), actions).calls[t].Answered?
    ensures var s := Run(Start(loaded), actions);
      var pc := s.calls[t];
      pc.since <= pc.at < |s.settled| && pc.snap == s.settled[pc.at]
  {
    RunInvariant(loaded, actions);
    var s := Run(Start(loaded), actions);
    assert CallInv(s, s.calls[t]);
  }

  /** A slow listener never keeps a reader waiting. */
  lemma ListenersDoNotBlockReaders(loaded: Snapshot, actions: seq<Action>, t: nat, u: nat)
    requires var s := Run(Start(loaded), actions);
      && t < |s.calls| && (s.calls[t].Notifying? || s.calls[t].Telling?)
      && u < |s.calls| && s.calls[u].Asking?
    ensures Enabled(Run(Start(loaded), actions), Step(u, true))
  {
    RunInvariant(loaded, actions);
    var s := Run(Start(loaded), actions);
    assert HoldsSet(s.calls[t]);
    WriterHoldsSetMu(s);
  }

  /** The two locks never deadlock: while a call is unfinished, some call can take a step. */
  lemma AlwaysProgress(loaded: Snapshot, actions: seq<Action>, t: nat)
    requires var s := Run(Start(loaded), actions);
      t < |s.calls| && !s.calls[t].Finished? && !s.calls[t].Answered?
    ensures var s := Run(Start(loaded), actions);
      exists u: nat :: u < |s.calls| && Enabled(s, Step(u, true))
  {
    RunInvariant(loaded, actions);
    var s := Run(Start(loaded), actions);
    if s.writer.Some? {
      assert Enabled(s, Step(s.writer.value, true));
    } else if u :| u in s.readers {
      assert Enabled(s, Step(u, true));
    } else if s.setMu.Some? {
      assert Enabled(s, Step(s.setMu.value, true));
    } else {
      assert Enabled(s, Step(t, true));
    }
  }

  // ------------------------------------------------------------ the object

  /** RuntimeState, with its file as a value and each listener as the list of what it was told. */
  class RuntimeStore {
    var watchdog: Watchdog
    var humanlike: Humanlike
    var disk: Snapshot
    var listeners: seq<seq<Snapshot>>

    ghost function Value(): Store
      reads this
    {
      Store(Snapshot(watchdog, humanlike), disk, listeners)
    }

    /** Disk and the last snapshot of every listener are what memory holds. */
    ghost predicate Agrees()
      reads this
    {
      && disk.watchdog == watchdog && disk.humanlike == humanlike
      && forall k :: 0 <= k < |listeners| ==> |listeners[k]| > 0 && listeners[k][|listeners[k]| - 1] == disk
    }

    constructor (loaded: Snapshot)
      ensures Value() == Store(loaded, loaded, [])
    {
      watchdog, humanlike, disk, listeners := loaded.watchdog, loaded.humanlike, loaded, [];
    }

    function Get(): Snapshot
      reads this
    {
      Snapshot(watchdog, humanlike)
    }

    method SetWatchdog(cfg: Watchdog, diskOk: bool) returns (ok: bool)
      modifies this
      ensures var c := Checked(ToWatchdog(cfg));
        if c.None? then !ok && Value() == old(Value())
        else ok == diskOk && Value() == Outcome(old(Value()), c.value, diskOk)
      ensures var channel := Lists.TrimSpace(cfg.channel);
        if channel != "" && !Lists.ValidChannel(channel) then !ok && watchdog == old(watchdog)
        else ok == diskOk && watchdog == Watchdog(cfg.enabled, channel)
      ensures humanlike == old(humanlike)
      ensures ok ==> Agrees()
    {
      var channel := Lists.TrimSpace(cfg.channel);
      if channel != "" {
        var problem := Lists.ValidateChannel(channel);
        if problem.Some? {
          return false;
        }
      }
      watchdog := cfg.(channel := channel);
      ok := PersistAndNotify(diskOk);
    }

    method SetHumanlike(cfg: Humanlike, diskOk: bool) returns (ok: bool)
      modifies this
      ensures var c := Checked(ToHumanlike(cfg));
        if c.None? then !ok && Value() == old(Value())
        else ok == diskOk && Value() == Outcome(old(Value()), c.value, diskOk)
      ensures match Lists.Normalized(cfg.channels)
        case Err(_, _) => !ok && humanlike == old(humanlike)
        case Ok(clean) => ok == diskOk && humanlike == Humanlike(cfg.enabled, clean)
      ensures watchdog == old(watchdog)
      ensures ok ==> Agrees()
    {
      var clean := Lists.NormalizeChannels(cfg.channels);
      if clean.Err? {
        return false;
      }
      humanlike := Humanlike(cfg.enabled, clean.channels);
      ok := PersistAndNotify(diskOk);
    }

    /** persistLocked, and on success notify. */
    method PersistAndNotify(diskOk: bool) returns (ok: bool)
      modifies this`disk, this`listeners
      ensures ok == diskOk
      ensures disk == if diskOk then Get() else old(disk)
      ensures listeners == if diskOk then ToldFirst(old(listeners), Get(), |old(listeners)|) else old(listeners)
      ensures ok ==> Agrees()
      ensures !ok ==> disk == old(disk) && listeners == old(listeners)
    {
      if !diskOk {
        return false;
      }
      disk := Get();
      var snap := Get();
      var n := |listeners|;
      var i := 0;
      while i < n
        invariant 0 <= i <= n == |old(listeners)|
        invariant listeners == ToldFirst(old(listeners), snap, i)
        invariant snap == Get() == disk
      {
        listeners := listeners[i := listeners[i] + [snap]];
        i := i + 1;
      }
      return true;
    }

    method OnChange()
      modifies this`listeners
      ensures Value() == old(Value()).(logs := old(listeners) + [[]])
    {
      listeners := listeners + [[]];
    }
  }
}
