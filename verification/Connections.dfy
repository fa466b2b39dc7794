/** internal/api/server.go: WebSocket handlers as interleaved steps: the connection slots, the
    session registry and the attach relation. */
module Connections {
  import opened Attach

  /** int32(x). */
  function Int32(x: int): int {
    (x + 0x8000_0000) % 0x1_0000_0000 - 0x8000_0000
  }

  /** Adding to an int32 no more than another int32 away from it. */
  function Wrapped(x: int): int {
    if x >= 0x8000_0000 then x - 0x1_0000_0000 else if x < -0x8000_0000 then x + 0x1_0000_0000 else x
  }

  /** Where one handleWS call is. */
  datatype Pc =
    | Loading                // about to load activeN
    | Swapping(seen: int)    // about to compare-and-swap
    | Refused                // answered 503
    | Reserved               // holds a slot, about to accept the upgrade
    | Accepted               // about to draw a session id
    | Numbered               // about to enter the session in the registry
    | Serving                // between requests
    | Attaching(bot: string) // in the shared map, not yet in its own record
    | Detaching(bot: string) // out of the shared map, still in its own record
    | Unregistered           // out of the registry
    | Detached               // out of the shared map
    | Releasing              // record cleared, about to give the slot back
    | Gone

  datatype Handler = Handler(pc: Pc, sid: nat, attached: set<string>)

  /** `owner[i]` is the handler that drew session id i + 1; it only records. */
  datatype State = State(
    limit: int,
    activeN: int,
    sessions: set<nat>,
    subs: Subs,
    handlers: seq<Handler>,
    owner: seq<nat>)

  /** What the peer does at a step that depends on it. */
  datatype Input = AttachTo(bot: string, found: bool) | DetachFrom(bot: string) | HangUp

  datatype Action = Connect | Step(handler: nat, input: Input)

  function Start(maxConnections: int): State {
    State(Int32(maxConnections), 0, {}, map[], [], [])
  }

  function Exec(s: State, h: nat, input: Input): State
    requires h < |s.handlers|
  {
    var me := s.handlers[h];
    match me.pc
    case Loading =>
      s.(handlers := s.handlers[h := me.(pc := if s.activeN >= s.limit then Refused else Swapping(s.activeN))])
    case Swapping(seen) =>
      if s.activeN == seen then s.(activeN := Wrapped(seen + 1), handlers := s.handlers[h := me.(pc := Reserved)])
      else s.(handlers := s.handlers[h := me.(pc := Loading)])
    case Reserved => s.(handlers := s.handlers[h := me.(pc := if input.HangUp? then Releasing else Accepted)])
    case Accepted =>
      s.(owner := s.owner + [h], handlers := s.handlers[h := me.(pc := Numbered, sid := |s.owner| + 1)])
    case Numbered => s.(sessions := s.sessions + {me.sid}, handlers := s.handlers[h := me.(pc := Serving)])
    case Serving => Request(s, h, input)
    case Attaching(bot) =>
      s.(handlers := s.handlers[h := me.(pc := Serving, attached := me.attached + {bot})])
    case Detaching(bot) =>
      s.(handlers := s.handlers[h := me.(pc := Serving, attached := me.attached - {bot})])
    case Unregistered => s.(subs := UnlinkingAll(s.subs, me.sid), handlers := s.handlers[h := me.(pc := Detached)])
    case Detached => s.(handlers := s.handlers[h := me.(pc := Releasing, attached := {})])
    case Releasing => s.(activeN := Wrapped(s.activeN - 1), handlers := s.handlers[h := me.(pc := Gone)])
    case _ => s
  }

  function Request(s: State, h: nat, input: Input): State
    requires h < |s.handlers|
  {
    var me := s.handlers[h];
    match input
    case AttachTo(bot, found) =>
      if !found then s
      else s.(subs := Linking(s.subs, bot, me.sid), handlers := s.handlers[h := me.(pc := Attaching(bot))])
    case DetachFrom(bot) =>
      s.(subs := Unlinking(s.subs, bot, me.sid), handlers := s.handlers[h := me.(pc := Detaching(bot))])
    case HangUp =>
      s.(sessions := s.sessions - {me.sid}, handlers := s.handlers[h := me.(pc := Unregistered)])
  }

  function Next(s: State, a: Action): State {
    match a
    case Connect => s.(handlers := s.handlers + [Handler(Loading, 0, {})])
    case Step(h, input) => if h < |s.handlers| then Exec(s, h, input) else s
  }

  function Run(s: State, actions: seq<Action>): State
    decreases |actions|
  {
    if actions == [] then s else Next(Run(s, actions[..|actions| - 1]), actions[|actions| - 1])
  }

  // ------------------------------------------------------------ slots

  /** The slot is taken. */
  predicate Holds(pc: Pc) {
    !pc.Loading? && !pc.Swapping? && !pc.Refused? && !pc.Gone?
  }

  function Holders(s: State): set<nat> {
    set h | 0 <= h < |s.handlers| && Holds(s.handlers[h].pc)
  }

  function Max0(x: int): nat {
    if x < 0 then 0 else x
  }

  ghost predicate SlotInv(s: State) {
    && -0x8000_0000 <= s.limit < 0x8000_0000
    && s.activeN == |Holders(s)| <= Max0(s.limit)
    && forall h :: 0 <= h < |s.handlers| && s.handlers[h].pc.Swapping? ==> s.handlers[h].pc.seen < s.limit
  }

  /** What a step of handler h does to the slots. */
  ghost predicate SlotMove(s: State, s': State, h: nat)
    requires h < |s.handlers|
  {
    && |s'.handlers| == |s.handlers| && s'.limit == s.limit
    && (forall k :: 0 <= k < |s.handlers| && k != h ==> s'.handlers[k].pc == s.handlers[k].pc)
    && var pc, pc' := s.handlers[h].pc, s'.handlers[h].pc;
    && (pc'.Swapping? ==> pc'.seen < s.limit)
    && (if Holds(pc') && !Holds(pc) then s.activeN < s.limit && s'.activeN == s.activeN + 1
        else if Holds(pc) && !Holds(pc') then s'.activeN == s.activeN - 1
        else s'.activeN == s.activeN)
  }

  lemma ExecMoves(s: State, h: nat, input: Input)
    requires h < |s.handlers| && SlotInv(s)
    ensures SlotMove(s, Exec(s, h, input), h)
  {
  }

  lemma MoveKeeps(s: State, s': State, h: nat)
    requires h < |s.handlers| && SlotInv(s) && SlotMove(s, s', h)
    ensures SlotInv(s')
  {
    if Holds(s'.handlers[h].pc) {
      assert Holders(s') == Holders(s) + {h};
    } else {
      assert Holders(s') == Holders(s) - {h};
    }
  }

  lemma SlotStep(s: State, a: Action)
    requires SlotInv(s)
    ensures SlotInv(Next(s, a))
  {
    if a.Connect? {
      assert Holders(Next(s, a)) == Holders(s);
    } else if a.handler < |s.handlers| {
      ExecMoves(s, a.handler, a.input);
      MoveKeeps(s, Next(s, a), a.handler);
    }
  }

  // ------------------------------------------------------------ sessions and attachments

  predicate HasId(pc: Pc) {
    || pc.Numbered? || pc.Serving? || pc.Attaching? || pc.Detaching? || pc.Unregistered? || pc.Detached?
  }

  predicate Early(pc: Pc) {
    pc.Loading? || pc.Swapping? || pc.Refused? || pc.Reserved? || pc.Accepted?
  }

  predicate Registered(pc: Pc) {
    pc.Serving? || pc.Attaching? || pc.Detaching?
  }

  /** The links a handler's own record and position account for. */
  predicate Accounts(me: Handler, bot: string) {
    match me.pc
    case Serving => bot in me.attached
    case Unregistered => bot in me.attached
    case Attaching(b) => bot == b || bot in me.attached
    case Detaching(b) => bot != b && bot in me.attached
    case _ => false
  }

  ghost predicate HandlerInv(s: State, h: nat)
    requires h < |s.handlers|
  {
    var me := s.handlers[h];
    && (HasId(me.pc) ==> me.sid > 0)
    && (me.sid > 0 ==> me.sid <= |s.owner| && s.owner[me.sid - 1] == h)
    && (me.sid == 0 ==> !HasId(me.pc) && me.attached == {})
    && (me.pc.Numbered? || me.pc.Releasing? || me.pc.Gone? ==> me.attached == {})
    && (Early(me.pc) ==> me.sid == 0)
    && (me.sid > 0 ==> (me.sid in s.sessions <==> Registered(me.pc)))
    && (me.sid > 0 ==> forall bot :: Linked(s.subs, bot, me.sid) <==> Accounts(me, bot))
  }

  /** Session ids in use were drawn, by the handler that still carries them. */
  ghost predicate IdInv(s: State) {
    && (forall i :: 0 <= i < |s.owner| ==> s.owner[i] < |s.handlers| && s.handlers[s.owner[i]].sid == i + 1)
    && (forall sid :: sid in s.sessions ==> 0 < sid <= |s.owner|)
    && (forall bot: string, sid: nat :: Linked(s.subs, bot, sid) ==> 0 < sid <= |s.owner|)
    && NoEmptySet(s.subs)
  }

  ghost predicate HandlersInv(s: State) {
    forall h :: 0 <= h < |s.handlers| ==> HandlerInv(s, h)
  }

  ghost predicate Inv(s: State) {
    SlotInv(s) && IdInv(s) && HandlersInv(s)
  }

  /** The three updates of the shared map, as facts about links. */
  lemma SubsStep(s: State, h: nat, input: Input)
    requires h < |s.handlers| && NoEmptySet(s.subs)
    ensures var me, s' := s.handlers[h], Exec(s, h, input);
      && NoEmptySet(s'.subs)
      && forall bot: string, sid: nat :: Linked(s'.subs, bot, sid) <==>
           if sid != me.sid then Linked(s.subs, bot, sid)
           else if me.pc.Serving? && input.AttachTo? && input.found then Linked(s.subs, bot, sid) || bot == input.bot
           else if me.pc.Serving? && input.DetachFrom? then Linked(s.subs, bot, sid) && bot != input.bot
           else if me.pc.Unregistered? then false
           else Linked(s.subs, bot, sid)
  {
    var me := s.handlers[h];
    if me.pc.Serving? && input.AttachTo? {
      LinkingExact(s.subs, input.bot, me.sid);
    } else if me.pc.Serving? && input.DetachFrom? {
      UnlinkingExact(s.subs, input.bot, me.sid);
    } else if me.pc.Unregistered? {
      UnlinkingAllExact(s.subs, me.sid);
    }
  }

  lemma IdStep(s: State, h: nat, input: Input)
    requires h < |s.handlers| && IdInv(s) && HandlersInv(s)
    ensures IdInv(Exec(s, h, input))
  {
    assert HandlerInv(s, h);
    SubsStep(s, h, input);
  }

  lemma OwnHandlerKept(s: State, h: nat, input: Input)
    requires h < |s.handlers| && IdInv(s) && HandlersInv(s)
    ensures HandlerInv(Exec(s, h, input), h)
  {
    assert HandlerInv(s, h);
    SubsStep(s, h, input);
  }

  lemma OtherHandlerKept(s: State, h: nat, input: Input, other: nat)
    requires h < |s.handlers| && other < |s.handlers| && other != h && IdInv(s) && HandlersInv(s)
    ensures HandlerInv(Exec(s, h, input), other)
  {
    assert HandlerInv(s, h) && HandlerInv(s, other);
    SubsStep(s, h, input);
  }

  lemma ConnectKept(s: State)
    requires IdInv(s) && HandlersInv(s)
    ensures IdInv(Next(s, Connect)) && HandlersInv(Next(s, Connect))
  {
    var s' := Next(s, Connect);
    forall h | 0 <= h < |s'.handlers| ensures HandlerInv(s', h) {
      if h < |s.handlers| { assert HandlerInv(s, h); }
    }
  }

  lemma HandlersExec(s: State, h: nat, input: Input)
    requires h < |s.handlers| && IdInv(s) && HandlersInv(s)
    ensures HandlersInv(Exec(s, h, input))
  {
    var s' := Exec(s, h, input);
    forall k | 0 <= k < |s'.handlers| ensures HandlerInv(s', k) {
      if k == h {
        OwnHandlerKept(s, h, input);
      } else {
        OtherHandlerKept(s, h, input, k);
      }
    }
  }

  lemma InvStep(s: State, a: Action)
    requires Inv(s)
    ensures Inv(Next(s, a))
  {
    SlotStep(s, a);
    if a.Connect? {
      ConnectKept(s);
    } else if a.handler < |s.handlers| {
      IdStep(s, a.handler, a.input);
      HandlersExec(s, a.handler, a.input);
    }
  }

  lemma {:induction false} RunInvariant(maxConnections: int, actions: seq<Action>)
    ensures Inv(Run(Start(maxConnections), actions))
  {
    if actions == [] {
      assert Holders(Start(maxConnections)) == {};
    } else {
      RunInvariant(maxConnections, actions[..|actions| - 1]);
      InvStep(Run(Start(maxConnections), actions[..|actions| - 1]), actions[|actions| - 1]);
    }
  }

  // ------------------------------------------------------------ results

  /** However the handlers interleave, the counter is the number of handlers holding a slot and
      stays within the limit. */
  lemma SlotsCounted(maxConnections: int, actions: seq<Action>)
    ensures var s := Run(Start(maxConnections), actions);
      s.limit == Int32(maxConnections) && s.activeN == |Holders(s)| <= Max0(s.limit)
  {
    RunInvariant(maxConnections, actions);
    LimitFixed(maxConnections, actions);
  }

  lemma {:induction false} LimitFixed(maxConnections: int, actions: seq<Action>)
    ensures Run(Start(maxConnections), actions).limit == Int32(maxConnections)
  {
    if actions != [] {
      LimitFixed(maxConnections, actions[..|actions| - 1]);
    }
  }

  /** A connection is turned away exactly when, as it looks, all slots are held. */
  lemma RefusedExactly(maxConnections: int, actions: seq<Action>, h: nat, input: Input)
    requires var s := Run(Start(maxConnections), actions);
      h < |s.handlers| && s.handlers[h].pc.Loading?
    ensures var s := Run(Start(maxConnections), actions);
      Exec(s, h, input).handlers[h].pc.Refused? <==> |Holders(s)| >= Int32(maxConnections)
  {
    SlotsCounted(maxConnections, actions);
  }

  /** Between the requests of a session its record and the shared map agree, and a link in the
      map always belongs to a session that accounts for it.  No bot keeps an empty set. */
  lemma AttachmentsMirrored(maxConnections: int, actions: seq<Action>)
    ensures var s := Run(Start(maxConnections), actions);
      && NoEmptySet(s.subs)
      && (forall h, bot :: 0 <= h < |s.handlers| && s.handlers[h].pc.Serving? ==>
            (bot in s.handlers[h].attached <==> Linked(s.subs, bot, s.handlers[h].sid)))
      && (forall bot: string, sid: nat :: Linked(s.subs, bot, sid) ==>
            0 < sid <= |s.owner| && s.owner[sid - 1] < |s.handlers|
            && s.handlers[s.owner[sid - 1]].sid == sid && Accounts(s.handlers[s.owner[sid - 1]], bot))
  {
    RunInvariant(maxConnections, actions);
    var s := Run(Start(maxConnections), actions);
    forall h, bot | 0 <= h < |s.handlers| && s.handlers[h].pc.Serving?
      ensures bot in s.handlers[h].attached <==> Linked(s.subs, bot, s.handlers[h].sid)
    {
      assert HandlerInv(s, h);
    }
    forall bot: string, sid: nat | Linked(s.subs, bot, sid)
      ensures 0 < sid <= |s.owner| && s.owner[sid - 1] < |s.handlers|
              && s.handlers[s.owner[sid - 1]].sid == sid && Accounts(s.handlers[s.owner[sid - 1]], bot)
    {
      LinkLive(s, bot, sid);
    }
  }

  /** Two handlers never carry the same session id. */
  lemma IdsUnique(maxConnections: int, actions: seq<Action>, h: nat, other: nat)
    requires var s := Run(Start(maxConnections), actions);
      h < |s.handlers| && other < |s.handlers| && s.handlers[h].sid == s.handlers[other].sid > 0
    ensures h == other
  {
    RunInvariant(maxConnections, actions);
    OwnIds(Run(Start(maxConnections), actions), h, other);
  }

  lemma OwnIds(s: State, h: nat, other: nat)
    requires Inv(s) && h < |s.handlers| && other < |s.handlers| && s.handlers[h].sid == s.handlers[other].sid > 0
    ensures h == other
  {
    assert HandlerInv(s, h) && HandlerInv(s, other);
  }

  /** The id of a closed session is in no registry, no bot's set and keeps no record. */
  lemma ClosedNowhere(maxConnections: int, actions: seq<Action>, h: nat)
    requires var s := Run(Start(maxConnections), actions);
      h < |s.handlers| && (s.handlers[h].pc.Releasing? || s.handlers[h].pc.Gone?) && s.handlers[h].sid > 0
    ensures var s := Run(Start(maxConnections), actions);
      && s.handlers[h].sid !in s.sessions && s.handlers[h].attached == {}
      && forall bot :: !Linked(s.subs, bot, s.handlers[h].sid)
  {
    RunInvariant(maxConnections, actions);
    assert HandlerInv(Run(Start(maxConnections), actions), h);
  }

  predicate AllOver(s: State) {
    forall h :: 0 <= h < |s.handlers| ==> s.handlers[h].pc.Gone? || s.handlers[h].pc.Refused?
  }

  /** Once every connection is over nothing is left behind. */
  lemma NothingLeft(maxConnections: int, actions: seq<Action>)
    requires AllOver(Run(Start(maxConnections), actions))
    ensures var s := Run(Start(maxConnections), actions);
      s.activeN == 0 && s.sessions == {} && s.subs == map[]
  {
    RunInvariant(maxConnections, actions);
    var s := Run(Start(maxConnections), actions);
    assert Holders(s) == {};
    if sid :| sid in s.sessions {
      SessionLive(s, sid);
    }
    if bot :| bot in s.subs {
      var sid :| sid in s.subs[bot];
      LinkLive(s, bot, sid);
    }
  }

  lemma SessionLive(s: State, sid: nat)
    requires Inv(s) && sid in s.sessions
    ensures 0 < sid <= |s.owner| && s.owner[sid - 1] < |s.handlers| && Registered(s.handlers[s.owner[sid - 1]].pc)
  {
    assert HandlerInv(s, s.owner[sid - 1]);
  }

  lemma LinkLive(s: State, bot: string, sid: nat)
    requires Inv(s) && Linked(s.subs, bot, sid)
    ensures 0 < sid <= |s.owner| && s.owner[sid - 1] < |s.handlers|
    ensures s.handlers[s.owner[sid - 1]].sid == sid && Accounts(s.handlers[s.owner[sid - 1]], bot)
  {
    assert HandlerInv(s, s.owner[sid - 1]);
  }

  // ------------------------------------------------------------ one connection, undisturbed

  /** The steps of handler h with these inputs and nothing in between. */
  function Own(s: State, h: nat, inputs: seq<Input>): State
    decreases |inputs|
  {
    if inputs == [] then s else Own(Next(s, Step(h, inputs[0])), h, inputs[1..])
  }

  lemma OwnOne(s: State, h: nat, a: Input)
    requires h < |s.handlers|
    ensures Own(s, h, [a]) == Exec(s, h, a)
  {
    assert [a][1..] == [];
  }

  lemma OwnMore(s: State, h: nat, a: Input, rest: seq<Input>)
    requires h < |s.handlers|
    ensures Own(s, h, [a] + rest) == Own(Exec(s, h, a), h, rest)
  {
    assert ([a] + rest)[1..] == rest;
  }

  /** A connection that comes in has a handler of its own, and everything else stays. */
  lemma Arrives(s: State)
    ensures var s' := Next(s, Connect);
      s' == s.(handlers := s'.handlers) && |s'.handlers| == |s.handlers| + 1
      && s'.handlers[..|s.handlers|] == s.handlers && s'.handlers[|s.handlers|] == Handler(Loading, 0, {})
  {
  }

  /** A new handler is refused if the slots are all held, and has one after two steps if not; after a
      swap that came too late it looks again. */
  lemma Decides(s: State, h: nat, a: Input, b: Input)
    requires SlotInv(s) && h < |s.handlers|
    ensures s.handlers[h].pc.Loading? ==>
      if |Holders(s)| >= s.limit then Own(s, h, [a]) == s.(handlers := s.handlers[h := s.handlers[h].(pc := Refused)])
      else Own(s, h, [a] + [b])
           == s.(activeN := s.activeN + 1, handlers := s.handlers[h := s.handlers[h].(pc := Reserved)])
    ensures s.handlers[h].pc.Swapping? && s.handlers[h].pc.seen != s.activeN ==>
      Own(s, h, [a]) == s.(handlers := s.handlers[h := s.handlers[h].(pc := Loading)])
  {
    OwnOne(s, h, a);
    OwnMore(s, h, a, [b]);
    OwnOne(Exec(s, h, a), h, b);
  }

  /** With a slot, the connection is served under the next session id, in the registry, after three
      steps; if the upgrade fails it gives the slot back and is gone after two. */
  lemma Opens(s: State, h: nat, a: Input, b: Input, c: Input)
    requires SlotInv(s) && h < |s.handlers| && s.handlers[h].pc.Reserved?
    ensures !a.HangUp? ==>
      var me := s.handlers[h].(pc := Serving, sid := |s.owner| + 1);
      Own(s, h, [a] + ([b] + [c]))
      == s.(owner := s.owner + [h], sessions := s.sessions + {|s.owner| + 1}, handlers := s.handlers[h := me])
    ensures a.HangUp? ==>
      Own(s, h, [a] + [b]) == s.(activeN := s.activeN - 1, handlers := s.handlers[h := s.handlers[h].(pc := Gone)])
  {
    assert h in Holders(s);
    var s1 := Exec(s, h, a);
    OwnMore(s, h, a, [b]);
    OwnOne(s1, h, b);
    OwnMore(s, h, a, [b] + [c]);
    OwnMore(s1, h, b, [c]);
    OwnOne(Exec(s1, h, b), h, c);
  }

  /** A request to attach to a bot that is found is over after two steps: record and shared map then
      have that link, and all other links are as they were.  For a bot that is not found nothing
      happens. */
  lemma Attaches(s: State, h: nat, bot: string, b: Input)
    requires h < |s.handlers| && s.handlers[h].pc.Serving?
    ensures var me, s' := s.handlers[h], Own(s, h, [AttachTo(bot, true)] + [b]);
      && s' == s.(subs := s'.subs, handlers := s.handlers[h := me.(attached := me.attached + {bot})])
      && forall x: string, i: nat :: Linked(s'.subs, x, i) <==> Linked(s.subs, x, i) || (x == bot && i == me.sid)
    ensures Own(s, h, [AttachTo(bot, false)]) == s
  {
    LinkingExact(s.subs, bot, s.handlers[h].sid);
    OwnOne(s, h, AttachTo(bot, false));
    OwnMore(s, h, AttachTo(bot, true), [b]);
    OwnOne(Exec(s, h, AttachTo(bot, true)), h, b);
  }

  /** A request to detach ends both, and nothing else. */
  lemma Detaches(s: State, h: nat, bot: string, b: Input)
    requires h < |s.handlers| && s.handlers[h].pc.Serving?
    ensures var me, s' := s.handlers[h], Own(s, h, [DetachFrom(bot)] + [b]);
      && s' == s.(subs := s'.subs, handlers := s.handlers[h := me.(attached := me.attached - {bot})])
      && forall x: string, i: nat :: Linked(s'.subs, x, i) <==> Linked(s.subs, x, i) && !(x == bot && i == me.sid)
  {
    UnlinkingExact(s.subs, bot, s.handlers[h].sid);
    OwnMore(s, h, DetachFrom(bot), [b]);
    OwnOne(Exec(s, h, DetachFrom(bot)), h, b);
  }

  /** A connection that ends leaves the registry, the shared map and its slot in four steps, and
      touches nothing of the others. */
  lemma Closes(s: State, h: nat, b: Input, c: Input, d: Input)
    requires SlotInv(s) && h < |s.handlers| && s.handlers[h].pc.Serving?
    ensures var me, s' := s.handlers[h], Own(s, h, [HangUp] + ([b] + ([c] + [d])));
      && s'.sessions == s.sessions - {me.sid} && s'.activeN == s.activeN - 1
      && s' == s.(subs := s'.subs, sessions := s'.sessions, activeN := s'.activeN,
                  handlers := s.handlers[h := me.(pc := Gone, attached := {})])
      && forall x: string, i: nat :: Linked(s'.subs, x, i) <==> Linked(s.subs, x, i) && i != me.sid
  {
    var me := s.handlers[h];
    var s1 := LeavesRegistry(s, h);
    var s2 := LeavesMap(s1, h, b);
    var s3 := Exec(s2, h, c);
    assert h in Holders(s);
    assert s3 == s2.(handlers := s.handlers[h := me.(pc := Releasing, attached := {})]);
    OwnMore(s, h, HangUp, [b] + ([c] + [d]));
    OwnMore(s1, h, b, [c] + [d]);
    OwnMore(s2, h, c, [d]);
    OwnOne(s3, h, d);
  }

  lemma LeavesRegistry(s: State, h: nat) returns (s': State)
    requires h < |s.handlers| && s.handlers[h].pc.Serving?
    ensures s' == Exec(s, h, HangUp)
    ensures s' == s.(sessions := s.sessions - {s.handlers[h].sid},
                     handlers := s.handlers[h := s.handlers[h].(pc := Unregistered)])
  {
    s' := Exec(s, h, HangUp);
  }

  lemma LeavesMap(s: State, h: nat, b: Input) returns (s': State)
    requires h < |s.handlers| && s.handlers[h].pc.Unregistered?
    ensures s' == Exec(s, h, b)
    ensures s' == s.(subs := s'.subs, handlers := s.handlers[h := s.handlers[h].(pc := Detached)])
    ensures forall x: string, i: nat :: Linked(s'.subs, x, i) <==> Linked(s.subs, x, i) && i != s.handlers[h].sid
  {
    s' := Exec(s, h, b);
    UnlinkingAllExact(s.subs, s.handlers[h].sid);
  }
}
