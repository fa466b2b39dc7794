/** internal/bot/bot.go and internal/util/helpers.go: tracking of our own nick against the
    server's view, and the #literki channel that follows it, within one connection. */
module SelfNick {
  import opened Text

  // ------------------------------------------------------------ RFC 2812, section 2.2

  function CanonicalChar(c: char): char {
    var d := if c == '[' then '{' else if c == ']' then '}' else if c == '\\' then '|' else if c == '~' then '^' else c;
    LowerChar(d)
  }

  function Canonical(nick: string): string {
    seq(|nick|, i requires 0 <= i < |nick| => CanonicalChar(nick[i]))
  }

  predicate NickEqualRFC(a: string, b: string) {
    Canonical(a) == Canonical(b)
  }

  method CanonicalizeNick(nick: string) returns (r: string)
    ensures r == Canonical(nick)
  {
    var out := new char[|nick|];
    var i := 0;
    while i < |nick|
      invariant 0 <= i <= |nick|
      invariant forall k :: 0 <= k < i ==> out[k] == CanonicalChar(nick[k])
    {
      var ch := nick[i];
      match ch {
        case '[' => ch := '{';
        case ']' => ch := '}';
        case '\\' => ch := '|';
        case '~' => ch := '^';
        case _ =>
      }
      if 'A' <= ch <= 'Z' {
        ch := ch + ('a' - 'A');
      }
      out[i] := ch;
      i := i + 1;
    }
    r := out[..];
  }

  /** The mapping is a normal form: equality up to it is decided on representatives, keeps
      lengths and folds exactly the four Scandinavian pairs and the letters. */
  lemma CanonicalNormal(a: string, b: string)
    ensures Canonical(Canonical(a)) == Canonical(a)
    ensures NickEqualRFC(a, b) ==> |a| == |b|
    ensures NickEqualRFC(a, b) <==>
      |a| == |b| && forall i :: 0 <= i < |a| ==> CanonicalChar(a[i]) == CanonicalChar(b[i])
  {
    if NickEqualRFC(a, b) {
      assert |Canonical(a)| == |Canonical(b)|;
      forall i | 0 <= i < |a| ensures CanonicalChar(a[i]) == CanonicalChar(b[i]) {
        assert Canonical(a)[i] == Canonical(b)[i];
      }
    }
  }

  /** Two characters are folded together exactly if they are the same, the two cases of a letter, or
      one of the four pairs that section 2.2 of RFC 2812 names. */
  lemma FoldsExactly(a: char, b: char)
    ensures CanonicalChar(a) == CanonicalChar(b) <==> a == b || Pair(a, b) || Pair(b, a)
  {
  }

  /** b is the lower case of a. */
  predicate Pair(a: char, b: char) {
    || ('A' <= a <= 'Z' && 'a' <= b <= 'z' && a as int - 'A' as int == b as int - 'a' as int)
    || (a, b) in {('[', '{'), (']', '}'), ('\\', '|'), ('~', '^')}
  }

  // ------------------------------------------------------------ the bot

  datatype Sign = Join | Part
  datatype Capture = Letter(nick: string) | Priority(nick: string)

  /** current: our stored nick; emitted: the (old, new) pairs published as BotNickChanged;
      captured: the BotNickCaptured events; literki: the JOINs and PARTs sent for the channel. */
  datatype State = State(current: string, emitted: seq<(string, string)>, captured: seq<Capture>, literki: seq<Sign>)

  function Captures(newNick: string, targets: seq<string>): seq<Capture> {
    if |newNick| == 1 then [Letter(newNick)]
    else if ContainsIgnoreCase(targets, newNick) then [Priority(newNick)] else []
  }

  function Signs(oldNick: string, newNick: string): seq<Sign> {
    if |oldNick| != 1 && |newNick| == 1 then [Join]
    else if |oldNick| == 1 && |newNick| != 1 then [Part] else []
  }

  /** emitSelfNickChange, with a sink and a nick manager installed, its targets as given, and
      the bot connected. */
  function Emit(s: State, oldNick: string, newNick: string, targets: seq<string>): State {
    s.(emitted := s.emitted + [(oldNick, newNick)],
       captured := s.captured + Captures(newNick, targets),
       literki := s.literki + Signs(oldNick, newNick))
  }

  /** The NICK callback. */
  function OnNick(s: State, oldNick: string, newNick: string, targets: seq<string>): State {
    if newNick == "" || !NickEqualRFC(oldNick, s.current) then s
    else Emit(s.(current := newNick), oldNick, newNick, targets)
  }

  /** The self check of the 303 callback; args[0] is the nick the server addresses. */
  function OnIson(s: State, args: seq<string>, targets: seq<string>): State {
    if |args| < 1 || args[0] == "" || NickEqualRFC(args[0], s.current) then s
    else Emit(s.(current := args[0]), s.current, args[0], targets)
  }

  class Bot {
    var currentNick: string
    var emitted: seq<(string, string)>
    var captured: seq<Capture>
    var literki: seq<Sign>

    function Value(): State
      reads this
    {
      State(currentNick, emitted, captured, literki)
    }

    /** Registration confirms a nick; the 001 callback joins nothing for it. */
    constructor (registered: string)
      ensures Value() == State(registered, [], [], [])
    {
      currentNick, emitted, captured, literki := registered, [], [], [];
    }

    method TryAcceptSelfNickChange(oldNick: string, newNick: string) returns (ours: bool)
      modifies this`currentNick
      ensures ours <==> newNick != "" && NickEqualRFC(oldNick, old(currentNick))
      ensures currentNick == if ours then newNick else old(currentNick)
    {
      if newNick == "" {
        return false;
      }
      var a := CanonicalizeNick(oldNick);
      var b := CanonicalizeNick(currentNick);
      if a != b {
        return false;
      }
      currentNick := newNick;
      ours := true;
    }

    method EmitSelfNickChange(oldNick: string, newNick: string, targets: seq<string>)
      modifies this`emitted, this`captured, this`literki
      ensures Value() == Emit(old(Value()), oldNick, newNick, targets)
    {
      emitted := emitted + [(oldNick, newNick)];
      if |newNick| == 1 {
        captured := captured + [Letter(newNick)];
      } else if ContainsIgnoreCase(targets, newNick) {
        captured := captured + [Priority(newNick)];
      }
      var wasOneLetter, isOneLetter := |oldNick| == 1, |newNick| == 1;
      if !wasOneLetter && isOneLetter {
        literki := literki + [Join];
      }
      if wasOneLetter && !isOneLetter {
        literki := literki + [Part];
      }
    }

    method NickCallback(oldNick: string, newNick: string, targets: seq<string>)
      modifies this
      ensures Value() == OnNick(old(Value()), oldNick, newNick, targets)
    {
      var ours := TryAcceptSelfNickChange(oldNick, newNick);
      if ours {
        EmitSelfNickChange(oldNick, newNick, targets);
      }
    }

    method ReconcileSelfNickFromISON(args: seq<string>, targets: seq<string>)
      modifies this
      ensures Value() == OnIson(old(Value()), args, targets)
      ensures if |args| > 0 && args[0] != "" && !NickEqualRFC(args[0], old(currentNick))
              then currentNick == args[0] && emitted == old(emitted) + [(old(currentNick), args[0])]
              else Value() == old(Value())
    {
      if |args| < 1 || args[0] == "" {
        return;
      }
      var oldNick := currentNick;
      var a := CanonicalizeNick(args[0]);
      var b := CanonicalizeNick(oldNick);
      if a == b {
        return;
      }
      currentNick := args[0];
      EmitSelfNickChange(oldNick, args[0], targets);
    }
  }

  // ------------------------------------------------------------ against the server

  /** What happens in one connection.  Own: the server renames us and the message arrives.
      Lost: it renames us and the message does not.  Foreign: somebody else is renamed.
      Reply: a 303 addressed to us.  Retarget: the nick manager's targets change. */
  datatype Event =
    | Own(nick: string)
    | Lost(nick: string)
    | Foreign(oldNick: string, nick: string)
    | Reply
    | Retarget(targets: seq<string>)

  datatype World = World(server: string, targets: seq<string>, bot: State)

  /** A server has no empty nicks, and no two that are equal by its case mapping. */
  predicate Possible(w: World, e: Event) {
    match e
    case Own(n) => n != ""
    case Lost(n) => n != ""
    case Foreign(o, n) => n != "" && !NickEqualRFC(o, w.server) && !NickEqualRFC(n, w.server)
    case _ => true
  }

  function Step(w: World, e: Event): World {
    match e
    case Own(n) => w.(server := n, bot := OnNick(w.bot, w.server, n, w.targets))
    case Lost(n) => w.(server := n)
    case Foreign(o, n) => w.(bot := OnNick(w.bot, o, n, w.targets))
    case Reply => w.(bot := OnIson(w.bot, [w.server], w.targets))
    case Retarget(targets) => w.(targets := targets)
  }

  function Start(registered: string): World {
    World(registered, [], State(registered, [], [], []))
  }

  /** The world after a possible run. */
  function Run(registered: string, events: seq<Event>): Option<World> {
    if events == [] then Some(Start(registered))
    else match Run(registered, events[..|events| - 1])
      case None => None
      case Some(w) =>
        var e := events[|events| - 1];
        if Possible(w, e) then Some(Step(w, e)) else None
  }

  lemma RunSnoc(registered: string, events: seq<Event>, e: Event)
    requires Run(registered, events).Some? && Possible(Run(registered, events).value, e)
    ensures Run(registered, events + [e]) == Some(Step(Run(registered, events).value, e))
  {
    assert (events + [e])[..|events|] == events;
  }

  predicate InSync(w: World) {
    NickEqualRFC(w.bot.current, w.server)
  }

  lemma {:induction false} ServerNamed(registered: string, events: seq<Event>)
    requires registered != "" && Run(registered, events).Some?
    ensures Run(registered, events).value.server != ""
  {
    if events != [] { ServerNamed(registered, events[..|events| - 1]); }
  }

  /** A 303 reply may come at any time, and restores agreement with the server, whatever was lost
      before it. */
  lemma ReplyRestores(registered: string, events: seq<Event>)
    requires registered != "" && Run(registered, events).Some?
    ensures Run(registered, events + [Reply]).Some? && InSync(Run(registered, events + [Reply]).value)
  {
    RunSnoc(registered, events, Reply);
    ServerNamed(registered, events);
  }

  /** From agreement on, delivered renames keep it, ours and others' alike. */
  lemma {:induction false} SyncKept(w: World, events: seq<Event>)
    requires InSync(w) && forall i :: 0 <= i < |events| ==> !events[i].Lost?
    requires PossibleFrom(w, events)
    ensures InSync(After(w, events))
    decreases |events|
  {
    if events != [] {
      var e := events[0];
      if e.Foreign? { CanonicalNormal(e.oldNick, w.bot.current); }
      SyncKept(Step(w, e), events[1..]);
    }
  }

  function After(w: World, events: seq<Event>): World
    decreases |events|
  {
    if events == [] then w else After(Step(w, events[0]), events[1..])
  }

  predicate PossibleFrom(w: World, events: seq<Event>)
    decreases |events|
  {
    events == [] || (Possible(w, events[0]) && PossibleFrom(Step(w, events[0]), events[1..]))
  }

  // ------------------------------------------------------------ other users' renames

  /** The bot lets a possible rename of another user go by. */
  predicate Ignores(w: World, o: string, n: string) {
    Possible(w, Foreign(o, n)) ==> Step(w, Foreign(o, n)).bot == w.bot
  }

  /** Another user's rename is never taken for ours exactly while we agree with the server. */
  lemma ForeignIgnoredExactly(w: World)
    requires w.server != ""
    ensures (forall o, n :: Ignores(w, o, n)) <==> InSync(w)
  {
    if !InSync(w) {
      var n := w.server + "x";
      assert |Canonical(n)| != |Canonical(w.server)|;
      assert |Emit(w.bot, w.bot.current, n, w.targets).emitted| == |w.bot.emitted| + 1;
      assert !Ignores(w, w.bot.current, n);
    }
  }

  /** The last event of the run is another user's rename, and the bot took it for its own. */
  predicate TakenForOurs(registered: string, events: seq<Event>) {
    && events != [] && events[|events| - 1].Foreign? && Run(registered, events).Some?
    && Run(registered, events).value.bot != Run(registered, events[..|events| - 1]).value.bot
  }

  predicate Allowed(lossy: bool, events: seq<Event>) {
    lossy || forall i :: 0 <= i < |events| ==> !events[i].Lost?
  }

  lemma {:induction false} InSyncWithoutLoss(registered: string, events: seq<Event>)
    requires Run(registered, events).Some? && Allowed(false, events)
    ensures InSync(Run(registered, events).value)
  {
    if events != [] {
      var front := events[..|events| - 1];
      InSyncWithoutLoss(registered, front);
    }
  }

  /** After any run, a lost rename that the bot's nick does not survive lets any rename of the
      nick's next holder pass for ours. */
  lemma LostRenameMisleads(registered: string, events: seq<Event>, lost: string, n: string)
    requires Run(registered, events).Some? && lost != "" && n != ""
    requires !NickEqualRFC(Run(registered, events).value.bot.current, lost) && !NickEqualRFC(n, lost)
    ensures var bot := Run(registered, events).value.bot;
      var more := events + [Lost(lost)] + [Foreign(bot.current, n)];
      TakenForOurs(registered, more) && Run(registered, more).value.bot.current == n
  {
    var w := Run(registered, events).value;
    RunSnoc(registered, events, Lost(lost));
    RunSnoc(registered, events + [Lost(lost)], Foreign(w.bot.current, n));
    var more := events + [Lost(lost)] + [Foreign(w.bot.current, n)];
    assert more[..|more| - 1] == events + [Lost(lost)];
    assert |Emit(w.bot, w.bot.current, n, w.targets).emitted| == |w.bot.emitted| + 1;
  }

  /** No run in which another user's rename is taken for ours exactly if no rename of ours gets
      lost. */
  lemma NeverMisledExactly(registered: string, lossy: bool)
    requires registered != ""
    ensures (forall events :: Allowed(lossy, events) ==> !TakenForOurs(registered, events)) <==> !lossy
  {
    if lossy {
      var lost, n := registered + "x", registered + "xx";
      assert |Canonical(lost)| == |registered| + 1 && |Canonical(n)| == |registered| + 2;
      assert |Canonical(registered)| == |registered|;
      var none: seq<Event> := [];
      assert Run(registered, none) == Some(Start(registered));
      LostRenameMisleads(registered, none, lost, n);
      assert Allowed(true, none + [Lost(lost)] + [Foreign(registered, n)]);
    } else {
      forall events | Allowed(false, events) && TakenForOurs(registered, events) ensures false {
        var front := events[..|events| - 1];
        assert Allowed(false, front);
        InSyncWithoutLoss(registered, front);
      }
    }
  }

  /** Agreement comes back by a reply, or when the server happens to rename us to the nick the bot
      still holds; no other event brings it back. */
  lemma RepairedExactly(w: World, e: Event)
    requires w.server != "" && !InSync(w) && Possible(w, e)
    ensures InSync(Step(w, e)) <==> e.Reply? || ((e.Own? || e.Lost?) && NickEqualRFC(w.bot.current, e.nick))
  {
  }

  // ------------------------------------------------------------ what is published

  /** Consecutive pairs fit, from the registered nick to the current one. */
  predicate IsChain(registered: string, pairs: seq<(string, string)>, current: string) {
    && (pairs == [] ==> current == registered)
    && (pairs != [] ==> NickEqualRFC(registered, pairs[0].0) && pairs[|pairs| - 1].1 == current)
    && forall i :: 0 <= i < |pairs| - 1 ==> NickEqualRFC(pairs[i].1, pairs[i + 1].0)
  }

  lemma EmitChains(registered: string, s: State, oldNick: string, newNick: string, targets: seq<string>)
    requires IsChain(registered, s.emitted, s.current) && NickEqualRFC(oldNick, s.current)
    ensures IsChain(registered, Emit(s.(current := newNick), oldNick, newNick, targets).emitted, newNick)
  {
  }

  lemma {:induction false} EmittedChain(registered: string, events: seq<Event>)
    requires Run(registered, events).Some?
    ensures var b := Run(registered, events).value.bot; IsChain(registered, b.emitted, b.current)
  {
    if events != [] {
      var w, e := Run(registered, events[..|events| - 1]).value, events[|events| - 1];
      EmittedChain(registered, events[..|events| - 1]);
      match e {
        case Own(n) =>
          if NickEqualRFC(w.server, w.bot.current) { EmitChains(registered, w.bot, w.server, n, w.targets); }
        case Foreign(o, n) =>
          if NickEqualRFC(o, w.bot.current) { EmitChains(registered, w.bot, o, n, w.targets); }
        case Reply => EmitChains(registered, w.bot, w.bot.current, w.server, w.targets);
        case _ =>
      }
    }
  }

  function Letters(pairs: seq<(string, string)>): seq<Capture> {
    if pairs == [] then []
    else
      var n := pairs[|pairs| - 1].1;
      Letters(pairs[..|pairs| - 1]) + if |n| == 1 then [Letter(n)] else []
  }

  function OnlyLetters(captured: seq<Capture>): seq<Capture> {
    if captured == [] then []
    else
      var c := captured[|captured| - 1];
      OnlyLetters(captured[..|captured| - 1]) + if c.Letter? then [c] else []
  }

  lemma EmitCaptures(s: State, oldNick: string, newNick: string, targets: seq<string>)
    requires OnlyLetters(s.captured) == Letters(s.emitted)
    ensures var s' := Emit(s, oldNick, newNick, targets); OnlyLetters(s'.captured) == Letters(s'.emitted)
  {
    var s' := Emit(s, oldNick, newNick, targets);
    assert s'.emitted[..|s.emitted|] == s.emitted;
    if Captures(newNick, targets) == [] {
      assert s'.captured == s.captured;
    } else {
      assert s'.captured[..|s.captured|] == s.captured;
    }
  }

  /** The letters reported as captured are exactly the one-letter nicks among the published
      changes, in order, whatever the targets were. */
  lemma {:induction false} LettersCaptured(registered: string, events: seq<Event>)
    requires Run(registered, events).Some?
    ensures var b := Run(registered, events).value.bot; OnlyLetters(b.captured) == Letters(b.emitted)
  {
    if events != [] {
      var w, e := Run(registered, events[..|events| - 1]).value, events[|events| - 1];
      LettersCaptured(registered, events[..|events| - 1]);
      match e {
        case Own(n) => EmitCaptures(w.bot.(current := n), w.server, n, w.targets);
        case Foreign(o, n) => EmitCaptures(w.bot.(current := n), o, n, w.targets);
        case Reply => EmitCaptures(w.bot.(current := w.server), w.bot.current, w.server, w.targets);
        case _ =>
      }
    }
  }

  /** Whatever happens, what an event adds to the captures is decided by what it publishes and by
      the targets: a one-letter nick is captured as a letter, a longer one that is a target in any
      spelling as a priority nick, any other not at all. */
  lemma CapturedExactly(w: World, e: Event)
    ensures Step(w, e).targets == if e.Retarget? then e.targets else w.targets
    ensures var b, b' := w.bot, Step(w, e).bot;
      if b'.emitted == b.emitted then b'.captured == b.captured
      else
        && |b'.emitted| == |b.emitted| + 1 && b'.emitted[..|b.emitted|] == b.emitted
        && var n := b'.emitted[|b.emitted|].1;
        b'.captured == b.captured +
          if |n| == 1 then [Letter(n)]
          else if exists i :: 0 <= i < |w.targets| && ToLower(w.targets[i]) == ToLower(n) then [Priority(n)] else []
  {
    var b, b' := w.bot, Step(w, e).bot;
    if b'.emitted != b.emitted {
      match e {
        case Own(n) => EmittedOne(b.(current := n), w.server, n, w.targets);
        case Foreign(o, n) => EmittedOne(b.(current := n), o, n, w.targets);
        case Reply => EmittedOne(b.(current := w.server), b.current, w.server, w.targets);
        case _ =>
      }
    }
  }

  lemma EmittedOne(s: State, oldNick: string, newNick: string, targets: seq<string>)
    ensures var s' := Emit(s, oldNick, newNick, targets);
      && |s'.emitted| == |s.emitted| + 1 && s'.emitted[..|s.emitted|] == s.emitted
      && s'.emitted[|s.emitted|] == (oldNick, newNick)
      && s'.captured == s.captured +
           if |newNick| == 1 then [Letter(newNick)]
           else if exists i :: 0 <= i < |targets| && ToLower(targets[i]) == ToLower(newNick) then [Priority(newNick)]
           else []
  {
  }

  // ------------------------------------------------------------ the letters channel

  /** JOIN and PART alternate; the first one, and whether the last one is a JOIN, follow
      from whether the registered and the current nick are letters. */
  predicate Alternating(registered: string, signs: seq<Sign>, current: string) {
    && (forall i :: 0 <= i < |signs| - 1 ==> signs[i] != signs[i + 1])
    && (signs == [] ==> (|current| == 1 <==> |registered| == 1))
    && (signs != [] ==> (signs[0].Part? <==> |registered| == 1) && (signs[|signs| - 1].Join? <==> |current| == 1))
  }

  lemma EmitAlternates(registered: string, s: State, oldNick: string, newNick: string, targets: seq<string>)
    requires Alternating(registered, s.literki, s.current) && |oldNick| == |s.current|
    ensures Alternating(registered, Emit(s.(current := newNick), oldNick, newNick, targets).literki, newNick)
  {
    if Signs(oldNick, newNick) == [] {
      assert s.literki + [] == s.literki;
    }
  }

  lemma NickAlternates(registered: string, s: State, oldNick: string, newNick: string, targets: seq<string>)
    requires Alternating(registered, s.literki, s.current)
    ensures var s' := OnNick(s, oldNick, newNick, targets); Alternating(registered, s'.literki, s'.current)
  {
    if newNick != "" && NickEqualRFC(oldNick, s.current) {
      CanonicalNormal(oldNick, s.current);
      EmitAlternates(registered, s, oldNick, newNick, targets);
    }
  }

  lemma StepAlternates(registered: string, w: World, e: Event)
    requires Alternating(registered, w.bot.literki, w.bot.current)
    ensures var b := Step(w, e).bot; Alternating(registered, b.literki, b.current)
  {
    match e {
      case Own(n) => NickAlternates(registered, w.bot, w.server, n, w.targets);
      case Foreign(o, n) => NickAlternates(registered, w.bot, o, n, w.targets);
      case Reply => EmitAlternates(registered, w.bot, w.bot.current, w.server, w.targets);
      case _ =>
    }
  }

  lemma {:induction false} LiterkiAlternates(registered: string, events: seq<Event>)
    requires Run(registered, events).Some?
    ensures var b := Run(registered, events).value.bot; Alternating(registered, b.literki, b.current)
  {
    if events == [] {
      assert Run(registered, events) == Some(Start(registered));
    } else {
      LiterkiAlternates(registered, events[..|events| - 1]);
      StepAlternates(registered, Run(registered, events[..|events| - 1]).value, events[|events| - 1]);
    }
  }

  predicate Outstanding(signs: seq<Sign>) {
    signs != [] && signs[|signs| - 1].Join?
  }

  /** In the state after the run a JOIN of #literki is outstanding exactly if the nick is one
      letter. */
  predicate Follows(registered: string, events: seq<Event>) {
    Run(registered, events).Some? ==>
      var bot := Run(registered, events).value.bot;
      Outstanding(bot.literki) <==> |bot.current| == 1
  }

  /** A JOIN of #literki is outstanding exactly while the nick is one letter, in every run,
      if and only if registration gave a nick of another length. */
  lemma LiterkiFollowsNick(registered: string)
    ensures (forall events :: Follows(registered, events)) <==> |registered| != 1
  {
    if |registered| == 1 {
      var none: seq<Event> := [];
      assert Run(registered, none) == Some(Start(registered));
      assert !Follows(registered, none);
    } else {
      forall events ensures Follows(registered, events) {
        if Run(registered, events).Some? { LiterkiAlternates(registered, events); }
      }
    }
  }
}
