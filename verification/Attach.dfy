/** internal/api/attach.go and the attach part of session.go: who is attached to which bot. */
module Attach {

  /** bot id -> session ids. */
  type Subs = map<string, set<nat>>

  predicate Linked(subs: Subs, bot: string, sid: nat) {
    bot in subs && sid in subs[bot]
  }

  predicate NoEmptySet(subs: Subs) {
    forall bot :: bot in subs ==> subs[bot] != {}
  }

  function Linking(subs: Subs, bot: string, sid: nat): Subs {
    subs[bot := (if bot in subs then subs[bot] else {}) + {sid}]
  }

  function Unlinking(subs: Subs, bot: string, sid: nat): Subs {
    if bot !in subs then subs
    else if subs[bot] - {sid} == {} then subs - {bot}
    else subs[bot := subs[bot] - {sid}]
  }

  function UnlinkingAll(subs: Subs, sid: nat): Subs {
    map bot | bot in subs && subs[bot] - {sid} != {} :: subs[bot] - {sid}
  }

  /** Each update changes the links it names and no others, and none leaves an empty set. */
  lemma LinkingExact(subs: Subs, bot: string, sid: nat)
    ensures forall b: string, i: nat ::
      Linked(Linking(subs, bot, sid), b, i) <==> Linked(subs, b, i) || (b == bot && i == sid)
    ensures NoEmptySet(subs) ==> NoEmptySet(Linking(subs, bot, sid))
  {
  }

  lemma UnlinkingExact(subs: Subs, bot: string, sid: nat)
    ensures forall b: string, i: nat ::
      Linked(Unlinking(subs, bot, sid), b, i) <==> Linked(subs, b, i) && !(b == bot && i == sid)
    ensures NoEmptySet(subs) ==> NoEmptySet(Unlinking(subs, bot, sid))
  {
    if bot in subs && subs[bot] - {sid} == {} {
      assert forall i :: i in subs[bot] ==> i in subs[bot] - {sid} || i == sid;
    }
  }

  lemma UnlinkingAllExact(subs: Subs, sid: nat)
    ensures forall b: string, i: nat :: Linked(UnlinkingAll(subs, sid), b, i) <==> Linked(subs, b, i) && i != sid
    ensures NoEmptySet(UnlinkingAll(subs, sid))
  {
    forall b: string, i: nat | Linked(subs, b, i) && i != sid ensures Linked(UnlinkingAll(subs, sid), b, i) {
      assert i in subs[b] - {sid};
    }
  }

  /** UnlinkingAll, with the bots in `left` still to be visited. */
  function UnlinkingBut(subs: Subs, sid: nat, left: set<string>): Subs {
    map bot | bot in subs && (bot in left || subs[bot] - {sid} != {}) ::
      if bot in left then subs[bot] else subs[bot] - {sid}
  }

  lemma UnlinkingOne(subs: Subs, sid: nat, left: set<string>, bot: string)
    requires bot in left && left <= subs.Keys
    ensures var now, next := UnlinkingBut(subs, sid, left), UnlinkingBut(subs, sid, left - {bot});
      bot in now && next == Unlinking(now, bot, sid)
  {
  }

  class AttachManager {
    var subs: Subs

    constructor ()
      ensures subs == map[]
    {
      subs := map[];
    }

    method Attach(botId: string, sid: nat)
      modifies this
      ensures subs == Linking(old(subs), botId, sid)
    {
      var members := {};
      if botId in subs {
        members := subs[botId];
      } else {
        subs := subs[botId := members];
      }
      subs := subs[botId := members + {sid}];
    }

    method Detach(botId: string, sid: nat)
      modifies this
      ensures subs == Unlinking(old(subs), botId, sid)
    {
      if botId in subs {
        subs := subs[botId := subs[botId] - {sid}];
        if |subs[botId]| == 0 {
          subs := subs - {botId};
        }
      }
    }

    /** The bots are visited in any order, and entries are deleted on the way. */
    method DetachAll(sid: nat)
      modifies this
      ensures subs == UnlinkingAll(old(subs), sid)
    {
      ghost var was := subs;
      var left := subs.Keys;
      assert UnlinkingBut(was, sid, left) == was;
      while left != {}
        invariant left <= was.Keys && subs == UnlinkingBut(was, sid, left)
        decreases |left|
      {
        var botId :| botId in left;
        UnlinkingOne(was, sid, left, botId);
        left := left - {botId};
        var members := subs[botId] - {sid};
        ghost var before := subs;
        subs := subs[botId := members];
        if members == {} {
          subs := subs - {botId};
          assert subs == before - {botId};
        }
        assert subs == Unlinking(before, botId, sid);
      }
      assert UnlinkingBut(was, sid, {}) == UnlinkingAll(was, sid);
    }

    /** The attached sessions, each once, in no particular order. */
    method Sessions(botId: string) returns (out: seq<nat>)
      ensures forall sid :: sid in out <==> Linked(subs, botId, sid)
      ensures forall i, j :: 0 <= i < j < |out| ==> out[i] != out[j]
    {
      out := [];
      if botId !in subs {
        return;
      }
      var left := subs[botId];
      while left != {}
        invariant left <= subs[botId]
        invariant forall sid :: sid in out <==> sid in subs[botId] && sid !in left
        invariant forall i, j :: 0 <= i < j < |out| ==> out[i] != out[j]
        decreases |left|
      {
        var sid :| sid in left;
        left := left - {sid};
        out := out + [sid];
      }
    }
  }

  /** A session's own record of its attachments. */
  class Session {
    const id: nat
    var attached: set<string>

    constructor (id: nat)
      ensures this.id == id && attached == {}
    {
      this.id, attached := id, {};
    }

    /** The record and the shared map agree on this session. */
    ghost predicate Mirrors(am: AttachManager)
      reads this, am
    {
      forall bot :: bot in attached <==> Linked(am.subs, bot, id)
    }

    method HandleBotAttach(am: AttachManager, botId: string, found: bool) returns (ok: bool)
      modifies am, this
      ensures ok == found
      ensures am.subs == if found then Linking(old(am.subs), botId, id) else old(am.subs)
      ensures attached == if found then old(attached) + {botId} else old(attached)
      ensures old(Mirrors(am)) ==> Mirrors(am)
    {
      if !found {
        return false;
      }
      LinkingExact(am.subs, botId, id);
      am.Attach(botId, id);
      attached := attached + {botId};
      return true;
    }

    method HandleBotDetach(am: AttachManager, botId: string)
      modifies am, this
      ensures am.subs == Unlinking(old(am.subs), botId, id)
      ensures attached == old(attached) - {botId}
      ensures old(Mirrors(am)) ==> Mirrors(am)
    {
      UnlinkingExact(am.subs, botId, id);
      am.Detach(botId, id);
      attached := attached - {botId};
    }

    method Close(am: AttachManager)
      modifies am, this
      ensures am.subs == UnlinkingAll(old(am.subs), id)
      ensures attached == {} && Mirrors(am)
    {
      UnlinkingAllExact(am.subs, id);
      am.DetachAll(id);
      attached := {};
    }
  }
}
