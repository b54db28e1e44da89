/** One websocket session of a web app: connect, switch chats as the client asks, and leave, while chats arrive and
    other clients come and go. */
module Chatroom {
  import opened Wrappers
  import HS = HubState
  import opened HubState
  import H = Hub

  /** A socket message: it does not parse, or it has a type and a chat id. */
  datatype Payload = Malformed | Request(kind: string, chatId: string)

  /** What another session does to the hub. */
  datatype Other = Connects(chat: string, c: HS.Client) | Disconnects(c: HS.Client) | Leaves(c: HS.Client)

  /** What happens to the hub while the session lasts, in order. */
  datatype Moment = FromSocket(p: Payload) | ChatArrives(chat: string) | Elsewhere(o: Other)

  /** The messages that switch the chat; all others are ignored, as are switches to the empty id. */
  predicate Switches(p: Payload) {
    p.Request? && p.kind == "changeChat" && p.chatId != ""
  }

  predicate SwitchesTo(m: Moment, chat: string) {
    m.FromSocket? && Switches(m.p) && m.p.chatId == chat
  }

  function Act(h: State, o: Other): State {
    match o
    case Connects(chat, d) => HS.ConnectClient(h, chat, d)
    case Disconnects(d) => HS.DisconnectClient(h, d)
    case Leaves(d) => HS.RemoveClient(h, d)
  }

  /** The hub after one moment, and whether the session is still alive: switching to a chat the hub does not know
      panics, after the hub has already been told. */
  function ServeOne(h: State, c: HS.Client, m: Moment): (State, bool) {
    match m
    case FromSocket(p) =>
      if Switches(p) then (HS.ConnectClient(h, p.chatId, c), p.chatId in h.chats) else (h, true)
    case ChatArrives(chat) => (HS.AddChat(h, chat), true)
    case Elsewhere(o) => (Act(h, o), true)
  }

  function Serve(h: State, c: HS.Client, log: seq<Moment>): (State, bool)
    decreases |log|
  {
    if log == [] then (h, true)
    else
      var (h', alive) := ServeOne(h, c, log[0]);
      if alive then Serve(h', c, log[1..]) else (h', false)
  }

  /** A whole session; a panic skips the removal. */
  function Session(h: State, c: HS.Client, log: seq<Moment>): (State, bool) {
    var (h', alive) := Serve(HS.ConnectClient(h, "", c), c, log);
    (if alive then HS.RemoveClient(h', c) else h', alive)
  }

  /** The session's own loop is over its messages; the other moments are what other goroutines do in between. */
  method Run(hub: H.Hub, client: HS.Client, log: seq<Moment>) returns (clean: bool)
    requires hub.Valid()
    modifies hub, hub.chats.Values
    ensures hub.Valid()
    ensures (hub.State(), clean) == Session(old(hub.State()), client, log)
  {
    var _, _ := hub.ConnectClient("", client);
    ghost var started := hub.State();
    for i := 0 to |log|
      invariant hub.Valid()
      invariant forall k :: k in hub.chats ==> hub.chats[k] in old(hub.chats.Values) || fresh(hub.chats[k])
      invariant Serve(started, client, log) == Serve(hub.State(), client, log[i..])
    {
      assert log[i..][0] == log[i] && log[i..][1..] == log[i + 1..];
      match log[i] {
        case ChatArrives(chat) =>
          var _ := hub.NewChatArrives(chat);
        case Elsewhere(Connects(chat, d)) =>
          var _, _ := hub.ConnectClient(chat, d);
        case Elsewhere(Disconnects(d)) =>
          hub.DisconnectClient(d);
        case Elsewhere(Leaves(d)) =>
          hub.RemoveClient(d);
        case FromSocket(p) =>
          if !p.Request? || p.kind != "changeChat" || p.chatId == "" {
            continue;
          }
          var chat, _ := hub.ConnectClient(p.chatId, client);
          if chat == null {
            return false;
          }
      }
    }
    hub.RemoveClient(client);
    return true;
  }

  // ---- What a socket message does ----

  lemma {:induction false} ServeWithout(h: State, c: HS.Client, before: seq<Moment>, p: Payload, rest: seq<Moment>)
    requires p.Malformed? || p.kind != "changeChat" || p.chatId == ""
    ensures Serve(h, c, before + [FromSocket(p)] + rest) == Serve(h, c, before + rest)
    decreases |before|
  {
    if before == [] {
      assert before + [FromSocket(p)] + rest == [FromSocket(p)] + rest && before + rest == rest;
      assert ([FromSocket(p)] + rest)[1..] == rest;
    } else {
      var (h', alive) := ServeOne(h, c, before[0]);
      assert (before + [FromSocket(p)] + rest)[1..] == before[1..] + [FromSocket(p)] + rest;
      assert (before + rest)[1..] == before[1..] + rest;
      if alive {
        ServeWithout(h', c, before[1..], p, rest);
      }
    }
  }

  /** A message that does not parse, one of another type and one that names no chat might as well not have come. */
  lemma IgnoredMessages(h: State, c: HS.Client, before: seq<Moment>, p: Payload, rest: seq<Moment>)
    requires p.Malformed? || p.kind != "changeChat" || p.chatId == ""
    ensures Session(h, c, before + [FromSocket(p)] + rest) == Session(h, c, before + rest)
  {
    ServeWithout(HS.ConnectClient(h, "", c), c, before, p, rest);
  }

  /** A switch is a connection of this very client to the chat it names, and the session goes on exactly if the hub
      knows that chat. */
  lemma SwitchHolds(h: State, c: HS.Client, chat: string)
    requires chat != ""
    ensures var (h', alive) := ServeOne(h, c, FromSocket(Request("changeChat", chat)));
      && (alive <==> chat in h.chats)
      && HeldAfterConnection(h, h', chat, c)
  {
    ConnectionHolds(h, chat, c);
  }

  // ---- When a session ends cleanly ----

  /** The chat is known when the session began, or has arrived before this moment. */
  ghost predicate KnownAt(keys: set<string>, log: seq<Moment>, i: nat, chat: string)
    requires i <= |log|
  {
    chat in keys || exists j :: 0 <= j < i && log[j] == ChatArrives(chat)
  }

  /** Every chat the client asks for is known when it asks. */
  ghost predicate AsksForKnown(keys: set<string>, log: seq<Moment>) {
    forall i, chat :: 0 <= i < |log| && SwitchesTo(log[i], chat) ==> KnownAt(keys, log, i, chat)
  }

  function KeysAfter(keys: set<string>, m: Moment): set<string> {
    if m.ChatArrives? then keys + {m.chat} else keys
  }

  lemma ServeOneKeys(h: State, c: HS.Client, m: Moment)
    ensures ServeOne(h, c, m).0.chats.Keys == KeysAfter(h.chats.Keys, m)
  {
  }

  lemma KnownLater(keys: set<string>, log: seq<Moment>, i: nat, chat: string)
    requires 0 < i <= |log|
    ensures KnownAt(keys, log, i, chat) <==> KnownAt(KeysAfter(keys, log[0]), log[1..], i - 1, chat)
  {
    var rest := log[1..];
    assert forall j :: 0 < j < |log| ==> log[j] == rest[j - 1];
    if j :| 0 <= j < i && log[j] == ChatArrives(chat) {
      assert j == 0 || rest[j - 1] == ChatArrives(chat);
    }
    if j :| 0 <= j < i - 1 && rest[j] == ChatArrives(chat) {
      assert log[j + 1] == ChatArrives(chat);
    }
  }

  lemma AsksCons(keys: set<string>, log: seq<Moment>)
    requires log != []
    ensures AsksForKnown(keys, log) <==>
            && (log[0].FromSocket? && Switches(log[0].p) ==> log[0].p.chatId in keys)
            && AsksForKnown(KeysAfter(keys, log[0]), log[1..])
  {
    var rest := log[1..];
    if AsksForKnown(keys, log) {
      forall i, chat | 0 <= i < |rest| && SwitchesTo(rest[i], chat)
        ensures KnownAt(KeysAfter(keys, log[0]), rest, i, chat)
      {
        assert SwitchesTo(log[i + 1], chat);
        KnownLater(keys, log, i + 1, chat);
      }
      if log[0].FromSocket? && Switches(log[0].p) {
        assert SwitchesTo(log[0], log[0].p.chatId);
      }
    } else {
      var i, chat :| 0 <= i < |log| && SwitchesTo(log[i], chat) && !KnownAt(keys, log, i, chat);
      if i > 0 {
        KnownLater(keys, log, i, chat);
        assert SwitchesTo(rest[i - 1], chat);
      }
    }
  }

  lemma {:induction false} ServeSurvives(h: State, c: HS.Client, log: seq<Moment>)
    ensures Serve(h, c, log).1 <==> AsksForKnown(h.chats.Keys, log)
    decreases |log|
  {
    if log == [] {
    } else {
      AsksCons(h.chats.Keys, log);
      ServeOneKeys(h, c, log[0]);
      ServeSurvives(ServeOne(h, c, log[0]).0, c, log[1..]);
    }
  }

  /** A session ends with the removal of its client exactly when every chat it asked for was known to the hub when it
      was asked for, whatever chats arrived and whatever other clients did meanwhile. */
  lemma SessionEndsCleanlyExactly(h: State, c: HS.Client, log: seq<Moment>)
    ensures Session(h, c, log).1 <==> AsksForKnown(h.chats.Keys, log)
  {
    ServeSurvives(HS.ConnectClient(h, "", c), c, log);
    assert HS.ConnectClient(h, "", c).chats.Keys == h.chats.Keys;
  }

  // ---- What a session leaves behind ----

  predicate Unknown(h: State, id: string) {
    id !in h.metas && forall k :: k in h.chats ==> id !in h.chats[k].connected && id !in h.chats[k].disconnected
  }

  /** Where a session stands: the chat it switched to last, and the chats it was put into since they were filed. */
  datatype Trail = Trail(current: Option<string>, joined: set<string>)

  /** A switch also puts the client back into the chat it leaves, even one that was replaced meanwhile. */
  function Follow(t: Trail, m: Moment): Trail {
    match m
    case FromSocket(p) =>
      if Switches(p) then
        Trail(Some(p.chatId), t.joined + {p.chatId} + (if t.current.Some? then {t.current.value} else {}))
      else t
    case ChatArrives(chat) => t.(joined := t.joined - {chat})
    case Elsewhere(_) => t
  }

  function FollowAll(t: Trail, log: seq<Moment>): Trail
    decreases |log|
  {
    if log == [] then t else FollowAll(Follow(t, log[0]), log[1..])
  }

  /** This very client is connected in its current chat, if it is still in it, and disconnected in all else it joined.
      */
  ghost predicate Settled(h: State, c: HS.Client, t: Trail) {
    && c.id in h.metas && h.metas[c.id].current == (if t.current.Some? then t.current.value else "")
    && "" !in h.chats && t.joined <= h.chats.Keys
    && (t.current.Some? ==> t.current.value in h.chats)
    && (forall k :: k in h.chats ==> (c.id in h.chats[k].connected <==> t.current == Some(k) && k in t.joined))
    && (forall k :: k in h.chats ==> (c.id in h.chats[k].disconnected <==> t.current != Some(k) && k in t.joined))
    && (forall k :: k in h.chats && c.id in h.chats[k].connected ==> h.chats[k].connected[c.id] == c)
    && (forall k :: k in h.chats && c.id in h.chats[k].disconnected ==> h.chats[k].disconnected[c.id] == c)
  }

  /** Other sessions have other ids, and no chat has the empty id. */
  predicate Apart(id: string, m: Moment) {
    match m
    case FromSocket(_) => true
    case ChatArrives(chat) => chat != ""
    case Elsewhere(o) => o.c.id != id
  }

  lemma InitialConnectionSettles(h: State, c: HS.Client)
    requires Unknown(h, c.id) && "" !in h.chats
    ensures Settled(HS.ConnectClient(h, "", c), c, Trail(None, h.chats.Keys))
  {
  }

  lemma SwitchSettles(h: State, c: HS.Client, t: Trail, p: Payload)
    requires Settled(h, c, t) && Switches(p) && p.chatId in h.chats
    ensures Settled(HS.ConnectClient(h, p.chatId, c), c, Follow(t, FromSocket(p)))
  {
  }

  /** Nothing the hub holds about this id has changed. */
  ghost predicate SameFor(id: string, h: State, h': State) {
    && (id in h'.metas <==> id in h.metas) && (id in h.metas ==> h'.metas[id] == h.metas[id])
    && h'.chats.Keys == h.chats.Keys
    && (forall k :: k in h.chats ==> SameMembership(h.chats[k], h'.chats[k], id))
  }

  lemma DisconnectSameFor(id: string, h: State, chat: string, d: HS.Client)
    requires d.id != id
    ensures SameFor(id, h, DisconnectFrom(h, chat, d))
  {
  }

  lemma ConnectionSameFor(id: string, h: State, chat: string, d: HS.Client)
    requires d.id != id
    ensures SameFor(id, h, HS.ConnectClient(h, chat, d))
  {
    ConnectionRecords(h, chat, d);
    ConnectionHolds(h, chat, d);
    forall k | k in h.chats ensures SameMembership(h.chats[k], HS.ConnectClient(h, chat, d).chats[k], id) {
      ConnectionLeavesOthers(h, chat, d, k, id);
    }
  }

  lemma OthersLeaveSettled(h: State, c: HS.Client, t: Trail, o: Other)
    requires Settled(h, c, t) && o.c.id != c.id
    ensures Settled(Act(h, o), c, t)
  {
    var id := c.id;
    assert SameFor(id, h, Act(h, o)) by {
      match o
      case Connects(chat, d) => ConnectionSameFor(id, h, chat, d);
      case Disconnects(d) =>
        if d.id in h.metas {
          DisconnectSameFor(id, h, h.metas[d.id].current, d);
        }
      case Leaves(d) =>
    }
  }

  lemma ServeOneSettles(h: State, c: HS.Client, t: Trail, m: Moment)
    requires Settled(h, c, t) && Apart(c.id, m) && ServeOne(h, c, m).1
    ensures Settled(ServeOne(h, c, m).0, c, Follow(t, m))
  {
    match m
    case FromSocket(p) =>
      if Switches(p) {
        SwitchSettles(h, c, t, p);
      }
    case ChatArrives(_) =>
    case Elsewhere(o) => OthersLeaveSettled(h, c, t, o);
  }

  lemma {:induction false} ServeSettles(h: State, c: HS.Client, t: Trail, log: seq<Moment>)
    requires Settled(h, c, t) && Serve(h, c, log).1
    requires forall i :: 0 <= i < |log| ==> Apart(c.id, log[i])
    ensures Settled(Serve(h, c, log).0, c, FollowAll(t, log))
    decreases |log|
  {
    if log == [] {
    } else {
      ServeOneSettles(h, c, t, log[0]);
      ServeSettles(ServeOne(h, c, log[0]).0, c, Follow(t, log[0]), log[1..]);
    }
  }

  /** Exactly what a session that ends cleanly leaves: its client connected nowhere and without metadata, but still in
      the disconnected map of every chat it was put into since that was filed, except the one it was last in: removal
      clears the current chat only. */
  lemma WhatASessionLeaves(h: State, c: HS.Client, log: seq<Moment>, chat: string)
    requires Unknown(h, c.id) && "" !in h.chats && Session(h, c, log).1
    requires forall i :: 0 <= i < |log| ==> Apart(c.id, log[i])
    ensures var h' := Session(h, c, log).0;
            var trail := FollowAll(Trail(None, h.chats.Keys), log);
      && c.id !in h'.metas
      && (chat in h'.chats ==>
            && c.id !in h'.chats[chat].connected
            && (c.id in h'.chats[chat].disconnected <==> chat in trail.joined && trail.current != Some(chat))
            && (c.id in h'.chats[chat].disconnected ==> h'.chats[chat].disconnected[c.id] == c))
  {
    InitialConnectionSettles(h, c);
    ServeSettles(HS.ConnectClient(h, "", c), c, Trail(None, h.chats.Keys), log);
  }

  /** The client is connected nowhere, but it has metadata and is disconnected in every chat it was put into. */
  ghost predicate LeftBehind(h: State, c: HS.Client, t: Trail) {
    && c.id in h.metas
    && (forall k :: k in h.chats ==> c.id !in h.chats[k].connected)
    && (forall k :: k in h.chats ==> (c.id in h.chats[k].disconnected <==> k in t.joined || t.current == Some(k)))
    && (forall k :: k in h.chats && c.id in h.chats[k].disconnected ==> h.chats[k].disconnected[c.id] == c)
  }

  lemma UnknownSwitchLeaves(h: State, c: HS.Client, t: Trail, p: Payload)
    requires Settled(h, c, t) && Switches(p) && p.chatId !in h.chats
    ensures LeftBehind(HS.ConnectClient(h, p.chatId, c), c, t)
  {
  }

  lemma {:induction false} ServeBreaks(h: State, c: HS.Client, t: Trail, log: seq<Moment>) returns (n: nat)
    requires Settled(h, c, t) && !Serve(h, c, log).1
    requires forall i :: 0 <= i < |log| ==> Apart(c.id, log[i])
    ensures n < |log| && Serve(h, c, log[..n]).1
    ensures log[n].FromSocket? && Switches(log[n].p) && log[n].p.chatId !in Serve(h, c, log[..n]).0.chats
    ensures LeftBehind(Serve(h, c, log).0, c, FollowAll(t, log[..n]))
    decreases |log|
  {
    var (h', alive) := ServeOne(h, c, log[0]);
    if alive {
      ServeOneSettles(h, c, t, log[0]);
      n := ServeBreaks(h', c, Follow(t, log[0]), log[1..]);
      assert log[..n + 1][0] == log[0] && log[..n + 1][1..] == log[1..][..n];
      n := n + 1;
    } else {
      UnknownSwitchLeaves(h, c, t, log[0].p);
      n := 0;
    }
  }

  /** And what one leaves that does not: it ends at a switch to a chat the hub does not know then, and its client,
      connected nowhere, keeps its metadata and stays in every chat it was put into, its last one included. */
  lemma WhatAPanicLeaves(h: State, c: HS.Client, log: seq<Moment>) returns (n: nat)
    requires Unknown(h, c.id) && "" !in h.chats && !Session(h, c, log).1
    requires forall i :: 0 <= i < |log| ==> Apart(c.id, log[i])
    ensures n < |log| && log[n].FromSocket? && Switches(log[n].p)
    ensures log[n].p.chatId !in Serve(HS.ConnectClient(h, "", c), c, log[..n]).0.chats
    ensures LeftBehind(Session(h, c, log).0, c, FollowAll(Trail(None, h.chats.Keys), log[..n]))
  {
    InitialConnectionSettles(h, c);
    n := ServeBreaks(HS.ConnectClient(h, "", c), c, Trail(None, h.chats.Keys), log);
  }

  // ---- The trail, read off the log ----

  /** The chat the client switched to last. */
  function LastChat(log: seq<Moment>): Option<string> {
    if log == [] then None
    else
      var m := log[|log| - 1];
      if m.FromSocket? && Switches(m.p) then Some(m.p.chatId) else LastChat(log[..|log| - 1])
  }

  lemma {:induction false} FollowSnoc(t: Trail, log: seq<Moment>, m: Moment)
    ensures FollowAll(t, log + [m]) == Follow(FollowAll(t, log), m)
    decreases |log|
  {
    if log == [] {
      assert [] + [m] == [m] && [m][1..] == [];
    } else {
      assert (log + [m])[1..] == log[1..] + [m];
      FollowSnoc(Follow(t, log[0]), log[1..], m);
    }
  }

  /** The trail ends in the chat switched to last; a chat that was not filed anew is in it exactly when it was there
      from the start or was visited. */
  lemma {:induction false} TrailOf(keys: set<string>, log: seq<Moment>, chat: string)
    requires ChatArrives(chat) !in log
    ensures var t := FollowAll(Trail(None, keys), log);
      && t.current == LastChat(log)
      && (chat in t.joined <==> chat in keys || exists i :: 0 <= i < |log| && SwitchesTo(log[i], chat))
      && (t.current == Some(chat) ==> chat in t.joined)
    decreases |log|
  {
    if log == [] {
    } else {
      var n := |log| - 1;
      assert log == log[..n] + [log[n]];
      TrailOf(keys, log[..n], chat);
      FollowSnoc(Trail(None, keys), log[..n], log[n]);
      assert forall i :: 0 <= i < n ==> log[..n][i] == log[i];
      assert SwitchesTo(log[n], chat) ==> exists i :: 0 <= i < |log| && SwitchesTo(log[i], chat);
    }
  }

  /** A chat that arrives and is not visited is not in the trail. */
  lemma {:induction false} ArrivedIsNotJoined(t: Trail, log: seq<Moment>, chat: string)
    requires t.current != Some(chat) && chat !in t.joined
    requires forall i :: 0 <= i < |log| ==> !SwitchesTo(log[i], chat)
    ensures chat !in FollowAll(t, log).joined
    decreases |log|
  {
    if log == [] {
    } else {
      assert !SwitchesTo(log[0], chat);
      ArrivedIsNotJoined(Follow(t, log[0]), log[1..], chat);
    }
  }

  /** For a chat there from the start and not replaced: the client stays in its disconnected map exactly when it was not
      the chat it was last in. */
  lemma LeftInOldChats(h: State, c: HS.Client, log: seq<Moment>, chat: string)
    requires Unknown(h, c.id) && "" !in h.chats && Session(h, c, log).1
    requires forall i :: 0 <= i < |log| ==> Apart(c.id, log[i])
    requires chat in h.chats && ChatArrives(chat) !in log
    ensures var h' := Session(h, c, log).0;
            chat in h'.chats && (c.id in h'.chats[chat].disconnected <==> LastChat(log) != Some(chat))
  {
    WhatASessionLeaves(h, c, log, chat);
    TrailOf(h.chats.Keys, log, chat);
    ServeKeepsKeys(HS.ConnectClient(h, "", c), c, log);
  }

  lemma {:induction false} ServeKeepsKeys(h: State, c: HS.Client, log: seq<Moment>)
    ensures h.chats.Keys <= Serve(h, c, log).0.chats.Keys
    decreases |log|
  {
    if log == [] {
    } else {
      ServeOneKeys(h, c, log[0]);
      ServeKeepsKeys(ServeOne(h, c, log[0]).0, c, log[1..]);
    }
  }

  /** In a chat that arrived during the session and was never visited, the client is in neither map. */
  lemma AbsentFromNewChats(h: State, c: HS.Client, log: seq<Moment>, chat: string)
    requires Unknown(h, c.id) && "" !in h.chats && Session(h, c, log).1
    requires forall i :: 0 <= i < |log| ==> Apart(c.id, log[i]) && !SwitchesTo(log[i], chat)
    requires chat !in h.chats && chat in Session(h, c, log).0.chats
    ensures var m := Session(h, c, log).0.chats[chat];
            c.id !in m.connected && c.id !in m.disconnected
  {
    WhatASessionLeaves(h, c, log, chat);
    ArrivedIsNotJoined(Trail(None, h.chats.Keys), log, chat);
  }
}
