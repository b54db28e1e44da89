/** Which clients are connected to which chat of one hub, as values: what each hub operation does. */
module HubState {
  /** A client is known by its session id; two sockets of one session are different clients with the same id. */
  datatype Client = Client(id: string, socket: nat)

  datatype Members = Members(connected: map<string, Client>, disconnected: map<string, Client>)

  datatype Meta = Meta(client: Client, current: string)

  datatype State = State(metas: map<string, Meta>, chats: map<string, Members>)

  const NO_MEMBERS := Members(map[], map[])

  function Connect(m: Members, c: Client): Members {
    Members(m.connected[c.id := c], m.disconnected - {c.id})
  }

  function Disconnect(m: Members, c: Client): Members {
    Members(m.connected - {c.id}, m.disconnected[c.id := c])
  }

  function Remove(m: Members, c: Client): Members {
    Members(m.connected - {c.id}, m.disconnected - {c.id})
  }

  /** Each map is keyed by client id and no id is in both. */
  ghost predicate MembersOk(m: Members) {
    && (forall id :: id in m.connected ==> m.connected[id].id == id)
    && (forall id :: id in m.disconnected ==> m.disconnected[id].id == id)
    && (forall id :: id in m.connected ==> id !in m.disconnected)
  }

  function WithMeta(h: State, c: Client): State {
    if c.id in h.metas then h else h.(metas := h.metas[c.id := Meta(c, "")])
  }

  function DisconnectFrom(h: State, chat: string, c: Client): State {
    if chat in h.chats then h.(chats := h.chats[chat := Disconnect(h.chats[chat], c)]) else h
  }

  function DisconnectAll(h: State, c: Client): State {
    h.(chats := map k | k in h.chats :: Disconnect(h.chats[k], c))
  }

  function ConnectTo(h: State, chat: string, c: Client): State {
    if chat in h.chats then h.(chats := h.chats[chat := Connect(h.chats[chat], c)]) else h
  }

  function SetCurrent(h: State, id: string, chat: string): State {
    if id in h.metas then h.(metas := h.metas[id := h.metas[id].(current := chat)]) else h
  }

  /** Connecting to the empty id is the initial connection: the client joins every chat as disconnected. */
  function ConnectClient(h: State, chat: string, c: Client): State {
    var h1 := WithMeta(h, c);
    var h2 := DisconnectFrom(h1, h1.metas[c.id].current, c);
    var h3 := if chat == "" then DisconnectAll(h2, c) else h2;
    if chat in h3.chats then SetCurrent(ConnectTo(h3, chat, c), c.id, chat) else h3
  }

  function DisconnectClient(h: State, c: Client): State {
    if c.id in h.metas then DisconnectFrom(h, h.metas[c.id].current, c) else h
  }

  function RemoveFromCurrent(h: State, c: Client): State {
    if c.id in h.metas && h.metas[c.id].current in h.chats then
      h.(chats := h.chats[h.metas[c.id].current := Remove(h.chats[h.metas[c.id].current], c)])
    else h
  }

  /** Removal clears the current chat only. */
  function RemoveClient(h: State, c: Client): State {
    var h' := RemoveFromCurrent(h, c);
    h'.(metas := h'.metas - {c.id})
  }

  function AddChat(h: State, chat: string): State {
    h.(chats := h.chats[chat := NO_MEMBERS])
  }

  // ---- Which client object is held where ----

  /** The chat holds this very client as connected, and in no other way. */
  predicate HeldConnected(h: State, chat: string, c: Client) {
    && chat in h.chats && c.id in h.chats[chat].connected && h.chats[chat].connected[c.id] == c
    && c.id !in h.chats[chat].disconnected
  }

  predicate HeldDisconnected(h: State, chat: string, c: Client) {
    && chat in h.chats && c.id in h.chats[chat].disconnected && h.chats[chat].disconnected[c.id] == c
    && c.id !in h.chats[chat].connected
  }

  /** Nothing the chat holds about this id has changed. */
  predicate SameMembership(m: Members, m': Members, id: string) {
    && (id in m'.connected <==> id in m.connected) && (id in m.connected ==> m'.connected[id] == m.connected[id])
    && (id in m'.disconnected <==> id in m.disconnected)
    && (id in m.disconnected ==> m'.disconnected[id] == m.disconnected[id])
  }

  function CurrentOf(h: State, id: string): string {
    if id in h.metas then h.metas[id].current else ""
  }

  lemma DisconnectionHolds(h: State, chat: string, c: Client)
    ensures var h' := DisconnectFrom(h, chat, c);
      && h'.metas == h.metas && h'.chats.Keys == h.chats.Keys
      && (chat in h.chats ==> HeldDisconnected(h', chat, c))
      && (forall k :: k in h.chats && k != chat ==> h'.chats[k] == h.chats[k])
      && (forall k, id :: k in h.chats && id != c.id ==> SameMembership(h.chats[k], h'.chats[k], id))
  {
  }

  lemma SweepHolds(h: State, c: Client)
    ensures var h' := DisconnectAll(h, c);
      && h'.metas == h.metas && h'.chats.Keys == h.chats.Keys
      && (forall k :: k in h.chats ==> HeldDisconnected(h', k, c))
      && (forall k, id :: k in h.chats && id != c.id ==> SameMembership(h.chats[k], h'.chats[k], id))
  {
  }

  lemma EntryHolds(h: State, chat: string, c: Client)
    requires chat in h.chats && c.id in h.metas
    ensures var h' := SetCurrent(ConnectTo(h, chat, c), c.id, chat);
      && h'.chats.Keys == h.chats.Keys && HeldConnected(h', chat, c)
      && (forall k :: k in h.chats && k != chat ==> h'.chats[k] == h.chats[k])
      && (forall k, id :: k in h.chats && id != c.id ==> SameMembership(h.chats[k], h'.chats[k], id))
      && h'.metas == h.metas[c.id := h.metas[c.id].(current := chat)]
  {
  }

  /** The hub once the client has left its current chat and, for an initial connection, was put into every chat. */
  function Ready(h: State, chat: string, c: Client): State {
    var h1 := WithMeta(h, c);
    var h2 := DisconnectFrom(h1, h1.metas[c.id].current, c);
    if chat == "" then DisconnectAll(h2, c) else h2
  }

  lemma ReadyHolds(h: State, chat: string, c: Client)
    ensures var h', left := Ready(h, chat, c), CurrentOf(h, c.id);
      && h'.chats.Keys == h.chats.Keys && h'.metas == WithMeta(h, c).metas
      && (left in h.chats ==> HeldDisconnected(h', left, c))
      && (chat == "" ==> forall k :: k in h.chats ==> HeldDisconnected(h', k, c))
      && (chat != "" ==> forall k :: k in h.chats && k != left ==> h'.chats[k] == h.chats[k])
  {
    var h1, left := WithMeta(h, c), CurrentOf(h, c.id);
    DisconnectionHolds(h1, left, c);
    SweepHolds(DisconnectFrom(h1, left, c), c);
  }

  lemma ConnectionFromReady(h: State, chat: string, c: Client)
    ensures var h' := Ready(h, chat, c);
            ConnectClient(h, chat, c) == if chat in h'.chats then SetCurrent(ConnectTo(h', chat, c), c.id, chat) else h'
  {
  }

  lemma HoldsFromReady(h: State, ready: State, h': State, chat: string, c: Client)
    requires ready.chats.Keys == h'.chats.Keys == h.chats.Keys
    requires chat in h.chats ==> HeldConnected(h', chat, c)
    requires forall k :: k in h.chats && k != chat ==> h'.chats[k] == ready.chats[k]
    requires CurrentOf(h, c.id) in h.chats ==> HeldDisconnected(ready, CurrentOf(h, c.id), c)
    requires chat == "" ==> forall k :: k in h.chats ==> HeldDisconnected(ready, k, c)
    requires chat != "" ==> forall k :: k in h.chats && k != CurrentOf(h, c.id) ==> ready.chats[k] == h.chats[k]
    ensures HeldAfterConnection(h, h', chat, c)
  {
  }

  /** The chat entered holds this very client as connected; the chat left, and after an initial connection every chat,
      holds it as disconnected; other chats are as they were. */
  ghost predicate HeldAfterConnection(h: State, h': State, chat: string, c: Client) {
    var left := CurrentOf(h, c.id);
    && h'.chats.Keys == h.chats.Keys
    && (chat in h.chats ==> HeldConnected(h', chat, c))
    && (left in h.chats && left != chat ==> HeldDisconnected(h', left, c))
    && (chat == "" ==> forall k :: k in h.chats && k != "" ==> HeldDisconnected(h', k, c))
    && (chat != "" ==> forall k :: k in h.chats && k != chat && k != left ==> h'.chats[k] == h.chats[k])
  }

  lemma ConnectionHolds(h: State, chat: string, c: Client)
    ensures HeldAfterConnection(h, ConnectClient(h, chat, c), chat, c)
  {
    ReadyHolds(h, chat, c);
    ConnectionFromReady(h, chat, c);
    if chat in h.chats {
      EntryHolds(Ready(h, chat, c), chat, c);
    }
    HoldsFromReady(h, Ready(h, chat, c), ConnectClient(h, chat, c), chat, c);
  }

  lemma ReadyLeavesOthers(h: State, chat: string, c: Client, k: string, id: string)
    requires k in h.chats && id != c.id
    ensures k in Ready(h, chat, c).chats && SameMembership(h.chats[k], Ready(h, chat, c).chats[k], id)
  {
    var h1, left := WithMeta(h, c), CurrentOf(h, c.id);
    DisconnectionHolds(h1, left, c);
    SweepHolds(DisconnectFrom(h1, left, c), c);
    assert SameMembership(h.chats[k], DisconnectFrom(h1, left, c).chats[k], id);
  }

  /** Other clients are held in every chat as they were. */
  lemma ConnectionLeavesOthers(h: State, chat: string, c: Client, k: string, id: string)
    requires k in h.chats && id != c.id
    ensures k in ConnectClient(h, chat, c).chats
    ensures SameMembership(h.chats[k], ConnectClient(h, chat, c).chats[k], id)
  {
    ReadyHolds(h, chat, c);
    ReadyLeavesOthers(h, chat, c, k, id);
    ConnectionFromReady(h, chat, c);
    if chat in h.chats {
      EntryHolds(Ready(h, chat, c), chat, c);
    }
  }

  /** The metadata goes on naming the client that it named first, or this one if it is new, and names the chat
      entered. */
  lemma ConnectionRecords(h: State, chat: string, c: Client)
    ensures var h' := ConnectClient(h, chat, c);
      && c.id in h'.metas
      && h'.metas[c.id].client == (if c.id in h.metas then h.metas[c.id].client else c)
      && h'.metas[c.id].current == (if chat in h.chats then chat else CurrentOf(h, c.id))
      && (forall id :: id != c.id ==> (id in h'.metas <==> id in h.metas))
      && (forall id :: id != c.id && id in h.metas ==> h'.metas[id] == h.metas[id])
  {
    ReadyHolds(h, chat, c);
    ConnectionFromReady(h, chat, c);
    if chat in h.chats {
      EntryHolds(Ready(h, chat, c), chat, c);
    }
  }

  /** A disconnection leaves this very client as disconnected in the current chat; a removal leaves no client of the id
      there and forgets the metadata; all else is as it was. */
  lemma LeavingHolds(h: State, c: Client)
    requires c.id in h.metas
    ensures var chat := h.metas[c.id].current;
            var away, gone := DisconnectClient(h, c), RemoveClient(h, c);
      && away.metas == h.metas && away.chats.Keys == gone.chats.Keys == h.chats.Keys
      && (chat in h.chats ==> HeldDisconnected(away, chat, c))
      && (chat in h.chats ==> c.id !in gone.chats[chat].connected && c.id !in gone.chats[chat].disconnected)
      && (forall k :: k in h.chats && k != chat ==> away.chats[k] == gone.chats[k] == h.chats[k])
      && (forall k, id :: k in h.chats && id != c.id ==>
            SameMembership(h.chats[k], away.chats[k], id) && SameMembership(h.chats[k], gone.chats[k], id))
      && c.id !in gone.metas
      && (forall id :: id != c.id && id in h.metas ==> id in gone.metas && gone.metas[id] == h.metas[id])
  {
    DisconnectionHolds(h, h.metas[c.id].current, c);
  }

  /** A new chat holds nobody. */
  lemma NewChatHoldsNobody(h: State, chat: string)
    ensures var h' := AddChat(h, chat);
      && h'.metas == h.metas && h'.chats.Keys == h.chats.Keys + {chat}
      && |h'.chats[chat].connected| == 0 && |h'.chats[chat].disconnected| == 0
      && forall k :: k in h.chats && k != chat ==> h'.chats[k] == h.chats[k]
  {
  }

  // ---- Telling every client of the hub ----

  function ClientsOf(ids: seq<string>, metas: map<string, Meta>): (told: seq<Client>)
    requires forall i :: 0 <= i < |ids| ==> ids[i] in metas
    ensures |told| == |ids|
    ensures forall i :: 0 <= i < |ids| ==> told[i] == metas[ids[i]].client
  {
    seq(|ids|, i requires 0 <= i < |ids| => metas[ids[i]].client)
  }

  /** The client of each metadata entry is told once, in some order of the entries. */
  ghost predicate TellsEachOnce(metas: map<string, Meta>, told: seq<Client>) {
    exists ids: seq<string> :: Enumerates(ids, metas.Keys) && told == ClientsOf(ids, metas)
  }

  // ---- Broadcasting ----

  datatype Call = Call(client: Client, connected: bool)

  /** The calls of one broadcast: the connected clients in some order, then the disconnected ones. */
  ghost predicate BroadcastCalls(m: Members, calls: seq<Call>) {
    exists up: seq<string>, down: seq<string> ::
      && Enumerates(up, m.connected.Keys) && Enumerates(down, m.disconnected.Keys)
      && calls == CallsOf(up, m.connected, true) + CallsOf(down, m.disconnected, false)
  }

  ghost predicate Enumerates(ids: seq<string>, keys: set<string>) {
    && (forall i :: 0 <= i < |ids| ==> ids[i] in keys)
    && (forall k :: k in keys ==> k in ids)
    && (forall i, j :: 0 <= i < j < |ids| ==> ids[i] != ids[j])
  }

  function CallsOf(ids: seq<string>, clients: map<string, Client>, connected: bool): (calls: seq<Call>)
    requires forall i :: 0 <= i < |ids| ==> ids[i] in clients
    ensures |calls| == |ids|
    ensures forall i :: 0 <= i < |ids| ==> calls[i] == Call(clients[ids[i]], connected)
  {
    seq(|ids|, i requires 0 <= i < |ids| => Call(clients[ids[i]], connected))
  }

  /** Every client object of the chat is called exactly once, with the flag telling the two maps apart, nobody else
      is, and no id is called twice. */
  ghost predicate CalledExactly(m: Members, calls: seq<Call>) {
    && (forall i, j :: 0 <= i < j < |calls| ==> calls[i].client.id != calls[j].client.id)
    && (forall c :: Call(c, true) in calls <==> c.id in m.connected && m.connected[c.id] == c)
    && (forall c :: Call(c, false) in calls <==> c.id in m.disconnected && m.disconnected[c.id] == c)
  }

  /** One half of a broadcast calls each client of its map once, with its flag. */
  ghost predicate HalfExact(clients: map<string, Client>, flag: bool, calls: seq<Call>) {
    && (forall i, j :: 0 <= i < j < |calls| ==> calls[i].client.id != calls[j].client.id)
    && (forall call: Call :: call in calls <==>
          call.connected == flag && call.client.id in clients && clients[call.client.id] == call.client)
  }

  lemma HalfIsExact(ids: seq<string>, clients: map<string, Client>, flag: bool)
    requires Enumerates(ids, clients.Keys) && forall id :: id in clients ==> clients[id].id == id
    ensures HalfExact(clients, flag, CallsOf(ids, clients, flag))
  {
    var calls := CallsOf(ids, clients, flag);
    forall call: Call | call.connected == flag && call.client.id in clients && clients[call.client.id] == call.client
      ensures call in calls
    {
      var i :| 0 <= i < |ids| && ids[i] == call.client.id;
      assert calls[i] == call;
    }
  }

  lemma HalvesAreExact(m: Members, a: seq<Call>, b: seq<Call>)
    requires MembersOk(m) && HalfExact(m.connected, true, a) && HalfExact(m.disconnected, false, b)
    ensures CalledExactly(m, a + b)
  {
    assert forall i :: 0 <= i < |a| ==> a[i] in a;
    assert forall i :: 0 <= i < |b| ==> b[i] in b;
  }

  /** With disjoint maps keyed by id, whatever order Go's map iteration takes, a broadcast is exact. */
  lemma BroadcastIsExact(m: Members, calls: seq<Call>)
    requires MembersOk(m) && BroadcastCalls(m, calls)
    ensures CalledExactly(m, calls)
  {
    var up, down :| Enumerates(up, m.connected.Keys) && Enumerates(down, m.disconnected.Keys) &&
                    calls == CallsOf(up, m.connected, true) + CallsOf(down, m.disconnected, false);
    HalfIsExact(up, m.connected, true);
    HalfIsExact(down, m.disconnected, false);
    HalvesAreExact(m, CallsOf(up, m.connected, true), CallsOf(down, m.disconnected, false));
  }
}
