/** Chat and Hub as the web app has them: objects updated in place, each method proved against module HubState. */
module Hub {
  import HS = HubState
  import opened HubState

  class Chat {
    const id: string
    var connectedClients: map<string, HS.Client>
    var disconnectedClients: map<string, HS.Client>

    ghost function Members(): HS.Members
      reads this
    {
      HS.Members(connectedClients, disconnectedClients)
    }

    constructor (id: string)
      ensures this.id == id && Members() == NO_MEMBERS
    {
      this.id := id;
      connectedClients, disconnectedClients := map[], map[];
    }

    method ConnectClient(client: HS.Client)
      modifies this
      ensures Members() == Connect(old(Members()), client)
      ensures client.id in connectedClients && connectedClients[client.id] == client
      ensures client.id !in disconnectedClients
    {
      disconnectedClients := disconnectedClients - {client.id};
      connectedClients := connectedClients[client.id := client];
    }

    method DisconnectClient(client: HS.Client)
      modifies this
      ensures Members() == Disconnect(old(Members()), client)
      ensures client.id in disconnectedClients && disconnectedClients[client.id] == client
      ensures client.id !in connectedClients
    {
      connectedClients := connectedClients - {client.id};
      disconnectedClients := disconnectedClients[client.id := client];
    }

    method RemoveClient(client: HS.Client)
      modifies this
      ensures Members() == Remove(old(Members()), client)
      ensures client.id !in connectedClients && client.id !in disconnectedClients
    {
      connectedClients := connectedClients - {client.id};
      disconnectedClients := disconnectedClients - {client.id};
    }

    /** Calls every client once; the two loops visit their map in an arbitrary order. */
    method Broadcast() returns (calls: seq<Call>)
      ensures BroadcastCalls(Members(), calls)
      ensures MembersOk(Members()) ==> CalledExactly(Members(), calls)
    {
      calls := [];
      ghost var up: seq<string> := [];
      var todo := connectedClients.Keys;
      while todo != {}
        invariant todo <= connectedClients.Keys
        invariant Enumerates(up, connectedClients.Keys - todo)
        invariant calls == CallsOf(up, connectedClients, true)
        decreases todo
      {
        var k :| k in todo;
        calls := calls + [Call(connectedClients[k], true)];
        up := up + [k];
        todo := todo - {k};
      }
      assert connectedClients.Keys - todo == connectedClients.Keys;
      ghost var down: seq<string> := [];
      todo := disconnectedClients.Keys;
      while todo != {}
        invariant todo <= disconnectedClients.Keys
        invariant Enumerates(down, disconnectedClients.Keys - todo)
        invariant calls == CallsOf(up, connectedClients, true) + CallsOf(down, disconnectedClients, false)
        decreases todo
      {
        var k :| k in todo;
        calls := calls + [Call(disconnectedClients[k], false)];
        down := down + [k];
        todo := todo - {k};
      }
      assert disconnectedClients.Keys - todo == disconnectedClients.Keys;
      if MembersOk(Members()) {
        BroadcastIsExact(Members(), calls);
      }
    }
  }

  class Hub {
    var clientMetas: map<string, Meta>
    var chats: map<string, Chat>

    /** Every chat is filed under its own id, so no chat object is filed twice. */
    ghost predicate Valid()
      reads this
    {
      forall k :: k in chats ==> chats[k].id == k
    }

    ghost function State(): HS.State
      reads this, chats.Values
    {
      HS.State(clientMetas, map k | k in chats :: chats[k].Members())
    }

    /** The chat that the metadata names as current. */
    function ChatNamedBy(metas: map<string, Meta>, id: string): Chat?
      reads this
    {
      if id in metas && metas[id].current in chats then chats[metas[id].current]
      else if id !in metas && "" in chats then chats[""]
      else null
    }

    constructor ()
      ensures Valid() && State() == HS.State(map[], map[])
    {
      clientMetas, chats := map[], map[];
    }

    method DisconnectClientFromChat(chatId: string, client: HS.Client)
      requires Valid()
      modifies chats.Values
      ensures Valid() && State() == DisconnectFrom(old(State()), chatId, client)
    {
      if chatId in chats {
        chats[chatId].DisconnectClient(client);
      }
    }

    /** Returns the chat now current and the one before, if the requested chat is known. */
    method ConnectClient(chatId: string, client: HS.Client) returns (chat: Chat?, previous: Chat?)
      requires Valid()
      modifies this`clientMetas, chats.Values
      ensures Valid() && chats == old(chats)
      ensures State() == HS.ConnectClient(old(State()), chatId, client)
      ensures chat == if chatId in chats then chats[chatId] else null
      ensures previous == if chat == null then null else ChatNamedBy(old(clientMetas), client.id)
    {
      if client.id !in clientMetas {
        clientMetas := clientMetas[client.id := Meta(client, "")];
      }
      ghost var h1 := State();
      assert h1 == WithMeta(old(State()), client);
      var current := clientMetas[client.id].current;
      DisconnectClientFromChat(current, client);
      ghost var h2 := State();
      assert h2 == DisconnectFrom(h1, current, client) && chats == old(chats);
      previous := if current in chats then chats[current] else null;
      if chatId == "" {
        DisconnectFromEvery(client);
      }
      ghost var h3 := State();
      assert h3 == (if chatId == "" then DisconnectAll(h2, client) else h2) && chats == old(chats);
      assert h3.chats.Keys == h2.chats.Keys;
      chat := EnterChat(chatId, client);
      if chat == null {
        previous := null;
      }
    }

    /** The last part of `ConnectClient`: connect to the chat, if it is known, and record it as current. */
    method EnterChat(chatId: string, client: HS.Client) returns (chat: Chat?)
      requires Valid() && client.id in clientMetas
      modifies this`clientMetas, chats.Values
      ensures Valid() && chats == old(chats)
      ensures State() ==
              if chatId in chats then SetCurrent(ConnectTo(old(State()), chatId, client), client.id, chatId)
              else old(State())
      ensures chat == if chatId in chats then chats[chatId] else null
    {
      if chatId in chats {
        chats[chatId].ConnectClient(client);
        clientMetas := clientMetas[client.id := clientMetas[client.id].(current := chats[chatId].id)];
        return chats[chatId];
      }
      return null;
    }

    /** The loop of the initial connection, over the chats in an arbitrary order. */
    method DisconnectFromEvery(client: HS.Client)
      requires Valid()
      modifies chats.Values
      ensures Valid() && State() == DisconnectAll(old(State()), client)
    {
      var todo := chats.Keys;
      while todo != {}
        invariant todo <= chats.Keys
        invariant forall k :: k in chats ==>
                    chats[k].Members() ==
                    if k in todo then old(chats[k].Members()) else Disconnect(old(chats[k].Members()), client)
        decreases todo
      {
        var k :| k in todo;
        chats[k].DisconnectClient(client);
        todo := todo - {k};
      }
    }

    method DisconnectClient(client: HS.Client)
      requires Valid()
      modifies chats.Values
      ensures Valid() && State() == HS.DisconnectClient(old(State()), client)
    {
      if client.id in clientMetas {
        DisconnectClientFromChat(clientMetas[client.id].current, client);
      }
    }

    method RemoveClient(client: HS.Client)
      requires Valid()
      modifies this`clientMetas, chats.Values
      ensures Valid() && State() == HS.RemoveClient(old(State()), client)
    {
      if client.id in clientMetas {
        var current := clientMetas[client.id].current;
        if current in chats {
          chats[current].RemoveClient(client);
        }
      }
      clientMetas := clientMetas - {client.id};
    }

    /** The new-chat branch of a notification: file a fresh chat under its id, and tell every client of the hub. */
    method NewChatArrives(chatId: string) returns (told: seq<HS.Client>)
      requires Valid()
      modifies this`chats
      ensures Valid() && State() == HS.AddChat(old(State()), chatId)
      ensures chatId in chats && fresh(chats[chatId]) && chats == old(chats)[chatId := chats[chatId]]
      ensures TellsEachOnce(clientMetas, told)
    {
      var chat := new Chat(chatId);
      chats := chats[chatId := chat];
      told := [];
      ghost var ids: seq<string> := [];
      var todo := clientMetas.Keys;
      while todo != {}
        invariant todo <= clientMetas.Keys
        invariant Enumerates(ids, clientMetas.Keys - todo)
        invariant told == ClientsOf(ids, clientMetas)
        decreases todo
      {
        var id :| id in todo;
        told := told + [clientMetas[id].client];
        ids := ids + [id];
        todo := todo - {id};
      }
      assert clientMetas.Keys - todo == clientMetas.Keys;
    }

    /** The message branch: the calls made by one notification; none for a chat the hub does not know. */
    method Notify(chatId: string) returns (calls: seq<Call>)
      requires Valid()
      ensures chatId !in chats ==> calls == []
      ensures chatId in chats ==> BroadcastCalls(chats[chatId].Members(), calls)
      ensures chatId in chats && MembersOk(chats[chatId].Members()) ==> CalledExactly(chats[chatId].Members(), calls)
    {
      if chatId !in chats {
        return [];
      }
      calls := chats[chatId].Broadcast();
    }
  }
}
