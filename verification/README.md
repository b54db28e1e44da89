# Chat system: a verified model

A Dafny model of a small distributed chat system. Web applications keep a hub of connected clients and publish events to
a work queue. One chat server applies each event to a message store, MongoDB with a Redis cache in front of it, and
broadcasts the changed message to the queue of every hub. A file server names uploaded images.

The hard properties come from state that is kept in several places and has to agree, so the model is about agreement:
cache and database, notifications and store, hubs and store, broker and registered consumers, the two client maps of a
chat. `dafny verify dfyconfig.toml` checks everything.

## How the model is laid out

Code that updates objects is modelled twice: as a class whose methods do what the Go methods do, in the same order and
with the same branches, and as functions on values. Each method's contract says that it has the effect of its function.
The properties over runs and interleavings are proved about the functions and the state machines built from them.

| part | classes | specification and properties |
|---|---|---|
| store and cache, one call at a time | `StoreService` | `Store`, `StoreFacts`, `Coherence`, `StoreAnswers`, `EventHistory` |
| store and cache, interleaved | | `Interleaving` (one Redis or MongoDB call per step), `InterleavedCoherence`, `Windows`, `CacheHistory` |
| events, chat server, notifications | `ChatServer` | `Events`, `Codec`, `EndToEnd`, `Replay`, `Views`, `Replicas`, `Delivery` |
| hub and chats | `Hub`, `Chatroom` | `HubState`, `HubSteps` (split at lock boundaries), `Locks` |
| AMQP client | `AmqpClient` | `Reconnect` |
| file names | `FileNames` | `FileNames` |

A message is compared through `Entities.Visible`: without the author's password, which JSON drops, with times in whole
milliseconds, which is what MongoDB keeps, and with the author's id in the form the database prints it. The cached list
and the database agree when their first hundred messages agree in this sense; more is neither promised nor read.

A run is any sequence of operations or steps, each legal where it is made. Random ids, the clock, and whether a broker
call or an encoding succeeds are parameters of the steps, so a property over runs holds for every choice of them.

## What is not true of the code

Each of these is stated as an exact condition in the model.

- Reading a chat by an id text with upper-case digits uses a cache key that no write ever invalidates
  (`Coherence.ReadsAreRightExactlyForCanonicalTexts`).
- Saving a message under another chat leaves the list of its old chat stale, unless there was none or the message lay
  beyond the cached hundred (`Coherence.MovingAMessage`).
- One reader's calls against another method's leave a wrong list in just these orders. Two readers that both missed, in
  any order, put the chat in its list twice, unless it is empty or fills the hundred (`Windows.ReaderAgainstReader`). An
  insertion that falls whole between a reader's load and population is missing, unless the chat was empty or filled the
  hundred; one that is loaded before its own push is there twice, unless the chat then fills the hundred; the other four
  orders do no harm (`Windows.ReaderAgainstInsertion`). An edit, hide, show, delete or re-save written after the load and
  deleted from the cache before the population leaves the old message, unless that lies beyond the hundred or nothing
  visible changed (`Windows.ReaderAgainstReplacement`).
- Two insertions into a cached chat that push in the other order than they were written leave a wrong list, unless the
  chat already filled the hundred (`Windows.WriterAgainstWriter`).
- The notification of an event does not always say what the event did. `Replay.EventReplaysExactly` gives the condition
  for every event: a stored post must use the chat id text the system prints; an edit, hide, show or delete must be
  addressed to the message's own chat or change nothing; an update must succeed on a message of its own chat, and when it
  fails it is broadcast all the same, which must not differ from what is shown; and times must be encodable.
- A client's window can stay wrong. A load of more than a hundred messages from the cache holds the oldest hundred. The
  list is shown some time after it was loaded: new messages still in the hub's queue when it is shown appear twice, new
  messages that came and were drawn into the old window before it is shown are missing, and so is a change that came in
  between, until the next change of that message. Otherwise the window is right
  (`Views.LoadingIsSafeExactly`, `Replicas.ViewsConverge`).
- A consumer that is set up and appended between a redial and the resetup pass ends up with two delivery loops
  (`Reconnect.RestoredExactly`), and one appended after the connection it was set up on was lost has none until the next
  pass (`Reconnect.StraddlingRegistration`).
- A post to a malformed chat id is never acknowledged (`ChatServer.PostIsPoisonExactly`). A post by a known user while the
  clock is out of the four-digit years, and an edit, hide, show or delete of a stored message whose times are, is
  acknowledged twice (`EndToEnd.AcknowledgementsExactly`); one update-message event and one edit bring that about for any
  stored message, with a time that is in year 9999 in its own zone and in year 10000 in UTC
  (`EndToEnd.LateTimeIsAcknowledgedTwice`). After it nothing is consumed until the connection is lost
  (`Delivery.SecondAcknowledgementStopsConsumer`).
- Switching to a chat the hub does not know ends a session without removing its client, and a removal leaves the client
  in the disconnected map of every chat it was put into but its current one (`Chatroom.SessionEndsCleanlyExactly`,
  `Chatroom.WhatAPanicLeaves`, `Chatroom.WhatASessionLeaves`).
- File names repeat exactly when the clock returns to a second it had left (`FileNames.DistinctExactlyWhenContiguous`).

## Model

| member | source | states |
|---|---|---|
| `Coherence.RunKeepsCoherence` | internal/store/mongodb.go:142-404 | Main result for the sequential store: after any sequence of saves, edits, hides, shows, deletes, reads, user lookups, user-cache expiries and new users and chats, ids are unique, every author exists, cached users are the database's, no cached list is empty, and every cached list agrees with the message-user join on the first hundred |
| `Coherence.InsertKeepsCoherence` | internal/store/cache.go:76-87 | An insertion is coherent both between the push and the trim and after the trim |
| `Coherence.PushAgrees` | internal/store/cache.go:78 | Appending the same visible message to a list and to a view that agree on the first hundred keeps them agreeing, however long either is, since positions past the hundredth are never seen |
| `Coherence.TouchAlwaysInvalidates` | internal/store/mongodb.go:174-183 | The author lookup between an update and its invalidation cannot fail, so an edit, hide, show or delete succeeds exactly when the id parses and the message exists, changes that document alone, and always drops the list of its chat |
| `Coherence.ReadReturnsViewOrHead` | internal/store/mongodb.go:261-313 | A read never fails; on a miss it returns the whole join, on a hit what is visible of exactly its first hundred messages |
| `Coherence.JoinIsTotal` | internal/store/mongodb.go:283-302 | In every reachable state the lookup-and-unwind join lists each document of the chat exactly once, in insertion order, with its author |
| `Coherence.ReadsAreRightExactlyForCanonicalTexts` | internal/store/cache.go:94-95 | A chat id text is read correctly in every run if and only if it is the lower-case text the system prints |
| `Coherence.MovingAMessage` | internal/store/mongodb.go:349-363 | Saving an existing message under another chat keeps every other chat agreeing, and its old chat if and only if that had no cached list or the message lay beyond the cached hundred |
| `StoreAnswers.ReadShowsDocuments` | internal/store/mongodb.go:57-72 | Main result over every run, field by field: the k-th message of a read has the id, chat, content, type, times, status, hidden list and deleted flag of the chat's k-th document, and the id and name of that document's author, both in the author and in the author text |
| `StoreAnswers.AuthorsMatchEverywhere` | internal/store/mongodb.go:61 | Over every run, each message that is cached and each that is read names its author by a text of the author's own id |
| `StoreAnswers.MissShowsDocument` | internal/store/mongodb.go:305-310 | On a miss the author text is the printed id of the document's author, and author and times are the stored ones to the last digit |
| `StoreAnswers.TouchShowsDocument` | internal/store/mongodb.go:168-183 | What an edit, hide, show or delete returns says, field by field, what the changed document and its author say |
| `StoreAnswers.SaveCaseByCase` | internal/store/mongodb.go:315-367 | For every save: by an unknown author nothing changes and the two errors are told apart; otherwise author and id are written into the caller's message and nothing else is, also when there is no such message to update |
| `StoreAnswers.SaveStores` | internal/store/mongodb.go:41-55 | A save that succeeds stores the caller's message field by field with whole milliseconds, last or in the place it had, leaves every other document, and leaves a cached list of at most a hundred |
| `StoreAnswers.LookupCaches` | internal/store/mongodb.go:498-528 | A lookup that succeeds leaves the user cached under its own id, so that the next one is a hit, and nothing else in the cache changes; a malformed and an unknown id are told apart |
| `StoreAnswers.ReadPopulates` | internal/store/mongodb.go:310 | A read that misses a chat with messages leaves its whole list cached, and no read changes any other list or one that was there |
| `StoreAnswers.NewUserIsKept` | internal/store/mongodb.go:454-472 | A user that is accepted is kept under its id with name and password as given, in the answer too, and replaces nobody |
| `StoreAnswers.UsersAreThoseAdded` | internal/store/mongodb.go:454-472 | Over every run, the users are those that were added, as they were given, and no operation changes or drops one |
| `StoreFacts.JoinDropsNothing` | internal/store/mongodb.go:283-291 | With every author known, the inner join is total and keeps order |
| `StoreFacts.ViewAfterInsert` | internal/store/mongodb.go:330-343 | An insertion extends the view of its own chat by exactly one message at the end and changes no other view |
| `StoreFacts.ViewAfterReplace` | internal/store/mongodb.go:161-166 | A change of one document replaces one message of its chat's view, at its place, and changes no other view |
| `StoreFacts.UserLookupRefinesDatabase` | internal/store/mongodb.go:498-528 | The cached user lookup finds exactly the users the database has, with their data up to the password, and leaves everything but a faithful user cache as it was |
| `StoreFacts.ExpiryChangesNoAnswer` | internal/store/cache.go:120-133 | Whatever part of the user cache expires, every lookup gives the same answer up to the password, and the same errors |
| `StoreService.RedisStore.InsertMessage` | internal/store/cache.go:76-87 | Pushes only to a list that exists and then trims that list, and no other, to its oldest hundred |
| `StoreService.RedisStore.UpdateMessage` | internal/store/cache.go:89-92 | Deletes the list of the message's chat and no other |
| `StoreService.RedisStore.GetMessages` | internal/store/cache.go:94-104 | At most a hundred messages, each the one at that position of the list, and fewer only when the list has no more |
| `StoreService.RedisStore.PopulateMessages` | internal/store/cache.go:106-118 | The whole view is appended, as JSON keeps it; an empty one creates no list |
| `StoreService.RedisStore.InsertUser` | internal/store/cache.go:120-123 | The user is cached under its own id text without the password, and the cache goes on mirroring every database that has this user |
| `StoreService.RedisStore.GetUser` | internal/store/cache.go:125-133 | A hit is the user of that id in every database the cache mirrors, up to the password, and there is a hit exactly for the texts cached |
| `StoreService.MongodbStore.GetUserById` | internal/store/mongodb.go:498-528 | The method, in place, is the lookup proved to refine the database: with a cache that mirrors the users, what it finds is the database's user up to the password, and the cache goes on mirroring them |
| `StoreService.MongodbStore.UpdateMessageContent` | internal/store/mongodb.go:369-404 | Update, author lookup and invalidation in place are one edit of the specification, with its three error cases |
| `StoreService.MongodbStore.SetHideMessage` | internal/store/mongodb.go:142-184 | The same for a hide, which adds the user once, or a show, which removes every occurrence |
| `StoreService.MongodbStore.DeleteMessage` | internal/store/mongodb.go:186-221 | The same for a delete, which only marks the document |
| `StoreService.MongodbStore.GetMessages` | internal/store/mongodb.go:261-313 | Cache first, then the join collected by a loop, then repopulation: the read of the specification, whose messages `StoreAnswers.ReadShowsDocuments` decides field by field |
| `StoreService.MongodbStore.SaveMessage` | internal/store/mongodb.go:315-367 | Insertion or update, with the id and author written into the caller's message even on some failures |
| `StoreService.MongodbStore.CreateUser` | internal/store/mongodb.go:454-472 | A user under a new id; an id already taken is refused and changes nothing |
| `StoreService.MongodbStore.SaveChat` | internal/store/mongodb.go:407-425 | The chat is stored by name alone, and its generated id text is returned |
| `StoreService.MongodbStore.GetChats` | internal/store/mongodb.go:427-452 | Every stored chat, in order, with its id text and name |
| `InterleavedCoherence.InterleavedCoherence` | internal/store/mongodb.go:261-404 | Main result for the interleaved store: any number of methods advance one Redis or MongoDB call at a time; if no reader's miss-to-push window and no write-to-cache window on a chat is open together with another on that chat, then no cached list is empty, and each agrees with the database on the first hundred whenever no write to its chat is in flight |
| `InterleavedCoherence.StartOfWrite` | internal/store/mongodb.go:330-343 | When a save reaches its MongoDB write, nothing else is in flight on its chat, so the list it is about to push to agrees |
| `InterleavedCoherence.CallSettles` | internal/store/mongodb.go:310-363 | The call that ends a window, whether a push, a deletion or a population, leaves its chat agreeing again |
| `Windows.ReaderAgainstReader` | internal/store/cache.go:106-118 | Two readers that both missed, in any of the six orders of their calls and among any other methods: the chat stays coherent if and only if it is empty or holds at least a hundred messages |
| `Windows.ReaderAgainstInsertion` | internal/store/mongodb.go:294-343 | A reader's load and population against an insertion's write and push, for each of the six orders: coherent if and only if the order is one of four harmless ones, or the insertion fell between load and population of a chat that was empty or filled the hundred, or was loaded and populated before its push in a chat that then fills the hundred |
| `Windows.ReaderAgainstReplacement` | internal/store/mongodb.go:161-181 | An edit, hide, show, delete or re-save written after a reader's load: if its deletion comes before the population, coherent if and only if the message lies beyond the hundred or nothing visible changed; if after, there is no list |
| `Windows.LateLoadIsHarmless` | internal/store/mongodb.go:294-310 | A load that comes after the write leaves the chat coherent, whether the deletion comes before or after the population |
| `Windows.WriterAgainstWriter` | internal/store/cache.go:76-87 | Two insertions into one cached chat, from the moment the first is written, in any order of their remaining writes, pushes and trims and among any other methods: coherent once both are done if and only if they pushed in the order they were written or the chat had filled the hundred before them |
| `Interleaving.SaveUninterrupted` | internal/store/mongodb.go:315-367 | Whatever other methods are suspended, the steps of one save run together have exactly the effect of the whole operation |
| `Interleaving.ReadUninterrupted` | internal/store/mongodb.go:261-313 | The same for a read |
| `Interleaving.TouchUninterrupted` | internal/store/mongodb.go:142-184 | The same for an edit, hide, show or delete |
| `CacheHistory.CacheHoldsOnlyHistory` | internal/store/mongodb.go:261-404 | Under every interleaving of any number of readers and writers, with no assumption on overlap, each entry of a cached list is what the database really held for that chat at some earlier moment |
| `EventHistory.RunAppliesTouches` | internal/store/mongodb.go:142-221 | Over any run, a stored document is never lost or moved, and it is its old self with exactly the changes addressed to its id applied in order |
| `EventHistory.MessageAfterRun` | internal/store/mongodb.go:142-221 | After any run without a re-save: the content is that of the last edit or the original, deleted holds exactly when some delete occurred, a user is hidden exactly when their last hide or show was a hide, the hidden list has no duplicates, and no other field changed |
| `EventHistory.HiddenIffLastIsHide` | internal/store/mongodb.go:153-166 | A user is in the hidden list exactly when some hide of theirs has no later show, or they were in it and were never shown |
| `EventHistory.CommuteExactlyWhenIndependent` | internal/store/mongodb.go:164 | Two changes commute on every document, up to the order of the hidden list, if and only if they are not two different edits and not a hide and a show of one user |
| `EventHistory.WithoutConcat` | internal/store/mongodb.go:158 | A show takes the user out of either part of a hidden list alike, so those who stay keep their order |
| `Codec.EventRoundTrip` | internal/chat.go:139-179 | Any event built by a publishing function decodes to the same type, chat, user and details, a message losing only its author's password |
| `Codec.MessageRoundTrip` | internal/chat.go:34-54 | A message encoded and decoded is the same message without its author's password |
| `Codec.DecodedEventsPassTheirAssertion` | cmd/chat-server/main.go:34-71 | Whatever tree it came from, a decoded event has the details type its handler asserts, except a pin, which no handler takes |
| `Codec.NotificationRoundTrip` | internal/chat.go:423-489 | A broadcast message, passed as a value or as a pointer, reaches a hub with its type, chat and user, losing only the password |
| `Codec.ChatNotificationRoundTrip` | internal/chat.go:443-458 | A broadcast chat reaches a hub as its id and name |
| `Codec.PublishedDetails` | internal/chat.go:270-345 | The publishing functions never build a pin, and build the details type that goes with each event |
| `Codec.CodesCountUp` | internal/chat.go:111-119 | The codes on the wire count the seven event types up from zero in their order, and no other number is a code |
| `Codec.MissingIsZero` | internal/chat.go:139-179 | A member that is missing or null, and a whole null value, decode to the zero values, the time to the start of year 1 |
| `Codec.EventRefused` | internal/chat.go:139-179 | An event is accepted only with an envelope that decodes, a code that is known and details, and then it has the type of its code and the chat and user of its envelope |
| `Codec.RefusalsToldApart` | internal/chat.go:174-176 | The server refuses an event as unknown if and only if its code is none of the seven, and for missing details if and only if the code is one of them and there are none; a hub is brought to a nil chat exactly by a new-chat notification whose details are null |
| `Codec.FieldsAcceptedExactly` | internal/chat.go:156-161 | For any members at all, the details of a post, edit, hide or delete are accepted if and only if every known member is missing, null or of its type |
| `Codec.MessageAcceptedExactly` | internal/chat.go:162-167 | A message is accepted if and only if its ids and its author's parse, as texts or in the extended form, and every other known member is missing, null or of its type |
| `EndToEnd.EditReachesStore` | internal/chat.go:301-314 | From the publishing function through codec and handler: the content of that document changes and nothing else does; with one acknowledgement every hub decodes a notification in the chat the edit was asked for, showing field by field the stored result, or, if its times cannot be encoded, there are two acknowledgements and no notification |
| `EndToEnd.DeleteReachesStore` | internal/chat.go:332-345 | The same for a delete: the document stays and is marked |
| `EndToEnd.HideReachesStore` | internal/chat.go:316-330 | The same for a hide or show: it decides the requesting user's membership of the hidden list and nobody else's, and the notification names that user |
| `EndToEnd.PostReachesStore` | cmd/chat-server/main.go:92-102 | A post by a known user becomes the last document, marked sent, with the server's clock and only the text and type of the web app's copy, and every hub is shown it in that chat and from that user |
| `EndToEnd.PostByStranger` | cmd/chat-server/main.go:96-99 | A post by an unknown user changes nothing, is announced to nobody and is acknowledged once |
| `EndToEnd.UpdateReachesStore` | cmd/chat-server/main.go:104-107 | An update-message event by a known author, with times JSON can carry, overwrites the stored message, is acknowledged once, and is shown to every hub in the chat and from the user it was published with |
| `EndToEnd.RequestsFollow` | internal/chat.go:301-345 | An edit, a delete and a hide or show built with the message's own chat, when its times can be encoded, meet the condition under which replaying the notification gives the store's new list in every chat, and it does |
| `EndToEnd.PostFollows` | internal/chat.go:270-288 | So does a post by a known user while the clock is in the four-digit years |
| `EndToEnd.LateTimeIsAcknowledgedTwice` | cmd/chat-server/main.go:131-136 | From any store and for any message in it: an update that carries a time some zone has in a four-digit year and UTC has not is acknowledged once, and the next edit of that message twice |
| `EndToEnd.NewChatReachesHubs` | cmd/chat-server/main.go:123-129 | A new chat is stored under a new id, and the hubs learn exactly that id and name |
| `ChatServer.Handler.Apply` | cmd/chat-server/main.go:54-71 | Dispatch and handlers, in place on the store, are one step of the specification, with its failures and its panic |
| `ChatServer.Handler.SendNotification` | cmd/chat-server/main.go:131-151 | Publishes once if the event can be encoded and the broker takes it, and acknowledges by itself if it cannot be encoded |
| `ChatServer.Handler.Handle` | cmd/chat-server/main.go:43-90 | One delivery from body to acknowledgement: new store, acknowledgements and notifications are those of the specification |
| `EndToEnd.AcknowledgementsExactly` | cmd/chat-server/main.go:43-90 | For every body at all, told from body, store and clock before handling: no acknowledgement exactly for a post to a malformed chat id; two exactly for a post by a known user to a chat id that parses when the clock is out of the four-digit years, and for an edit, hide, show or delete that finds a message whose times are; one otherwise |
| `ChatServer.PostIsPoisonExactly` | internal/chat.go:56-62 | A published post is one that is never acknowledged if and only if its chat id is malformed |
| `ChatServer.EndsExactly` | cmd/chat-server/main.go:43-90 | Handling panics exactly for a post to a malformed chat id and succeeds exactly when one notification was sent, which is the event with new details; what cannot be decoded, and a pin, is acknowledged once and changes nothing |
| `Delivery.AtLeastOnce` | cmd/chat-server/main.go:43-90 | Main result for the work queue, over any losses of the connection, crashes of the server and channels closed by a second acknowledgement: every published event is in exactly one of ready, unacknowledged and acknowledged; one acknowledged after its store call succeeded has a stored effect; one never redelivered has exactly one, or none if its store call failed |
| `Delivery.HandledInPublicationOrder` | internal/rabbitmq/rabbitmq.go:77-81 | Main result while no channel is lost: deliveries are fetched in the order of publication, tag 0, 1, 2 and so on, and the effects in the store are of increasing tags, so the documents are those asked for in publication order |
| `Delivery.FetchedInQueueOrder` | internal/rabbitmq/rabbitmq.go:77-81 | After any run and any loss, the loop of the next connection fetches what was handed back, then what was ready, then what was published since, in exactly that order, one at a time |
| `Delivery.LateAcknowledgement` | cmd/chat-server/main.go:83 | An acknowledgement ends the work on its delivery and on no other; on the current connection the broker forgets the delivery, on one that was lost nothing changes at the broker |
| `Delivery.CrashEndsEveryLoop` | internal/rabbitmq/rabbitmq.go:77-81 | After a crash of the server nothing reaches the store until something is fetched anew |
| `Delivery.DocumentsAreEffects` | cmd/chat-server/main.go:92-129 | In every run, redeliveries, losses and crashes included, the stored documents are those the successful effects asked for, one by one and in order, with their ids, chats, authors, types and times, and so are the stored chats with their names; what failed left no trace |
| `Delivery.SecondAcknowledgementStopsConsumer` | cmd/chat-server/main.go:131-136 | A second acknowledgement closes the channel: every unacknowledged delivery goes back to the head of the queue, and until the connection is lost nothing is delivered or acknowledged, whatever is published joins the ready events in order |
| `Replay.EventsAreOps` | cmd/chat-server/main.go:92-129 | Each event is at most one store operation, so the results about runs of operations cover runs of events |
| `Replay.EventReplaysExactly` | cmd/chat-server/main.go:78-81 | For every event there is: applying its notification to the full list before gives the full list after, in every chat, if and only if a condition on the event and the store holds, spelled out for posts, touches, updates that succeed, insert, move or fail, and encodability |
| `Replay.ReplayYieldsStore` | cmd/webapp/handlers.go:419-471 | Main result: from a chat's full list at any point of a log whose events meet that condition, the later notifications applied one by one, append or replace by id, give exactly the list the store has at the later point |
| `Replay.TouchFollowsExactly` | cmd/chat-server/main.go:109-119 | An edit, hide, show or delete keeps every replayed view right if and only if it fails, or changes nothing, or names the message's own chat and can be encoded |
| `Replay.UpdateFollowsExactly` | cmd/chat-server/main.go:104-107 | The same for an update: by a known author it must have an id, and if that is stored keep its chat and name it or change nothing visible; by an unknown author, broadcast although it failed, it must not differ from what the named chat shows |
| `Replicas.ChatsConverge` | internal/chat.go:423-510 | Main result for any events at all and any number of hubs consuming at their own pace: at every moment a hub's chats with their names, with its pending notifications learnt, are those of the store |
| `Replicas.ViewsConverge` | cmd/webapp/handlers.go:224-245 | Main result for runs whose notifications say what their events did, with any number of clients loading and later showing chats while their hub consumes: at every moment what a client shows, with the pending notifications drawn, is what it loaded at the last replacements since the show, followed by every message its hub was notified of since; it is the store's list if and only if it had loaded exactly the messages notified of at the show and no message loaded was replaced between load and show for good |
| `Replicas.WhatALoadHolds` | internal/store/mongodb.go:267-271 | For every load: all of the chat on a miss, its first hundred messages on a hit; the client's old window is closed and no other client is affected |
| `Replicas.WhatAShowFinds` | cmd/webapp/handlers.go:236-245 | For every show: the list as it was loaded, with what the hub consumed since, against all messages but the posts still pending; no other client is affected |
| `Replicas.ChatIdsConverge` | internal/chat.go:492-510 | In every run, whatever the events, the chat ids in a hub and those in its pending new-chat notifications are together the chat ids in the store |
| `Views.LoadingIsSafeExactly` | cmd/webapp/handlers.go:224-245 | A list loaded at one moment and shown after some notifications went by, for any notifications at all: it becomes right if and only if the messages loaded and those posted since the show make up the chat, and each message loaded either was left as it was by what went by or is replaced again since |
| `Views.PendingReplacementsAreCaught` | cmd/webapp/handlers.go:224-245 | Replacements that were already pending at the load do no harm when they are consumed before the show |
| `HubState.BroadcastIsExact` | internal/chat.go:347-360 | With disjoint maps keyed by id, in whatever order the two loops go, each client object the chat holds is called exactly once, with the connected flag exactly for the connected map, and nobody else is |
| `HubState.ConnectionHolds` | internal/chat.go:544-583 | After a connection the chat entered, if known, holds this very client as connected, the chat left holds it as disconnected, after an initial connection every other chat does, and other chats are as they were |
| `HubState.ConnectionLeavesOthers` | internal/chat.go:544-583 | In every chat, clients of other ids are held as they were |
| `HubState.ConnectionRecords` | internal/chat.go:549-561 | The metadata names the client of the first connection of its id, and the chat entered; that of other ids stays |
| `HubState.LeavingHolds` | internal/chat.go:585-624 | A disconnection leaves this very client as disconnected in the current chat; a removal leaves no client of its id there and forgets its metadata; all else is as it was |
| `Hub.Chat.ConnectClient` | internal/chat.go:233-239 | The chat now holds this very client as connected, and no client of its id as disconnected |
| `Hub.Chat.DisconnectClient` | internal/chat.go:241-247 | The chat now holds this very client as disconnected, and no client of its id as connected |
| `Hub.Chat.RemoveClient` | internal/chat.go:249-255 | The client is in neither map |
| `Hub.Chat.Broadcast` | internal/chat.go:347-360 | The two loops make the calls of an exact broadcast |
| `Hub.Hub.DisconnectClientFromChat` | internal/chat.go:597-608 | Disconnects in that chat if the hub knows it, and touches no other chat |
| `Hub.Hub.ConnectClient` | internal/chat.go:544-583 | Metadata, leaving the current chat, the sweep of an initial connection and joining, in place on shared chat objects, are one connection of the specification; the answer is the chat and the one the metadata named before, or neither if the chat is unknown |
| `Hub.Hub.DisconnectFromEvery` | internal/chat.go:570-574 | In whatever order the map is visited, the client ends up disconnected in every chat |
| `Hub.Hub.DisconnectClient` | internal/chat.go:585-595 | Leaves the current chat and keeps the metadata; an unknown client changes nothing |
| `Hub.Hub.RemoveClient` | internal/chat.go:610-624 | Clears the client from its current chat only and forgets its metadata |
| `Hub.Hub.NewChatArrives` | internal/chat.go:443-468 | Files a chat without clients under its own id, replacing one with that id, and tells the client of each metadata entry exactly once |
| `Hub.Hub.Notify` | internal/chat.go:469-488 | An exact broadcast in the named chat, and no call for a chat the hub does not know |
| `HubSteps.SingleActiveChat` | internal/chat.go:544-624 | Main result over every run split at lock boundaries, with new chats arriving in between: an id is connected in at most one chat, and whenever no client operation is under way its metadata exists and names that chat |
| `HubSteps.Coverage` | internal/chat.go:563-580 | In every state of every run, a covered id is in exactly one of the two maps of each chat it covers |
| `HubSteps.CoverageIsGained` | internal/chat.go:569-580 | The initial connection covers every chat there is, any later one the chat it enters, and only removal of the id or replacement of the chat takes a covered chat away |
| `HubSteps.BroadcastExactness` | internal/chat.go:469-488 | In every reachable state a message notification calls each client object the chat holds exactly once, no id twice, and nobody else |
| `HubSteps.ObjectsAreThoseBrought` | internal/chat.go:544-624 | Over every run, the client object a chat holds for an id is the one that the last step on this id and chat brought there, and the metadata names the client of the connection it began with |
| `HubSteps.BroadcastReachesThoseBrought` | internal/chat.go:347-360 | In every reachable state a message notification reaches a client as connected if and only if its id is connected there and this is the client last brought, and likewise as disconnected |
| `HubSteps.ConnectUninterrupted` | internal/chat.go:544-583 | The steps of a connection run together, in any order of the sweep, are the whole operation |
| `HubSteps.DisconnectUninterrupted` | internal/chat.go:585-595 | The same for a disconnection |
| `HubSteps.RemoveUninterrupted` | internal/chat.go:610-624 | The same for a removal |
| `Chatroom.Run` | cmd/webapp/handlers.go:175-251 | A socket session, in place on the hub, with chats arriving and other clients acting between its messages, is the session of the specification: connect, switch as asked, and remove unless it panicked |
| `Chatroom.IgnoredMessages` | cmd/webapp/handlers.go:200-222 | A socket message that does not parse, has another type or names no chat can be left out of any session without changing how it ends or what it leaves |
| `Chatroom.SwitchHolds` | cmd/webapp/handlers.go:224-234 | A switch connects this very client to the chat named, and the session goes on if and only if the hub knows that chat |
| `Chatroom.SessionEndsCleanlyExactly` | cmd/webapp/handlers.go:218-249 | A session gets to remove its client if and only if the hub knew every chat it asked for when it asked, from the start or by a notification since |
| `Chatroom.WhatASessionLeaves` | cmd/webapp/handlers.go:191-249 | Whatever chats arrived or were replaced and whatever other clients did, a session that ends cleanly leaves its client connected nowhere and without metadata, and this very client in the disconnected map of exactly the chats it was put into since they were filed, other than its last |
| `Chatroom.WhatAPanicLeaves` | cmd/webapp/handlers.go:224-243 | A session that does not end cleanly ends at a switch to a chat unknown at that moment, and leaves its client connected nowhere, but with metadata and in the disconnected map of exactly the chats it was put into, its last one included |
| `Chatroom.LeftInOldChats` | internal/chat.go:610-624 | For a chat there from the start and not replaced, that is: exactly when it is not the chat switched to last |
| `Chatroom.AbsentFromNewChats` | internal/chat.go:443-458 | In a chat that arrived during the session and was never visited, the client is in neither map |
| `Locks.ProgramsAreOrdered` | internal/chat.go:526-624 | Every hub, chat and socket operation takes its locks in one order (client metas, chats, one chat's clients, session table, socket) and releases all of them, whatever chats and clients it visits |
| `Locks.ConnectingLocks` | internal/chat.go:544-583 | Connecting takes the metas lock, the chats lock and under it that of the current chat, then the chats lock again and under it that of each chat of the sweep in turn and of the chat entered, and no other |
| `Locks.LeavingOperationsLock` | internal/chat.go:585-624 | Disconnecting and removing take the metas lock, the chats lock and that of the current chat, and no other |
| `Locks.MessagesLock` | internal/chat.go:347-488 | A message notification takes the chats lock, then, if the chat is known, that of its clients and under it for each client the session table once per lookup and the socket once, and no other |
| `Locks.NewChatsLock` | internal/chat.go:456-467 | A new-chat notification takes the chats lock and then the metas lock, and under it the same for every client of the hub |
| `Locks.ClientOperationsGuarded` | internal/chat.go:544-624 | A client operation touches a chat's clients only while it holds both the metas and the chats lock |
| `Locks.MessagesGuarded` | internal/chat.go:347-360 | A message notification writes to sockets only while it holds the clients of the chat, so the notifications of one chat reach every client in one order |
| `Locks.NewChatsGuarded` | internal/chat.go:464-467 | A new-chat notification writes to sockets only while it holds the metas lock |
| `Locks.DeadlockFreedom` | internal/chat.go:544-624 | Main result: in every state reached by any number of goroutines over any chats and clients, if one has not finished then one can step |
| `Reconnect.PassIsExact` | internal/rabbitmq/rabbitmq.go:161-181 | After any run of losses, failed dials and registrations, a pass puts each publisher on the new connection exactly when its own setup succeeds, and otherwise leaves it without a channel or with one the refusal closed; it starts one loop for each consumer whose setup succeeds, keeps the registered lists in content and order, and leaves no loop of an older connection |
| `Reconnect.RestoredExactly` | internal/rabbitmq/rabbitmq.go:141-182 | Main result, with registration in its two steps of set-up and append: after a pass in which every setup succeeds, every registered publisher's channel and exactly one delivery loop per registered consumer are on the current connection, if and only if no consumer was both set up and appended between the redial and the pass |
| `Reconnect.StraddlingRegistration` | internal/rabbitmq/rabbitmq.go:206-222 | A consumer that is finally appended has a live delivery loop if and only if the connection was not lost since its set-up, whatever passes and other registrations came in between |
| `Reconnect.RegistrationKeepsRestoredExactly` | internal/rabbitmq/rabbitmq.go:192-222 | While the connection stays up and everything is restored, a step of a registration, failed or not, keeps it so if and only if it is not an append of what was set up on a connection that is gone |
| `Reconnect.EverythingWasAsked` | internal/rabbitmq/rabbitmq.go:192-222 | Main result over every run: each consumer that is registered or joining has the queue, routing key and exchange of the very set-up that made it, and each such publisher the exchanges of a set-up |
| `Reconnect.ConsumerRegisteredAsAsked` | internal/rabbitmq/rabbitmq.go:206-222 | An uninterrupted registration that succeeds adds one consumer, last, with the queue, routing key and exchange asked for, an identity of its own and one live loop; one that fails changes nothing |
| `Reconnect.PublisherRegisteredAsAsked` | internal/rabbitmq/rabbitmq.go:192-204 | The same for a publisher, with the exchanges asked for and its channel on the current connection |
| `Reconnect.RedialIsNew` | internal/rabbitmq/rabbitmq.go:149-159 | Over every run an open channel is on the connection that is up, no loop outlives its connection, and a redial brings a new one that no channel is on and none was closed on |
| `AmqpClient.Publisher.Setup` | internal/rabbitmq/rabbitmq.go:98-120 | Opens a channel and declares the exchanges in order, stopping at the first refusal, and reports success exactly when none was refused |
| `AmqpClient.Client.Dial` | internal/rabbitmq/rabbitmq.go:224-231 | A new connection, or none after a failure: the redial or the failed dial of the specification |
| `AmqpClient.Client.Redial` | internal/rabbitmq/rabbitmq.go:149-159 | However many dials fail, the inner loop ends on one new connection with publishers, consumers and loops as they were |
| `AmqpClient.Client.SetupConsumer` | internal/rabbitmq/rabbitmq.go:38-84 | Starts one loop on the current connection exactly when there is a connection, a queue is named and nothing is refused |
| `AmqpClient.Client.ResetupPublishers` | internal/rabbitmq/rabbitmq.go:166-172 | Each registered publisher, in place, ends up as its own setup leaves it, whatever happened to the others |
| `AmqpClient.Client.ResetupConsumers` | internal/rabbitmq/rabbitmq.go:174-179 | One new loop for each consumer whose setup succeeds, in the order of the list, and the loops there were stay |
| `AmqpClient.Client.Resetup` | internal/rabbitmq/rabbitmq.go:166-179 | The two loops over the registered objects, in place, are one pass of the specification, failures included |
| `AmqpClient.Client.NewPublisher` | internal/rabbitmq/rabbitmq.go:192-204 | Uninterrupted, a publisher with the exchanges asked for is registered, last, exactly when its setup succeeds |
| `AmqpClient.Client.RegisterConsumer` | internal/rabbitmq/rabbitmq.go:206-222 | Uninterrupted, a consumer with the queue, routing key and exchange asked for is registered, last, with one loop, exactly when its setup succeeds |
| `FileNames.Allocator.GenerateFilename` | cmd/file-server/main.go:113-126 | One call on the shared counters is one allocation of the specification |
| `FileNames.SequenceCounts` | cmd/file-server/main.go:117-122 | The sequence number of a name is the number of calls just before it that read the same second |
| `FileNames.NameInjective` | cmd/file-server/main.go:125 | The text tells second and sequence number apart, for seconds of either sign |
| `FileNames.NameReads` | cmd/file-server/main.go:125 | Read from the left, a name is the second in decimal with its sign, an underscore and the sequence number in decimal |
| `FileNames.FileNameInjective` | cmd/file-server/main.go:82 | The file name tells second, sequence number and extension apart |
| `FileNames.DistinctExactlyWhenContiguous` | cmd/file-server/main.go:113-126 | Main result, for any clock: all names are distinct if and only if equal seconds occur only in one contiguous block |
| `FileNames.MonotoneClockSuffices` | cmd/file-server/main.go:82-126 | With a clock that never goes back all file names are distinct, whatever the extensions |
| `FileNames.FileNamesCollide` | cmd/file-server/main.go:82 | Two uploads get one file name if and only if they got one name and one extension |
| `ObjectIds.HexRoundTrip` | internal/store/mongodb.go:148-151 | Printing an id and parsing it back gives the id |
| `ObjectIds.HexInjective` | internal/store/cache.go:77 | Distinct chats have distinct cache keys |
| `ObjectIds.HexByteByByte` | internal/store/mongodb.go:61 | The text has two lower-case digits for each byte in order, the high one first, and parsing reads any text of 24 digits the same way |

## Left out

- HTTP routing, websockets, uploads, templates, configuration and logging: input and output with no hard property. A
  client is modelled by what it does with a notification: append a new message, replace a changed one by its id.
- Redis, MongoDB, the broker and the JSON encoder inside: lists, documents, queues and trees stand for them. Redis and
  MongoDB calls succeed, generated ids are new, and MongoDB returns documents in insertion order.
- JSON text: the codec works on trees. Case-insensitive member names and the text form of times are not modelled, nor are
  null hidden lists, which the system never builds. A time is an instant: the server's clock counts as UTC.
- Redis lists of messages whose times JSON cannot carry: Redis takes every message, so only notifications can fail to be
  encoded.
- Password hashing, login and registration, and the session table beyond its lock, which is taken as exclusive although
  the code has readers and writers.
- `GetMessage`, which panics on an unknown id, `GetUser` by name, and pin events, which the chat server rejects.
- More than one chat server: the model has one, as Makefile:18 starts one.
- Broker restarts, lost exclusive queues and messages published before the work queue is declared: the code promises
  nothing there.
- Liveness of reconnection: a connection lost again before a pass has ended makes setups fail, which the model has as a
  parameter, and may end the reconnecting goroutine, which the code itself notes at internal/rabbitmq/rabbitmq.go:161-163.
- Overflow of the 64-bit sequence number and clock of the file server: both are unbounded in the model.
- Data races on fields the code reads without a lock: the chats map at internal/chat.go:564, the client's lists in
  internal/rabbitmq/rabbitmq.go.
- `Replay.ReplayYieldsStore`: for logs whose events meet the condition of `Replay.EventReplaysExactly`, which is exact for
  each event; whether later events happen to repair a wrong view is not followed.
- `EventHistory.MessageAfterRun`: excludes saves of messages that already have an id, which overwrite every field.
- `Coherence.RunKeepsCoherence`: assumes that a save of an existing message keeps its chat. `Coherence.MovingAMessage`
  says exactly when one that does not is harmless.
- `Delivery.AtLeastOnce`: a store call with its result is one step. What a broker does with a connection whose channels it
  closed, beyond that channel, is not followed.
- `Replicas.ViewsConverge`: loading the chats and binding the queue of a hub is one step, and the broker takes every
  notification. Generated ids are new to the database and to the pending notifications. From its load on, a client's old
  window is not followed: what is drawn into it is overwritten by the show.
- `StoreService.RedisStore.InsertUser`: the one-hour expiry is no timer in the contract; the runs of `Coherence` and
  `Interleaving` may expire any cached user at any moment.
- `Locks.ProgramsAreOrdered`: the lock programs are read off the Go code; no proof links them to the class `Hub.Hub`, which
  is sequential. Its interleavings are the subject of `HubSteps`.
- `StoreService.MongodbStore.UpdateMessageContent`: the three update methods share one body, `UpdateAndInvalidate`, which the
  Go code writes out three times.
- `Chatroom.Run`: loading and rendering the messages of the chat switched to is not part of it, so a failed load, which
  the session survives, does not appear. Each connection is one step here; `HubSteps` splits it.
- `Chatroom.WhatASessionLeaves`: for a session whose id no other socket uses meanwhile, and hubs where no chat has the
  empty id.
- `Hub.Hub.Notify`: decoding the notification and finding the chat come first, and what each client then draws is left out.
- `AmqpClient.Client.SetupConsumer`: channel, queue, exchange, binding and subscription are one answer of the broker, since
  a refusal of any has the same effect on the client.
