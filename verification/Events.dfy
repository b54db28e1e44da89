/** The events that travel between web apps and the chat server, and the functions that build them. */
module Events {
  import opened ObjectIds
  import opened Entities

  datatype EventType = NewMessage | UpdateMessage | EditMessage | HideMessage | DeleteMessage | PinMessage | NewChat

  datatype MessageEventDetails = MessageEventDetails(
    id: string, content: string, kind: string, status: string, hidden: bool, deleted: bool)

  /** The exported part of a chat. */
  datatype ChatInfo = ChatInfo(id: string, name: string)

  /** The dynamic type of the details matters: the handlers assert it. */
  datatype Details =
    | Fields(fields: MessageEventDetails)   // a MessageEventDetails value
    | MessageValue(m: Message)              // a Message value
    | MessagePointer(m: Message)            // a *Message
    | ChatPointer(chat: ChatInfo)           // a *Chat

  datatype ChatEvent = ChatEvent(kind: EventType, chatId: string, userId: string, details: Details)

  const NO_FIELDS := MessageEventDetails("", "", "", "", false, false)

  function NewMessageEvent(chatId: string, m: Message, authorId: string): ChatEvent {
    var details := MessageEventDetails(Hex(m.id), m.content, m.kind, m.status, false, m.deleted);
    ChatEvent(NewMessage, chatId, authorId, Fields(details))
  }

  function UpdateMessageEvent(chatId: string, m: Message, userId: string): ChatEvent {
    ChatEvent(UpdateMessage, chatId, userId, MessagePointer(m))
  }

  function EditMessageEvent(chatId: string, id: string, content: string): ChatEvent {
    ChatEvent(EditMessage, chatId, "", Fields(NO_FIELDS.(id := id, content := content)))
  }

  function HideMessageEvent(chatId: string, id: string, userId: string, isHidden: bool): ChatEvent {
    ChatEvent(HideMessage, chatId, userId, Fields(NO_FIELDS.(id := id, hidden := isHidden)))
  }

  function DeleteMessageEvent(chatId: string, id: string): ChatEvent {
    ChatEvent(DeleteMessage, chatId, "", Fields(NO_FIELDS.(id := id, deleted := true)))
  }

  function AddChatEvent(name: string): ChatEvent {
    ChatEvent(NewChat, "", "", ChatPointer(ChatInfo(Hex(NIL_ID), name)))
  }

  /** The events that the web app publishes. */
  ghost predicate Published(e: ChatEvent) {
    || (exists chat, m, author :: e == NewMessageEvent(chat, m, author))
    || (exists chat, m, user :: e == UpdateMessageEvent(chat, m, user))
    || (exists chat, id, content :: e == EditMessageEvent(chat, id, content))
    || (exists chat, id, user, isHidden :: e == HideMessageEvent(chat, id, user, isHidden))
    || (exists chat, id :: e == DeleteMessageEvent(chat, id))
    || (exists name :: e == AddChatEvent(name))
  }

  /** A post carries the message's own id, text, type, status and deleted flag, in the chat and from the author given.
      */
  lemma PostCarriesMessage(chatId: string, m: Message, authorId: string)
    ensures var e := NewMessageEvent(chatId, m, authorId);
      && e.kind.NewMessage? && e.chatId == chatId && e.userId == authorId && e.details.Fields?
      && e.details.fields.id == Hex(m.id) && e.details.fields.content == m.content && e.details.fields.kind == m.kind
      && e.details.fields.status == m.status && e.details.fields.deleted == m.deleted && !e.details.fields.hidden
  {
  }

  predicate AsksAbout(e: ChatEvent, chatId: string, id: string) {
    e.chatId == chatId && e.details.Fields? && e.details.fields.id == id
  }

  /** The other requests carry what they were given: the message's id and, after their kind, the new text, the choice of
      the user who asks, or the mark of a delete. A new chat has a name and no id yet. */
  lemma RequestsCarryArguments(chatId: string, id: string, content: string, userId: string, isHidden: bool)
    ensures AsksAbout(EditMessageEvent(chatId, id, content), chatId, id)
    ensures AsksAbout(DeleteMessageEvent(chatId, id), chatId, id)
    ensures AsksAbout(HideMessageEvent(chatId, id, userId, isHidden), chatId, id)
    ensures EditMessageEvent(chatId, id, content).details.fields.content == content
    ensures DeleteMessageEvent(chatId, id).details.fields.deleted
    ensures HideMessageEvent(chatId, id, userId, isHidden).details.fields.hidden == isHidden
    ensures HideMessageEvent(chatId, id, userId, isHidden).userId == userId
    ensures var e := AddChatEvent(content);
            e.chatId == e.userId == "" && e.details.ChatPointer? && e.details.chat.id == Hex(NIL_ID)
            && e.details.chat.name == content
  {
  }
}
