/** The backend records the client holds copies of. Times are milliseconds since the epoch. */
module Documents {

  /** An account as `account.get()` returns it; `email` is "" when there is none. */
  datatype Account = Account(id: string, email: string, name: string, emailVerification: bool)

  /**
   * A chat message. Server documents carry no `isSending`/`sendFailed` flags;
   * the absent flags read as false, as they do in the source.
   */
  datatype Message = Message(id: string, chatId: string, senderId: string, content: string,
                             createdAt: int, isRead: bool, isSending: bool, sendFailed: bool)

  /** A chat document. */
  datatype Chat = Chat(id: string, buyerId: string, sellerId: string, listingId: string,
                       listingTitle: string, createdAt: int, updatedAt: int)

  /** The participant shown for a chat. */
  datatype OtherUser = OtherUser(userId: string, displayName: string)

  /** A chat annotated with the other participant: `{ ...chat, otherUser }`. */
  datatype ChatView = ChatView(chat: Chat, otherUser: OtherUser)

  /** The profile kept in storage between registration and e-mail verification. */
  datatype PendingProfile = PendingProfile(userId: string, displayName: string, email: string)

  /** An `Alert.alert(title, message)` raised by a screen. */
  datatype Alert = Alert(title: string, message: string)
}
