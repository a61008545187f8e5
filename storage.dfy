/**
 * AsyncStorage: one string-keyed store for the whole app. Values are kept as
 * the records that were serialised into them (JSON round trips are identity).
 */
module Storage {
  import opened Wrappers
  import opened Documents

  datatype Stored =
    | Text(text: string)
    | AccountJson(account: Account)
    | ProfileJson(profile: PendingProfile)
    | ChatsJson(chats: seq<ChatView>, timestamp: int)
    | MessagesJson(messages: seq<Message>, timestamp: int)

  class Store {
    var items: map<string, Stored>

    constructor (items: map<string, Stored>)
      ensures this.items == items
    {
      this.items := items;
    }

    /** `getItem`: None where the source reads `null`. */
    function Get(key: string): (v: Option<Stored>)
      reads this
      ensures v.Some? <==> key in items
      ensures v.Some? ==> v.value == items[key]
    {
      if key in items then Some(items[key]) else None
    }

    method SetItem(key: string, value: Stored)
      modifies this
      ensures items == old(items)[key := value]
    {
      items := items[key := value];
    }

    method RemoveItem(key: string)
      modifies this
      ensures items == old(items) - {key}
    {
      items := items - {key};
    }

    method MultiRemove(keys: set<string>)
      modifies this
      ensures items == old(items) - keys
    {
      items := items - keys;
    }
  }
}
