/** The records the server keeps and sends to clients, shared by the server
    and by the client store that mirrors it. Status values are strings, as at
    run time in JavaScript: the server stores whatever `user:status` carries. */
module Domain {
  import opened Strings

  const ONLINE: string := "online"
  const AWAY: string := "away"
  const BUSY: string := "busy"
  const OFFLINE: string := "offline"

  const SENDING: string := "sending"
  const SENT: string := "sent"
  const DELIVERED: string := "delivered"
  const READ: string := "read"

  datatype User = User(
    id: string,
    username: string,
    avatar: string,
    status: string,
    lastSeen: Option<int>,   // milliseconds since the epoch, set on disconnect
    socketId: Option<string> // the connection that last joined as this user
  )

  datatype Reaction = Reaction(emoji: string, userId: string, username: string)

  datatype Message = Message(
    id: string,
    content: string,
    senderId: string,
    channelId: string,
    timestamp: int,          // milliseconds since the epoch
    kind: string,            // 'text' | 'image' | 'file' | 'system'
    status: string,          // 'sending' | 'sent' | 'delivered' | 'read'
    fileUrl: Option<string>,
    fileName: Option<string>,
    reactions: seq<Reaction> // an absent list is read as the empty one
  )

  datatype Channel = Channel(
    id: string,
    name: string,
    kind: string,            // 'dm' | 'group' | 'public' | 'private'
    description: Option<string>,
    members: seq<string>,
    unreadCount: int
  )

  /** A JavaScript value that is not `undefined`, `null` or `''`. */
  predicate Truthy(s: Option<string>)
  {
    s.Some? && s.value != ""
  }

  /** No element occurs twice. */
  ghost predicate NoDuplicates<T>(s: seq<T>)
  {
    forall i, j :: 0 <= i < j < |s| ==> s[i] != s[j]
  }
}

/** A JavaScript `Map`: a finite map that remembers the order in which its
    keys were first inserted, which is the order `forEach` and `values()` visit. */
module JsMap {
  import opened Strings

  datatype OrderedMap<K(==,!new), V> = OrderedMap(keys: seq<K>, entries: map<K, V>) {

    ghost predicate Valid()
    {
      && (forall i, j :: 0 <= i < j < |keys| ==> keys[i] != keys[j])
      && (forall k :: k in entries <==> k in keys)
    }

    /** `map.get(k)`. */
    function Get(k: K): (r: Option<V>)
      ensures r.Some? <==> k in entries
      ensures r.Some? ==> r.value == entries[k]
    {
      if k in entries then Some(entries[k]) else None
    }

    /** `map.set(k, v)`: a new key goes last, an existing key keeps its place. */
    function Set(k: K, v: V): (r: OrderedMap<K, V>)
      requires Valid()
      ensures r.Valid()
      ensures r.entries == entries[k := v]
      ensures r.keys == if k in entries then keys else keys + [k]
    {
      OrderedMap(if k in entries then keys else keys + [k], entries[k := v])
    }

    /** `Array.from(map.values())`. */
    function Values(): (r: seq<V>)
      requires Valid()
      ensures |r| == |keys|
      ensures forall i :: 0 <= i < |keys| ==> r[i] == entries[keys[i]]
    {
      seq(|keys|, i requires 0 <= i < |keys| => entries[keys[i]])
    }
  }

  function Empty<K(==,!new), V>(): (r: OrderedMap<K, V>)
    ensures r.Valid() && r.keys == [] && r.entries == map[]
  {
    OrderedMap([], map[])
  }
}
