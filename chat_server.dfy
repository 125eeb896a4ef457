/** The chat server's in-memory coordination state (server/server.js): four
    JavaScript Maps (`users`, `channels`, `messages`, `typingUsers`), the user
    id each connection joined as, and one method per socket handler.

    What a handler emits is appended to `outbox` together with its audience
    (the sender's socket, a room, everyone but the sender, everyone); which
    connections are in a room and whether they receive it is not modelled.
    The 100 ms timer that marks a sent message delivered is the FIFO queue
    `pending`, consumed one entry at a time by `Deliver`. Fresh identifiers
    (`uuidv4()`) and the clock (`new Date()`) are parameters. */
module ChatServer {
  import opened Strings
  import opened Domain
  import opened JsMap

  const GENERAL: string := "general"
  const RANDOM: string := "random"

  /** The channels every server starts with; each connecting user joins them all. */
  const DEFAULT_CHANNELS: seq<Channel> := [
    Channel(GENERAL, "General", "public", Some("General discussion"), [], 0),
    Channel(RANDOM, "Random", "public", Some("Random conversations"), [], 0)
  ]

  const DEFAULT_CHANNEL_IDS: seq<string> := [GENERAL, RANDOM]

  /** Who an emitted event is addressed to. */
  datatype Audience =
    | ToSocket(socketId: string)                 // socket.emit, io.to(socketId).emit
    | ToRoom(room: string)                       // io.to(room).emit
    | ToRoomExcept(room: string, except: string) // socket.to(room).emit
    | ToAllExcept(except: string)                // socket.broadcast.emit
    | ToAll                                      // io.emit

  datatype Payload =
    | UserJoined(user: User)
    | ChannelsList(channels: seq<Channel>)
    | UsersList(users: seq<User>)
    | MessagesHistory(channelId: string, messages: seq<Message>)
    | UserOnline(user: User)
    | MessageNew(message: Message)
    | MessageStatus(messageId: string, status: string)
    | TypingUser(channelId: string, userId: string, username: string, isTyping: bool)
    | ReactionUpdated(messageId: string, reactions: seq<Reaction>)
    | UserStatusChanged(userId: string, status: string)
    | ChannelCreated(channel: Channel)
    | UserOffline(userId: string, lastSeen: int)

  datatype Event = Event(audience: Audience, payload: Payload)

  /** The payloads clients send. `undefined` and `''` are both `None`-like: see `Truthy`. */
  datatype JoinData = JoinData(id: Option<string>, username: string, avatar: string)
  datatype SendData = SendData(channelId: string, content: string, kind: Option<string>,
                               fileUrl: Option<string>, fileName: Option<string>)
  datatype ReactionData = ReactionData(channelId: string, messageId: string, emoji: string)
  datatype ChannelData = ChannelData(name: string, kind: string, description: Option<string>,
                                     members: seq<string>)

  /** A scheduled "delivered" update: the message at `index` of the log of `channelId`. */
  datatype Delivery = Delivery(channelId: string, index: nat, messageId: string)

  // ---------------------------------------------------------------------------
  // Membership

  /** `if (!members.includes(id)) members.push(id)`. */
  function AddMember(members: seq<string>, id: string): (r: seq<string>)
    ensures id in r
    ensures forall x :: x in r <==> x in members || x == id
    ensures members <= r && |r| <= |members| + 1
    ensures id in members ==> r == members
    ensures NoDuplicates(members) ==> NoDuplicates(r)
  {
    if id in members then members else members + [id]
  }

  /** Adds a user to one channel's members; the Map is re-set only when the user was missing. */
  function AddToChannel(channels: OrderedMap<string, Channel>, channelId: string, userId: string)
    : (r: OrderedMap<string, Channel>)
    requires channels.Valid() && channelId in channels.entries
    ensures r.Valid() && r.keys == channels.keys && r.entries.Keys == channels.entries.Keys
    ensures r.entries[channelId].members == AddMember(channels.entries[channelId].members, userId)
    ensures r.entries[channelId] == channels.entries[channelId].(members := r.entries[channelId].members)
    ensures forall k :: k in channels.entries && k != channelId ==> r.entries[k] == channels.entries[k]
  {
    var ch := channels.entries[channelId];
    if userId in ch.members then channels
    else channels.Set(channelId, ch.(members := ch.members + [userId]))
  }

  /** The user joins every channel of `ids`, in order. */
  function AddToChannels(channels: OrderedMap<string, Channel>, ids: seq<string>, userId: string)
    : (r: OrderedMap<string, Channel>)
    requires channels.Valid() && forall k :: k in ids ==> k in channels.entries
    ensures r.Valid() && r.keys == channels.keys && r.entries.Keys == channels.entries.Keys
    ensures forall k :: k in channels.entries && k !in ids ==> r.entries[k] == channels.entries[k]
  {
    if ids == [] then channels
    else AddToChannel(AddToChannels(channels, ids[..|ids| - 1], userId), ids[|ids| - 1], userId)
  }

  /** After joining, the user is a member of each channel joined, channels keep
      their earlier members in order, and a duplicate-free member list stays so. */
  lemma {:induction false} AddToChannelsMembers(channels: OrderedMap<string, Channel>, ids: seq<string>,
                                                userId: string, k: string)
    requires channels.Valid() && forall c :: c in ids ==> c in channels.entries
    requires k in ids
    ensures userId in AddToChannels(channels, ids, userId).entries[k].members
    ensures channels.entries[k].members <= AddToChannels(channels, ids, userId).entries[k].members
    ensures NoDuplicates(channels.entries[k].members) ==>
              NoDuplicates(AddToChannels(channels, ids, userId).entries[k].members)
  {
    var init, last := ids[..|ids| - 1], ids[|ids| - 1];
    var prev := AddToChannels(channels, init, userId);
    assert AddToChannels(channels, ids, userId) == AddToChannel(prev, last, userId);
    if k in init {
      AddToChannelsMembers(channels, init, userId, k);
    } else {
      assert prev.entries[k] == channels.entries[k];
    }
  }

  /** Joining channels that already list the user changes nothing. */
  lemma {:induction false} AddToChannelsWhenMember(channels: OrderedMap<string, Channel>, ids: seq<string>,
                                                   userId: string)
    requires channels.Valid()
    requires forall c :: c in ids ==> c in channels.entries && userId in channels.entries[c].members
    ensures AddToChannels(channels, ids, userId) == channels
  {
    if ids != [] {
      AddToChannelsWhenMember(channels, ids[..|ids| - 1], userId);
    }
  }

  /** Joining twice is the same as joining once: membership is a set. */
  lemma AddToChannelsIdempotent(channels: OrderedMap<string, Channel>, ids: seq<string>, userId: string)
    requires channels.Valid() && forall c :: c in ids ==> c in channels.entries
    ensures AddToChannels(AddToChannels(channels, ids, userId), ids, userId) == AddToChannels(channels, ids, userId)
  {
    var once := AddToChannels(channels, ids, userId);
    forall c | c in ids ensures userId in once.entries[c].members {
      AddToChannelsMembers(channels, ids, userId, c);
    }
    AddToChannelsWhenMember(once, ids, userId);
  }

  /** The default channels joined in order: General, then Random. */
  function JoinDefaults(channels: OrderedMap<string, Channel>, userId: string): (r: OrderedMap<string, Channel>)
    requires channels.Valid() && GENERAL in channels.entries && RANDOM in channels.entries
    ensures r.Valid() && r.keys == channels.keys && r.entries.Keys == channels.entries.Keys
  {
    AddToChannel(AddToChannel(channels, GENERAL, userId), RANDOM, userId)
  }

  /** Joining the defaults is joining the channel list `DEFAULT_CHANNEL_IDS`. */
  lemma JoinDefaultsIsAddToChannels(channels: OrderedMap<string, Channel>, userId: string)
    requires channels.Valid() && GENERAL in channels.entries && RANDOM in channels.entries
    ensures JoinDefaults(channels, userId) == AddToChannels(channels, DEFAULT_CHANNEL_IDS, userId)
  {
    AddToChannelsPair(channels, GENERAL, RANDOM, userId);
  }

  lemma AddToChannelsPair(channels: OrderedMap<string, Channel>, a: string, b: string, userId: string)
    requires channels.Valid() && a in channels.entries && b in channels.entries
    ensures AddToChannels(channels, [a, b], userId) == AddToChannel(AddToChannel(channels, a, userId), b, userId)
  {
    AddToChannelsSingle(channels, a, userId);
    assert [a, b][..1] == [a];
  }

  lemma AddToChannelsSingle(channels: OrderedMap<string, Channel>, a: string, userId: string)
    requires channels.Valid() && a in channels.entries
    ensures AddToChannels(channels, [a], userId) == AddToChannel(channels, a, userId)
  {
    assert [a][..0] == [];
  }

  /** After joining the defaults the user is a member of General and Random,
      each keeping its earlier members in order; nothing else changes; and
      joining again changes nothing. */
  lemma JoinDefaultsMembers(channels: OrderedMap<string, Channel>, userId: string)
    requires channels.Valid() && GENERAL in channels.entries && RANDOM in channels.entries
    ensures var r := JoinDefaults(channels, userId);
            && userId in r.entries[GENERAL].members && userId in r.entries[RANDOM].members
            && channels.entries[GENERAL].members <= r.entries[GENERAL].members
            && channels.entries[RANDOM].members <= r.entries[RANDOM].members
            && (forall k :: k in channels.entries && k != GENERAL && k != RANDOM ==> r.entries[k] == channels.entries[k])
            && JoinDefaults(r, userId) == r
  {
    JoinDefaultsIsAddToChannels(channels, userId);
    var r := JoinDefaults(channels, userId);
    AddToChannelsMembers(channels, DEFAULT_CHANNEL_IDS, userId, GENERAL);
    AddToChannelsMembers(channels, DEFAULT_CHANNEL_IDS, userId, RANDOM);
    AddToChannelsIdempotent(channels, DEFAULT_CHANNEL_IDS, userId);
    JoinDefaultsIsAddToChannels(r, userId);
  }

  // ---------------------------------------------------------------------------
  // Message logs and reactions

  /** `messages.get(channelId) || []`. */
  function LogOf(messages: OrderedMap<string, seq<Message>>, channelId: string): (r: seq<Message>)
    ensures channelId in messages.entries ==> r == messages.entries[channelId]
    ensures channelId !in messages.entries ==> r == []
  {
    if channelId in messages.entries then messages.entries[channelId] else []
  }

  /** `log.findIndex(m => m.id === messageId)`, as an index or `None` for -1. */
  function FindMessage(log: seq<Message>, messageId: string): (r: Option<nat>)
    ensures r.Some? ==> r.value < |log| && log[r.value].id == messageId
                        && forall j :: 0 <= j < r.value ==> log[j].id != messageId
    ensures r.None? ==> forall j :: 0 <= j < |log| ==> log[j].id != messageId
  {
    if log == [] then None
    else if log[0].id == messageId then Some(0)
    else match FindMessage(log[1..], messageId)
      case None => None
      case Some(i) => Some(i + 1)
  }

  /** The message `message:send` builds. */
  function NewMessage(id: string, senderId: string, data: SendData, now: int): Message
  {
    Message(id, data.content, senderId, data.channelId, now,
            if Truthy(data.kind) then data.kind.value else "text",
            SENT, data.fileUrl, data.fileName, [])
  }

  predicate IsPair(r: Reaction, emoji: string, userId: string)
  {
    r.emoji == emoji && r.userId == userId
  }

  predicate HasPair(rs: seq<Reaction>, emoji: string, userId: string)
  {
    exists i :: 0 <= i < |rs| && IsPair(rs[i], emoji, userId)
  }

  /** At most one reaction per (emoji, user) pair. */
  ghost predicate PairsUnique(rs: seq<Reaction>)
  {
    forall i, j :: 0 <= i < j < |rs| ==> !(rs[i].emoji == rs[j].emoji && rs[i].userId == rs[j].userId)
  }

  /** The (emoji, user) pairs present, ignoring order, duplicates and user names. */
  ghost function PairSet(rs: seq<Reaction>): set<(string, string)>
  {
    set r | r in rs :: (r.emoji, r.userId)
  }

  /** `rs.filter(r => !(r.emoji === emoji && r.userId === userId))`. */
  function RemovePair(rs: seq<Reaction>, emoji: string, userId: string): seq<Reaction>
  {
    if rs == [] then []
    else if IsPair(rs[0], emoji, userId) then RemovePair(rs[1..], emoji, userId)
    else [rs[0]] + RemovePair(rs[1..], emoji, userId)
  }

  /** The filter keeps exactly the reactions that are not the user's with the
      emoji, so none of those is left; a list without one is returned as is. */
  lemma {:induction false} RemovePairFilters(rs: seq<Reaction>, emoji: string, userId: string)
    ensures forall x :: x in RemovePair(rs, emoji, userId) <==> x in rs && !IsPair(x, emoji, userId)
    ensures !HasPair(RemovePair(rs, emoji, userId), emoji, userId)
    ensures !HasPair(rs, emoji, userId) ==> RemovePair(rs, emoji, userId) == rs
  {
    if rs != [] {
      var tail := rs[1..];
      RemovePairFilters(tail, emoji, userId);
      assert rs == [rs[0]] + tail;
      if !HasPair(rs, emoji, userId) {
        assert !IsPair(rs[0], emoji, userId);
        assert !HasPair(tail, emoji, userId) by {
          forall i | 0 <= i < |tail| ensures !IsPair(tail[i], emoji, userId) {
            assert tail[i] == rs[i + 1];
          }
        }
      }
    }
  }

  /** A list led by `x` has no repeated pair exactly when its tail has none
      and does not repeat the pair of `x`. */
  lemma PairsUniqueCons(x: Reaction, t: seq<Reaction>)
    ensures PairsUnique([x] + t) <==> PairsUnique(t) && !HasPair(t, x.emoji, x.userId)
  {
    var l := [x] + t;
    if PairsUnique(l) {
      forall i, j | 0 <= i < j < |t| ensures !(t[i].emoji == t[j].emoji && t[i].userId == t[j].userId) {
        assert t[i] == l[i + 1] && t[j] == l[j + 1];
      }
      forall i | 0 <= i < |t| ensures !IsPair(t[i], x.emoji, x.userId) {
        assert l[0] == x && t[i] == l[i + 1];
      }
    }
    if PairsUnique(t) && !HasPair(t, x.emoji, x.userId) {
      forall i, j | 0 <= i < j < |l| ensures !(l[i].emoji == l[j].emoji && l[i].userId == l[j].userId) {
        assert l[j] == t[j - 1];
        if i > 0 {
          assert l[i] == t[i - 1];
        } else {
          assert !IsPair(t[j - 1], x.emoji, x.userId);
        }
      }
    }
  }

  /** Filtering keeps a list free of repeated pairs. */
  lemma {:induction false} RemovePairUnique(rs: seq<Reaction>, emoji: string, userId: string)
    requires PairsUnique(rs)
    ensures PairsUnique(RemovePair(rs, emoji, userId))
  {
    if rs != [] {
      var x, tail := rs[0], rs[1..];
      assert rs == [x] + tail;
      PairsUniqueCons(x, tail);
      RemovePairUnique(tail, emoji, userId);
      if !IsPair(x, emoji, userId) {
        var rest := RemovePair(tail, emoji, userId);
        RemovePairFilters(tail, emoji, userId);
        assert !HasPair(rest, x.emoji, x.userId) by {
          forall i | 0 <= i < |rest| ensures !IsPair(rest[i], x.emoji, x.userId) {
            assert rest[i] in tail;
          }
        }
        PairsUniqueCons(x, rest);
      }
    }
  }

  /** Removing a pair removes exactly that pair from the set of pairs present. */
  lemma RemovePairSet(rs: seq<Reaction>, emoji: string, userId: string)
    ensures PairSet(RemovePair(rs, emoji, userId)) == PairSet(rs) - {(emoji, userId)}
  {
    var r := RemovePair(rs, emoji, userId);
    RemovePairFilters(rs, emoji, userId);
    forall p | p in PairSet(rs) - {(emoji, userId)} ensures p in PairSet(r) {
      var x :| x in rs && (x.emoji, x.userId) == p;
      assert x in r;
    }
  }

  /** The `reaction:add` toggle: add the user's reaction if absent, otherwise remove it. */
  function ToggleReaction(rs: seq<Reaction>, emoji: string, user: User): (r: seq<Reaction>)
    ensures HasPair(r, emoji, user.id) <==> !HasPair(rs, emoji, user.id)
    ensures forall x :: !IsPair(x, emoji, user.id) ==> (x in r <==> x in rs)
  {
    if HasPair(rs, emoji, user.id) then
      RemovePairFilters(rs, emoji, user.id);
      RemovePair(rs, emoji, user.id)
    else
      var added := Reaction(emoji, user.id, user.username);
      assert IsPair((rs + [added])[|rs|], emoji, user.id);
      rs + [added]
  }

  /** Toggling keeps a list free of repeated pairs. */
  lemma ToggleKeepsPairsUnique(rs: seq<Reaction>, emoji: string, user: User)
    requires PairsUnique(rs)
    ensures PairsUnique(ToggleReaction(rs, emoji, user))
  {
    if HasPair(rs, emoji, user.id) {
      RemovePairUnique(rs, emoji, user.id);
    }
  }

  /** Toggling twice restores the set of (emoji, user) pairs; when the pair was
      absent it restores the reaction list itself. */
  lemma ToggleTwice(rs: seq<Reaction>, emoji: string, user: User)
    ensures PairSet(ToggleReaction(ToggleReaction(rs, emoji, user), emoji, user)) == PairSet(rs)
    ensures !HasPair(rs, emoji, user.id) ==> ToggleReaction(ToggleReaction(rs, emoji, user), emoji, user) == rs
  {
    var added := Reaction(emoji, user.id, user.username);
    if HasPair(rs, emoji, user.id) {
      var i :| 0 <= i < |rs| && IsPair(rs[i], emoji, user.id);
      assert (emoji, user.id) in PairSet(rs);
      RemovePairSet(rs, emoji, user.id);
    } else {
      var once := rs + [added];
      assert IsPair(once[|rs|], emoji, user.id);
      RemovePairAppended(rs, added);
    }
  }

  /** Removing a pair that only the last reaction carries drops exactly that reaction. */
  lemma {:induction false} RemovePairAppended(rs: seq<Reaction>, added: Reaction)
    requires !HasPair(rs, added.emoji, added.userId)
    ensures RemovePair(rs + [added], added.emoji, added.userId) == rs
  {
    if rs == [] {
      assert RemovePair([added], added.emoji, added.userId) == [] by {
        assert [added][1..] == [];
      }
    } else {
      var s := rs + [added];
      assert s[0] == rs[0] && s[1..] == rs[1..] + [added];
      assert !IsPair(rs[0], added.emoji, added.userId);
      assert RemovePair(s, added.emoji, added.userId) == [rs[0]] + RemovePair(s[1..], added.emoji, added.userId);
      assert !HasPair(rs[1..], added.emoji, added.userId) by {
        forall i | 0 <= i < |rs[1..]| ensures !IsPair(rs[1..][i], added.emoji, added.userId) {
          assert rs[1..][i] == rs[i + 1];
        }
      }
      RemovePairAppended(rs[1..], added);
      assert [rs[0]] + rs[1..] == rs;
    }
  }

  // ---------------------------------------------------------------------------
  // Typing sets

  /** `typingUsers.get(channelId) || new Set()`. */
  function TypingSetOf(typing: OrderedMap<string, set<string>>, channelId: string): (r: set<string>)
    ensures channelId in typing.entries ==> r == typing.entries[channelId]
    ensures channelId !in typing.entries ==> r == {}
  {
    if channelId in typing.entries then typing.entries[channelId] else {}
  }

  /** The disconnect clean-up of the first `n` keys: each of those sets loses `userId`. */
  function ClearTyping(typing: OrderedMap<string, set<string>>, userId: string, n: nat)
    : (r: OrderedMap<string, set<string>>)
    requires typing.Valid() && n <= |typing.keys|
    ensures r.Valid() && r.keys == typing.keys && r.entries.Keys == typing.entries.Keys
  {
    if n == 0 then typing
    else
      var prev := ClearTyping(typing, userId, n - 1);
      var k := typing.keys[n - 1];
      if userId in typing.entries[k] then prev.Set(k, typing.entries[k] - {userId}) else prev
  }

  /** After the clean-up of the first `n` keys, each of those sets is its old
      value without the user, and every later set is untouched. */
  lemma {:induction false} ClearTypingEffect(typing: OrderedMap<string, set<string>>, userId: string, n: nat,
                                             k: string)
    requires typing.Valid() && n <= |typing.keys| && k in typing.entries
    ensures ClearTyping(typing, userId, n).entries[k]
              == if k in typing.keys[..n] then typing.entries[k] - {userId} else typing.entries[k]
  {
    if n > 0 {
      var last := typing.keys[n - 1];
      assert typing.keys[..n] == typing.keys[..n - 1] + [last];
      ClearTypingEffect(typing, userId, n - 1, k);
      if k == last {
        assert k !in typing.keys[..n - 1];
      }
    }
  }

  /** The `typing:user` stop notices the disconnect sends, one per set of the
      first `n` keys that held the user, in key order. */
  function TypingStopNotices(typing: OrderedMap<string, set<string>>, user: User, socketId: string, n: nat)
    : (r: seq<Event>)
    requires typing.Valid() && n <= |typing.keys|
    ensures |r| <= n
    ensures forall e :: e in r ==> e.payload.TypingUser? && !e.payload.isTyping && e.payload.userId == user.id
  {
    if n == 0 then []
    else
      var k := typing.keys[n - 1];
      TypingStopNotices(typing, user, socketId, n - 1)
        + if user.id in typing.entries[k]
          then [Event(ToRoomExcept(k, socketId), TypingUser(k, user.id, user.username, false))]
          else []
  }

  /** A stop notice goes out for a channel exactly when the user was typing there. */
  lemma {:induction false} TypingStopNoticeFor(typing: OrderedMap<string, set<string>>, user: User,
                                               socketId: string, n: nat, k: string)
    requires typing.Valid() && n <= |typing.keys|
    requires k in typing.keys[..n]
    ensures Event(ToRoomExcept(k, socketId), TypingUser(k, user.id, user.username, false))
              in TypingStopNotices(typing, user, socketId, n)
            <==> user.id in typing.entries[k]
  {
    var last := typing.keys[n - 1];
    var ev := Event(ToRoomExcept(k, socketId), TypingUser(k, user.id, user.username, false));
    var prev := TypingStopNotices(typing, user, socketId, n - 1);
    if k == last {
      assert k !in typing.keys[..n - 1];
      TypingStopNoticeAbsent(typing, user, socketId, n - 1, k);
    } else {
      assert k in typing.keys[..n - 1] by { assert typing.keys[..n] == typing.keys[..n - 1] + [last]; }
      TypingStopNoticeFor(typing, user, socketId, n - 1, k);
    }
  }

  /** No stop notice mentions a channel outside the first `n` keys. */
  lemma {:induction false} TypingStopNoticeAbsent(typing: OrderedMap<string, set<string>>, user: User,
                                                  socketId: string, n: nat, k: string)
    requires typing.Valid() && n <= |typing.keys|
    requires k !in typing.keys[..n]
    ensures forall e :: e in TypingStopNotices(typing, user, socketId, n) ==> e.payload.channelId != k
  {
    if n > 0 {
      assert k !in typing.keys[..n - 1] by { assert typing.keys[..n] == typing.keys[..n - 1] + [typing.keys[n - 1]]; }
      TypingStopNoticeAbsent(typing, user, socketId, n - 1, k);
    }
  }

  // ---------------------------------------------------------------------------
  // Notices sent to a joining connection and to a new channel's members

  /** One `messages:history` per channel, in the Map's order. */
  function HistoryNotices(socketId: string, channelIds: seq<string>,
                          messages: OrderedMap<string, seq<Message>>): (r: seq<Event>)
    ensures |r| == |channelIds|
  {
    if channelIds == [] then []
    else HistoryNotices(socketId, channelIds[..|channelIds| - 1], messages)
         + [Event(ToSocket(socketId), MessagesHistory(channelIds[|channelIds| - 1],
                                                      LogOf(messages, channelIds[|channelIds| - 1])))]
  }

  /** The i-th history notice carries the log of the i-th channel, or the empty
      log for a channel that has none. */
  lemma {:induction false} HistoryNoticesContent(socketId: string, channelIds: seq<string>,
                                                 messages: OrderedMap<string, seq<Message>>, i: int)
    requires 0 <= i < |channelIds|
    ensures HistoryNotices(socketId, channelIds, messages)[i]
              == Event(ToSocket(socketId), MessagesHistory(channelIds[i], LogOf(messages, channelIds[i])))
  {
    var n := |channelIds|;
    if i < n - 1 {
      HistoryNoticesContent(socketId, channelIds[..n - 1], messages, i);
    }
  }

  /** `Array.from(users.values()).find(u => u.id === id)`. */
  function FindUser(users: seq<User>, id: string): (r: Option<User>)
    ensures r.Some? ==> r.value in users && r.value.id == id
    ensures r.None? <==> forall u :: u in users ==> u.id != id
  {
    if users == [] then None
    else if users[0].id == id then Some(users[0])
    else FindUser(users[1..], id)
  }

  /** One `channel:created` per listed member that is a user with a truthy socket id. */
  function CreatedNotices(channel: Channel, memberIds: seq<string>, users: seq<User>): (r: seq<Event>)
    ensures |r| <= |memberIds|
  {
    if memberIds == [] then []
    else
      var found := FindUser(users, memberIds[|memberIds| - 1]);
      CreatedNotices(channel, memberIds[..|memberIds| - 1], users)
        + if found.Some? && Truthy(found.value.socketId)
          then [Event(ToSocket(found.value.socketId.value), ChannelCreated(channel))]
          else []
  }

  /** Each notice goes to the socket of a listed member and carries the channel. */
  lemma {:induction false} CreatedNoticesTo(channel: Channel, memberIds: seq<string>, users: seq<User>)
    ensures forall e :: e in CreatedNotices(channel, memberIds, users) ==>
              && e.payload == ChannelCreated(channel) && e.audience.ToSocket?
              && exists u :: u in users && u.id in memberIds && u.socketId == Some(e.audience.socketId)
  {
    if memberIds != [] {
      var init := memberIds[..|memberIds| - 1];
      CreatedNoticesTo(channel, init, users);
      forall e | e in CreatedNotices(channel, memberIds, users)
        ensures && e.payload == ChannelCreated(channel) && e.audience.ToSocket?
                && exists u :: u in users && u.id in memberIds && u.socketId == Some(e.audience.socketId)
      {
        if e in CreatedNotices(channel, init, users) {
          var u :| u in users && u.id in init && u.socketId == Some(e.audience.socketId);
          assert u.id in memberIds;
        } else {
          var found := FindUser(users, memberIds[|memberIds| - 1]);
          assert found.value in users && found.value.id in memberIds;
        }
      }
    }
  }

  // ---------------------------------------------------------------------------
  // The handlers' loops

  /** The `defaultChannels.forEach` of `user:join`, over the channel ids given. */
  method JoinChannels(channels: OrderedMap<string, Channel>, ids: seq<string>, userId: string)
    returns (r: OrderedMap<string, Channel>)
    requires channels.Valid() && forall k :: k in ids ==> k in channels.entries
    ensures r == AddToChannels(channels, ids, userId)
  {
    r := channels;
    for i := 0 to |ids|
      invariant r == AddToChannels(channels, ids[..i], userId)
    {
      assert ids[..i + 1][..i] == ids[..i];
      var c := r.entries[ids[i]];
      if userId !in c.members {
        r := r.Set(ids[i], c.(members := c.members + [userId]));
      }
    }
    assert ids[..|ids|] == ids;
  }

  /** The `channels.forEach` of `user:join` that sends each channel's history. */
  method CollectHistory(socketId: string, channelIds: seq<string>, messages: OrderedMap<string, seq<Message>>)
    returns (r: seq<Event>)
    ensures r == HistoryNotices(socketId, channelIds, messages)
  {
    r := [];
    for i := 0 to |channelIds|
      invariant r == HistoryNotices(socketId, channelIds[..i], messages)
    {
      assert channelIds[..i + 1][..i] == channelIds[..i];
      r := r + [Event(ToSocket(socketId), MessagesHistory(channelIds[i], LogOf(messages, channelIds[i])))];
    }
    assert channelIds[..|channelIds|] == channelIds;
  }

  /** The `channel.members.forEach` of `channel:create` that tells each member. */
  method NotifyMembers(channel: Channel, users: seq<User>) returns (r: seq<Event>)
    ensures r == CreatedNotices(channel, channel.members, users)
  {
    r := [];
    var ids := channel.members;
    for i := 0 to |ids|
      invariant r == CreatedNotices(channel, ids[..i], users)
    {
      assert ids[..i + 1][..i] == ids[..i];
      var found := FindUser(users, ids[i]);
      if found.Some? && Truthy(found.value.socketId) {
        r := r + [Event(ToSocket(found.value.socketId.value), ChannelCreated(channel))];
      }
    }
    assert ids[..|ids|] == ids;
  }

  /** The `typingUsers.forEach` of `disconnect`: drop the user from every set
      that holds it, with a stop notice for each such channel. */
  method ClearTypingOf(typing: OrderedMap<string, set<string>>, user: User, socketId: string)
    returns (r: OrderedMap<string, set<string>>, notices: seq<Event>)
    requires typing.Valid()
    ensures r == ClearTyping(typing, user.id, |typing.keys|)
    ensures notices == TypingStopNotices(typing, user, socketId, |typing.keys|)
  {
    r, notices := typing, [];
    var keys := typing.keys;
    for i := 0 to |keys|
      invariant r == ClearTyping(typing, user.id, i)
      invariant notices == TypingStopNotices(typing, user, socketId, i)
    {
      var k := keys[i];
      if user.id in typing.entries[k] {
        r := r.Set(k, typing.entries[k] - {user.id});
        notices := notices + [Event(ToRoomExcept(k, socketId), TypingUser(k, user.id, user.username, false))];
      }
    }
  }


  /** What `user:join` sends the joining connection (itself, every channel, every
      user, each channel's history, in that order), then everyone else. */
  function JoinNotices(socketId: string, user: User, channels: OrderedMap<string, Channel>,
                       users: OrderedMap<string, User>, messages: OrderedMap<string, seq<Message>>)
    : (r: seq<Event>)
    requires channels.Valid() && users.Valid()
    ensures |r| == |channels.keys| + 4
  {
    [Event(ToSocket(socketId), UserJoined(user)),
     Event(ToSocket(socketId), ChannelsList(channels.Values())),
     Event(ToSocket(socketId), UsersList(users.Values()))]
    + HistoryNotices(socketId, channels.keys, messages)
    + [Event(ToAllExcept(socketId), UserOnline(user))]
  }

  // ---------------------------------------------------------------------------
  // The server's state, and what each handler makes of it

  /** Everything the server holds: the four Maps, the user id each connection
      joined as (`socket.userId`), the scheduled deliveries and what was emitted. */
  datatype ServerState = ServerState(
    users: OrderedMap<string, User>,
    channels: OrderedMap<string, Channel>,
    messages: OrderedMap<string, seq<Message>>,
    typingUsers: OrderedMap<string, set<string>>,
    sessions: map<string, string>,
    pending: seq<Delivery>,
    outbox: seq<Event>
  )

  /** Every user is stored under its own id. */
  ghost predicate UsersKeyedById(users: OrderedMap<string, User>)
  {
    forall k :: k in users.entries ==> users.entries[k].id == k
  }

  /** Every scheduled delivery names the message at its index in its channel's log. */
  ghost predicate DeliveriesPoint(pending: seq<Delivery>, messages: OrderedMap<string, seq<Message>>)
  {
    forall d :: d in pending ==>
      d.channelId in messages.entries && d.index < |messages.entries[d.channelId]|
      && messages.entries[d.channelId][d.index].id == d.messageId
  }

  /** Every stored message holds at most one reaction per (emoji, user) pair. */
  ghost predicate ReactionsUnique(messages: OrderedMap<string, seq<Message>>)
  {
    forall c, i :: c in messages.entries && 0 <= i < |messages.entries[c]| ==>
      PairsUnique(messages.entries[c][i].reactions)
  }

  /** What holds between handlers: the Maps are well formed, users are stored
      under their ids, the default channels exist (nothing deletes a channel),
      every pending timer refers to a message in its log (logs only grow), and
      no message carries the same (emoji, user) reaction twice. */
  ghost predicate Inv(s: ServerState)
  {
    && s.users.Valid() && s.channels.Valid() && s.messages.Valid() && s.typingUsers.Valid()
    && UsersKeyedById(s.users)
    && GENERAL in s.channels.entries && RANDOM in s.channels.entries
    && DeliveriesPoint(s.pending, s.messages)
    && ReactionsUnique(s.messages)
  }

  /** A log whose first messages keep their ids. */
  predicate KeepsIds(log: seq<Message>, log': seq<Message>)
  {
    |log| <= |log'| && forall i :: 0 <= i < |log| ==> log'[i].id == log[i].id
  }

  /** Replacing a channel's log by one that keeps the ids of the old keeps every
      scheduled delivery pointing at its message; so does dropping deliveries. */
  lemma DeliveriesKept(pending: seq<Delivery>, pending': seq<Delivery>,
                       messages: OrderedMap<string, seq<Message>>, channelId: string, log': seq<Message>)
    requires messages.Valid() && DeliveriesPoint(pending, messages)
    requires forall d :: d in pending' ==> d in pending
    requires KeepsIds(LogOf(messages, channelId), log')
    ensures DeliveriesPoint(pending', messages.Set(channelId, log'))
  {
  }

  /** Replacing a channel's log by one whose messages all hold unique
      reaction pairs keeps every stored message so. */
  lemma ReactionsKept(messages: OrderedMap<string, seq<Message>>, channelId: string, log': seq<Message>)
    requires messages.Valid() && ReactionsUnique(messages)
    requires forall i :: 0 <= i < |log'| ==> PairsUnique(log'[i].reactions)
    ensures ReactionsUnique(messages.Set(channelId, log'))
  {
  }

  /** Every channel's log keeps the ids of the messages it held: logs are
      append-only, and no message is removed or reordered. */
  ghost predicate LogsGrow(s: ServerState, r: ServerState)
  {
    forall c :: KeepsIds(LogOf(s.messages, c), LogOf(r.messages, c))
  }

  /** Replacing one log by one that keeps its ids keeps every log's ids. */
  lemma LogsGrowBySet(s: ServerState, r: ServerState, channelId: string, log': seq<Message>)
    requires s.messages.Valid() && r.messages == s.messages.Set(channelId, log')
    requires KeepsIds(LogOf(s.messages, channelId), log')
    ensures LogsGrow(s, r)
  {
  }

  /** The default channels, keyed by id in their order. */
  function InitialChannels(): (r: OrderedMap<string, Channel>)
    ensures r.Valid() && r.keys == DEFAULT_CHANNEL_IDS
    ensures r.entries == map[GENERAL := DEFAULT_CHANNELS[0], RANDOM := DEFAULT_CHANNELS[1]]
  {
    var general, random := DEFAULT_CHANNELS[0], DEFAULT_CHANNELS[1];
    assert GENERAL != RANDOM by { assert GENERAL[0] != RANDOM[0]; }
    var channels := Empty<string, Channel>().Set(GENERAL, general);
    assert channels.keys == [GENERAL] && channels.entries == map[GENERAL := general];
    var r := channels.Set(RANDOM, random);
    assert r.keys == [GENERAL, RANDOM] && r.entries == map[GENERAL := general, RANDOM := random];
    r
  }

  /** An empty log for each default channel. */
  function InitialLogs(): (r: OrderedMap<string, seq<Message>>)
    ensures r.Valid() && r.keys == DEFAULT_CHANNEL_IDS
    ensures r.entries == map[GENERAL := [], RANDOM := []]
    ensures ReactionsUnique(r)
  {
    assert GENERAL != RANDOM by { assert GENERAL[0] != RANDOM[0]; }
    var logs := Empty<string, seq<Message>>().Set(GENERAL, []);
    assert logs.keys == [GENERAL];
    var allLogs := logs.Set(RANDOM, []);
    assert forall c | c in allLogs.entries :: allLogs.entries[c] == [];
    allLogs
  }

  /** The server at start-up: the two default channels, each with an empty log. */
  function Initial(): (s: ServerState)
    ensures Inv(s)
    ensures s.channels.keys == DEFAULT_CHANNEL_IDS && s.messages.keys == DEFAULT_CHANNEL_IDS
    ensures s.channels.entries == map[GENERAL := DEFAULT_CHANNELS[0], RANDOM := DEFAULT_CHANNELS[1]]
    ensures s.messages.entries == map[GENERAL := [], RANDOM := []]
    ensures s.users.keys == [] && s.typingUsers.keys == [] && s.sessions == map[]
    ensures s.pending == [] && s.outbox == []
  {
    ServerState(Empty(), InitialChannels(), InitialLogs(), Empty(), map[], [], [])
  }

  /** `users.get(socket.userId)`: the user a connection joined as, if it joined. */
  function SessionUser(s: ServerState, socketId: string): (r: Option<User>)
    requires Inv(s)
    ensures r.Some? <==> socketId in s.sessions && s.sessions[socketId] in s.users.entries
    ensures r.Some? ==> r.value == s.users.entries[s.sessions[socketId]] && r.value.id == s.sessions[socketId]
  {
    if socketId in s.sessions && s.sessions[socketId] in s.users.entries
    then Some(s.users.entries[s.sessions[socketId]]) else None
  }

  /** `user:join`: the user is (re)registered online under the given id, or a
      fresh one when none is given, the connection is bound to it, it joins
      each default channel it is not in, and it is sent the current state. */
  function AfterJoin(s: ServerState, socketId: string, data: JoinData, freshId: string): (r: ServerState)
    requires Inv(s)
    ensures Inv(r) && LogsGrow(s, r)
  {
    var id := if Truthy(data.id) then data.id.value else freshId;
    var user := User(id, data.username, data.avatar, ONLINE, None, Some(socketId));
    var users := s.users.Set(id, user);
    var channels := JoinDefaults(s.channels, id);
    s.(users := users, channels := channels, sessions := s.sessions[socketId := id],
       outbox := s.outbox + JoinNotices(socketId, user, channels, users, s.messages))
  }

  /** `user:join` on the state's Maps, with the loops of the handler. */
  method JoinStep(s: ServerState, socketId: string, data: JoinData, freshId: string) returns (r: ServerState)
    requires Inv(s)
    ensures r == AfterJoin(s, socketId, data, freshId)
    ensures r == s.(users := r.users, channels := r.channels, sessions := r.sessions, outbox := r.outbox)
  {
    var id := if Truthy(data.id) then data.id.value else freshId;
    var user := User(id, data.username, data.avatar, ONLINE, None, Some(socketId));
    var users := s.users.Set(id, user);
    var channels := JoinChannels(s.channels, DEFAULT_CHANNEL_IDS, id);
    JoinDefaultsIsAddToChannels(s.channels, id);
    var history := CollectHistory(socketId, channels.keys, s.messages);
    var notices := [Event(ToSocket(socketId), UserJoined(user)),
                    Event(ToSocket(socketId), ChannelsList(channels.Values())),
                    Event(ToSocket(socketId), UsersList(users.Values()))]
                   + history + [Event(ToAllExcept(socketId), UserOnline(user))];
    r := s.(users := users, channels := channels, sessions := s.sessions[socketId := id],
            outbox := s.outbox + notices);
  }

  /** `message:send`: nothing from a connection that has not joined; otherwise
      the message is appended to its channel's log (a new log for a channel
      without one), announced to the room, and its delivery is scheduled. */
  function AfterSend(s: ServerState, socketId: string, data: SendData, freshId: string, now: int)
    : (r: ServerState)
    requires Inv(s)
    ensures Inv(r) && LogsGrow(s, r)
  {
    match SessionUser(s, socketId)
    case None => s
    case Some(u) =>
      var m := NewMessage(freshId, u.id, data, now);
      var log := LogOf(s.messages, data.channelId);
      var pending := s.pending + [Delivery(data.channelId, |log|, freshId)];
      DeliveriesKept(s.pending, s.pending, s.messages, data.channelId, log + [m]);
      ReactionsKept(s.messages, data.channelId, log + [m]);
      LogsGrowBySet(s, s.(messages := s.messages.Set(data.channelId, log + [m])), data.channelId, log + [m]);
      s.(messages := s.messages.Set(data.channelId, log + [m]), pending := pending,
         outbox := s.outbox + [Event(ToRoom(data.channelId), MessageNew(m))])
  }

  /** The oldest pending 100 ms timer fires: its message becomes delivered. */
  function AfterDeliver(s: ServerState): (r: ServerState)
    requires Inv(s) && s.pending != []
    ensures Inv(r) && LogsGrow(s, r)
  {
    var d := s.pending[0];
    var log := s.messages.entries[d.channelId];
    var log' := log[d.index := log[d.index].(status := DELIVERED)];
    DeliveriesKept(s.pending, s.pending[1..], s.messages, d.channelId, log');
    ReactionsKept(s.messages, d.channelId, log');
    LogsGrowBySet(s, s.(messages := s.messages.Set(d.channelId, log')), d.channelId, log');
    s.(messages := s.messages.Set(d.channelId, log'), pending := s.pending[1..],
       outbox := s.outbox + [Event(ToRoom(d.channelId), MessageStatus(d.messageId, DELIVERED))])
  }

  /** `typing:start`: the caller joins the channel's typing set. */
  function AfterTypingStart(s: ServerState, socketId: string, channelId: string): (r: ServerState)
    requires Inv(s)
    ensures Inv(r) && LogsGrow(s, r)
  {
    match SessionUser(s, socketId)
    case None => s
    case Some(u) =>
      s.(typingUsers := s.typingUsers.Set(channelId, TypingSetOf(s.typingUsers, channelId) + {u.id}),
         outbox := s.outbox + [Event(ToRoomExcept(channelId, socketId), TypingUser(channelId, u.id, u.username, true))])
  }

  /** `typing:stop`: the caller leaves the channel's typing set. */
  function AfterTypingStop(s: ServerState, socketId: string, channelId: string): (r: ServerState)
    requires Inv(s)
    ensures Inv(r) && LogsGrow(s, r)
  {
    match SessionUser(s, socketId)
    case None => s
    case Some(u) =>
      s.(typingUsers := s.typingUsers.Set(channelId, TypingSetOf(s.typingUsers, channelId) - {u.id}),
         outbox := s.outbox + [Event(ToRoomExcept(channelId, socketId), TypingUser(channelId, u.id, u.username, false))])
  }

  /** `reaction:add`: the caller's reaction with that emoji on the first message
      with that id in that channel is toggled; nothing happens for a connection
      that has not joined or a message that is not there. */
  function AfterReactionAdd(s: ServerState, socketId: string, data: ReactionData): (r: ServerState)
    requires Inv(s)
    ensures Inv(r) && LogsGrow(s, r)
  {
    match SessionUser(s, socketId)
    case None => s
    case Some(u) =>
      var log := LogOf(s.messages, data.channelId);
      match FindMessage(log, data.messageId)
      case None => s
      case Some(i) =>
        var rs := ToggleReaction(log[i].reactions, data.emoji, u);
        var log' := log[i := log[i].(reactions := rs)];
        DeliveriesKept(s.pending, s.pending, s.messages, data.channelId, log');
        ToggleKeepsPairsUnique(log[i].reactions, data.emoji, u);
        ReactionsKept(s.messages, data.channelId, log');
        LogsGrowBySet(s, s.(messages := s.messages.Set(data.channelId, log')), data.channelId, log');
        s.(messages := s.messages.Set(data.channelId, log'),
           outbox := s.outbox + [Event(ToRoom(data.channelId), ReactionUpdated(data.messageId, rs))])
  }

  /** `user:status`: the given status is stored, unchecked, and announced to all. */
  function AfterSetStatus(s: ServerState, socketId: string, status: string): (r: ServerState)
    requires Inv(s)
    ensures Inv(r) && LogsGrow(s, r)
  {
    match SessionUser(s, socketId)
    case None => s
    case Some(u) =>
      s.(users := s.users.Set(u.id, u.(status := status)),
         outbox := s.outbox + [Event(ToAll, UserStatusChanged(u.id, status))])
  }

  /** `channel:create`: a channel under a fresh id whose members are the creator
      followed by the requested ids (not deduplicated), with an empty log; each
      member that is a user with a socket is told. */
  function AfterCreateChannel(s: ServerState, socketId: string, data: ChannelData, freshId: string)
    : (r: ServerState)
    requires Inv(s) && freshId !in s.channels.entries && freshId !in s.messages.entries
    ensures Inv(r) && LogsGrow(s, r)
  {
    match SessionUser(s, socketId)
    case None => s
    case Some(u) =>
      var ch := Channel(freshId, data.name, data.kind, data.description, [u.id] + data.members, 0);
      DeliveriesKept(s.pending, s.pending, s.messages, freshId, []);
      ReactionsKept(s.messages, freshId, []);
      LogsGrowBySet(s, s.(messages := s.messages.Set(freshId, [])), freshId, []);
      s.(channels := s.channels.Set(freshId, ch), messages := s.messages.Set(freshId, []),
         outbox := s.outbox + CreatedNotices(ch, ch.members, s.users.Values()))
  }

  /** `channel:join`: nothing for a connection that has not joined or an unknown
      channel; otherwise the user becomes a member if it was not, and is sent the log. */
  function AfterJoinChannel(s: ServerState, socketId: string, channelId: string): (r: ServerState)
    requires Inv(s)
    ensures Inv(r) && LogsGrow(s, r)
  {
    match SessionUser(s, socketId)
    case None => s
    case Some(u) =>
      if channelId !in s.channels.entries then s
      else
        s.(channels := AddToChannel(s.channels, channelId, u.id),
           outbox := s.outbox + [Event(ToSocket(socketId), MessagesHistory(channelId, LogOf(s.messages, channelId)))])
  }

  /** `disconnect`: the user goes offline with `lastSeen` set and stays known; it
      leaves every typing set, with a stop notice for each set that held it, and
      everyone else is told it went offline. */
  function AfterDisconnect(s: ServerState, socketId: string, now: int): (r: ServerState)
    requires Inv(s)
    ensures Inv(r) && LogsGrow(s, r)
  {
    match SessionUser(s, socketId)
    case None => s
    case Some(u) =>
      var n := |s.typingUsers.keys|;
      s.(users := s.users.Set(u.id, u.(status := OFFLINE, lastSeen := Some(now))),
         typingUsers := ClearTyping(s.typingUsers, u.id, n),
         outbox := s.outbox + TypingStopNotices(s.typingUsers, u, socketId, n)
                   + [Event(ToAllExcept(socketId), UserOffline(u.id, now))])
  }

  // ---------------------------------------------------------------------------
  // What the handlers promise

  /** After `user:join` the connection is bound to an online user with the
      given or fresh id, who is a member of both default channels; no channel,
      log, typing set or timer changes; the caller first hears about itself and
      everyone else last hears that it is online. */
  lemma JoinEffect(s: ServerState, socketId: string, data: JoinData, freshId: string)
    requires Inv(s)
    ensures var r := AfterJoin(s, socketId, data, freshId);
            var id := if Truthy(data.id) then data.id.value else freshId;
            var user := User(id, data.username, data.avatar, ONLINE, None, Some(socketId));
            && SessionUser(r, socketId) == Some(user)
            && id in r.channels.entries[GENERAL].members && id in r.channels.entries[RANDOM].members
            && r.channels.keys == s.channels.keys
            && r.messages == s.messages && r.typingUsers == s.typingUsers && r.pending == s.pending
            && s.outbox <= r.outbox && |r.outbox| == |s.outbox| + |s.channels.keys| + 4
            && r.outbox[|s.outbox|] == Event(ToSocket(socketId), UserJoined(user))
            && r.outbox[|r.outbox| - 1] == Event(ToAllExcept(socketId), UserOnline(user))
  {
    var id := if Truthy(data.id) then data.id.value else freshId;
    JoinDefaultsMembers(s.channels, id);
  }

  /** Joining again under the same id leaves the channels as the first join left them. */
  lemma RejoinKeepsChannels(s: ServerState, socketId: string, socketId': string, data: JoinData,
                            freshId: string, freshId': string)
    requires Inv(s) && Truthy(data.id)
    ensures var once := AfterJoin(s, socketId, data, freshId);
            AfterJoin(once, socketId', data, freshId').channels == once.channels
  {
    JoinDefaultsMembers(s.channels, data.id.value);
  }

  /** After `message:send` from a joined connection, the channel's log is the old
      one (or none) followed by the new message, sent by the caller with status
      `sent`, and its delivery is queued last; other logs are untouched. From a
      connection that has not joined, nothing changes. */
  lemma SendEffect(s: ServerState, socketId: string, data: SendData, freshId: string, now: int)
    requires Inv(s)
    ensures var r := AfterSend(s, socketId, data, freshId, now);
            SessionUser(s, socketId).None? ==> r == s
    ensures var r := AfterSend(s, socketId, data, freshId, now);
            SessionUser(s, socketId).Some? ==>
              var m := NewMessage(freshId, SessionUser(s, socketId).value.id, data, now);
              && LogOf(r.messages, data.channelId) == LogOf(s.messages, data.channelId) + [m]
              && m.id == freshId && m.status == SENT && m.reactions == []
              && (forall c :: c != data.channelId ==> LogOf(r.messages, c) == LogOf(s.messages, c))
              && r.pending == s.pending + [Delivery(data.channelId, |LogOf(s.messages, data.channelId)|, freshId)]
  {
  }

  /** The oldest timer marks exactly its message delivered: same log length, same
      message but for its status, every other message and log unchanged. */
  lemma DeliverEffect(s: ServerState)
    requires Inv(s) && s.pending != []
    ensures var r := AfterDeliver(s);
            var d := s.pending[0];
            var log := LogOf(s.messages, d.channelId);
            var log' := LogOf(r.messages, d.channelId);
            && |log'| == |log| && d.index < |log|
            && log'[d.index] == log[d.index].(status := DELIVERED) && log'[d.index].id == d.messageId
            && (forall i :: 0 <= i < |log| && i != d.index ==> log'[i] == log[i])
            && (forall c :: c != d.channelId ==> LogOf(r.messages, c) == LogOf(s.messages, c))
            && r.pending == s.pending[1..]
            && r.outbox == s.outbox + [Event(ToRoom(d.channelId), MessageStatus(d.messageId, DELIVERED))]
            && r.(messages := s.messages, pending := s.pending, outbox := s.outbox) == s
  {
  }

  /** With no timer pending, a send followed by its timer leaves the new message
      delivered at the end of its channel's log, announced and then marked. */
  lemma SendThenDeliver(s: ServerState, socketId: string, data: SendData, freshId: string, now: int)
    requires Inv(s) && s.pending == [] && SessionUser(s, socketId).Some?
    ensures AfterSend(s, socketId, data, freshId, now).pending != []
    ensures var r := AfterDeliver(AfterSend(s, socketId, data, freshId, now));
            var m := NewMessage(freshId, SessionUser(s, socketId).value.id, data, now);
            && LogOf(r.messages, data.channelId) == LogOf(s.messages, data.channelId) + [m.(status := DELIVERED)]
            && r.pending == []
            && r.outbox == s.outbox + [Event(ToRoom(data.channelId), MessageNew(m)),
                                       Event(ToRoom(data.channelId), MessageStatus(freshId, DELIVERED))]
  {
    var t := AfterSend(s, socketId, data, freshId, now);
    SendEffect(s, socketId, data, freshId, now);
    var log := LogOf(s.messages, data.channelId);
    var m := NewMessage(freshId, SessionUser(s, socketId).value.id, data, now);
    assert t.pending[0] == Delivery(data.channelId, |log|, freshId);
    assert (log + [m])[|log| := m.(status := DELIVERED)] == log + [m.(status := DELIVERED)];
  }

  /** `typing:start` puts the caller in the channel's set; a following
      `typing:stop` leaves the set as before without the caller. */
  lemma TypingStartThenStop(s: ServerState, socketId: string, channelId: string)
    requires Inv(s) && SessionUser(s, socketId).Some?
    ensures var u := SessionUser(s, socketId).value;
            var t := AfterTypingStart(s, socketId, channelId);
            && u.id in TypingSetOf(t.typingUsers, channelId)
            && TypingSetOf(AfterTypingStop(t, socketId, channelId).typingUsers, channelId)
               == TypingSetOf(s.typingUsers, channelId) - {u.id}
  {
    var t := AfterTypingStart(s, socketId, channelId);
    assert SessionUser(t, socketId) == SessionUser(s, socketId);
  }

  /** `typing:start` from a connection that has not joined changes nothing;
      otherwise the caller is added to that channel's typing set, no other
      set and nothing else changes, and the room but the caller is told. */
  lemma TypingStartEffect(s: ServerState, socketId: string, channelId: string)
    requires Inv(s)
    ensures SessionUser(s, socketId).None? ==> AfterTypingStart(s, socketId, channelId) == s
    ensures var r := AfterTypingStart(s, socketId, channelId);
            SessionUser(s, socketId).Some? ==>
              var u := SessionUser(s, socketId).value;
              && TypingSetOf(r.typingUsers, channelId) == TypingSetOf(s.typingUsers, channelId) + {u.id}
              && (forall c :: c != channelId ==> TypingSetOf(r.typingUsers, c) == TypingSetOf(s.typingUsers, c))
              && r.outbox == s.outbox + [Event(ToRoomExcept(channelId, socketId), TypingUser(channelId, u.id, u.username, true))]
              && r.(typingUsers := s.typingUsers, outbox := s.outbox) == s
  {
  }

  /** `typing:stop` from a connection that has not joined changes nothing;
      otherwise the caller leaves that channel's typing set, no other set and
      nothing else changes, and the room but the caller is told. */
  lemma TypingStopEffect(s: ServerState, socketId: string, channelId: string)
    requires Inv(s)
    ensures SessionUser(s, socketId).None? ==> AfterTypingStop(s, socketId, channelId) == s
    ensures var r := AfterTypingStop(s, socketId, channelId);
            SessionUser(s, socketId).Some? ==>
              var u := SessionUser(s, socketId).value;
              && TypingSetOf(r.typingUsers, channelId) == TypingSetOf(s.typingUsers, channelId) - {u.id}
              && (forall c :: c != channelId ==> TypingSetOf(r.typingUsers, c) == TypingSetOf(s.typingUsers, c))
              && r.outbox == s.outbox + [Event(ToRoomExcept(channelId, socketId), TypingUser(channelId, u.id, u.username, false))]
              && r.(typingUsers := s.typingUsers, outbox := s.outbox) == s
  {
  }

  /** `reaction:add` from a connection that has not joined, or for a message
      id the channel's log does not hold, changes nothing. Otherwise only the
      reactions of the first message with that id change, to the toggled
      list, which the room is sent; every other message, log and field stays. */
  lemma ReactionEffect(s: ServerState, socketId: string, data: ReactionData)
    requires Inv(s)
    ensures SessionUser(s, socketId).None? ==> AfterReactionAdd(s, socketId, data) == s
    ensures FindMessage(LogOf(s.messages, data.channelId), data.messageId).None? ==>
              AfterReactionAdd(s, socketId, data) == s
    ensures var r := AfterReactionAdd(s, socketId, data);
            var found := FindMessage(LogOf(s.messages, data.channelId), data.messageId);
            SessionUser(s, socketId).Some? && found.Some? ==>
              var u := SessionUser(s, socketId).value;
              var i := found.value;
              var log := LogOf(s.messages, data.channelId);
              var log' := LogOf(r.messages, data.channelId);
              var rs := ToggleReaction(log[i].reactions, data.emoji, u);
              && |log'| == |log| && log'[i] == log[i].(reactions := rs)
              && (forall j :: 0 <= j < |log| && j != i ==> log'[j] == log[j])
              && (forall c :: c != data.channelId ==> LogOf(r.messages, c) == LogOf(s.messages, c))
              && r.outbox == s.outbox + [Event(ToRoom(data.channelId), ReactionUpdated(data.messageId, rs))]
              && r.(messages := s.messages, outbox := s.outbox) == s
  {
  }

  /** Changing reactions keeps message ids, so the same message is found again. */
  lemma {:induction false} FindMessageSameIds(log: seq<Message>, log': seq<Message>, messageId: string)
    requires |log| == |log'| && forall i :: 0 <= i < |log| ==> log'[i].id == log[i].id
    ensures FindMessage(log', messageId) == FindMessage(log, messageId)
  {
    if log != [] {
      FindMessageSameIds(log[1..], log'[1..], messageId);
    }
  }

  /** The same reaction sent twice by the same connection restores the set of
      (emoji, user) pairs on the message, and the list itself when the caller
      had not reacted with that emoji. */
  lemma ReactionTwice(s: ServerState, socketId: string, data: ReactionData)
    requires Inv(s) && SessionUser(s, socketId).Some?
    requires FindMessage(LogOf(s.messages, data.channelId), data.messageId).Some?
    ensures var r := AfterReactionAdd(AfterReactionAdd(s, socketId, data), socketId, data);
            var i := FindMessage(LogOf(s.messages, data.channelId), data.messageId).value;
            var log := LogOf(s.messages, data.channelId);
            var log' := LogOf(r.messages, data.channelId);
            && |log'| == |log| && log'[i].id == log[i].id
            && PairSet(log'[i].reactions) == PairSet(log[i].reactions)
            && (!HasPair(log[i].reactions, data.emoji, SessionUser(s, socketId).value.id) ==> log' == log)
  {
    var u := SessionUser(s, socketId).value;
    var log := LogOf(s.messages, data.channelId);
    var i := FindMessage(log, data.messageId).value;
    var t := AfterReactionAdd(s, socketId, data);
    var rs := ToggleReaction(log[i].reactions, data.emoji, u);
    var mid := log[i := log[i].(reactions := rs)];
    assert LogOf(t.messages, data.channelId) == mid;
    FindMessageSameIds(log, mid, data.messageId);
    assert SessionUser(t, socketId) == Some(u);
    ToggleTwice(log[i].reactions, data.emoji, u);
    if !HasPair(log[i].reactions, data.emoji, u.id) {
      assert mid[i := mid[i].(reactions := ToggleReaction(rs, data.emoji, u))] == log;
    }
  }

  /** `user:status` changes the caller's status and nothing else about any user. */
  lemma SetStatusEffect(s: ServerState, socketId: string, status: string)
    requires Inv(s) && SessionUser(s, socketId).Some?
    ensures var r := AfterSetStatus(s, socketId, status);
            var u := SessionUser(s, socketId).value;
            && SessionUser(r, socketId) == Some(u.(status := status))
            && r.users.keys == s.users.keys
            && (forall k :: k in s.users.entries && k != u.id ==> r.users.entries[k] == s.users.entries[k])
            && r.channels == s.channels && r.messages == s.messages && r.typingUsers == s.typingUsers
  {
  }

  /** `channel:create` adds one channel, last in order, listing the creator first
      and then the requested ids, with an empty log; every notice carries the
      channel to the socket of one of its members. */
  lemma CreateChannelEffect(s: ServerState, socketId: string, data: ChannelData, freshId: string)
    requires Inv(s) && freshId !in s.channels.entries && freshId !in s.messages.entries
    requires SessionUser(s, socketId).Some?
    ensures var r := AfterCreateChannel(s, socketId, data, freshId);
            var u := SessionUser(s, socketId).value;
            && r.channels.keys == s.channels.keys + [freshId]
            && r.channels.entries[freshId].members == [u.id] + data.members
            && r.channels.entries[freshId].unreadCount == 0
            && LogOf(r.messages, freshId) == []
            && (forall c :: c in s.channels.entries ==> r.channels.entries[c] == s.channels.entries[c])
            && s.outbox <= r.outbox
            && forall e :: e in r.outbox[|s.outbox|..] ==>
                 && e.payload == ChannelCreated(r.channels.entries[freshId]) && e.audience.ToSocket?
                 && exists v :: v in s.users.Values() && v.id in r.channels.entries[freshId].members
                                && v.socketId == Some(e.audience.socketId)
  {
    var u := SessionUser(s, socketId).value;
    var ch := Channel(freshId, data.name, data.kind, data.description, [u.id] + data.members, 0);
    var r := AfterCreateChannel(s, socketId, data, freshId);
    CreatedNoticesTo(ch, ch.members, s.users.Values());
    assert r.outbox[|s.outbox|..] == CreatedNotices(ch, ch.members, s.users.Values());
  }

  /** `channel:join` from a connection that has not joined, or for an unknown
      channel, changes nothing. Otherwise the caller is a member of the
      channel, whose earlier members stay in order, no other channel changes,
      and the caller is sent the channel's whole log. */
  lemma JoinChannelEffect(s: ServerState, socketId: string, channelId: string)
    requires Inv(s)
    ensures SessionUser(s, socketId).None? || channelId !in s.channels.entries ==>
              AfterJoinChannel(s, socketId, channelId) == s
    ensures var r := AfterJoinChannel(s, socketId, channelId);
            SessionUser(s, socketId).Some? && channelId in s.channels.entries ==>
              var u := SessionUser(s, socketId).value;
              && u.id in r.channels.entries[channelId].members
              && s.channels.entries[channelId].members <= r.channels.entries[channelId].members
              && r.channels.entries[channelId] == s.channels.entries[channelId].(members := r.channels.entries[channelId].members)
              && r.channels.keys == s.channels.keys
              && (forall c :: c in s.channels.entries && c != channelId ==> r.channels.entries[c] == s.channels.entries[c])
              && r.outbox == s.outbox + [Event(ToSocket(socketId), MessagesHistory(channelId, LogOf(s.messages, channelId)))]
              && r.(channels := s.channels, outbox := s.outbox) == s
  {
  }

  /** `channel:join` twice is `channel:join` once, as far as the channels go. */
  lemma JoinChannelTwice(s: ServerState, socketId: string, channelId: string)
    requires Inv(s)
    ensures var once := AfterJoinChannel(s, socketId, channelId);
            AfterJoinChannel(once, socketId, channelId).channels == once.channels
  {
    var once := AfterJoinChannel(s, socketId, channelId);
    if SessionUser(s, socketId).Some? && channelId in s.channels.entries {
      assert SessionUser(once, socketId) == SessionUser(s, socketId);
    }
  }

  /** After `disconnect` the user is still known, offline since `now`; it is in
      no typing set, every other typing id stays; and a stop notice went to a
      channel exactly when the user was typing there. */
  lemma DisconnectEffect(s: ServerState, socketId: string, now: int, channelId: string)
    requires Inv(s) && SessionUser(s, socketId).Some?
    ensures var r := AfterDisconnect(s, socketId, now);
            var u := SessionUser(s, socketId).value;
            && SessionUser(r, socketId) == Some(u.(status := OFFLINE, lastSeen := Some(now)))
            && TypingSetOf(r.typingUsers, channelId) == TypingSetOf(s.typingUsers, channelId) - {u.id}
            && r.outbox[|r.outbox| - 1] == Event(ToAllExcept(socketId), UserOffline(u.id, now))
            && r.channels == s.channels && r.messages == s.messages && r.pending == s.pending
            && r.sessions == s.sessions
  {
    var u := SessionUser(s, socketId).value;
    var n := |s.typingUsers.keys|;
    assert s.typingUsers.keys[..n] == s.typingUsers.keys;
    if channelId in s.typingUsers.entries {
      ClearTypingEffect(s.typingUsers, u.id, n, channelId);
    }
  }

  /** A disconnecting user's stop-typing notice goes to a channel exactly when
      the user was typing there. */
  lemma DisconnectStopNotice(s: ServerState, socketId: string, now: int, channelId: string)
    requires Inv(s) && SessionUser(s, socketId).Some?
    requires channelId in s.typingUsers.entries
    ensures var r := AfterDisconnect(s, socketId, now);
            var u := SessionUser(s, socketId).value;
            var stop := Event(ToRoomExcept(channelId, socketId), TypingUser(channelId, u.id, u.username, false));
            stop in r.outbox[|s.outbox|..] <==> u.id in s.typingUsers.entries[channelId]
  {
    var u := SessionUser(s, socketId).value;
    var r := AfterDisconnect(s, socketId, now);
    var n := |s.typingUsers.keys|;
    assert s.typingUsers.keys[..n] == s.typingUsers.keys;
    TypingStopNoticeFor(s.typingUsers, u, socketId, n, channelId);
    var stops := TypingStopNotices(s.typingUsers, u, socketId, n);
    var offline := Event(ToAllExcept(socketId), UserOffline(u.id, now));
    assert r.outbox[|s.outbox|..] == stops + [offline];
  }

  // ---------------------------------------------------------------------------
  // The server object

  class Server {
    var users: OrderedMap<string, User>
    var channels: OrderedMap<string, Channel>
    var messages: OrderedMap<string, seq<Message>>
    var typingUsers: OrderedMap<string, set<string>>
    /** `socket.userId`, per connection. */
    var sessions: map<string, string>
    /** Timers scheduled by `message:send`, in firing order. */
    var pending: seq<Delivery>
    var outbox: seq<Event>

    function State(): ServerState
      reads this
    {
      ServerState(users, channels, messages, typingUsers, sessions, pending, outbox)
    }

    ghost predicate Valid()
      reads this
    {
      Inv(State())
    }

    constructor ()
      ensures Valid() && State() == Initial()
    {
      users, typingUsers := Empty(), Empty();
      sessions, pending, outbox := map[], [], [];
      // defaultChannels.forEach, over its two entries
      channels := Empty<string, Channel>().Set(GENERAL, DEFAULT_CHANNELS[0]).Set(RANDOM, DEFAULT_CHANNELS[1]);
      messages := Empty<string, seq<Message>>().Set(GENERAL, []).Set(RANDOM, []);
    }

    /** Replaces every Map and list of the server by those of `r`. */
    method Load(r: ServerState)
      modifies this
      ensures State() == r
    {
      users, channels, messages, typingUsers := r.users, r.channels, r.messages, r.typingUsers;
      sessions, pending, outbox := r.sessions, r.pending, r.outbox;
    }

    method Join(socketId: string, data: JoinData, freshId: string)
      requires Valid()
      modifies this
      ensures State() == AfterJoin(old(State()), socketId, data, freshId)
      ensures Valid()
    {
      var r := JoinStep(State(), socketId, data, freshId);
      Load(r);
    }

    method Send(socketId: string, data: SendData, freshId: string, now: int)
      requires Valid()
      modifies this
      ensures State() == AfterSend(old(State()), socketId, data, freshId, now)
      ensures Valid()
    {
      var u := SessionUser(State(), socketId);
      if u.None? {
        return;
      }
      var m := NewMessage(freshId, u.value.id, data, now);
      var log := LogOf(messages, data.channelId);
      messages := messages.Set(data.channelId, log + [m]);
      outbox := outbox + [Event(ToRoom(data.channelId), MessageNew(m))];
      pending := pending + [Delivery(data.channelId, |log|, freshId)];
    }

    method Deliver()
      requires Valid() && pending != []
      modifies this
      ensures State() == AfterDeliver(old(State()))
      ensures Valid()
    {
      var d := pending[0];
      var log := messages.entries[d.channelId];
      messages := messages.Set(d.channelId, log[d.index := log[d.index].(status := DELIVERED)]);
      pending := pending[1..];
      outbox := outbox + [Event(ToRoom(d.channelId), MessageStatus(d.messageId, DELIVERED))];
    }

    method TypingStart(socketId: string, channelId: string)
      requires Valid()
      modifies this
      ensures State() == AfterTypingStart(old(State()), socketId, channelId)
      ensures Valid()
    {
      var u := SessionUser(State(), socketId);
      if u.None? {
        return;
      }
      typingUsers := typingUsers.Set(channelId, TypingSetOf(typingUsers, channelId) + {u.value.id});
      outbox := outbox + [Event(ToRoomExcept(channelId, socketId),
                                TypingUser(channelId, u.value.id, u.value.username, true))];
    }

    method TypingStop(socketId: string, channelId: string)
      requires Valid()
      modifies this
      ensures State() == AfterTypingStop(old(State()), socketId, channelId)
      ensures Valid()
    {
      var u := SessionUser(State(), socketId);
      if u.None? {
        return;
      }
      typingUsers := typingUsers.Set(channelId, TypingSetOf(typingUsers, channelId) - {u.value.id});
      outbox := outbox + [Event(ToRoomExcept(channelId, socketId),
                                TypingUser(channelId, u.value.id, u.value.username, false))];
    }

    method ReactionAdd(socketId: string, data: ReactionData)
      requires Valid()
      modifies this
      ensures State() == AfterReactionAdd(old(State()), socketId, data)
      ensures Valid()
    {
      var u := SessionUser(State(), socketId);
      if u.None? {
        return;
      }
      var log := LogOf(messages, data.channelId);
      var found := FindMessage(log, data.messageId);
      if found.None? {
        return;
      }
      var i := found.value;
      var rs := ToggleReaction(log[i].reactions, data.emoji, u.value);
      messages := messages.Set(data.channelId, log[i := log[i].(reactions := rs)]);
      outbox := outbox + [Event(ToRoom(data.channelId), ReactionUpdated(data.messageId, rs))];
    }

    method SetStatus(socketId: string, status: string)
      requires Valid()
      modifies this
      ensures State() == AfterSetStatus(old(State()), socketId, status)
      ensures Valid()
    {
      var u := SessionUser(State(), socketId);
      if u.None? {
        return;
      }
      users := users.Set(u.value.id, u.value.(status := status));
      outbox := outbox + [Event(ToAll, UserStatusChanged(u.value.id, status))];
    }

    method CreateChannel(socketId: string, data: ChannelData, freshId: string)
      requires Valid() && freshId !in channels.entries && freshId !in messages.entries
      modifies this
      ensures State() == AfterCreateChannel(old(State()), socketId, data, freshId)
      ensures Valid()
    {
      var u := SessionUser(State(), socketId);
      if u.None? {
        return;
      }
      var ch := Channel(freshId, data.name, data.kind, data.description, [u.value.id] + data.members, 0);
      var notices := NotifyMembers(ch, users.Values());
      channels := channels.Set(freshId, ch);
      messages := messages.Set(freshId, []);
      outbox := outbox + notices;
    }

    method JoinChannel(socketId: string, channelId: string)
      requires Valid()
      modifies this
      ensures State() == AfterJoinChannel(old(State()), socketId, channelId)
      ensures Valid()
    {
      var u := SessionUser(State(), socketId);
      if u.None? || channelId !in channels.entries {
        return;
      }
      channels := AddToChannel(channels, channelId, u.value.id);
      outbox := outbox + [Event(ToSocket(socketId), MessagesHistory(channelId, LogOf(messages, channelId)))];
    }

    method Disconnect(socketId: string, now: int)
      requires Valid()
      modifies this
      ensures State() == AfterDisconnect(old(State()), socketId, now)
      ensures Valid()
    {
      var u := SessionUser(State(), socketId);
      if u.None? {
        return;
      }
      var user := u.value.(status := OFFLINE, lastSeen := Some(now));
      users := users.Set(user.id, user);
      var cleared, notices := ClearTypingOf(typingUsers, u.value, socketId);
      typingUsers := cleared;
      outbox := outbox + notices + [Event(ToAllExcept(socketId), UserOffline(user.id, now))];
    }
  }
}
