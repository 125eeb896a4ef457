/** The client-side mirror of the server (src/stores/chatStore.ts): a store
    holding users, channels, per-channel message arrays, per-channel typing
    lists and unread counters. Each socket listener registered by
    `initializeSocket` and each UI action is a method of `Store`; the
    state-to-state reducers they apply are the functions of this module.

    What the store asks the socket service to send is appended to `requests`;
    the service itself and the network are not modelled. */
module ChatStore {
  import opened Strings
  import opened Domain

  /** A call into the socket service. */
  datatype Request =
    | JoinAsUser(id: Option<string>, username: Option<string>, avatar: Option<string>)
    | JoinChannel(channelId: string)
    | SendMessage(channelId: string, content: string, kind: string,
                  fileUrl: Option<string>, fileName: Option<string>)
    | AddReaction(channelId: string, messageId: string, emoji: string)
    | SetUserStatus(status: string)
    | CreateChannel(name: string, kind: string, description: Option<string>, members: seq<string>)
    | Disconnect

  // Per-message updates

  /** The field a per-id message update overwrites. */
  datatype MessagePatch = StatusTo(status: string) | ReactionsTo(reactions: seq<Reaction>)

  function Patch(m: Message, patch: MessagePatch): (r: Message)
    ensures r.id == m.id
  {
    match patch
    case StatusTo(status) => m.(status := status)
    case ReactionsTo(reactions) => m.(reactions := reactions)
  }

  /** `log.map(msg => msg.id === messageId ? { ...msg, <patch> } : msg)`. */
  function PatchLog(log: seq<Message>, messageId: string, patch: MessagePatch): (r: seq<Message>)
    ensures |r| == |log|
    ensures forall i :: 0 <= i < |log| ==>
      r[i] == if log[i].id == messageId then Patch(log[i], patch) else log[i]
  {
    if log == [] then []
    else [if log[0].id == messageId then Patch(log[0], patch) else log[0]]
         + PatchLog(log[1..], messageId, patch)
  }

  /** Every channel's array, each with the update applied. */
  function PatchAll(messages: map<string, seq<Message>>, messageId: string, patch: MessagePatch)
    : map<string, seq<Message>>
  {
    map c | c in messages :: PatchLog(messages[c], messageId, patch)
  }

  /** `Object.keys(newMessages).forEach(channelId => { newMessages[channelId] = ... })`:
      the copied record is rebuilt one channel at a time. */
  method PatchEveryChannel(messages: map<string, seq<Message>>, messageId: string, patch: MessagePatch)
    returns (r: map<string, seq<Message>>)
    ensures r == PatchAll(messages, messageId, patch)
  {
    r := messages;
    var todo := messages.Keys;
    while todo != {}
      invariant todo <= messages.Keys && r.Keys == messages.Keys
      invariant forall c :: c in todo ==> r[c] == messages[c]
      invariant forall c :: c in messages && c !in todo ==> r[c] == PatchLog(messages[c], messageId, patch)
      decreases todo
    {
      var c :| c in todo;
      r := r[c := PatchLog(r[c], messageId, patch)];
      todo := todo - {c};
    }
  }

  /** The update touches exactly the messages with the id: every array keeps
      its length and its ids, a message with another id is unchanged, and
      every message with the id carries the new value whatever it had before
      (a status may go back from `read` to `sent`: nothing is clamped). */
  lemma PatchAllEffect(messages: map<string, seq<Message>>, messageId: string, patch: MessagePatch,
                       c: string, i: nat)
    requires c in messages && i < |messages[c]|
    ensures var r := PatchAll(messages, messageId, patch);
      && r.Keys == messages.Keys && |r[c]| == |messages[c]| && r[c][i].id == messages[c][i].id
      && (messages[c][i].id != messageId ==> r[c][i] == messages[c][i])
      && (messages[c][i].id == messageId && patch.StatusTo? ==>
            r[c][i] == messages[c][i].(status := patch.status) && r[c][i].status == patch.status)
      && (messages[c][i].id == messageId && patch.ReactionsTo? ==>
            r[c][i] == messages[c][i].(reactions := patch.reactions))
  {
  }

  /** Applying the same update twice is applying it once. */
  lemma {:induction false} PatchLogIdempotent(log: seq<Message>, messageId: string, patch: MessagePatch)
    ensures PatchLog(PatchLog(log, messageId, patch), messageId, patch) == PatchLog(log, messageId, patch)
  {
    var once := PatchLog(log, messageId, patch);
    var twice := PatchLog(once, messageId, patch);
    forall i | 0 <= i < |log|
      ensures twice[i] == once[i]
    {
      if log[i].id == messageId {
        match patch
        case StatusTo(_) =>
        case ReactionsTo(_) =>
      }
    }
  }

  lemma PatchAllIdempotent(messages: map<string, seq<Message>>, messageId: string, patch: MessagePatch)
    ensures PatchAll(PatchAll(messages, messageId, patch), messageId, patch) == PatchAll(messages, messageId, patch)
  {
    forall c | c in messages
      ensures PatchLog(PatchLog(messages[c], messageId, patch), messageId, patch)
              == PatchLog(messages[c], messageId, patch)
    {
      PatchLogIdempotent(messages[c], messageId, patch);
    }
  }

  // Message arrays

  /** `state.messages[channelId] || []` and `typingUsers[channelId] || []`:
      a channel's array, or the empty array when the channel has none. */
  function ChannelList<T>(lists: map<string, seq<T>>, channelId: string): (r: seq<T>)
    ensures channelId !in lists ==> r == []
    ensures channelId in lists ==> r == lists[channelId]
  {
    if channelId in lists then lists[channelId] else []
  }

  /** `addMessage` and the append of `onNewMessage`: the message goes last in
      its channel's array, which is created when missing; no other channel's
      array changes and nothing is compared by id. */
  function Append(messages: map<string, seq<Message>>, m: Message): (r: map<string, seq<Message>>)
    ensures r.Keys == messages.Keys + {m.channelId}
    ensures r[m.channelId] == ChannelList(messages, m.channelId) + [m]
    ensures forall c :: c in messages && c != m.channelId ==> r[c] == messages[c]
  {
    messages[m.channelId := ChannelList(messages, m.channelId) + [m]]
  }

  /** Receiving the same message twice stores it twice. */
  lemma AppendTwice(messages: map<string, seq<Message>>, m: Message)
    ensures var r := Append(Append(messages, m), m);
      |r[m.channelId]| == |ChannelList(messages, m.channelId)| + 2
      && r[m.channelId][|r[m.channelId]| - 1] == r[m.channelId][|r[m.channelId]| - 2] == m
  {
  }

  // Channels

  datatype UnreadChange = Increment | Reset

  /** `channels.map(channel => channel.id === channelId ? { ...channel, unreadCount: <change> } : channel)`. */
  function ChangeUnread(channels: seq<Channel>, channelId: string, change: UnreadChange): (r: seq<Channel>)
    ensures |r| == |channels|
    ensures forall i :: 0 <= i < |channels| ==> r[i].(unreadCount := channels[i].unreadCount) == channels[i]
    ensures forall i :: 0 <= i < |channels| ==>
      r[i].unreadCount == (if channels[i].id != channelId then channels[i].unreadCount
                           else if change == Increment then channels[i].unreadCount + 1
                           else 0)
  {
    if channels == [] then []
    else
      var c := channels[0];
      var c' := if c.id != channelId then c
                else c.(unreadCount := if change == Increment then c.unreadCount + 1 else 0);
      [c'] + ChangeUnread(channels[1..], channelId, change)
  }

  // Users

  /** The overwrite a per-id user update makes. */
  datatype UserPatch = StatusOf(status: string) | OfflineAt(lastSeen: int)

  /** `users.map(user => user.id === userId ? { ...user, <patch> } : user)`. */
  function PatchUsers(users: seq<User>, userId: string, patch: UserPatch): (r: seq<User>)
    ensures |r| == |users|
    ensures forall i :: 0 <= i < |users| ==> r[i].id == users[i].id
    ensures forall i :: 0 <= i < |users| ==>
      r[i] == (if users[i].id != userId then users[i]
               else if patch.StatusOf? then users[i].(status := patch.status)
               else users[i].(status := OFFLINE, lastSeen := Some(patch.lastSeen)))
  {
    if users == [] then []
    else
      var u := users[0];
      var u' := if u.id != userId then u
                else if patch.StatusOf? then u.(status := patch.status)
                else u.(status := OFFLINE, lastSeen := Some(patch.lastSeen));
      [u'] + PatchUsers(users[1..], userId, patch)
  }

  function Ids(users: seq<User>): (r: seq<string>)
    ensures |r| == |users| && forall i :: 0 <= i < |users| ==> r[i] == users[i].id
  {
    if users == [] then [] else [users[0].id] + Ids(users[1..])
  }

  /** `users.some(u => u.id === id)`. */
  predicate HasUser(users: seq<User>, id: string)
  {
    exists i :: 0 <= i < |users| && users[i].id == id
  }

  /** `onUserOnline`: a known user only becomes `online`; an unknown one is appended. */
  function UpsertOnline(users: seq<User>, user: User): (r: seq<User>)
    ensures HasUser(users, user.id) ==> r == PatchUsers(users, user.id, StatusOf(ONLINE))
    ensures !HasUser(users, user.id) ==> r == users + [user]
  {
    if HasUser(users, user.id) then PatchUsers(users, user.id, StatusOf(ONLINE)) else users + [user]
  }

  /** The upsert never stores a second user under an id already present: a
      list without repeated ids keeps that property, and the ids present
      afterwards are those before plus the new user's. */
  lemma UpsertOnlineIds(users: seq<User>, user: User)
    ensures var r := UpsertOnline(users, user);
      (NoDuplicates(Ids(users)) ==> NoDuplicates(Ids(r)))
      && (forall id :: HasUser(r, id) <==> HasUser(users, id) || id == user.id)
  {
    var r := UpsertOnline(users, user);
    if !HasUser(users, user.id) {
      assert r[|users|].id == user.id;
      forall id | HasUser(users, id)
        ensures HasUser(r, id)
      {
        var i :| 0 <= i < |users| && users[i].id == id;
        assert r[i].id == id;
      }
    } else {
      forall id | HasUser(users, id) || id == user.id
        ensures HasUser(r, id)
      {
        var i :| 0 <= i < |users| && users[i].id == id;
        assert r[i].id == id;
      }
    }
  }

  // Typing lists

  /** `list.filter(id => id !== userId)`. */
  function Without(list: seq<string>, userId: string): (r: seq<string>)
    ensures |r| <= |list|
    ensures forall x :: x in r <==> x in list && x != userId
    ensures userId !in list ==> r == list
  {
    if list == [] then []
    else if list[0] == userId then Without(list[1..], userId)
    else [list[0]] + Without(list[1..], userId)
  }

  lemma {:induction false} WithoutNoDuplicates(list: seq<string>, userId: string)
    requires NoDuplicates(list)
    ensures NoDuplicates(Without(list, userId))
  {
    if list != [] {
      WithoutNoDuplicates(list[1..], userId);
      assert list[0] !in list[1..];
    }
  }

  /** `setTyping`: the channel's list is created when missing; a typing user is
      pushed only when absent, a stopped one is filtered out everywhere in it. */
  function SetTypingIn(typing: map<string, seq<string>>, channelId: string, userId: string, isTyping: bool)
    : (r: map<string, seq<string>>)
    ensures r.Keys == typing.Keys + {channelId}
    ensures forall c :: c in typing && c != channelId ==> r[c] == typing[c]
    ensures isTyping ==> userId in r[channelId]
    ensures !isTyping ==> userId !in r[channelId]
    ensures forall x :: x != userId ==> (x in r[channelId] <==> x in ChannelList(typing, channelId))
  {
    var list := ChannelList(typing, channelId);
    typing[channelId := if isTyping then (if userId in list then list else list + [userId])
                        else Without(list, userId)]
  }

  /** Every typing list of the store is free of repeats. */
  ghost predicate TypingDistinct(typing: map<string, seq<string>>)
  {
    forall c :: c in typing ==> NoDuplicates(typing[c])
  }

  /** `setTyping` keeps every typing list free of repeats. */
  lemma SetTypingDistinct(typing: map<string, seq<string>>, channelId: string, userId: string, isTyping: bool)
    requires TypingDistinct(typing)
    ensures TypingDistinct(SetTypingIn(typing, channelId, userId, isTyping))
  {
    var list := ChannelList(typing, channelId);
    if !isTyping {
      WithoutNoDuplicates(list, userId);
    }
  }

  /** Starting then stopping leaves the user out of the list, and the other
      users as they were. */
  lemma TypingStartThenStop(typing: map<string, seq<string>>, channelId: string, userId: string)
    requires TypingDistinct(typing)
    ensures var r := SetTypingIn(SetTypingIn(typing, channelId, userId, true), channelId, userId, false);
      && userId !in r[channelId]
      && r[channelId] == Without(ChannelList(typing, channelId), userId)
  {
    var list := ChannelList(typing, channelId);
    if userId !in list {
      WithoutAppended(list, userId);
    }
  }

  lemma {:induction false} WithoutAppended(list: seq<string>, userId: string)
    ensures Without(list + [userId], userId) == Without(list, userId)
  {
    if list != [] {
      assert (list + [userId])[1..] == list[1..] + [userId];
      WithoutAppended(list[1..], userId);
    } else {
      assert Without([userId][1..], userId) == [];
    }
  }

  // The store

  datatype StoreState = StoreState(
    currentUser: Option<User>,
    users: seq<User>,
    channels: seq<Channel>,
    messages: map<string, seq<Message>>,
    activeChannelId: Option<string>,
    searchQuery: string,
    theme: string,
    sidebarCollapsed: bool,
    isConnected: bool,
    typingUsers: map<string, seq<string>>,
    requests: seq<Request>
  )

  function Initial(): (s: StoreState)
    ensures s.currentUser == None && s.users == [] && s.channels == [] && s.messages == map[]
    ensures s.activeChannelId == None && s.searchQuery == "" && s.theme == "light"
    ensures !s.sidebarCollapsed && !s.isConnected && s.typingUsers == map[] && s.requests == []
    ensures TypingDistinct(s.typingUsers)
  {
    StoreState(None, [], [], map[], None, "", "light", false, false, map[], [])
  }

  /** `onChannelsList`: the list is stored, and its first channel becomes
      active exactly when no channel is active and the list is not empty. */
  function AfterChannelsList(s: StoreState, channels: seq<Channel>): (r: StoreState)
    ensures r.(channels := s.channels, activeChannelId := s.activeChannelId) == s
    ensures r.channels == channels
    ensures Truthy(s.activeChannelId) ==> r.activeChannelId == s.activeChannelId
    ensures !Truthy(s.activeChannelId) && channels != [] ==> r.activeChannelId == Some(channels[0].id)
    ensures !Truthy(s.activeChannelId) && channels == [] ==> r.activeChannelId == s.activeChannelId
  {
    var s' := s.(channels := channels);
    if !Truthy(s'.activeChannelId) && |channels| > 0 then s'.(activeChannelId := Some(channels[0].id)) else s'
  }

  /** `onNewMessage`: the message is appended to its channel's array and, when
      that channel is not the active one, the channel's unread count goes up
      by one; nothing else changes. */
  function AfterNewMessage(s: StoreState, m: Message): (r: StoreState)
    ensures r.(messages := s.messages, channels := s.channels) == s
    ensures r.messages == Append(s.messages, m)
    ensures |r.channels| == |s.channels|
    ensures forall i :: 0 <= i < |s.channels| ==>
      r.channels[i].unreadCount == s.channels[i].unreadCount
        + (if s.channels[i].id == m.channelId && s.activeChannelId != Some(m.channelId) then 1 else 0)
    ensures forall i :: 0 <= i < |s.channels| ==>
      r.channels[i].(unreadCount := s.channels[i].unreadCount) == s.channels[i]
  {
    var s' := s.(messages := Append(s.messages, m));
    if Some(m.channelId) != s'.activeChannelId
    then s'.(channels := ChangeUnread(s'.channels, m.channelId, Increment))
    else s'
  }

  /** `onMessagesHistory` replaces the channel's array wholesale: receiving the
      same history twice is receiving it once, and it does not depend on what
      the array held. */
  lemma HistoryIdempotent(messages: map<string, seq<Message>>, channelId: string, log: seq<Message>,
                          log0: seq<Message>)
    ensures messages[channelId := log][channelId := log] == messages[channelId := log]
    ensures messages[channelId := log0][channelId := log] == messages[channelId := log]
  {
  }

  /** `setActiveChannel`: the channel becomes active, its unread count is
      zeroed (and no other), and the server is asked to join it. */
  function AfterSetActiveChannel(s: StoreState, channelId: string): (r: StoreState)
    ensures r.(activeChannelId := s.activeChannelId, channels := s.channels, requests := s.requests) == s
    ensures r.activeChannelId == Some(channelId)
    ensures r.requests == s.requests + [JoinChannel(channelId)]
    ensures |r.channels| == |s.channels|
    ensures forall i :: 0 <= i < |s.channels| ==>
      r.channels[i] == if s.channels[i].id == channelId then s.channels[i].(unreadCount := 0) else s.channels[i]
  {
    s.(activeChannelId := Some(channelId), channels := ChangeUnread(s.channels, channelId, Reset),
       requests := s.requests + [JoinChannel(channelId)])
  }

  /** `sendMessage` and `addReaction`/`removeReaction` need an active channel:
      without one nothing happens, with one exactly one request is sent for it. */
  function WithActiveChannel(s: StoreState, request: string -> Request): (r: StoreState)
    ensures !Truthy(s.activeChannelId) ==> r == s
    ensures Truthy(s.activeChannelId) ==> r == s.(requests := s.requests + [request(s.activeChannelId.value)])
  {
    if !Truthy(s.activeChannelId) then s else s.(requests := s.requests + [request(s.activeChannelId.value)])
  }

  /** `sendMessage(content, type = 'text', fileUrl, fileName)`. */
  function AfterSendMessage(s: StoreState, content: string, kind: Option<string>,
                            fileUrl: Option<string>, fileName: Option<string>): (r: StoreState)
    ensures !Truthy(s.activeChannelId) ==> r == s
    ensures Truthy(s.activeChannelId) ==>
      r == s.(requests := s.requests + [SendMessage(s.activeChannelId.value, content,
                                                    if kind.Some? then kind.value else "text", fileUrl, fileName)])
  {
    var k := if kind.Some? then kind.value else "text";
    WithActiveChannel(s, c => SendMessage(c, content, k, fileUrl, fileName))
  }

  /** `addReaction`, and `removeReaction`, which sends the same toggle. */
  function AfterReaction(s: StoreState, messageId: string, emoji: string): (r: StoreState)
    ensures !Truthy(s.activeChannelId) ==> r == s
    ensures Truthy(s.activeChannelId) ==>
      r == s.(requests := s.requests + [AddReaction(s.activeChannelId.value, messageId, emoji)])
  {
    WithActiveChannel(s, c => AddReaction(c, messageId, emoji))
  }

  /** `setUserStatus`: every user with the id gets the status, and the server is
      told only when the id is the current user's. */
  function AfterSetUserStatus(s: StoreState, userId: string, status: string): (r: StoreState)
    ensures r.(users := s.users, requests := s.requests) == s
    ensures r.users == PatchUsers(s.users, userId, StatusOf(status))
    ensures s.currentUser.Some? && s.currentUser.value.id == userId ==>
      r.requests == s.requests + [SetUserStatus(status)]
    ensures !(s.currentUser.Some? && s.currentUser.value.id == userId) ==> r.requests == s.requests
  {
    var s' := s.(users := PatchUsers(s.users, userId, StatusOf(status)));
    if s'.currentUser.Some? && userId == s'.currentUser.value.id
    then s'.(requests := s'.requests + [SetUserStatus(status)])
    else s'
  }

  class Store {
    var currentUser: Option<User>
    var users: seq<User>
    var channels: seq<Channel>
    var messages: map<string, seq<Message>>
    var activeChannelId: Option<string>
    var searchQuery: string
    var theme: string
    var sidebarCollapsed: bool
    var isConnected: bool
    var typingUsers: map<string, seq<string>>
    /** What was handed to the socket service, in order. */
    var requests: seq<Request>

    function State(): StoreState
      reads this
    {
      StoreState(currentUser, users, channels, messages, activeChannelId, searchQuery, theme,
                 sidebarCollapsed, isConnected, typingUsers, requests)
    }

    ghost predicate Valid()
      reads this
    {
      TypingDistinct(typingUsers)
    }

    constructor ()
      ensures State() == Initial() && Valid()
    {
      currentUser, users, channels, messages := None, [], [], map[];
      activeChannelId, searchQuery, theme := None, "", "light";
      sidebarCollapsed, isConnected, typingUsers, requests := false, false, map[], [];
    }

    // Socket listeners

    method OnUserJoined(user: User)
      requires Valid()
      modifies this
      ensures State() == old(State()).(currentUser := Some(user), isConnected := true)
      ensures Valid()
    {
      currentUser, isConnected := Some(user), true;
    }

    method OnUsersList(list: seq<User>)
      requires Valid()
      modifies this
      ensures State() == old(State()).(users := list)
      ensures Valid()
    {
      users := list;
    }

    method OnChannelsList(list: seq<Channel>)
      requires Valid()
      modifies this
      ensures State() == AfterChannelsList(old(State()), list)
      ensures Valid()
    {
      channels := list;
      if !Truthy(activeChannelId) && |list| > 0 {
        activeChannelId := Some(list[0].id);
      }
    }

    method OnChannelCreated(channel: Channel)
      requires Valid()
      modifies this
      ensures State() == old(State()).(channels := old(channels) + [channel])
      ensures Valid()
    {
      channels := channels + [channel];
    }

    method OnNewMessage(m: Message)
      requires Valid()
      modifies this
      ensures State() == AfterNewMessage(old(State()), m)
      ensures Valid()
    {
      messages := Append(messages, m);
      if Some(m.channelId) != activeChannelId {
        channels := ChangeUnread(channels, m.channelId, Increment);
      }
    }

    method OnMessagesHistory(channelId: string, log: seq<Message>)
      requires Valid()
      modifies this
      ensures State() == old(State()).(messages := old(messages)[channelId := log])
      ensures Valid()
    {
      messages := messages[channelId := log];
    }

    method OnUserOnline(user: User)
      requires Valid()
      modifies this
      ensures State() == old(State()).(users := UpsertOnline(old(users), user))
      ensures Valid()
    {
      users := UpsertOnline(users, user);
    }

    method OnUserOffline(userId: string, lastSeen: int)
      requires Valid()
      modifies this
      ensures State() == old(State()).(users := PatchUsers(old(users), userId, OfflineAt(lastSeen)))
      ensures Valid()
    {
      users := PatchUsers(users, userId, OfflineAt(lastSeen));
    }

    method OnReactionUpdated(messageId: string, reactions: seq<Reaction>)
      requires Valid()
      modifies this
      ensures State() == old(State()).(messages := PatchAll(old(messages), messageId, ReactionsTo(reactions)))
      ensures Valid()
    {
      messages := PatchEveryChannel(messages, messageId, ReactionsTo(reactions));
    }

    // Actions

    method ConnectAsUser(id: Option<string>, username: Option<string>, avatar: Option<string>)
      requires Valid()
      modifies this
      ensures State() == old(State()).(requests := old(requests) + [JoinAsUser(id, username, avatar)])
      ensures Valid()
    {
      requests := requests + [JoinAsUser(id, username, avatar)];
    }

    method DisconnectSocket()
      requires Valid()
      modifies this
      ensures State() == old(State()).(requests := old(requests) + [Disconnect], isConnected := false)
      ensures Valid()
    {
      requests := requests + [Disconnect];
      isConnected := false;
    }

    method SetCurrentUser(user: User)
      requires Valid()
      modifies this
      ensures State() == old(State()).(currentUser := Some(user))
      ensures Valid()
    {
      currentUser := Some(user);
    }

    method SetActiveChannel(channelId: string)
      requires Valid()
      modifies this
      ensures State() == AfterSetActiveChannel(old(State()), channelId)
      ensures Valid()
    {
      activeChannelId := Some(channelId);
      MarkChannelAsRead(channelId);
      requests := requests + [JoinChannel(channelId)];
    }

    method SendMessage(content: string, kind: Option<string>, fileUrl: Option<string>, fileName: Option<string>)
      requires Valid()
      modifies this
      ensures State() == AfterSendMessage(old(State()), content, kind, fileUrl, fileName)
      ensures Valid()
    {
      if !Truthy(activeChannelId) {
        return;
      }
      var k := if kind.Some? then kind.value else "text";
      requests := requests + [Request.SendMessage(activeChannelId.value, content, k, fileUrl, fileName)];
    }

    method AddMessage(m: Message)
      requires Valid()
      modifies this
      ensures State() == old(State()).(messages := Append(old(messages), m))
      ensures Valid()
    {
      messages := Append(messages, m);
    }

    method UpdateMessageStatus(messageId: string, status: string)
      requires Valid()
      modifies this
      ensures State() == old(State()).(messages := PatchAll(old(messages), messageId, StatusTo(status)))
      ensures Valid()
    {
      messages := PatchEveryChannel(messages, messageId, StatusTo(status));
    }

    method AddReaction(messageId: string, emoji: string)
      requires Valid()
      modifies this
      ensures State() == AfterReaction(old(State()), messageId, emoji)
      ensures Valid()
    {
      if !Truthy(activeChannelId) {
        return;
      }
      requests := requests + [Request.AddReaction(activeChannelId.value, messageId, emoji)];
    }

    method RemoveReaction(messageId: string, emoji: string)
      requires Valid()
      modifies this
      ensures State() == AfterReaction(old(State()), messageId, emoji)
      ensures Valid()
    {
      if !Truthy(activeChannelId) {
        return;
      }
      requests := requests + [Request.AddReaction(activeChannelId.value, messageId, emoji)];
    }

    method SetUserStatus(userId: string, status: string)
      requires Valid()
      modifies this
      ensures State() == AfterSetUserStatus(old(State()), userId, status)
      ensures Valid()
    {
      users := PatchUsers(users, userId, StatusOf(status));
      if currentUser.Some? && userId == currentUser.value.id {
        requests := requests + [Request.SetUserStatus(status)];
      }
    }

    method SetTyping(channelId: string, userId: string, isTyping: bool)
      requires Valid()
      modifies this
      ensures State() == old(State()).(typingUsers := SetTypingIn(old(typingUsers), channelId, userId, isTyping))
      ensures Valid()
    {
      SetTypingDistinct(typingUsers, channelId, userId, isTyping);
      var list := ChannelList(typingUsers, channelId);
      if isTyping {
        if userId !in list {
          list := list + [userId];
        }
      } else {
        list := Without(list, userId);
      }
      typingUsers := typingUsers[channelId := list];
    }

    method MarkChannelAsRead(channelId: string)
      requires Valid()
      modifies this
      ensures State() == old(State()).(channels := ChangeUnread(old(channels), channelId, Reset))
      ensures Valid()
    {
      channels := ChangeUnread(channels, channelId, Reset);
    }

    method SetSearchQuery(query: string)
      requires Valid()
      modifies this
      ensures State() == old(State()).(searchQuery := query)
      ensures Valid()
    {
      searchQuery := query;
    }

    method ToggleTheme()
      requires Valid()
      modifies this
      ensures State() == old(State()).(theme := if old(theme) == "light" then "dark" else "light")
      ensures Valid()
    {
      theme := if theme == "light" then "dark" else "light";
    }

    method ToggleSidebar()
      requires Valid()
      modifies this
      ensures State() == old(State()).(sidebarCollapsed := !old(sidebarCollapsed))
      ensures Valid()
    {
      sidebarCollapsed := !sidebarCollapsed;
    }

    method SetConnected(connected: bool)
      requires Valid()
      modifies this
      ensures State() == old(State()).(isConnected := connected)
      ensures Valid()
    {
      isConnected := connected;
    }

    method CreateChannel(name: string, kind: string, members: seq<string>)
      requires Valid()
      modifies this
      ensures State() == old(State()).(requests := old(requests) + [Request.CreateChannel(name, kind, None, members)])
      ensures Valid()
    {
      requests := requests + [Request.CreateChannel(name, kind, None, members)];
    }
  }
}
