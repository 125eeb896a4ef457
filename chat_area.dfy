/** The main pane (src/components/chat/ChatArea.tsx): the active channel,
    its messages and typing users read from the store with empty defaults,
    the online-member count in the header, and the welcome screen when no
    channel is active. */
module ChatArea {
  import opened Strings
  import opened Domain
  import opened Lists
  import ChatStore
  import TypingIndicator
  import Sidebar

  /** `channels.find(c => c.id === activeChannelId)`. */
  function ActiveChannel(channels: seq<Channel>, activeChannelId: Option<string>): (r: Option<Channel>)
    ensures r.None? <==> forall i :: 0 <= i < |channels| ==> Some(channels[i].id) != activeChannelId
    ensures r.Some? ==> r.value in channels && Some(r.value.id) == activeChannelId
  {
    Find(channels, (c: Channel) => Some(c.id) == activeChannelId)
  }

  /** `activeChannelId || ''`: the key the store's records are read under. */
  function Key(activeChannelId: Option<string>): string
  {
    if activeChannelId.Some? then activeChannelId.value else ""
  }

  /** `getOnlineMembers`: the users who are members of the active channel and
      online, in user-list order; none without an active channel. */
  function OnlineMembers(channel: Option<Channel>, users: seq<User>): (r: seq<User>)
    ensures channel.None? ==> r == []
    ensures channel.Some? ==> forall u :: u in r <==> u in users && u.id in channel.value.members && u.status == ONLINE
    ensures IsSubsequence(r, users)
  {
    if channel.None? then []
    else
      var f := (u: User) => u.id in channel.value.members && u.status == ONLINE;
      FilterSubsequence(users, f);
      Filter(users, f)
  }

  /** `{n} member{n !== 1 ? 's' : ''} online`, shown only for a positive count. */
  function MemberLabel(n: nat): (r: Option<string>)
    ensures r.None? <==> n == 0
    ensures n == 1 ==> r == Some("1 member online")
    ensures n > 1 ==> r == Some(NatToString(n) + " members online")
  {
    if n == 0 then None
    else
      var text := NatToString(n) + " member" + (if n != 1 then "s" else "") + " online";
      assert n == 1 ==> text == "1" + " member" + "" + " online" == "1 member online";
      assert n > 1 ==> text == NatToString(n) + " members online";
      Some(text)
  }

  datatype View =
    | Welcome
    | Conversation(channel: Channel, icon: Sidebar.Icon, messages: seq<Message>,
                   typing: Option<TypingIndicator.Indicator>, onlineLabel: Option<string>)

  /** What the pane shows for a state of the store. */
  function ViewOf(s: ChatStore.StoreState): (r: View)
    ensures r.Welcome? <==> ActiveChannel(s.channels, s.activeChannelId).None?
    ensures r.Conversation? ==> r.channel in s.channels && Some(r.channel.id) == s.activeChannelId
    ensures r.Conversation? ==> r.icon == Sidebar.ChannelIcon(r.channel.kind)
    ensures r.Conversation? ==> r.messages == ChatStore.ChannelList(s.messages, Key(s.activeChannelId))
    ensures r.Conversation? && ChatStore.ChannelList(s.typingUsers, Key(s.activeChannelId)) == [] ==> r.typing.None?
  {
    var active := ActiveChannel(s.channels, s.activeChannelId);
    if active.None? then Welcome
    else
      var typingIds := ChatStore.ChannelList(s.typingUsers, Key(s.activeChannelId));
      var currentUserId := if s.currentUser.Some? then Some(s.currentUser.value.id) else None;
      Conversation(active.value, Sidebar.ChannelIcon(active.value.kind), ChatStore.ChannelList(s.messages, Key(s.activeChannelId)),
                   if |typingIds| > 0 then TypingIndicator.IndicatorOf(typingIds, s.users, currentUserId) else None,
                   MemberLabel(|OnlineMembers(active, s.users)|))
  }
}
