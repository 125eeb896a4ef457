/** The channel list of the sidebar (src/components/chat/Sidebar.tsx): the
    search filter, the icon and status colour chosen per value, and the
    unread badge. */
module Sidebar {
  import opened Strings
  import opened Domain
  import opened Lists

  /** `channel.name.toLowerCase().includes(searchQuery.toLowerCase())`. */
  predicate Matches(query: string, channel: Channel)
  {
    Contains(Lower(channel.name), Lower(query))
  }

  /** `filteredChannels`. */
  function FilterChannels(channels: seq<Channel>, query: string): (r: seq<Channel>)
    ensures forall c :: c in r <==> c in channels && Matches(query, c)
  {
    Filter(channels, c => Matches(query, c))
  }

  /** The lower-cased query occurs somewhere in the lower-cased name. */
  ghost predicate NameHas(channel: Channel, query: string)
  {
    exists i :: OccursAt(Lower(channel.name), Lower(query), i)
  }

  /** The filter keeps channels in their order, keeps every channel for an
      empty query, and keeps exactly those whose lower-cased name has the
      lower-cased query at some position. */
  lemma FilterChannelsSpec(channels: seq<Channel>, query: string)
    ensures IsSubsequence(FilterChannels(channels, query), channels)
    ensures query == "" ==> FilterChannels(channels, query) == channels
    ensures forall c :: c in FilterChannels(channels, query) <==> c in channels && NameHas(c, query)
  {
    FilterSubsequence(channels, c => Matches(query, c));
    if query == "" {
      forall i | 0 <= i < |channels|
        ensures Matches(query, channels[i])
      {
        ContainsEmpty(Lower(channels[i].name));
      }
    }
    forall c
      ensures Matches(query, c) <==> NameHas(c, query)
    {
      ContainsIffOccurs(Lower(c.name), Lower(query));
    }
  }

  /** Matching ignores the case of ASCII letters, in the query and in the name. */
  lemma MatchesIgnoresCase(query: string, channel: Channel)
    ensures Matches(Lower(query), channel) == Matches(query, channel)
    ensures Matches(query, channel.(name := Lower(channel.name))) == Matches(query, channel)
  {
    LowerIdempotent(query);
    LowerIdempotent(channel.name);
  }

  datatype Icon = MessageCircle | Users | Hash

  /** `getChannelIcon`. */
  function ChannelIcon(kind: string): (r: Icon)
    ensures r == MessageCircle <==> kind == "dm"
    ensures r == Users <==> kind == "private"
    ensures r == Hash <==> kind != "dm" && kind != "private"
  {
    match kind
    case "dm" => MessageCircle
    case "private" => Users
    case _ => Hash
  }

  /** `getStatusColor`: the class of the status dot. */
  function StatusColor(status: string): (r: string)
    ensures status == ONLINE ==> r == "bg-green-500"
    ensures status == AWAY ==> r == "bg-yellow-500"
    ensures status == BUSY ==> r == "bg-red-500"
    ensures status !in {ONLINE, AWAY, BUSY} ==> r == "bg-gray-400"
  {
    match status
    case "online" => "bg-green-500"
    case "away" => "bg-yellow-500"
    case "busy" => "bg-red-500"
    case _ => "bg-gray-400"
  }

  /** The unread badge: none for a count of zero or less, `99+` above 99,
      the count itself otherwise. */
  function Badge(unreadCount: int): (r: Option<string>)
    ensures r.Some? <==> unreadCount > 0
    ensures unreadCount > 99 ==> r == Some("99+")
    ensures 0 < unreadCount <= 99 ==> r == Some(NatToString(unreadCount)) && |r.value| <= 2
  {
    if unreadCount <= 0 then None
    else if unreadCount > 99 then Some("99+")
    else
      NatToStringLength(unreadCount, if unreadCount < 10 then 1 else 2);
      Some(NatToString(unreadCount))
  }
}
