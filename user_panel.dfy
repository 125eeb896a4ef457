/** The member panel of the active channel (src/components/chat/UserPanel.tsx). */
module UserPanel {
  import opened Strings
  import opened Domain
  import opened Lists
  import ChatArea

  datatype Panel =
    | Placeholder
    | Members(online: seq<User>, offline: seq<User>, separator: bool)

  /** `users.filter(user => activeChannel.members.includes(user.id))`. */
  function ChannelMembers(channel: Channel, users: seq<User>): (r: seq<User>)
    ensures forall u :: u in r <==> u in users && u.id in channel.members
    ensures IsSubsequence(r, users)
  {
    var f := (u: User) => u.id in channel.members;
    FilterSubsequence(users, f);
    Filter(users, f)
  }

  /** The panel: a placeholder when no channel is active, otherwise the
      channel's members split into online and not online, with a separator
      exactly when both parts are non-empty. */
  function PanelOf(channels: seq<Channel>, activeChannelId: Option<string>, users: seq<User>): (r: Panel)
    ensures r.Placeholder? <==> ChatArea.ActiveChannel(channels, activeChannelId).None?
    ensures r.Members? ==> (r.separator <==> r.online != [] && r.offline != [])
    ensures r.Members? ==> (forall u :: u in r.online ==> u.status == ONLINE)
                           && (forall u :: u in r.offline ==> u.status != ONLINE)
  {
    var active := ChatArea.ActiveChannel(channels, activeChannelId);
    if active.None? then Placeholder
    else
      var members := ChannelMembers(active.value, users);
      var online := Filter(members, (u: User) => u.status == ONLINE);
      var offline := Filter(members, (u: User) => u.status != ONLINE);
      Members(online, offline, |offline| > 0 && |online| > 0)
  }

  /** The two lists split the channel's members: together they hold each
      member as often as it occurs, and no user is in both. */
  lemma PanelPartition(channels: seq<Channel>, activeChannelId: Option<string>, users: seq<User>)
    requires ChatArea.ActiveChannel(channels, activeChannelId).Some?
    ensures var p := PanelOf(channels, activeChannelId, users);
      var members := ChannelMembers(ChatArea.ActiveChannel(channels, activeChannelId).value, users);
      && multiset(p.online) + multiset(p.offline) == multiset(members)
      && forall u :: !(u in p.online && u in p.offline)
  {
    var members := ChannelMembers(ChatArea.ActiveChannel(channels, activeChannelId).value, users);
    FilterPartition(members, (u: User) => u.status == ONLINE, (u: User) => u.status != ONLINE);
  }

  /** `getStatusColor` of the member list: the theme's status classes, with
      the offline class for anything but online, away and busy. */
  function StatusColor(status: string): (r: string)
    ensures status == ONLINE <==> r == "bg-status-online"
    ensures status == AWAY <==> r == "bg-status-away"
    ensures status == BUSY <==> r == "bg-status-busy"
    ensures status !in {ONLINE, AWAY, BUSY} <==> r == "bg-status-offline"
  {
    match status
    case "online" => "bg-status-online"
    case "away" => "bg-status-away"
    case "busy" => "bg-status-busy"
    case _ => "bg-status-offline"
  }

  /** `getRoleName`. */
  function RoleName(userId: string): (r: string)
    ensures userId == "1" <==> r == "Owner"
    ensures userId == "2" <==> r == "Admin"
    ensures userId != "1" && userId != "2" <==> r == "Member"
  {
    if userId == "1" then "Owner" else if userId == "2" then "Admin" else "Member"
  }

  datatype RoleIcon = Crown | Shield

  /** `getRoleIcon`: an icon for the owner and the admin only. */
  function RoleIconOf(userId: string): (r: Option<RoleIcon>)
    ensures r.None? <==> RoleName(userId) == "Member"
    ensures r == Some(Crown) <==> RoleName(userId) == "Owner"
  {
    if userId == "1" then Some(Crown) else if userId == "2" then Some(Shield) else None
  }
}
