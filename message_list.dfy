/** The message list of a channel (src/components/chat/MessageList.tsx): the
    avatar grouping of consecutive messages, the per-emoji reaction counts
    with the current user's highlight, and the delivery status icon. */
module MessageList {
  import opened Strings
  import opened Domain
  import opened JsMap
  import ChatServer

  /** Five minutes, in milliseconds. */
  const GROUP_GAP: int := 300000

  // Grouping

  /** `showAvatar` of the message at `index`: the first message, a change of
      sender, or more than five minutes since the previous message. */
  predicate ShowAvatar(log: seq<Message>, index: nat)
    requires index < |log|
  {
    index == 0 || log[index - 1].senderId != log[index].senderId
    || log[index].timestamp - log[index - 1].timestamp > GROUP_GAP
  }

  /** `isConsecutive`: same sender as the previous message, less than five minutes later. */
  predicate IsConsecutive(log: seq<Message>, index: nat)
    requires index < |log|
  {
    index > 0 && log[index - 1].senderId == log[index].senderId
    && log[index].timestamp - log[index - 1].timestamp < GROUP_GAP
  }

  datatype ItemLayout = ItemLayout(message: Message, showAvatar: bool, isConsecutive: bool)

  /** `messages.map((message, index) => <MessageItem ... />)`. */
  function Layout(log: seq<Message>): (r: seq<ItemLayout>)
    ensures |r| == |log|
    ensures forall i :: 0 <= i < |log| ==> r[i].message == log[i]
    ensures log != [] ==> r[0].showAvatar && !r[0].isConsecutive
  {
    seq(|log|, i requires 0 <= i < |log| => ItemLayout(log[i], ShowAvatar(log, i), IsConsecutive(log, i)))
  }

  /** A message either opens a group (avatar shown) or continues one, never
      both; it continues one exactly when it has the previous message's sender
      and is less than five minutes later. At a gap of exactly five minutes
      from the same sender it does neither. */
  lemma LayoutGroups(log: seq<Message>, i: nat)
    requires 0 < i < |log|
    ensures var item := Layout(log)[i];
      && !(item.showAvatar && item.isConsecutive)
      && (item.showAvatar <==> log[i - 1].senderId != log[i].senderId
                               || log[i].timestamp - log[i - 1].timestamp > GROUP_GAP)
      && (item.isConsecutive <==> log[i - 1].senderId == log[i].senderId
                                  && log[i].timestamp - log[i - 1].timestamp < GROUP_GAP)
      && (log[i - 1].senderId == log[i].senderId && log[i].timestamp - log[i - 1].timestamp == GROUP_GAP
          ==> !item.showAvatar && !item.isConsecutive)
  {
  }

  // Reactions

  /** How many reactions carry the emoji. */
  function Count(rs: seq<Reaction>, emoji: string): nat
  {
    if rs == [] then 0
    else Count(rs[..|rs| - 1], emoji) + (if rs[|rs| - 1].emoji == emoji then 1 else 0)
  }

  /** An emoji is counted exactly when some reaction carries it. */
  lemma {:induction false} CountPositive(rs: seq<Reaction>, emoji: string)
    ensures Count(rs, emoji) > 0 <==> exists i :: 0 <= i < |rs| && rs[i].emoji == emoji
  {
    if rs != [] {
      var init := rs[..|rs| - 1];
      CountPositive(init, emoji);
      if Count(init, emoji) > 0 {
        var i :| 0 <= i < |init| && init[i].emoji == emoji;
        assert rs[i].emoji == emoji;
      }
      if exists i :: 0 <= i < |rs| && rs[i].emoji == emoji {
        var i :| 0 <= i < |rs| && rs[i].emoji == emoji;
        if i < |init| {
          assert init[i].emoji == emoji;
        }
      }
    }
  }

  /** `reactions.reduce((acc, r) => { acc[r.emoji] = (acc[r.emoji] || 0) + 1; return acc }, {})`:
      the emojis in order of first use, each with its number of reactions. */
  function Tally(rs: seq<Reaction>): (r: OrderedMap<string, nat>)
    ensures r.Valid()
    ensures forall e :: e in r.entries <==> Count(rs, e) > 0
    ensures forall e :: e in r.entries ==> r.entries[e] == Count(rs, e)
  {
    if rs == [] then Empty()
    else
      var acc := Tally(rs[..|rs| - 1]);
      var e := rs[|rs| - 1].emoji;
      acc.Set(e, (if e in acc.entries then acc.entries[e] else 0) + 1)
  }

  /** The sum of the counts stored under `keys`. */
  function Total(keys: seq<string>, counts: map<string, nat>): nat
    requires forall k :: k in keys ==> k in counts
  {
    if keys == [] then 0 else Total(keys[..|keys| - 1], counts) + counts[keys[|keys| - 1]]
  }

  lemma {:induction false} TotalUnrelated(keys: seq<string>, counts: map<string, nat>, k: string, v: nat)
    requires forall x :: x in keys ==> x in counts
    requires k !in keys
    ensures Total(keys, counts[k := v]) == Total(keys, counts)
  {
    if keys != [] {
      TotalUnrelated(keys[..|keys| - 1], counts, k, v);
    }
  }

  lemma {:induction false} TotalBump(keys: seq<string>, counts: map<string, nat>, k: string)
    requires forall x :: x in keys ==> x in counts
    requires forall i, j :: 0 <= i < j < |keys| ==> keys[i] != keys[j]
    requires k in keys
    ensures Total(keys, counts[k := counts[k] + 1]) == Total(keys, counts) + 1
  {
    var init := keys[..|keys| - 1];
    if keys[|keys| - 1] == k {
      assert k !in init;
      TotalUnrelated(init, counts, k, counts[k] + 1);
    } else {
      TotalBump(init, counts, k);
    }
  }

  /** The per-emoji counts add up to the number of reactions. */
  lemma {:induction false} TallySum(rs: seq<Reaction>)
    ensures Total(Tally(rs).keys, Tally(rs).entries) == |rs|
  {
    if rs != [] {
      var acc := Tally(rs[..|rs| - 1]);
      TallySum(rs[..|rs| - 1]);
      var e := rs[|rs| - 1].emoji;
      if e in acc.entries {
        TotalBump(acc.keys, acc.entries, e);
      } else {
        TotalUnrelated(acc.keys, acc.entries, e, 1);
        assert (acc.keys + [e])[..|acc.keys|] == acc.keys;
      }
    }
  }

  /** `message.reactions?.some(r => r.emoji === emoji && r.userId === currentUser?.id)`. */
  predicate HasReacted(rs: seq<Reaction>, emoji: string, currentUserId: Option<string>)
  {
    exists i :: 0 <= i < |rs| && rs[i].emoji == emoji && Some(rs[i].userId) == currentUserId
  }

  /** The highlight is the server's (emoji, user) pair test; without a current
      user nothing is highlighted. */
  lemma HasReactedIsPair(rs: seq<Reaction>, emoji: string, currentUserId: Option<string>)
    ensures HasReacted(rs, emoji, currentUserId) <==>
      currentUserId.Some? && ChatServer.HasPair(rs, emoji, currentUserId.value)
  {
    if HasReacted(rs, emoji, currentUserId) {
      var i :| 0 <= i < |rs| && rs[i].emoji == emoji && Some(rs[i].userId) == currentUserId;
      assert ChatServer.IsPair(rs[i], emoji, currentUserId.value);
    }
  }

  /** Clicking a chip sends the server's toggle; once the server's new list
      arrives, the chip's highlight has flipped. */
  lemma ToggleFlipsHighlight(rs: seq<Reaction>, emoji: string, user: User)
    ensures HasReacted(ChatServer.ToggleReaction(rs, emoji, user), emoji, Some(user.id))
            == !HasReacted(rs, emoji, Some(user.id))
  {
    HasReactedIsPair(rs, emoji, Some(user.id));
    HasReactedIsPair(ChatServer.ToggleReaction(rs, emoji, user), emoji, Some(user.id));
  }

  datatype Chip = Chip(emoji: string, count: nat, highlighted: bool)

  /** The reaction chips under a message, one per emoji in order of first use;
      none when the message has no reactions. */
  function Chips(rs: seq<Reaction>, currentUserId: Option<string>): (r: seq<Chip>)
    ensures |r| == |Tally(rs).keys|
    ensures forall i :: 0 <= i < |r| ==>
      && r[i].count == Count(rs, r[i].emoji) && r[i].count > 0
      && r[i].highlighted == HasReacted(rs, r[i].emoji, currentUserId)
    ensures forall i, j :: 0 <= i < j < |r| ==> r[i].emoji != r[j].emoji
  {
    var t := Tally(rs);
    seq(|t.keys|, i requires 0 <= i < |t.keys| =>
        Chip(t.keys[i], t.entries[t.keys[i]], HasReacted(rs, t.keys[i], currentUserId)))
  }

  /** Every emoji used by a reaction has a chip. */
  lemma ChipsCover(rs: seq<Reaction>, currentUserId: Option<string>, j: nat)
    requires j < |rs|
    ensures exists i :: 0 <= i < |Chips(rs, currentUserId)| && Chips(rs, currentUserId)[i].emoji == rs[j].emoji
  {
    CountPositive(rs, rs[j].emoji);
    var t := Tally(rs);
    var i :| 0 <= i < |t.keys| && t.keys[i] == rs[j].emoji;
    assert Chips(rs, currentUserId)[i].emoji == rs[j].emoji;
  }

  // Status

  datatype StatusIcon = Clock | Check | CheckCheck | CheckCheckPrimary | AlertCircle

  /** `getStatusIcon`: one icon per delivery status, an error icon for anything else. */
  function StatusIconOf(status: string): (r: StatusIcon)
    ensures status == SENDING <==> r == Clock
    ensures status == SENT <==> r == Check
    ensures status == DELIVERED <==> r == CheckCheck
    ensures status == READ <==> r == CheckCheckPrimary
  {
    match status
    case "sending" => Clock
    case "sent" => Check
    case "delivered" => CheckCheck
    case "read" => CheckCheckPrimary
    case _ => AlertCircle
  }
}
