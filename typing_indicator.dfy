/** The "is typing" line under the messages (src/components/chat/TypingIndicator.tsx). */
module TypingIndicator {
  import opened Strings
  import opened Domain
  import opened Lists

  /** `users.filter(user => userIds.includes(user.id) && user.id !== currentUserId)`. */
  function Typers(userIds: seq<string>, users: seq<User>, currentUserId: Option<string>): (r: seq<User>)
    ensures forall u :: u in r <==> u in users && u.id in userIds && Some(u.id) != currentUserId
    ensures IsSubsequence(r, users)
  {
    var f := (u: User) => u.id in userIds && Some(u.id) != currentUserId;
    FilterSubsequence(users, f);
    Filter(users, f)
  }

  /** `getTypingText`, for a non-empty list of typers. */
  function TypingText(typers: seq<User>): (r: string)
    requires typers != []
    ensures |typers| == 1 ==> r == typers[0].username + " is typing..."
    ensures |typers| == 2 ==> r == typers[0].username + " and " + typers[1].username + " are typing..."
    ensures |typers| >= 3 ==> r == typers[0].username + " and " + NatToString(|typers| - 1) + " others are typing..."
  {
    if |typers| == 1 then typers[0].username + " is typing..."
    else if |typers| == 2 then typers[0].username + " and " + typers[1].username + " are typing..."
    else typers[0].username + " and " + NatToString(|typers| - 1) + " others are typing..."
  }

  /** The text always starts with the first typer's name, and for three or
      more the number it gives reads back as the count of the others. */
  lemma TypingTextNames(typers: seq<User>)
    requires typers != []
    ensures StartsWith(TypingText(typers), typers[0].username)
    ensures |typers| >= 3 ==>
      var n := NatToString(|typers| - 1);
      TypingText(typers)[|typers[0].username| + 5..|typers[0].username| + 5 + |n|] == n
      && ParseNat(n) + 1 == |typers|
  {
    var t := TypingText(typers);
    var name := typers[0].username;
    assert t[..|name|] == name;
    if |typers| >= 3 {
      ParseNatToString(|typers| - 1);
    }
  }

  datatype Indicator = Indicator(text: string, avatars: seq<User>)

  /** The component: nothing when no one else is typing, otherwise the text
      and at most three avatars, the first typers'. */
  function IndicatorOf(userIds: seq<string>, users: seq<User>, currentUserId: Option<string>): (r: Option<Indicator>)
    ensures r.None? <==> Typers(userIds, users, currentUserId) == []
    ensures r.Some? ==> |r.value.avatars| <= 3 && r.value.avatars <= Typers(userIds, users, currentUserId)
    ensures r.Some? ==> |r.value.avatars| == 3 || r.value.avatars == Typers(userIds, users, currentUserId)
  {
    var typers := Typers(userIds, users, currentUserId);
    if |typers| == 0 then None else Some(Indicator(TypingText(typers), Take(typers, 3)))
  }
}
