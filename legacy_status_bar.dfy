/** The status bar of the earlier client
    (chat-frontend/src/components/StatusBar/StatusBar.jsx): the room name and
    the line saying who is typing. */
module LegacyStatusBar {
  import opened Strings

  /** `#{room}`. */
  function RoomLabel(room: string): (r: string)
    ensures |r| == |room| + 1 && r[0] == '#' && r[1..] == room
  {
    "#" + room
  }

  /** The typing line: nothing when no one types, `<name> is typing...` for
      one name, the names joined by `, ` and `are typing...` for several. */
  function TypingLine(typingUsers: seq<string>): (r: Option<string>)
    ensures r.None? <==> typingUsers == []
    ensures |typingUsers| == 1 ==> r == Some(typingUsers[0] + " is typing...")
    ensures |typingUsers| > 1 ==> r == Some(Join(typingUsers, ", ") + " are typing...")
  {
    if |typingUsers| == 0 then None
    else if |typingUsers| == 1 then Some(typingUsers[0] + " is typing...")
    else Some(Join(typingUsers, ", ") + " are typing...")
  }

  predicate EndsWith(s: string, suffix: string)
  {
    |suffix| <= |s| && s[|s| - |suffix|..] == suffix
  }

  /** Where the `i`-th name stands in the joined list. */
  lemma {:induction false} JoinOccurs(xs: seq<string>, sep: string, i: nat) returns (k: int)
    requires i < |xs|
    ensures OccursAt(Join(xs, sep), xs[i], k)
  {
    if i == 0 {
      k := 0;
      if |xs| > 1 {
        assert Join(xs, sep)[..|xs[0]|] == xs[0];
      }
    } else {
      var k' := JoinOccurs(xs[1..], sep, i - 1);
      var head := xs[0] + sep;
      k := |head| + k';
      assert Join(xs, sep) == head + Join(xs[1..], sep);
      assert Join(xs, sep)[k..k + |xs[i]|] == Join(xs[1..], sep)[k'..k' + |xs[i]|];
    }
  }

  /** Every typing user is named in the line, and the line says "is" for one
      user and "are" for several. */
  lemma TypingLineNamesEveryone(typingUsers: seq<string>, i: nat)
    requires i < |typingUsers|
    ensures Contains(TypingLine(typingUsers).value, typingUsers[i])
    ensures |typingUsers| == 1 ==> EndsWith(TypingLine(typingUsers).value, " is typing...")
    ensures |typingUsers| > 1 ==> EndsWith(TypingLine(typingUsers).value, " are typing...")
  {
    var line := TypingLine(typingUsers).value;
    var k: int;
    if |typingUsers| == 1 {
      k := 0;
      assert line[..|typingUsers[0]|] == typingUsers[0];
    } else {
      var joined := Join(typingUsers, ", ");
      k := JoinOccurs(typingUsers, ", ", i);
      assert line[k..k + |typingUsers[i]|] == joined[k..k + |typingUsers[i]|];
    }
    assert OccursAt(line, typingUsers[i], k);
    ContainsIffOccurs(line, typingUsers[i]);
  }
}
