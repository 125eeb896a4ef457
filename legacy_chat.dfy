/** The chat container of the earlier client
    (chat-frontend/src/components/ChatContainer/ChatContainer.jsx): the
    message log and typing list it keeps, and what it sends to the server.
    The socket is the `connected` flag; what is emitted is returned. */
module LegacyChat {
  import opened Strings
  import opened Domain
  import opened LegacyMessage

  /** The events the container sends. */
  datatype Emit =
    | JoinRoom(room: string)
    | SendMessage(message: LegacyMessage)
    | Typing(room: string, username: string)
    | StopTyping(room: string, username: string)

  /** The `typing` listener's update: a name is added once, at the end. */
  function AddTyper(typingUsers: seq<string>, username: string): (r: seq<string>)
    ensures username in typingUsers ==> r == typingUsers
    ensures username !in typingUsers ==> r == typingUsers + [username]
  {
    if username in typingUsers then typingUsers else typingUsers + [username]
  }

  /** Adding a typer keeps the list free of repeats, has the name in it
      afterwards, and a second notice for the same name changes nothing. */
  lemma AddTyperProperties(typingUsers: seq<string>, username: string)
    ensures NoDuplicates(typingUsers) ==> NoDuplicates(AddTyper(typingUsers, username))
    ensures username in AddTyper(typingUsers, username)
    ensures forall u :: u in AddTyper(typingUsers, username) <==> u in typingUsers || u == username
    ensures AddTyper(AddTyper(typingUsers, username), username) == AddTyper(typingUsers, username)
  {
  }

  /** A run of `typing` notices from the empty list: each name listed once,
      in order of first notice. */
  function Notices(usernames: seq<string>): seq<string>
  {
    if usernames == [] then [] else AddTyper(Notices(usernames[..|usernames| - 1]), usernames[|usernames| - 1])
  }

  lemma {:induction false} NoticesDistinct(usernames: seq<string>)
    ensures NoDuplicates(Notices(usernames))
    ensures forall u :: u in Notices(usernames) <==> u in usernames
  {
    if usernames != [] {
      var init := usernames[..|usernames| - 1];
      NoticesDistinct(init);
      AddTyperProperties(Notices(init), usernames[|usernames| - 1]);
      assert usernames == init + [usernames[|usernames| - 1]];
    }
  }

  /** `sendMessage` sends only text that is not blank, and only over an open socket. */
  predicate WillSend(message: string, connected: bool)
  {
    Trim(message) != "" && connected
  }

  lemma WillSendIff(message: string, connected: bool)
    ensures WillSend(message, connected) <==> connected && exists i :: 0 <= i < |message| && !IsSpace(message[i])
  {
    TrimEmptyIffAllSpace(message);
  }

  class ChatContainer {
    const room: string
    const username: string
    var connected: bool
    var messages: seq<LegacyMessage>
    var typingUsers: seq<string>

    /** The first render: no socket yet, nothing received. */
    constructor (room: string, username: string)
      ensures this.room == room && this.username == username
      ensures !connected && messages == [] && typingUsers == []
    {
      this.room, this.username := room, username;
      connected, messages, typingUsers := false, [], [];
    }

    /** The mount effect: open the socket and join the room. */
    method Mount() returns (e: Emit)
      modifies this
      ensures connected && e == JoinRoom(room)
      ensures messages == old(messages) && typingUsers == old(typingUsers)
    {
      connected := true;
      e := JoinRoom(room);
    }

    /** `receive_message`: appended as received, repeats included. */
    method ReceiveMessage(m: LegacyMessage)
      modifies this
      ensures messages == old(messages) + [m]
      ensures typingUsers == old(typingUsers) && connected == old(connected)
    {
      messages := messages + [m];
    }

    /** `typing`. */
    method OnTyping(name: string)
      modifies this
      ensures typingUsers == AddTyper(old(typingUsers), name)
      ensures messages == old(messages) && connected == old(connected)
    {
      if name !in typingUsers {
        typingUsers := typingUsers + [name];
      }
    }

    /** `stop_typing`: the server's list replaces the local one. */
    method OnStopTyping(names: seq<string>)
      modifies this
      ensures typingUsers == names
      ensures messages == old(messages) && connected == old(connected)
    {
      typingUsers := names;
    }

    /** `sendMessage`, with the formatted local time as `time`: a message that
        is sent is also shown at once, without waiting for the server. */
    method Send(message: string, time: string) returns (e: Option<Emit>)
      modifies this
      ensures e.Some? <==> WillSend(message, connected)
      ensures e.Some? ==>
        && e.value == SendMessage(LegacyMessage(room, username, message, time, None, "", ""))
        && messages == old(messages) + [e.value.message]
      ensures e.None? ==> messages == old(messages)
      ensures typingUsers == old(typingUsers) && connected == old(connected)
    {
      if Trim(message) != "" && connected {
        var data := LegacyMessage(room, username, message, time, None, "", "");
        messages := messages + [data];
        e := Some(SendMessage(data));
      } else {
        e := None;
      }
    }

    /** `handleTyping`: tells the server this user started or stopped typing. */
    method HandleTyping(isTyping: bool) returns (e: Option<Emit>)
      ensures e.None? <==> !connected
      ensures e.Some? ==> e.value == (if isTyping then Typing(room, username) else StopTyping(room, username))
    {
      if !connected {
        return None;
      }
      e := Some(if isTyping then Typing(room, username) else StopTyping(room, username));
    }
  }
}
