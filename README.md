# Chat application core, modelled in Dafny

This project models the core of a real-time chat application in Dafny and proves properties of the model. The application has three parts:

- **Socket.IO server.** It keeps users, channels, per-channel message logs and per-channel typing sets in memory, and answers each socket event: join, send, typing, reactions, status, channel creation, channel join, disconnect.
- **Client store.** It mirrors that state in the browser and turns the server's events and the user's actions into state updates.
- **React components.** These render the store (sidebar, message list, chat area, typing indicator, member panel) and run the sign-up, email verification and password reset flow. The earlier client under `chat-frontend/` is modelled too.

The stored user record of the server (`server/models/User.js`) is modelled as well: its field rules, defaults, password hashing on save and the six-digit codes.

## Modules

- **`ChatServer`** (`chat_server.dfy`) covers `server/server.js`.
  - Each JavaScript `Map` is an `OrderedMap` (`domain.dfy`). It keeps insertion order, because the server iterates over its Maps.
  - The whole server is a `ServerState` value with an invariant `Inv`.
  - Each handler has a state-to-state function (`AfterJoin`, `AfterSend`, …) and a method of class `Server` proved to apply it. The handlers' `forEach` loops are methods with loop invariants.
  - What a handler emits is appended to `outbox` with its audience.
  - The 100 ms "delivered" timer is a FIFO queue `pending`, consumed by `Server.Deliver`.
- **`ChatStore`** (`chat_store.dfy`) covers `src/stores/chatStore.ts`.
  - Class `Store` holds the store's fields. Each socket listener and each action is a method, proved against a reducer on `StoreState`.
  - Calls into the socket service are appended to `requests`.
- **Chat components** (`src/components/chat/`):
  - `Sidebar`, `MessageList`, `ChatArea`, `TypingIndicator` and `UserPanel` are pure functions from store values to what is shown.
- **Auth components** (`src/components/auth/`):
  - `RegisterForm` and `ResetPasswordForm` are pure validation and submission functions.
  - `EmailVerificationForm` is a class with the countdown state.
  - `AuthContainer` is a state machine over the five views, plus a class running it.
- **`UserModel`** covers `server/models/User.js`: a class with the token methods and the pre-save hook, plus the validation rules.
- **Earlier client** (`chat-frontend/`):
  - `LegacyChat` models the chat container as a class.
  - `LegacyMessage` models the bubble and the file icons.
  - `LegacyStatusBar` models the status bar.
- **Shared helpers:**
  - `Strings` models JavaScript's `trim`, `includes`, `startsWith`, `toLowerCase` and `String(n)`.
  - `Lists` models `filter`, `find` and `slice`.
  - `Domain` holds the records the server and client share.

Two behaviours of the store worth knowing:

- The store does not drop a message whose id it already holds (`ChatStore.AppendTwice`).
- The store does not refuse a status update that would move a message's status backwards (`ChatStore.PatchAllEffect`).

## Model

| member | source | states |
|---|---|---|
| ChatServer.AddMember | server/server.js:70-73 | the id ends up in the members, earlier members keep their order, nothing changes when the id is already there, and a repeat-free list stays repeat-free |
| ChatServer.AddToChannel | server/server.js:69-73 | only the named channel's members change, by `AddMember`; keys and every other channel stay |
| ChatServer.AddToChannels | server/server.js:67-74 | joining a list of channels keeps the Map's keys and leaves channels not in the list unchanged |
| ChatServer.AddToChannelsMembers | server/server.js:67-74 | after joining, the user is in each joined channel, each channel's earlier members are a prefix of its new members, and a repeat-free member list stays so |
| ChatServer.AddToChannelsWhenMember | server/server.js:70 | joining channels that already list the user leaves the Map unchanged |
| ChatServer.AddToChannelsIdempotent | server/server.js:67-74 | joining the same channels twice equals joining once |
| ChatServer.JoinDefaults | server/server.js:67-74 | joining General then Random keeps the Map well formed and its keys |
| ChatServer.JoinDefaultsIsAddToChannels | server/server.js:26-43 | the default join is the join of the default channel ids, in order |
| ChatServer.JoinDefaultsMembers | server/server.js:67-74 | after the default join the user is in General and Random, both keep their earlier members, other channels are unchanged, and joining again changes nothing |
| ChatServer.LogOf | server/server.js:114 | a channel's log, or the empty log for a channel with none |
| ChatServer.FindMessage | server/server.js:172 | `findIndex`: the first message with the id, or none when no message has it |
| ChatServer.RemovePairFilters | server/server.js:188-190 | the filter drops exactly the reactions of that emoji and user, keeps the rest, and returns a list without such a reaction unchanged |
| ChatServer.RemovePairUnique | server/server.js:188-190 | filtering keeps the reactions free of repeated (emoji, user) pairs |
| ChatServer.RemovePairSet | server/server.js:188-190 | removal takes exactly that (emoji, user) pair out of the set of pairs present |
| ChatServer.ToggleReaction | server/server.js:176-191 | the user's reaction with the emoji is present afterwards iff it was absent before; other reactions are untouched |
| ChatServer.ToggleKeepsPairsUnique | server/server.js:176-191 | toggling keeps the reactions free of repeated (emoji, user) pairs |
| ChatServer.ToggleTwice | server/server.js:176-191 | toggling twice restores the set of pairs, and restores the list itself when the pair was absent |
| ChatServer.RemovePairAppended | server/server.js:181-190 | removing a reaction just appended gives back the earlier list |
| ChatServer.TypingSetOf | server/server.js:138 | a channel's typing set, or the empty set |
| ChatServer.ClearTyping | server/server.js:287-297 | clearing typing sets keeps the Map's keys and well-formedness |
| ChatServer.ClearTypingEffect | server/server.js:287-297 | each visited set loses exactly the user; sets not yet visited are unchanged |
| ChatServer.TypingStopNotices | server/server.js:287-297 | at most one stop notice per visited channel, each saying the user stopped typing |
| ChatServer.TypingStopNoticeFor | server/server.js:288-295 | a stop notice goes to a visited channel iff the user was in its typing set |
| ChatServer.TypingStopNoticeAbsent | server/server.js:287-297 | no stop notice names a channel that was not visited |
| ChatServer.HistoryNotices | server/server.js:84-87 | one history notice per channel |
| ChatServer.HistoryNoticesContent | server/server.js:84-87 | the i-th notice carries the i-th channel's log, or the empty log |
| ChatServer.FindUser | server/server.js:240 | the user found has the id; none is found iff no user has it |
| ChatServer.CreatedNotices | server/server.js:247-252 | at most one `channel:created` notice per listed member |
| ChatServer.CreatedNoticesTo | server/server.js:247-252 | every notice carries the channel to the socket of a user who is a listed member |
| ChatServer.JoinChannels | server/server.js:67-74 | the `forEach` loop computes `AddToChannels` |
| ChatServer.CollectHistory | server/server.js:84-87 | the `forEach` loop computes `HistoryNotices` |
| ChatServer.NotifyMembers | server/server.js:247-252 | the `forEach` loop computes `CreatedNotices` |
| ChatServer.ClearTypingOf | server/server.js:287-297 | the `forEach` loop computes the cleared Map and the stop notices, in key order |
| ChatServer.JoinNotices | server/server.js:77-90 | a join sends four notices plus one history per channel |
| ChatServer.DeliveriesKept | server/server.js:122-128 | replacing a log by one that keeps the earlier ids keeps every pending timer pointing at its message |
| ChatServer.Initial | server/server.js:20-48 | start-up state: General and Random, in that order, with empty logs; no users, typing sets, sessions, timers or output |
| ChatServer.SessionUser | server/server.js:97-98 | `users.get(socket.userId)` gives the user the connection joined as, stored under that id, or nothing |
| ChatServer.AfterJoin | server/server.js:54-93 | `user:join` keeps the server invariant, with at most one reaction per (emoji, user) on every message, and every log keeps the ids of the messages it held (`LogsGrow`) |
| ChatServer.JoinStep | server/server.js:54-93 | the handler with its loops computes `AfterJoin` |
| ChatServer.AfterSend | server/server.js:96-131 | `message:send` keeps the server invariant, with at most one reaction per (emoji, user) on every message, and every log keeps the ids of the messages it held (`LogsGrow`) |
| ChatServer.AfterDeliver | server/server.js:122-128 | the timer firing keeps the server invariant, with at most one reaction per (emoji, user) on every message, and every log keeps the ids of the messages it held (`LogsGrow`) |
| ChatServer.AfterTypingStart | server/server.js:134-148 | `typing:start` keeps the server invariant, with at most one reaction per (emoji, user) on every message, and every log keeps the ids of the messages it held (`LogsGrow`) |
| ChatServer.AfterTypingStop | server/server.js:150-164 | `typing:stop` keeps the server invariant, with at most one reaction per (emoji, user) on every message, and every log keeps the ids of the messages it held (`LogsGrow`) |
| ChatServer.AfterReactionAdd | server/server.js:167-201 | `reaction:add` keeps the server invariant, with at most one reaction per (emoji, user) on every message, and every log keeps the ids of the messages it held (`LogsGrow`) |
| ChatServer.AfterSetStatus | server/server.js:204-216 | `user:status` keeps the server invariant, with at most one reaction per (emoji, user) on every message, and every log keeps the ids of the messages it held (`LogsGrow`) |
| ChatServer.AfterCreateChannel | server/server.js:219-255 | `channel:create` keeps the server invariant, with at most one reaction per (emoji, user) on every message, and every log keeps the ids of the messages it held (`LogsGrow`) |
| ChatServer.AfterJoinChannel | server/server.js:258-276 | `channel:join` keeps the server invariant, with at most one reaction per (emoji, user) on every message, and every log keeps the ids of the messages it held (`LogsGrow`) |
| ChatServer.AfterDisconnect | server/server.js:279-307 | `disconnect` keeps the server invariant, with at most one reaction per (emoji, user) on every message, and every log keeps the ids of the messages it held (`LogsGrow`) |
| ChatServer.JoinEffect | server/server.js:54-93 | after a join the connection is bound to an online user with the given or fresh id, who is in both default channels; logs, typing sets and timers are unchanged; the caller first hears about itself and everyone else last hears it is online |
| ChatServer.RejoinKeepsChannels | server/server.js:56-74 | joining again under the same id leaves the channels as the first join left them |
| ChatServer.SendEffect | server/server.js:96-131 | from a connection that has not joined nothing changes; otherwise the channel's log gains exactly the new `sent` message with no reactions, other logs stay, and its timer is queued last |
| ChatServer.DeliverEffect | server/server.js:122-128 | the oldest timer marks exactly its message `delivered`, drops its own entry and emits one status event to the room; users, channels, typing sets, sessions and every other message stay |
| ChatServer.SendThenDeliver | server/server.js:113-128 | a send followed by its timer leaves the message delivered at the end of its log, announced and then marked |
| ChatServer.TypingStartThenStop | server/server.js:134-164 | start puts the caller in the channel's typing set; a following stop leaves the set as before without the caller |
| ChatServer.FindMessageSameIds | server/server.js:172 | logs with the same ids find the same message |
| ChatServer.ReactionTwice | server/server.js:167-201 | the same reaction sent twice restores the message's set of pairs, and its whole log when the caller had not reacted |
| ChatServer.TypingStartEffect | server/server.js:134-148 | without a session nothing changes; otherwise the channel's typing set gains the caller, no other set or field changes, and one notice goes to the room but the caller |
| ChatServer.TypingStopEffect | server/server.js:150-164 | without a session nothing changes; otherwise the caller leaves the channel's typing set, no other set or field changes, and one notice goes to the room but the caller |
| ChatServer.ReactionEffect | server/server.js:167-201 | without a session or without the message nothing changes; otherwise only that message's reactions change, to the toggled list the room is sent |
| ChatServer.JoinChannelEffect | server/server.js:258-276 | without a session or for an unknown channel nothing changes; otherwise the caller is a member, earlier members stay in order, other channels stay, and the caller is sent the channel's whole log |
| ChatServer.SetStatusEffect | server/server.js:204-216 | only the caller's status changes; channels, logs and typing sets stay |
| ChatServer.CreateChannelEffect | server/server.js:219-255 | one channel is added last, listing the creator and then the requested ids, with an empty log; every notice goes to a member's socket |
| ChatServer.JoinChannelTwice | server/server.js:258-276 | `channel:join` twice equals once, as far as the channels go |
| ChatServer.DisconnectEffect | server/server.js:279-307 | the user stays known, offline since the given time, and is in no typing set; channels, logs, timers and sessions stay; the last notice tells the others it went offline |
| ChatServer.DisconnectStopNotice | server/server.js:287-299 | a stop-typing notice goes to a channel iff the disconnecting user was typing there |
| ChatServer.Server.constructor | server/server.js:20-48 | the server starts in `Initial()` |
| ChatServer.Server.Join | server/server.js:54-93 | the state becomes `AfterJoin` of the old state; the invariant holds |
| ChatServer.Server.Send | server/server.js:96-131 | the state becomes `AfterSend`; the invariant holds |
| ChatServer.Server.Deliver | server/server.js:122-128 | the state becomes `AfterDeliver`; the invariant holds |
| ChatServer.Server.TypingStart | server/server.js:134-148 | the state becomes `AfterTypingStart`; the invariant holds |
| ChatServer.Server.TypingStop | server/server.js:150-164 | the state becomes `AfterTypingStop`; the invariant holds |
| ChatServer.Server.ReactionAdd | server/server.js:167-201 | the state becomes `AfterReactionAdd`; the invariant holds |
| ChatServer.Server.SetStatus | server/server.js:204-216 | the state becomes `AfterSetStatus`; the invariant holds |
| ChatServer.Server.CreateChannel | server/server.js:219-255 | the state becomes `AfterCreateChannel`; the invariant holds |
| ChatServer.Server.JoinChannel | server/server.js:258-276 | the state becomes `AfterJoinChannel`; the invariant holds |
| ChatServer.Server.Disconnect | server/server.js:279-307 | the state becomes `AfterDisconnect`; the invariant holds |
| ChatStore.Patch | src/stores/chatStore.ts:385 | a message update keeps the message's id |
| ChatStore.PatchLog | src/stores/chatStore.ts:384-386 | the array keeps its length; exactly the messages with the id are updated |
| ChatStore.PatchEveryChannel | src/stores/chatStore.ts:383-388 | the loop over the channels applies the update to every channel's array |
| ChatStore.PatchAllEffect | src/stores/chatStore.ts:380-390 | channels and lengths are kept; only messages with the id change; the new status overwrites the old one with no check of its order |
| ChatStore.PatchLogIdempotent | src/stores/chatStore.ts:384-386 | applying the same update twice equals once |
| ChatStore.PatchAllIdempotent | src/stores/chatStore.ts:380-390 | the same, over every channel |
| ChatStore.ChannelList | src/stores/chatStore.ts:263 | a channel's array of messages or typing users, or the empty array when it has none |
| ChatStore.Append | src/stores/chatStore.ts:371-378 | the message goes last in its channel's array; other channels are unchanged |
| ChatStore.AppendTwice | src/stores/chatStore.ts:260-265 | receiving the same message twice stores it twice: there is no check by id |
| ChatStore.ChangeUnread | src/stores/chatStore.ts:268-276 | only the matching channels' unread counts change: +1, or reset to 0 |
| ChatStore.PatchUsers | src/stores/chatStore.ts:298-312 | only the users with the id change, in the patched field |
| ChatStore.Ids | src/stores/chatStore.ts:299 | the ids of the users, in order |
| ChatStore.UpsertOnline | src/stores/chatStore.ts:297-303 | a known user becomes `online`; an unknown one is appended |
| ChatStore.UpsertOnlineIds | src/stores/chatStore.ts:297-303 | the upsert never stores a second user under a known id; afterwards the id is known |
| ChatStore.Without | src/stores/chatStore.ts:434 | the filter keeps exactly the other ids, and changes nothing when the id is absent |
| ChatStore.WithoutNoDuplicates | src/stores/chatStore.ts:434 | the filter keeps a list repeat-free |
| ChatStore.SetTypingIn | src/stores/chatStore.ts:422-439 | after the update the user is in the channel's list iff typing; other users and other channels are unchanged |
| ChatStore.SetTypingDistinct | src/stores/chatStore.ts:422-439 | `setTyping` keeps every typing list repeat-free |
| ChatStore.TypingStartThenStop | src/stores/chatStore.ts:422-439 | start then stop leaves the list as before without the user |
| ChatStore.Initial | src/stores/chatStore.ts:215-224 | the initial store: nobody, no channels, no messages, light theme, disconnected |
| ChatStore.AfterChannelsList | src/stores/chatStore.ts:239-245 | the list is stored; the first channel becomes active only when no channel was active and the list is not empty |
| ChatStore.AfterNewMessage | src/stores/chatStore.ts:253-277 | the message is appended; the unread count goes up by one exactly for its channel, unless that channel is active |
| ChatStore.HistoryIdempotent | src/stores/chatStore.ts:279-291 | a history replaces the array wholesale, so a repeated history is idempotent |
| ChatStore.AfterSetActiveChannel | src/stores/chatStore.ts:357-361 | the channel becomes active, its unread count is 0, and a join is requested |
| ChatStore.WithActiveChannel | src/stores/chatStore.ts:363-406 | without an active channel nothing is sent; with one, exactly one request for it |
| ChatStore.AfterSendMessage | src/stores/chatStore.ts:363-369 | a send for the active channel, with the kind defaulting to `text` |
| ChatStore.AfterReaction | src/stores/chatStore.ts:392-406 | a reaction toggle for the active channel |
| ChatStore.AfterSetUserStatus | src/stores/chatStore.ts:408-420 | the user's status is updated locally; the server is told only when it is the current user |
| ChatStore.Store.constructor | src/stores/chatStore.ts:215-224 | the store starts in `Initial()` |
| ChatStore.Store.OnUserJoined | src/stores/chatStore.ts:231-233 | the current user is set and the store is connected |
| ChatStore.Store.OnUsersList | src/stores/chatStore.ts:235-237 | the user list is replaced |
| ChatStore.Store.OnChannelsList | src/stores/chatStore.ts:239-245 | the state becomes `AfterChannelsList` |
| ChatStore.Store.OnChannelCreated | src/stores/chatStore.ts:247-251 | the channel is appended |
| ChatStore.Store.OnNewMessage | src/stores/chatStore.ts:253-277 | the state becomes `AfterNewMessage` |
| ChatStore.Store.OnMessagesHistory | src/stores/chatStore.ts:279-291 | the channel's array is replaced |
| ChatStore.Store.OnUserOnline | src/stores/chatStore.ts:297-303 | users become `UpsertOnline` |
| ChatStore.Store.OnUserOffline | src/stores/chatStore.ts:305-313 | the user goes offline with its last-seen time |
| ChatStore.Store.OnReactionUpdated | src/stores/chatStore.ts:323-333 | every message with the id gets the new reactions |
| ChatStore.Store.ConnectAsUser | src/stores/chatStore.ts:345-347 | a join is requested with the given fields |
| ChatStore.Store.DisconnectSocket | src/stores/chatStore.ts:349-352 | a disconnect is requested and the store is disconnected |
| ChatStore.Store.SetCurrentUser | src/stores/chatStore.ts:355 | the current user is set |
| ChatStore.Store.SetActiveChannel | src/stores/chatStore.ts:357-361 | the state becomes `AfterSetActiveChannel` |
| ChatStore.Store.SendMessage | src/stores/chatStore.ts:363-369 | the state becomes `AfterSendMessage` |
| ChatStore.Store.AddMessage | src/stores/chatStore.ts:371-378 | the message is appended to its channel |
| ChatStore.Store.UpdateMessageStatus | src/stores/chatStore.ts:380-390 | every message with the id gets the status; the `message:status` listener calls this at lines 293-295 |
| ChatStore.Store.AddReaction | src/stores/chatStore.ts:392-398 | the state becomes `AfterReaction` |
| ChatStore.Store.RemoveReaction | src/stores/chatStore.ts:400-406 | the state becomes `AfterReaction`, the same toggle |
| ChatStore.Store.SetUserStatus | src/stores/chatStore.ts:408-420 | the state becomes `AfterSetUserStatus`; the status-change listener calls this at lines 315-317 |
| ChatStore.Store.SetTyping | src/stores/chatStore.ts:422-439 | typing lists become `SetTypingIn`, keeping them repeat-free; the typing listener calls this at lines 319-321 |
| ChatStore.Store.MarkChannelAsRead | src/stores/chatStore.ts:441-447 | the channel's unread count is reset |
| ChatStore.Store.SetSearchQuery | src/stores/chatStore.ts:449 | the query is stored |
| ChatStore.Store.ToggleTheme | src/stores/chatStore.ts:451-457 | light becomes dark and anything else becomes light |
| ChatStore.Store.ToggleSidebar | src/stores/chatStore.ts:459 | the collapsed flag flips |
| ChatStore.Store.SetConnected | src/stores/chatStore.ts:461 | the connected flag is set; the connect and disconnect listeners call this at lines 336-342 |
| ChatStore.Store.CreateChannel | src/stores/chatStore.ts:463-465 | a channel creation is requested with no description |
| Sidebar.FilterChannels | src/components/chat/Sidebar.tsx:51-53 | a channel is kept iff its lower-cased name includes the lower-cased query |
| Sidebar.FilterChannelsSpec | src/components/chat/Sidebar.tsx:51-53 | the filter keeps order, keeps all for an empty query, and keeps exactly the channels whose name has the query at some position |
| Sidebar.MatchesIgnoresCase | src/components/chat/Sidebar.tsx:52 | matching ignores ASCII case in query and name |
| Sidebar.ChannelIcon | src/components/chat/Sidebar.tsx:27-36 | the DM icon iff `dm`, the users icon iff `private`, the hash otherwise |
| Sidebar.StatusColor | src/components/chat/Sidebar.tsx:38-49 | green online, yellow away, red busy, grey for anything else |
| Sidebar.Badge | src/components/chat/Sidebar.tsx:181-183 | a badge iff the count is positive; `99+` above 99; otherwise the count in at most two digits |
| MessageList.Layout | src/components/chat/MessageList.tsx:207-215 | one item per message, in order; the first item shows its avatar |
| MessageList.LayoutGroups | src/components/chat/MessageList.tsx:209-210 | an item opens a group or continues one, never both, each by its exact rule; at exactly five minutes from the same sender it does neither |
| MessageList.CountPositive | src/components/chat/MessageList.tsx:44-47 | an emoji is counted iff some reaction carries it |
| MessageList.Tally | src/components/chat/MessageList.tsx:44-47 | the reduce gives each used emoji, and only those, its number of reactions |
| MessageList.TallySum | src/components/chat/MessageList.tsx:44-47 | the counts add up to the number of reactions |
| MessageList.HasReactedIsPair | src/components/chat/MessageList.tsx:171-173 | the highlight is the server's (emoji, user) test; nothing is highlighted without a current user |
| MessageList.ToggleFlipsHighlight | src/components/chat/MessageList.tsx:171-173 | after the server's toggle, the chip's highlight is flipped |
| MessageList.Chips | src/components/chat/MessageList.tsx:168-196 | one chip per distinct emoji, with its positive count and the user's highlight |
| MessageList.ChipsCover | src/components/chat/MessageList.tsx:168-196 | every emoji used has a chip |
| MessageList.StatusIconOf | src/components/chat/MessageList.tsx:25-38 | one icon per delivery status, each iff that status |
| ChatArea.ActiveChannel | src/components/chat/ChatArea.tsx:22 | the channel found has the active id; none is found iff no channel has it |
| ChatArea.OnlineMembers | src/components/chat/ChatArea.tsx:41-46 | exactly the users who are members of the channel and online, in order |
| ChatArea.MemberLabel | src/components/chat/ChatArea.tsx:90-92 | nothing for 0, `1 member online`, or `<n> members online` |
| ChatArea.ViewOf | src/components/chat/ChatArea.tsx:22-132 | the welcome screen iff no channel has the active id; otherwise the active channel with the icon of its kind (lines 30-39, the sidebar's mapping), its messages, and no typing indicator when nobody types there |
| TypingIndicator.Typers | src/components/chat/TypingIndicator.tsx:12-14 | exactly the typing users other than the current one, in order |
| TypingIndicator.TypingText | src/components/chat/TypingIndicator.tsx:18-26 | the text for one, two, or three or more typers |
| TypingIndicator.TypingTextNames | src/components/chat/TypingIndicator.tsx:18-26 | the text starts with the first name, and for three or more the number given is the count of the others |
| TypingIndicator.IndicatorOf | src/components/chat/TypingIndicator.tsx:12-37 | nothing iff nobody else types; at most three avatars, the first typers' |
| UserPanel.ChannelMembers | src/components/chat/UserPanel.tsx:26 | exactly the users listed as members, in order |
| UserPanel.PanelOf | src/components/chat/UserPanel.tsx:13-28 | the placeholder iff there is no active channel; a separator iff both groups are non-empty; the online group is all online |
| UserPanel.PanelPartition | src/components/chat/UserPanel.tsx:27-28 | the online and offline groups split the members, each member in exactly one |
| UserPanel.StatusColor | src/components/chat/UserPanel.tsx:30-41 | the online, away and busy classes each iff that status; the offline class for anything else |
| UserPanel.RoleName | src/components/chat/UserPanel.tsx:50-54 | `Owner` iff id 1, `Admin` iff id 2, `Member` otherwise |
| UserPanel.RoleIconOf | src/components/chat/UserPanel.tsx:43-48 | no icon iff a plain member; the crown iff the owner |
| RegisterForm.WithField | src/components/auth/RegisterForm.tsx:107-112 | the edit changes exactly the named field |
| RegisterForm.Validate | src/components/auth/RegisterForm.tsx:30-53 | the first rule broken, in order, each iff its condition; none iff all hold |
| RegisterForm.HandleSubmit | src/components/auth/RegisterForm.tsx:55-62 | a registration with trimmed username and email iff valid; otherwise the first rule broken |
| RegisterForm.SubmitEnabledIffValid | src/components/auth/RegisterForm.tsx:269-277 | the button is enabled iff not loading and the form is valid |
| RegisterForm.ScanFirstLine | src/components/auth/RegisterForm.tsx:114-122 | the regex test holds iff a matching character comes before any line terminator |
| RegisterForm.PasswordStrength | src/components/auth/RegisterForm.tsx:114-122 | the level is 0-4, each by its rule |
| RegisterForm.ErrorText | src/components/auth/RegisterForm.tsx:79-101 | the message for a taken email, then for a taken username, then the fallback; never empty |
| ResetPasswordForm.SanitizeCode | src/components/auth/ResetPasswordForm.tsx:61-70 | the first six digits of the input, or all of them when there are fewer |
| ResetPasswordForm.SanitizeIdempotent | src/components/auth/ResetPasswordForm.tsx:61-70 | sanitising twice equals once |
| ResetPasswordForm.HandleInputChange | src/components/auth/ResetPasswordForm.tsx:61-70 | the edit changes exactly the named field; the code is sanitised |
| ResetPasswordForm.CodeFieldShape | src/components/auth/ResetPasswordForm.tsx:61-70 | the stored code is always at most six digits |
| ResetPasswordForm.Validate | src/components/auth/ResetPasswordForm.tsx:28-41 | the first rule broken, in order, each iff its condition |
| ResetPasswordForm.HandleSubmit | src/components/auth/ResetPasswordForm.tsx:44-53 | a reset with the email, code and password iff valid |
| ResetPasswordForm.EnabledSubmitRefusesShortPassword | src/components/auth/ResetPasswordForm.tsx:203 | with the button enabled, a submission is refused iff the password is too short |
| ResetPasswordForm.PasswordStrength | src/components/auth/ResetPasswordForm.tsx:72-80 | the sign-up form's strength rule; level 3 or more iff at least 8 characters |
| EmailVerificationForm.TickOf | src/components/auth/EmailVerificationForm.tsx:29-35 | down by one above 1; otherwise 0, and resend becomes allowed |
| EmailVerificationForm.CountdownAfterTicks | src/components/auth/EmailVerificationForm.tsx:27-39 | after n ticks the countdown is the start minus n, never below 0 |
| EmailVerificationForm.Submission | src/components/auth/EmailVerificationForm.tsx:44-55 | nothing unless the code has six characters; then the email and the code |
| EmailVerificationForm.ResendLabel | src/components/auth/EmailVerificationForm.tsx:179 | `Resend Code`, or the seconds left |
| EmailVerificationForm.ResendLabelCounts | src/components/auth/EmailVerificationForm.tsx:179 | while resend is not allowed, the label shows a positive number of seconds |
| EmailVerificationForm.VerificationForm.constructor | src/components/auth/EmailVerificationForm.tsx:21-25 | empty code, not loading, 60 seconds, resend not allowed |
| EmailVerificationForm.VerificationForm.Tick | src/components/auth/EmailVerificationForm.tsx:27-39 | one tick; the countdown stays within 0-60, and resend is allowed iff it is 0 |
| EmailVerificationForm.VerificationForm.HandleCodeChange | src/components/auth/EmailVerificationForm.tsx:81-84 | the code becomes the sanitised input |
| EmailVerificationForm.VerificationForm.HandleSubmit | src/components/auth/EmailVerificationForm.tsx:41-55 | the request is `Submission` of the email and the code; a request raises the loading flag, which disables the verify button; nothing else changes |
| EmailVerificationForm.VerificationForm.SubmitSettled | src/components/auth/EmailVerificationForm.tsx:61-63 | once the call settles the loading flag is down; nothing else changes |
| EmailVerificationForm.VerificationForm.HandleResend | src/components/auth/EmailVerificationForm.tsx:66-70 | the resending flag is raised, which disables the resend button; nothing else changes |
| EmailVerificationForm.VerificationForm.ResendSettled | src/components/auth/EmailVerificationForm.tsx:69-78 | success restarts the countdown and withdraws resend; failure keeps both; the resending flag is down afterwards |
| EmailVerificationForm.ButtonsEnabled | src/components/auth/EmailVerificationForm.tsx:142-171 | resend is enabled only at 0; an enabled verify button always sends |
| AuthContainer.Initial | src/components/auth/AuthContainer.tsx:15-16 | the login view with an empty email |
| AuthContainer.StepEmail | src/components/auth/AuthContainer.tsx:18-34 | only registration success and reset-code-sent change the email, to the one they carry; signing in changes nothing here |
| AuthContainer.EnteringCodeForms | src/components/auth/AuthContainer.tsx:36-85 | the verification view is entered only from registration, and the reset view only from forgot-password, each holding the address delivered |
| AuthContainer.LoginExits | src/components/auth/AuthContainer.tsx:38-45 | from login only registration and forgot-password are reachable, with the email kept |
| AuthContainer.CodeFormsReachable | src/components/auth/AuthContainer.tsx:15-85 | with the switch callbacks fired, registering from the initial state leads to the verification view holding the registered address, and a sent reset code to the reset view holding that address |
| AuthContainer.AsWrittenStaysOnLogin | src/components/auth/LoginForm.tsx:10-23 | with the login form as written, which fires only `onLogin`, no run from the initial state ever leaves the login view |
| AuthContainer.BackToLogin | src/components/auth/AuthContainer.tsx:36-85 | every other view offers a way back to login that keeps the email |
| AuthContainer.RunCodeFormEmail | src/components/auth/AuthContainer.tsx:18-85 | over any sequence of offered callbacks, a code view shows an address delivered during the run or the one held at the start |
| AuthContainer.FromInitialCodeFormEmail | src/components/auth/AuthContainer.tsx:15-85 | from the initial state, a code view only shows an address that was delivered |
| AuthContainer.RenderCurrentView | src/components/auth/AuthContainer.tsx:36-85 | one form per view; the code forms get the stored email |
| AuthContainer.Container.constructor | src/components/auth/AuthContainer.tsx:15-16 | the container starts in `Initial()` |
| AuthContainer.Container.Handle | src/components/auth/AuthContainer.tsx:18-85 | a callback moves the state by `Step`; it reports sign-in for login and verification |
| UserModel.UsernameIssue | server/models/User.js:5-12 | required, then at least 3, then at most 30 characters, each iff its condition |
| UserModel.PasswordIssue | server/models/User.js:20-25 | required, then at least 6 characters |
| UserModel.DefaultAvatarSeeded | server/models/User.js:26-31 | the avatar is the service URL followed by the username; distinct usernames get distinct avatars |
| UserModel.TokenValue | server/models/User.js:69 | the drawn code lies between 100000 and 999999 |
| UserModel.TokenShape | server/models/User.js:69 | the code is six digits, reads back as the number drawn, and passes the client's code filter unchanged |
| UserModel.EveryTokenDrawn | server/models/User.js:69 | every six-digit number can be drawn |
| UserModel.RegisteredDefaults | server/models/User.js:4-52 | the stored username is trimmed (no white space at either end), the email lower-cased character by character, the password kept, the avatar seeded with the stored username, the status `offline` (an allowed one), unverified, last seen now, no codes |
| UserModel.UserDocument.constructor | server/models/User.js:4-52 | the new document holds exactly the fields of `Registered` |
| UserModel.UserDocument.Issues | server/models/User.js:4-36 | no issue iff all field rules hold; each field reports its first broken rule |
| UserModel.UserDocument.PreSave | server/models/User.js:55-60 | the password is hashed iff it was modified; nothing else changes |
| UserModel.UserDocument.CreateEmailVerificationToken | server/models/User.js:68-75 | stores and returns the code, valid for ten minutes; every other field keeps its value |
| UserModel.UserDocument.CreatePasswordResetToken | server/models/User.js:78-85 | the same for the reset code; every other field keeps its value |
| LegacyChat.AddTyper | chat-frontend/src/components/ChatContainer/ChatContainer.jsx:22-26 | a name is added at the end iff absent |
| LegacyChat.AddTyperProperties | chat-frontend/src/components/ChatContainer/ChatContainer.jsx:22-26 | adding keeps the list repeat-free, includes the name, and is idempotent |
| LegacyChat.NoticesDistinct | chat-frontend/src/components/ChatContainer/ChatContainer.jsx:22-26 | a run of notices lists each name once, exactly the names noticed |
| LegacyChat.WillSendIff | chat-frontend/src/components/ChatContainer/ChatContainer.jsx:38 | a message is sent iff connected and it has a non-space character |
| LegacyChat.ChatContainer.constructor | chat-frontend/src/components/ChatContainer/ChatContainer.jsx:8-11 | no socket, no messages, nobody typing |
| LegacyChat.ChatContainer.Mount | chat-frontend/src/components/ChatContainer/ChatContainer.jsx:13-16 | the socket opens and the room is joined |
| LegacyChat.ChatContainer.ReceiveMessage | chat-frontend/src/components/ChatContainer/ChatContainer.jsx:18-20 | the message is appended, repeats included |
| LegacyChat.ChatContainer.OnTyping | chat-frontend/src/components/ChatContainer/ChatContainer.jsx:22-26 | the list becomes `AddTyper` of the name |
| LegacyChat.ChatContainer.OnStopTyping | chat-frontend/src/components/ChatContainer/ChatContainer.jsx:28-30 | the server's list replaces the local one |
| LegacyChat.ChatContainer.Send | chat-frontend/src/components/ChatContainer/ChatContainer.jsx:37-48 | sent iff `WillSend`; a sent message is also appended locally at once |
| LegacyChat.ChatContainer.HandleTyping | chat-frontend/src/components/ChatContainer/ChatContainer.jsx:50-64 | a typing or stop notice for the room and user iff connected |
| LegacyMessage.FileIconOf | chat-frontend/src/components/Message/Message.jsx:5-14 | each icon iff its rule matches and no earlier rule does; the folder iff no rule matches |
| LegacyMessage.MediaIcons | chat-frontend/src/components/Message/Message.jsx:6-8 | image, video and audio types get their icon whatever the subtype |
| LegacyMessage.ApplicationIcons | chat-frontend/src/components/Message/Message.jsx:9-10 | PDF has its own icon; an application subtype naming `word` is a document |
| LegacyMessage.UpToSlash | chat-frontend/src/components/Message/Message.jsx:51 | the text before the first slash |
| LegacyMessage.TypeLabel | chat-frontend/src/components/Message/Message.jsx:51 | a type without a slash is shown whole |
| LegacyMessage.TypeLabelSubtype | chat-frontend/src/components/Message/Message.jsx:51 | for `type/subtype` the label is the subtype |
| LegacyMessage.Render | chat-frontend/src/components/Message/Message.jsx:24-56 | the sender is named iff not one's own; a file link iff the URL is truthy, previewed iff an image; otherwise the text |
| LegacyStatusBar.RoomLabel | chat-frontend/src/components/StatusBar/StatusBar.jsx:8 | `#` followed by the room |
| LegacyStatusBar.TypingLine | chat-frontend/src/components/StatusBar/StatusBar.jsx:13-22 | no line iff nobody types; `is typing` for one, the joined names and `are typing` for several |
| LegacyStatusBar.TypingLineNamesEveryone | chat-frontend/src/components/StatusBar/StatusBar.jsx:13-22 | every typing user is named in the line |

## Left out

- Transport: the network, Socket.IO rooms, which connections receive a message and when, and reconnection are not modelled. Emitted events are recorded with their audience only.
- Logging (`console.log`) and toasts are not modelled.
- Server fresh ids and clock: `uuidv4()` and `new Date()` are parameters.
  - `AfterCreateChannel` requires its fresh id not to be in use already. The source relies on UUIDs not colliding.
  - Times are integers (milliseconds); conversion to and from `Date` and ISO strings is not modelled.
- Randomness: `Math.random()` in `User.js` is the fraction `num / den` with `0 <= num < den`. Floating-point rounding is not modelled.
- The delegating listeners of the store are not separate members. `message:status`, `user:status:changed`, `typing:user`, `connect` and `disconnect` call the actions modelled (see the rows of `UpdateMessageStatus`, `SetUserStatus`, `SetTyping` and `SetConnected`).
- `ChatStore.Store.SetTyping`: `setTyping` pushes into the existing array in place, so an earlier snapshot aliasing that array would change too. The model copies.
- `ChatStore.Store.ToggleTheme`: the `document.documentElement` class change is not modelled.
- `UserModel`:
  - The email format regex is not modelled.
  - Uniqueness of username and email is enforced by the database, and is not modelled.
  - `comparePassword` and the bcrypt hash are not modelled: the hash is a function parameter of `PreSave`.
  - The `timestamps` fields are not modelled.
  - The message of the `status` enum rule is the library's own, not a fixed string of the source.
- `Strings.Lower` changes ASCII letters only. JavaScript's `toLowerCase` also folds other scripts.
- String lengths count Unicode code points, not UTF-16 code units as JavaScript's `.length` does. This only matters for characters outside the Basic Multilingual Plane.
- `RegisterForm` and `ResetPasswordForm`: the loading flag is an input to the button predicates. The async call and its error handling are not modelled, except for the error text mapping of the sign-up form.
- `EmailVerificationForm`: the awaited calls are split into a start step and a settle step; the result and error toasts are not modelled.
- `MessageList`:
  - The chips are in order of first use. JavaScript puts integer-like keys first in `Object.entries`, which no emoji is.
  - Message time formatting is not modelled.
- `LegacyMessage`: `formatFileSize` uses floating-point logarithms and `toFixed`, and is not modelled.
- `LegacyChat`:
  - The socket's `disconnect` on unmount is not modelled.
  - The formatted time of a sent message is a parameter.
- The forgot-password form and the auth service are not part of this model. Their callbacks are the events of `AuthContainer`.
- `AuthContainer.Offered`, `AuthContainer.Run` and `AuthContainer.LoginExits` follow the callbacks the container hands the login form (`AuthContainer.tsx:38-45`). The login form itself fires only `onLogin` (see Findings); `AuthContainer.OfferedAsWritten` and `AuthContainer.RunAsWritten` model that.

## Findings

| source | as written | input that shows it | evidently intended | confidence | as-written member | corrected member |
|---|---|---|---|---|---|---|
| src/components/auth/LoginForm.tsx:10-23 | the login form declares and uses only `onLogin`; the `onSwitchToRegister` and `onSwitchToForgotPassword` callbacks the container hands it are never called | any sequence of callbacks from the initial state: the view stays `login`, so registration, verification and password reset cannot be reached | the login form offers links to the registration and forgot-password forms, as the container's wiring says | medium, not executed | AuthContainer.AsWrittenStaysOnLogin | AuthContainer.CodeFormsReachable |
