# Chat engines: models and proofs

The repository has two chat engines. This project models both in Dafny and proves what holds over
all their runs.

**The TCP chat server** (`internal/chat`). `ChatModel.dfy` gives, on values, what one connection, one
line of input, one disconnect or one queue read does to the rooms, the clients, the names and every
client's queue. `ChatRoom.dfy` and `ChatServer.dfy` are the same server as objects that change in place:
clients with bounded channels, rooms whose history is a Go slice over an array, and the server with its
three maps. `ChatServer.Serve` shows that over any run the objects pass through exactly the model's
states, so what is proved about runs holds of the objects.

- `ChatInvariants.dfy`: rooms, members, cached room keys, names and ids agree after every run.
- `ChatLaws.dfy`: conservation of members, the lobby, names and ids.
- `ChatEffects.dfy`, `ChatTyped.dfy`, `ChatMoves.dfy`: what every line that can be typed, every connection and
  every disconnect does to the whole server, said outright.
- `ChatStream.dfy`: replay and live messages together are one contiguous piece of the room's log.
- `LockSections.dfy`: the same server with every lock section as a step of its own, in any interleaving.
  Less holds there: no gap and no client in two registered rooms, but lines can be doubled or overtaken and
  seats lost. `LockDelivery.dfy` says exactly when a line is doubled, `LockSeats.dfy` exactly when a seat is
  lost, and `LockSchedule.dfy` has a run that loses one.
- `LockOrder.dfy`: a client stores and looks up its lines in turn. `LockSends.dfy`, `LockQueues.dfy`,
  `LockOvertakes.dfy`: the sends outside the locks as steps of their own, what is on every channel, and
  exactly when a line can overtake another, or the history, on its way to a member.
- `LockAlone.dfy`, `LockRefines.dfy`: with nobody in between, the lock sections do what the sequential server
  does, over every run of it.
- `IdleTimer.dfy`: the inactivity timer. `Channels.dfy`: the bounded channel. `Commands.dfy`, `Text.dfy`:
  the command parser and the strings it works on.

**The WebSocket hub** (`internal/ws`) with the browser store (`web/src/store/chat.ts`). `HubModel.dfy`
holds the index updates on values; `HubServer.dfy` is the hub and its connections as objects;
`HubSystem.dfy` is the transition system: one hub goroutine, one read loop per connection, the mutex,
two unbuffered channels and the broadcast channel, with any interleaving of steps. `HubTurns.dfy`,
`HubNames.dfy` and `HubServing.dfy` tie the two: over any sequence of complete turns the objects go
through states of the transition system (`HubServing.Run`).

- `HubEvents.dfy`, `HubMeeting.dfy`: what each client event, arrival and departure comes to, up to everyone who is
  handed something; and a run from the start in which a room hears what is said.
- `HubIndex.dfy`: index coherence and progress. `HubOrder.dfy`: one emission log orders everything.
- `HubPresence.dfy`: the browser's presence map agrees with the hub. `HubRooms.dfy`: all subscribers of a
  room show the same thread. `HubTyping.dfy`: whom they show as typing there. `HubDms.dfy`: the two sides of
  a conversation hold the same messages.
- `HubBatches.dfy`, `HubConversation.dfy`, `HubCrossing.dfy`: every message has exactly its two entries in the
  broadcast channel; when the two sides of a conversation show the same sequence, exactly; and a run in
  which they do not.
- `BrowserStore.dfy`: the store's reducers and what folding them computes. `Paging.dfy`: history queries.

Clocks, the runtime's choice of goroutine, of select case and of map order, the spare capacity that a
growing slice gets, and the answers of the database are parameters or actions: the theorems hold for all
of them.

Where code and intention differ, the code is modelled and the difference is a lemma: the lobby is
deleted when its configured name has white space at its ends (`ChatLaws.LobbyOutlivesItsMembers`), a
stale cleanup deletes by key (`LockSeats.SeatsHold`), a message can be both replayed and sent live
(`LockDelivery.DeliveredCount`), lines can reach a member out of the order of the log and of its replay
(`LockOvertakes.OvertakenWhen`, `LockOvertakes.HistoryOvertakenWhen`), a client that just wrote can still
be dropped as idle (`IdleTimer.TouchLosesWhen`), paging can skip rows of equal times
(`Paging.PagesListAll`), a history without rows does not clear the thread (`Paging.OpenHistory`), the two
sides of a conversation can show different orders (`HubConversation.ConversationOrder`, `HubCrossing.OppositeOrders`).

`dafny verify dfyconfig.toml` checks the whole project.

## Model

| member | source | states |
|---|---|---|
| Commands.SanitizeIsIdempotent | internal/chat/util.go:16-47 | A room or user name that was accepted once is accepted again unchanged |
| Commands.ParseRoundTrip | internal/chat/util.go:50-62 | Parsing "/" + cmd + " " + args gives cmd and args back if and only if cmd is lower case, has no space, needs no trimming, and args is trimmed |
| Commands.ParseIsTypable | internal/chat/util.go:50-62 | Whatever is typed, the parser returns a typable pair, so parsing what it returned gives it back |
| Commands.ParseShrinks | internal/chat/util.go:50-62 | A family outside the round trip: white space other than a space at the end of a bare command is lost |
| Commands.SplitMsgExact | internal/chat/server.go:371-384 | On trimmed arguments /msg splits exactly when there are two fields, into the first field and the rest with its spacing kept; the empty-body branch is never taken |
| Commands.DigitsOfDecimal | internal/chat/util.go:65-74 | The digits of a printed number give that number back |
| Commands.LeadingZero | internal/chat/util.go:65-74 | Zeros in front of a number change nothing |
| Commands.NumbersAreRead | internal/chat/util.go:65-74 | A printed number, bare or signed, is read back as that number if it lies in the 64-bit range, and is an error otherwise |
| Commands.OnlyNumbersAreRead | internal/chat/util.go:65-74 | A blank value gives the default; any other that is not an optional sign followed by digits is an error |
| Text.DecimalInjective | internal/chat/server.go:71-73 | Different sequence numbers print differently, so ids built from them differ |
| Text.PaddedTo4 | internal/chat/server.go:70-73 | A guest number has at least four places, filled up with zeros and nothing else |
| Text.FoldsCase | internal/chat/server.go:85-95 | Two names are the same name exactly when they differ in case only |
| Text.TrimsNewlines | internal/chat/client.go:118-130 | What goes out is trimmed of the line breaks at its end and of nothing else |
| Channels.QueueRun | internal/chat/client.go:118-145 | Over any run of Send, receive and shutdown: the written lines are a prefix of the accepted ones, those are a subsequence of all Send calls in order, the channel never exceeds its capacity, cleanup ran once if the client was shut down and never otherwise |
| Channels.NothingAfterShutdown | internal/chat/client.go:118-145 | After shutdown nothing is accepted any more and cleanup is not repeated, whatever is called |
| Channels.LosslessIsExact | internal/chat/client.go:118-130 | A channel that dropped nothing accepted exactly the calls |
| Channels.SendAccepts | internal/chat/client.go:118-130 | After any run a line is accepted if and only if the client is open and fewer lines wait than the channel holds |
| Channels.TakesWrite | internal/chat/client.go:69-91 | After any run n takes write the next n accepted lines in order, as far as there are any, so everything accepted gets written |
| ChatRoom.Client.Send | internal/chat/client.go:118-130 | Accepted while the client is open and the channel has room, dropped otherwise; the queue stays within its capacity |
| ChatRoom.Client.Receive | internal/chat/client.go:69-91 | The write loop takes the oldest waiting line |
| ChatRoom.Client.Close | internal/chat/client.go:138-145 | Closing loses nothing already accepted and stops acceptance |
| ChatRoom.Room.constructor | internal/chat/room.go:21-33 | A new room has the trimmed name, "lobby" for a blank one, the normalized key, no members and an empty history |
| ChatRoom.Room.MembersSnapshot | internal/chat/room.go:101-112 | Every member but the excluded one, each once, in any order |
| ChatRoom.Room.Grow | internal/chat/room.go:131-131 | Growing the slice, in place or by copying to a new array, changes no element of the window |
| ChatRoom.Room.AppendHistory | internal/chat/room.go:127-137 | With append in place, reallocation and re-slicing, the window of the array is the last HistoryLimit entries ever appended |
| ChatRoom.Room.RecentHistory | internal/chat/room.go:140-153 | A fresh array holding the right suffix of the window |
| ChatRoom.CopyThenAppend | internal/chat/room.go:127-153 | A copy taken once is changed by no later append, and the window after any number of appends is the end of the whole log |
| ChatModel.WindowAppend | internal/chat/room.go:131-134 | Trimming at every append keeps the same window as trimming the whole log once |
| ChatServer.Server.constructor | internal/chat/server.go:29-37 | A new server is the initial state, its configuration completed with the defaults |
| ChatServer.Server.HandleConn | internal/chat/server.go:70-82 | Takes the state to Connect of it: next number, registration unless the guest name is taken, welcome, lobby |
| ChatServer.Server.AddClient | internal/chat/server.go:85-95 | Refused exactly when the lower-cased name is taken, and then nothing changes; otherwise the client is in both indexes |
| ChatServer.Server.Unregister | internal/chat/server.go:98-113 | The lock section of removeClient: seat, emptied room and both indexes go, the objects stay consistent |
| ChatServer.Server.RemoveClient | internal/chat/server.go:98-119 | The whole of removeClient, with the announcement to those left behind |
| ChatServer.Server.JoinRoom | internal/chat/server.go:122-157 | Takes the state to the model's JoinRoom: refusal, already there, or move, greeting, replay, announcements and cleanup of the room left |
| ChatServer.Server.MoveClientRoom | internal/chat/server.go:160-188 | Finds or creates the room, changes the seat in both rooms and in the client, and returns the objects named by the model |
| ChatServer.Server.CleanupRoom | internal/chat/server.go:191-203 | Deletes an empty room that is not the lobby and nothing else |
| ChatServer.Server.Greet | internal/chat/server.go:138-150 | Join notice, topic if any, then the replayed history line by line |
| ChatServer.Server.BroadcastRoom | internal/chat/server.go:452-464 | Without storing: every member but the excluded one is sent the line once, nobody else anything |
| ChatServer.Server.StoreAndBroadcast | internal/chat/server.go:452-464 | With storing: the entry is appended first, then every member is sent the formatted line |
| ChatServer.Server.RoomFound | internal/chat/server.go:467-476 | roomForClient finds the registered room under the cached key |
| ChatServer.Server.Rename | internal/chat/server.go:298-306 | The old name is freed, the new one points to the client, the client bears it |
| ChatServer.Server.CmdNick | internal/chat/server.go:282-309 | Takes the state to the model's Nick in all branches; what that is: ChatTyped.NickGives |
| ChatServer.Server.CmdMsg | internal/chat/server.go:371-384 | Takes the state to the model's Msg in all branches; what that is: ChatTyped.MsgArrives and MsgGoesNowhere |
| ChatServer.Server.DirectMessage | internal/chat/server.go:387-404 | Both ends get their line, or the sender a notice |
| ChatServer.Server.CmdTopic | internal/chat/server.go:407-423 | Shows or sets the topic and announces it |
| ChatServer.Server.CmdHistory | internal/chat/server.go:426-449 | The last n entries, ten by default, formatted like live lines |
| ChatServer.Server.CmdRooms | internal/chat/server.go:334-346 | One summary for every room, each room once, with its member count |
| ChatServer.Server.Speak | internal/chat/server.go:258-265 | Takes the state to the model's Speak, stored and sent from a room, refused without one; what that is: ChatTyped.LinePosts |
| ChatServer.Server.CmdAction | internal/chat/server.go:268-279 | All branches of /me; what they are: ChatTyped.ActionPosts |
| ChatServer.Server.ExecuteCommand | internal/chat/server.go:223-255 | Every command takes the state to the model's Execute |
| ChatServer.Server.HandleInput | internal/chat/server.go:206-220 | Every line of input takes the state to the model's HandleInput; what that is, line by line: ChatTyped and ChatMoves |
| ChatServer.Server.Shutdown | internal/chat/client.go:138-145 | Closing the channel and removing the client, once |
| ChatServer.Serve | internal/chat/server.go:70-476 | For every sequence of connects, input lines, disconnects and queue reads the objects go through exactly the states of ChatModel.Run, so every theorem about runs holds of them |
| ChatServer.PrintedIsTotal | internal/chat/server.go:334-346 | The printed counts add up to the members of all rooms whatever the order of the lines |
| ChatServer.RoomsAddUp | internal/chat/server.go:334-346 | After every run the counts /rooms prints add up to the clients that have a room |
| ChatInvariants.RunKeeps | internal/chat/server.go:70-476 | After every run with fewer than 2^64 connections: room table, members and cached keys agree, names and clients are inverses, histories are the end of the log, no empty room but the lobby, ids were issued; with an acceptable lobby name everyone has a room |
| ChatInvariants.StepKeeps | internal/chat/server.go:70-476 | One event from any coherent state keeps all of that |
| ChatInvariants.MoveKeeps | internal/chat/server.go:160-188 | A move keeps coherence up to the one room waiting for cleanup, and touches no other session |
| ChatInvariants.JoinKeeps | internal/chat/server.go:122-157 | A join keeps coherence and seats the client exactly when the name is acceptable |
| ChatInvariants.CleanupKeeps | internal/chat/server.go:191-203 | The pending cleanup restores full coherence |
| ChatInvariants.RemoveKeeps | internal/chat/server.go:98-119 | A removal keeps coherence and removes exactly that session |
| ChatInvariants.RenameKeeps | internal/chat/server.go:298-306 | Renaming to a free name keeps names and clients mutual inverses |
| ChatInvariants.ConnectKeeps | internal/chat/server.go:70-95 | A connection keeps coherence, refused or not |
| ChatLaws.CountsAddUp | internal/chat/server.go:334-346 | For any list of distinct rooms, the member counts add up to the clients whose cached key is in the list |
| ChatLaws.Conservation | internal/chat/server.go:313-346 | After every run the member counts over all rooms add up to the registered clients with a room, and to everyone /who all lists once everyone has joined |
| ChatLaws.LobbyProtected | internal/chat/server.go:191-194 | Cleanup spares the lobby if and only if the configured name has no white space at its ends: the raw name is compared with the trimmed one |
| ChatLaws.LastOneOutOfTheLobby | internal/chat/server.go:104-110 | When the last member of the lobby leaves, the lobby stays if and only if the configured name is trimmed |
| ChatLaws.LobbyOutlivesItsMembers | internal/chat/server.go:104-110 | One connection that comes and goes, from the start of the server: the lobby is still there if and only if its configured name is trimmed |
| ChatLaws.LobbySurvives | internal/chat/server.go:191-203 | With a trimmed name no continuation of any run deletes the lobby once it exists |
| ChatLaws.RejoinChangesNothing | internal/chat/server.go:132-136 | Joining the room one is in changes no index and sends one line back |
| ChatLaws.NameResolves | internal/chat/server.go:387-391 | A name is found if and only if some client bears it in some case, and that client is the only one |
| ChatLaws.MsgReachesItsTarget | internal/chat/server.go:387-404 | A direct message reaches the bearer of the name and its sender, who gets both lines when writing to oneself, and nobody else |
| ChatLaws.RefusedWhen | internal/chat/server.go:85-95 | A connection only uses up a number if and only if its guest name is taken |
| ChatLaws.NickChanges | internal/chat/server.go:282-309 | A /nick changes no index if and only if the name is not acceptable or taken |
| ChatLaws.SequenceNumber | internal/chat/server.go:71-71 | After every run the counter is the number of connections modulo 2^64 |
| ChatLaws.IdsRepeatOnlyAfterWrap | internal/chat/server.go:71-73 | Two connections get the same id if and only if their numbers agree modulo 2^64 |
| ChatTyped.EveryCommandIsTyped | internal/chat/util.go:50-62 | Every line that starts with a slash is a word, a gap and arguments, so the following rows speak of every line |
| ChatTyped.GoodNames | internal/chat/util.go:33-47 | A user name is accepted, as it is, exactly when it has 3 to 24 letters, digits, dashes and underscores |
| ChatMoves.GoodRooms | internal/chat/util.go:16-30 | A room name is accepted, trimmed, exactly when it has 1 to 32 letters, digits, dashes, underscores and blanks |
| ChatTyped.LinePosts | internal/chat/server.go:258-265 | A line without a slash adds "name: line" to the log of the speaker's room, every member's channel gets "[room] name: line" once, and nothing else in the server changes; without a room the speaker gets a notice |
| ChatTyped.ActionPosts | internal/chat/server.go:268-279 | The same for /me, with "* name action" |
| ChatTyped.NothingTyped | internal/chat/server.go:206-220 | A blank line and a bare slash change nothing at all |
| ChatTyped.MsgArrives | internal/chat/server.go:371-404 | /msg, a target, a gap and a body, typed by anyone: the client that bears the target's name in any case is sent that body with the sender's name, the sender is sent it with the receiver's name, and nobody else anything |
| ChatTyped.MsgGoesNowhere | internal/chat/server.go:371-404 | Without a body, or to a name nobody bears, only the sender gets a notice |
| ChatTyped.NickGives | internal/chat/server.go:282-309 | /nick gives the client exactly the name asked for, in both indexes, keeps its seat and everyone else's session, and tells the room, if the name is acceptable and nobody bears it in any case; otherwise the only change is a notice |
| ChatTyped.TopicSets | internal/chat/server.go:407-423 | /topic changes the topic of the room and nothing else, and every member is told once; without arguments or a room it earns a notice |
| ChatTyped.HistoryRecalls | internal/chat/server.go:426-449 | /history sends a heading and the last entries of the log, as many as asked for, ten by default, and no more than the limit keeps, to the caller alone |
| ChatTyped.OthersAreAnswered | internal/chat/server.go:223-255 | Every other command is answered by one line to the caller and changes nothing |
| ChatMoves.JoinTakesSeat | internal/chat/server.go:122-157 | /join: the client sits in the room of that name and nowhere else; the room is opened if need be, the one left is gone if that emptied it and it is not the lobby; the newcomer is sent the notice, the topic and what the log keeps, both rooms are told, nobody else is sent anything |
| ChatMoves.LeaveTakesSeat | internal/chat/server.go:223-255 | /leave does the same with the lobby, whatever follows it |
| ChatMoves.ConnectComes | internal/chat/server.go:70-95 | A connection gets the next number's id and guest name, a welcome and a seat in the lobby; if the guest name is borne, only the number is used up |
| ChatMoves.DisconnectGoes | internal/chat/server.go:98-119 | A disconnect takes the client out of every index and its room, which goes if that emptied it and it is not the lobby, and tells those left in it |
| ChatMoves.QuitGoes | internal/chat/server.go:223-255 | /quit and /exit do the same |
| ChatStream.ExactStream | internal/chat/server.go:142-148 | For a client that enters a room in any run and stays while anything else happens: what it was sent of stored messages, replayed and live together, is the room's log from at most HistoryLimit entries before the entry, without gap, duplicate or reordering, formatted alike |
| ChatStream.FirstClientEnters | internal/chat/server.go:70-82 | The premise of the exact stream is met by the first connection, if the lobby has an acceptable name |
| ChatStream.StepStreams | internal/chat/server.go:452-464 | One event by anyone: what a staying member is sent is exactly what was added to its room's log |
| ChatStream.JoinArrives | internal/chat/server.go:138-148 | A join replays exactly the kept end of the log |
| LockSections.StepInv | internal/chat/server.go:160-203 | Every lock section of every thread keeps the invariant, in any interleaving |
| LockSections.NoGap | internal/chat/server.go:132-148 | For every stored message and every client that joined a room object and has not left: replayed, cut off by the limit before the read, recipients not looked up yet, or among the recipients |
| LockSections.AtMostOneRoom | internal/chat/server.go:98-203 | In any interleaving, stale cleanups and input after removal included, a member of a registered room caches its key, so no client is in two registered rooms |
| LockDelivery.DeliveredCount | internal/chat/server.go:138-148 | In any interleaving a member gets a message within the limit twice, replayed and live, if it was appended before the history was read and the client had joined before the recipients were looked up, and exactly once otherwise; one beyond the limit comes once or not at all, by the second condition |
| LockDelivery.StampsRun | internal/chat/server.go:160-188 | The times this speaks of are the numbers of the steps in the run that joined, read, appended and looked up |
| LockDelivery.ReplayIsTheTail | internal/chat/server.go:142-148 | In any interleaving what a member is replayed is the end of what the log held when it was read, as much of it as the limit allows |
| LockDelivery.ReplayedAndSent | internal/chat/server.go:142-148 | A run from the start, under every configuration, in which one message is both replayed and delivered live |
| LockOrder.OrderRun | internal/chat/server.go:452-463 | In any interleaving a client looks up who gets its line before it stores its next one, and lines are stored one after the other |
| LockSends.SectionsRun | internal/chat/server.go:452-464 | With every single send a step of its own, outside the locks, the sections taken are a run of the lock sections, so what is proved of those runs holds here |
| LockSends.Prompt | internal/chat/server.go:452-464 | And every run of the lock sections is the sections of such a run: looking at the sends loses none |
| LockQueues.WideRun | internal/chat/server.go:142-148 | After any sections and sends in any order: a line is on a member's channel exactly when the member was looked up for it and its poster has served that member; of a history that was read, all is there but what is still to be repeated; lines of one client, and lines of one reading, stand in log order; whoever owes a send stands where the code has it |
| LockOvertakes.OneClientInOrder | internal/chat/server.go:452-464 | Two lines of a room on one channel are different lines, and lines of one client stand there in the order of the log |
| LockOvertakes.NoneTwice | internal/chat/server.go:452-464 | Nothing is put on a channel twice: no live line, and no line of one reading |
| LockOvertakes.SentBeforeStored | internal/chat/server.go:459-463 | A line that reached a member before another was stored is never overtaken there by that one |
| LockOvertakes.OvertakenWhen | internal/chat/server.go:459-463 | In every reachable state with a stored line due to a member and some client able to speak in the room: a line yet to be stored can still reach that member first if and only if the stored one has not been sent to it |
| LockOvertakes.CrossWhen | internal/chat/server.go:459-463 | Two stored lines of different clients, both due to a member: the one can come to stand ahead of the other on its channel, whichever was stored first, if and only if it already does or the other has not been sent |
| LockOvertakes.HistoryOvertakenWhen | internal/chat/server.go:142-148 | A line yet to be stored can reach a member ahead of a line of the history it has read if and only if that one has not been replayed yet |
| LockOvertakes.HeardBeforeReading | internal/chat/server.go:142-148 | What a member was sent of the room before it reads the history is repeated by that reading or cut off by the limit |
| LockOvertakes.CopiesArrive | internal/chat/server.go:142-148 | Once poster and member have nothing left to send, the copies that LockDelivery counts are what is on the member's channel |
| LockOvertakes.LookedUpInOrder | internal/chat/server.go:459-463 | A run from the start, under every configuration, in which the look-ups come in the order of the log and a member is still sent the second line first |
| LockSeats.CleanupIsSafeWhen | internal/chat/server.go:191-203 | A cleanup keeps every client's seat registered if and only if the room is occupied again, its key is free, still names that room, or names one without live members |
| LockSeats.OthersKeepSeats | internal/chat/server.go:98-203 | No lock section but a cleanup can take a seat away |
| LockSeats.SeatsHold | internal/chat/server.go:98-203 | Over any run, all live clients keep their seats at every moment if and only if every cleanup taken met that condition when it was taken |
| LockSchedule.StaleCleanupUnseats | internal/chat/server.go:198-201 | After any run and under any configuration, a schedule of clients that enter the lobby first, as every client does, in which deleting by key leaves a live client in a room no key names |
| LockAlone.TakesSeat | internal/chat/server.go:160-203 | The sections of a move with nobody in between: the client sits in the room the key names and in no other, a room that this empties is gone, no log changes |
| LockAlone.SpeaksOnce | internal/chat/server.go:452-464 | Those of a spoken line: the log of the speaker's room is longer by one, nothing else changes |
| LockAlone.ComesOnce | internal/chat/server.go:70-82 | Those of an arrival |
| LockAlone.Goes | internal/chat/server.go:98-113 | That of a removal |
| LockRefines.SequentialRun | internal/chat/server.go:70-476 | Every run of the sequential server below the wrap of the counter is a run of its lock sections with the same rooms under the same keys, the same members, logs of the same lengths, and the same clients with the same cached keys |
| IdleTimer.RunOk | internal/chat/client.go:94-115 | In every reachable state the timer is running with an empty channel or expired with one unread tick whenever the watcher is at its select |
| IdleTimer.DrainNeverBlocks | internal/chat/client.go:107-113 | The drain after a failed Stop never blocks, and neither does any step up to the next select |
| IdleTimer.IdleMeansIdle | internal/chat/client.go:103-106 | A shutdown for inactivity comes at least IdleTimeout after the last reset taken, and after the last touch unless a token is waiting |
| IdleTimer.TouchLosesWhen | internal/chat/client.go:100-113 | With a tick waiting at the select, a touch that came after the last reset taken can lose if and only if a token waits: taking the tick drops the client with it unanswered, taking the token answers it |
| IdleTimer.JustTouchedCanBeDropped | internal/chat/client.go:100-113 | A run in which a client is dropped although it was touched at that moment: the select may prefer the tick |
| IdleTimer.SilenceIsNoticed | internal/chat/client.go:95-106 | A client left alone can be disconnected once its deadline passed; a timeout of zero or less disables the watcher |
| IdleTimer.WatcherEnds | internal/chat/client.go:94-115 | A client that is shut down takes its watcher along: at the select it can end, timer included, and it never comes back |
| HubModel.PutIs | internal/ws/hub.go:93-99 | Registering adds one connection to one bucket and stores no empty bucket |
| HubModel.DropIs | internal/ws/hub.go:103-113 | Dropping removes one connection from one bucket and the bucket with its last connection |
| HubModel.PurgeIs | internal/ws/hub.go:114-121 | The scan over all rooms removes the connection everywhere and nothing else |
| HubModel.PurgeOnlyIs | internal/ws/hub.go:114-121 | Scanning only the rooms the connection is in gives the same |
| HubServer.Conn.Enqueue | internal/ws/conn.go:57-62 | Accepted while the channel has room, dropped otherwise |
| HubServer.Conn.JoinRoom | internal/ws/conn.go:79-89 | Subscribed, recorded and confirmed, or one error event |
| HubServer.Conn.LeaveRoom | internal/ws/conn.go:91-99 | Unrecorded and unsubscribed, or nothing |
| HubServer.Conn.HandleMessage | internal/ws/conn.go:101-167 | Exactly the entries Outs lists are pushed, in order, and the error event exactly when Answer says so |
| HubServer.Conn.HandleTyping | internal/ws/conn.go:169-191 | One entry that excludes the sender's own connection, or none |
| HubServer.Conn.TakeNext | internal/ws/conn.go:46-55 | The write loop takes the oldest waiting event |
| HubServer.Conn.HandleClientEvent | internal/ws/conn.go:64-77 | Every client event does exactly what it means: which bucket of the room index and which of the connection's own rooms change, which entries are pushed in which order, and what the connection itself is answered |
| HubServer.EventMeans | internal/ws/conn.go:64-191 | What each event means, for every event, reply of the store and state of the index, holds of the four functions both models are built on |
| HubServer.HandleSends | internal/ws/conn.go:64-77 | In the transition system the read loop stands before the same pushes |
| HubTurns.HandleRuns | internal/ws/conn.go:64-191 | Run step by step without interruption, the transition system's handling of a client event ends where the object's method does |
| HubTurns.TurnRuns | internal/ws/hub.go:46-57 | The same for an arrival, a relayed entry, a departure and a written event, and nobody is left in the middle of anything |
| HubTurns.DoneRuns | internal/ws/hub.go:168-174 | The same for an event whose handler finds the broadcast channel full: the hub relays until there is room |
| HubNames.RenamedPurge | internal/ws/hub.go:114-121 | The scan over all rooms is the same on numbers and on objects |
| HubNames.RenamedRecipients | internal/ws/hub.go:124-144 | So is the choice of recipients |
| HubEvents.EventDoes | internal/ws/conn.go:64-191 | In the transition system a handled event does exactly what it means and nothing else |
| HubEvents.JoinSubscribes | internal/ws/conn.go:79-89 | After the steps of a join the connection is in that room's bucket and the room on its own list, every other subscription is as before, and the confirmation names the room |
| HubEvents.LeaveUnsubscribes | internal/ws/conn.go:91-99 | After those of a leave it is in neither, and every other subscription is as before |
| HubEvents.RelayHands | internal/ws/hub.go:124-144 | A relayed entry is handed once to exactly those it is for |
| HubEvents.RoomMessageReaches | internal/ws/conn.go:115-140 | A room message that the store took reaches every subscriber of the room once, trimmed and with the next number, and nobody else |
| HubEvents.TypingReaches | internal/ws/conn.go:169-184 | Typing in a room reaches every other connection subscribed to it and nobody else |
| HubEvents.DirectTypingReaches | internal/ws/conn.go:184-191 | Typing to a user reaches that user's connections, less the one it came over |
| HubEvents.DirectMessageReaches | internal/ws/conn.go:144-167 | A direct message reaches every connection of the recipient, then every connection of the sender, and nobody else |
| HubEvents.ArrivalShows | internal/ws/hub.go:93-101 | An arrival puts the connection into its user's bucket and is shown to everyone online, the newcomer included |
| HubEvents.DepartureShows | internal/ws/hub.go:103-122 | A departure takes it out of its user's bucket and every room, and is shown to those still online exactly when it was its user's last |
| HubMeeting.RoomIsHeard | internal/ws/conn.go:79-140 | A run from the start in which two connections of any users join any room and one says something: both are subscribed throughout, and both browsers show exactly that message more |
| HubServer.Hub.AllConnectionsLocked | internal/ws/hub.go:184-192 | Every connection of every user |
| HubServer.Hub.BroadcastPresenceLocked | internal/ws/hub.go:176-182 | Every connection is handed the event once |
| HubServer.Hub.AddConn | internal/ws/hub.go:93-101 | The index is Put of the old one and everyone, the newcomer included, hears it |
| HubServer.Hub.RemoveConn | internal/ws/hub.go:103-122 | User index Drop, room index Purge; those still there hear of a departure exactly when the user's last connection went |
| HubServer.Hub.LeaveAllRooms | internal/ws/hub.go:114-121 | The loop over all rooms computes Purge |
| HubServer.Hub.Send | internal/ws/hub.go:124-144 | Exactly the recipients are handed the event |
| HubServer.Hub.RelayNext | internal/ws/hub.go:46-57 | The oldest broadcast entry is taken and sent |
| HubServer.Hub.Broadcast | internal/ws/hub.go:168-174 | One entry at the end of the channel |
| HubServer.Hub.SubscribeRoom | internal/ws/hub.go:146-153 | The room index is Put of the old one |
| HubServer.Hub.UnsubscribeRoom | internal/ws/hub.go:155-166 | The room index is Drop of the old one |
| HubServing.Gateway.Arrive | internal/ws/hub.go:93-101 | An arrival takes the objects from one state of the transition system to the one after it |
| HubServing.Gateway.Take | internal/ws/hub.go:168-174 | So does any turn, a handled client event among them, with the hub relaying first as long as the channel is too full for the handler |
| HubServing.Gateway.Relay | internal/ws/hub.go:124-144 | So does a relayed entry |
| HubServing.Gateway.Leave | internal/ws/hub.go:103-122 | So does a departure |
| HubServing.Run | internal/ws/hub.go:46-57 | Over any sequence of arrivals, client events, relayed entries, departures and writes the hub and connection objects stand for exactly the state that the transition system reaches, so what is proved of its runs holds of them |
| HubServing.ObjectIndex | internal/ws/hub.go:93-166 | Hence the hub's two maps hold exactly the connections being read, under their own user and their own rooms |
| HubIndex.StepKeeps | internal/ws/hub.go:46-166 | Every step of the hub, a read loop or a lock holder keeps the indexes coherent |
| HubIndex.IndexOf | internal/ws/hub.go:93-166 | After any interleaving: no empty bucket, a live connection is in its user's bucket and no other, its own room set differs from its subscriptions by at most the room in flight, a removed one is in no bucket |
| HubIndex.FullScanIsLocal | internal/ws/hub.go:114-121 | When the hub removes a connection, scanning all rooms and only the connection's own agree |
| HubIndex.DeadForever | internal/ws/hub.go:103-122 | No later step brings a removed connection back |
| HubIndex.NextStepWorks | internal/ws/hub.go:93-174 | Whoever holds the lock can always go on: the step is enabled and uses up work |
| HubIndex.NobodyIsStuck | internal/ws/hub.go:46-57 | In every reachable state with a blocked connection, a hub or lock-holder step is enabled or the hub is ready for that connection |
| HubIndex.BlockedIsServed | internal/ws/hub.go:46-57 | After at most 3 * |queue| + 3 such steps a blocked connection can go on |
| HubOrder.CallsRun | internal/ws/hub.go:124-144 | In every reachable state the hub's events handed to a connection are exactly the emissions addressed to it, in order |
| HubOrder.ReceivedInOrder | internal/ws/conn.go:57-62 | What a connection accepted, drops and all, is a strictly increasing subsequence of one emission log |
| HubOrder.SameRelativeOrder | internal/ws/hub.go:124-144 | Two connections see the events they both received in the same order |
| HubOrder.FifoRun | internal/ws/hub.go:168-174 | In every reachable state the enqueued entries are those relayed, the one in hand and those waiting, in order |
| HubOrder.EmittedInSendingOrder | internal/ws/hub.go:168-174 | Events broadcast by one connection are emitted in the order it sent them, none skipped |
| HubPresence.PresenceAgreement | web/src/store/chat.ts:76-81 | For a live connection that lost nothing, the browser shows for each user it mentions whether that user is in the hub's index; one it does not mention is online exactly if it was at registration |
| HubDms.ThreadsRun | internal/ws/hub.go:136-142 | In every reachable state a live connection's thread is exactly the relayed direct messages for it since its registration |
| HubDms.BalancedRun | internal/ws/conn.go:165-166 | In every reachable state the entries of one sending connection, with those it still has to push, fall to both sides of every conversation in the same order |
| HubDms.ThreadGain | internal/ws/hub.go:136-142 | Between two settled states of any run a thread of a live connection that lost nothing gains exactly what was put into the channel for it |
| HubDms.DmAgreement | internal/ws/conn.go:144-167 | Between two settled states of any run the two sides of a conversation gain the same multiset of messages, and those of each sending connection in the same order |
| HubBatches.EntriesRun | internal/ws/conn.go:165-166 | In every reachable state each message that was ever issued has exactly its entries, in order, in the channel's history and what its read loop has still to push; no entry carries another number |
| HubBatches.WholeBetween | internal/ws/conn.go:165-166 | So what is put into the channel between two settled states are whole messages |
| HubConversation.PairAgrees | internal/ws/conn.go:165-166 | Two messages of a conversation land in the same order in both threads if and only if, sent by one user, neither pair of entries lies inside the other, or, sent by the two users, the pairs do not overlap |
| HubConversation.OrderAgrees | internal/ws/conn.go:165-166 | For any log of whole messages the two threads are the same sequence if and only if no two messages of the conversation cross in this way |
| HubConversation.ConversationOrder | internal/ws/conn.go:144-167 | Over any run: what two live connections of different users gain of their conversation between two settled states, whoever wrote over whichever connection, is the same sequence if and only if no two of its messages crossed in the channel |
| HubConversation.SelfThread | internal/ws/conn.go:165-166 | Between two settled states the thread of a user with oneself gains every message exactly twice |
| HubCrossing.ShortRunLosesNothing | internal/ws/conn.go:57-62 | In a run of no more steps than a channel has places no channel drops anything |
| HubCrossing.OppositeOrders | internal/ws/conn.go:144-167 | A run from the start, both users connected, everything relayed and nothing lost, after which the two sides show two messages in opposite orders |
| HubRooms.RoomGain | internal/ws/hub.go:124-135 | Over any stretch of any run throughout which a connection is subscribed to a room, it is handed for the room exactly the messages relayed to it, in order |
| HubRooms.RoomAgreement | web/src/store/chat.ts:54-75 | Two such connections that lost nothing show the same gain under the room's key, the sender included |
| HubTyping.TypingGain | internal/ws/hub.go:124-135 | Over any stretch of any run throughout which a connection is subscribed to a room, or registered for a user, it is handed of the typing there exactly the events relayed for it in that stretch, in order, less those that leave it out |
| HubTyping.TypistsIs | web/src/store/chat.ts:82-99 | The list under a key is what folding the typing events filed under that key makes of it, whatever else arrives in between |
| HubTyping.TypingAgreement | web/src/store/chat.ts:82-99 | So if it lost nothing, its list under the room's key is its list before, changed by those events in the order they were relayed |
| HubTyping.DirectTypingAgreement | web/src/store/chat.ts:82-99 | Over any stretch of any run, a lossless connection registered throughout has, under its thread with a user, the list it had, changed by the typing events relayed from that user to its own, in order |
| HubDms.OnlyTheTwoEnds | internal/ws/conn.go:144-167 | A direct message handed to a connection has that connection's user at one end |
| BrowserStore.ThreadIs | web/src/store/chat.ts:54-75 | A thread is what it was plus the messages filed under it, in arrival order |
| BrowserStore.MessageLands | web/src/store/chat.ts:54-75 | A room message is added under its room; a direct one under the sender, or under the recipient if it is one's own; nothing else changes |
| BrowserStore.PresenceIs | web/src/store/chat.ts:76-81 | Presence shows the last event about each user and nothing about others |
| BrowserStore.TypingIs | web/src/store/chat.ts:82-99 | The typing list under a key holds each user once, exactly those whose last event filed there said so; where an event is filed: BrowserStore.TypingLands |
| BrowserStore.TypingLands | web/src/store/chat.ts:82-99 | Typing in a room changes the list under the room, typing to a recipient the list under the one who types; that user is on it exactly when typing, the others stay in order, and no other list changes |
| BrowserStore.ChatStore.SetTyping | web/src/store/chat.ts:90-98 | The set built from the list, changed and written back |
| BrowserStore.ChatStore.OnMessage | web/src/store/chat.ts:52-100 | The handler leaves the state the reducer gives; what that is: MessageLands, PresenceIs and TypingLands |
| BrowserStore.ChatStore.ReverseInPlace | web/src/store/chat.ts:113-127 | The page is reversed in place |
| BrowserStore.ChatStore.ShowHistory | web/src/store/chat.ts:113-127 | A page is reversed in place and becomes the thread; a history that arrives as null leaves the thread as it was |
| Paging.ShortPageIsAll | internal/store/store.go:210-227 | A page shorter than the limit holds everything before the start |
| Paging.PageIsBounded | internal/store/store.go:210-248 | A page holds at most as many rows as asked for, fifty if nothing sensible was, and that many if there are |
| Paging.PageEnds | internal/store/store.go:210-227 | A full page ends at a time that the table and the limit alone decide, and leaves out no row of that time if and only if no more rows than fit are as new |
| Paging.NextPageContinues | internal/store/store.go:210-227 | Paging on from the oldest row repeats nothing, and misses nothing if and only if the table has no more rows up to that time than the page holds |
| Paging.PagesListAll | internal/store/store.go:210-248 | Paging to the end lists rows newest first and never twice, and every row if and only if, counting the table back in steps of the limit, no step falls between rows of equal times |
| Paging.ATieIsLost | internal/store/store.go:210-227 | A table of three rows, two of one time, and its pages of two: the third row is never listed |
| Paging.ScanMessages | internal/store/store.go:265-289 | The slice is null if and only if there are no rows |
| Paging.OpenHistory | web/src/store/chat.ts:113-127 | From the query to the screen: a page with rows replaces the thread, oldest first; an empty one changes nothing |
| Paging.LoadedThreadIsChronological | web/src/store/chat.ts:113-127 | The thread made of a page is in order of time |
| Paging.DmsAreSymmetric | internal/store/store.go:229-248 | The query for a conversation does not depend on who asks |
| Paging.HistoriesAreApart | internal/store/store.go:210-248 | No message is in a room's history and in a conversation, and none is in two conversations |
| Paging.LiveKeyAgreesWithHistory | internal/store/store.go:233-242 | Of the direct messages that reach a user, the live key of the other party and the query for that party pick the same |
| Paging.QueriesSelectThreads | internal/store/store.go:210-248 | The two history queries select exactly what the store files under that room, or that other party, live |
| Paging.LiveKeyTrustsDelivery | web/src/store/chat.ts:65-67 | For others' messages they differ: the live key is the sender whoever the recipient is |

## Left out

- Sockets, HTTP routes, tokens, password hashing, uploads, environment configuration and the React components: input and output around the two engines.
- Wording of notices and announcements: a line carries its kind, its room or peer, and the message text; /help, /who, /whoami and /ping answer with one notice.
- ChatServer.Server.CmdRooms: returns the summaries in any order and tells the client in one notice; the sorting of the lines and their text are not modelled.
- The sorting of the names in /who.
- Unicode: strings are sequences of ASCII characters, with ASCII white space and case folding; lengths are counted in characters.
- Room.SetName: no caller; a room's name is constant.
- ChatServer.Server.MoveClientRoom: does not model the fallback to the lobby for a blank name, because joinRoom passes only sanitized names.
- ChatServer.Server.Unregister: takes the seat away before it deletes the index entries; inside one lock section the order cannot be observed.
- ChatServer.Server.HandleConn: asks that the next id is free, which ChatInvariants.RunKeeps gives for runs with fewer than 2^64 connections.
- ChatInvariants.RunKeeps: is stated up to 2^64 connections, where the counter wraps and ids repeat (ChatLaws.IdsRepeatOnlyAfterWrap).
- ChatStream.ExactStream: speaks of all lines sent to the client; they are the lines accepted when nothing was dropped.
- The names index at lock-section grain: /nick publishes the new key before the client bears the name.
- Deadlock freedom of internal/chat: a client's mutex and a room's mutex are taken in both orders.
- Send racing with the closing of its channel: a panic there is not modelled; Send and shutdown are atomic.
- HubSystem: a hub lock section is one step, since every other access to the indexes takes the same mutex.
- HubServer.Conn.HandleMessage: asks for room in the broadcast channel; waiting for it is modelled in HubSystem.
- HubServer.Conn.HandleTyping: asks for the same.
- HubServer.Conn.HandleClientEvent: asks for the same; HubServing.Gateway.Take lets the hub relay first.
- HubServing.Run: speaks of complete turns, one after another, a handler that waits being preceded by what it waits for; the interleavings in between are those of HubSystem.
- HubEvents.EventDoes: speaks of an event handled without interruption, from a state in which nobody is in the middle of anything and the broadcast channel has room; so do the other rows of HubEvents, those on who is reached with an empty channel. Interruptions are the subject of HubIndex and HubOrder.
- LockDelivery.DeliveredCount: counts the copies handed to a client's channel, which LockOvertakes.CopiesArrive finds there; what a full or closed channel then drops is in Channels.
- LockQueues.WideRun: speaks of what is put on a channel; a full or closed channel drops it there (Channels), which takes lines away and changes no order.
- LockRefines.SequentialRun: compares the lengths of the logs, since the lock sections carry no texts, and stops short of the wrap of the counter.
- The join notice, the topic, the line before a replay, /history and the announcements at lock-section grain: only chat lines, sent live or replayed on entry, are steps of LockSends.
- HubDms.DmAgreement: orders messages per sending connection; the order of a whole conversation is the subject of HubConversation.ConversationOrder.
- The write deadline, pings and read limits of the connections.
- lastSeen in presence events, sender names and avatars in messages: copied data without effect on any choice.
- Database contents beyond a table of messages: memberships are answers given to the read loop, and being subscribed is not claimed to imply being a member.
- The store's other queries (users, rooms, read marks) and the HTTP handlers.
