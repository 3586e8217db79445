# Rooms, task trees and chats — a Dafny model

This project models the core of a NestJS collaboration back end.

- **Rooms:** a room has a moderator, participants and a list of top-level tasks.
- **Tasks:** a task has one chat, an optional parent task and an ordered list of subtasks.
- **Files:** uploaded files are kept as metadata records.

The model covers:

- **Task service** (`create`, `update`, `delete`, `deleteMany`): these keep `parentTask`, `subTasks`, `room.tasks` and `chat.task` in step.
  - Each operation runs in a transaction: it either yields the new store or fails with the store unchanged.
- **Chat service:** creating an empty chat and binding it to its task.
- **Rooms service and the room creation/membership rules of the rooms controller,** including the room DTO.
- **The six HTTP guards:** chat access, task participant, task moderator, room moderator, room participants and message author.
  - Each is a verdict function over the store that applies its checks in the source's order.
- **The websocket gateway:** per-connection state (user id, last room, joined channels) and the emit log of the connection, join, disconnect and send handlers.
- **The file service:** the MIME whitelist and 100 MiB limit on upload, classification of a MIME type, and the `Range` handling on download.
  - Range handling is a restricted form of the single `bytes=first-last` byte-range-spec of section 2.1 of RFC 7233.
  - It is answered with the 206 status and Content-Range of sections 4.1 and 4.2 of RFC 7233.

## Structure

- **Data:**
  - `common.dfy`: ids, options, HTTP errors, `Result`, JavaScript truthiness of optional strings.
  - `lists.dfy`: `$pull`, `$addToSet`, `new Set`, populate filtering.
  - `schema.dfy`: the documents and the `Store` class with snapshot and rollback.
  - `decimal.dfy`: `parseInt` and `${n}` on naturals.
- **Step functions:**
  - `task_tree.dfy`: each task-service operation as a function from a store value to an outcome.
  - `tasks_service.dfy`: the same operations as methods on `Store`, each proved equal to its step function.
  - `consistency.dfy`: the cross-reference invariant `Valid` and what each task operation does to it.
- **Services:**
  - `chat_service.dfy`, `file_service.dfy`.
  - `rooms.dfy`: rooms service and rooms controller.
  - `room_delete.dfy`: the room delete cascade.
- **Access and sockets:** `guards.dfy` (the HTTP guards) and `gateway.dfy` (the websocket gateway).

## The invariant

`Consistency.Valid` says:

- every task's chat points back at it;
- a task's parent exists, lists it, and is in the same room;
- every listed subtask exists and names its parent;
- every top-level task in an existing room is listed by the room;
- every existing task a room lists is one of the room's top-level tasks;
- the subtask and room lists hold no duplicates;
- parent links are acyclic, witnessed by a rank.

**Result:** `create`, `update` and `delete` keep `Valid`.

`Strict` additionally asks that room lists name only existing tasks. `create` and `update` keep it, and so does `delete`, except when it deletes a top-level task that has children: the deleted id then stays in the room's list (`Consistency.TopLevelDeleteLeavesDangling`). A room delete is different: it breaks `Valid` itself, since a removed task's subtasks that live outside the room's list keep pointing at a parent that no longer exists (`RoomDelete.DeleteOrphansSubtasks`).

## Model

| member | source | states |
|---|---|---|
| Lists.RemoveAll | src/task/tasks.service.ts:367-381 | `$pull`/filter: an element stays iff it was there and is not removed; the list never grows and gains no duplicate; nothing changes when no element is removed |
| Lists.RemoveAllAppend | src/task/tasks.service.ts:186-189 | filtering a concatenation filters each part |
| Lists.AddToSet | src/task/tasks.service.ts:359-363 | `$addToSet $each`: the old list is a prefix of the result, membership is the union, duplicates are not added, and an element already present changes nothing |
| Lists.AddToSetIdempotent | src/rooms/rooms.service.ts:62-71 | adding the same elements twice is adding them once |
| Lists.AddToSetFresh | src/task/tasks.service.ts:123-130 | when the list and the added elements together hold no duplicate, adding as a set is plain appending |
| Lists.Dedup | src/task/tasks.service.ts:203-205 | `[...new Set(xs)]`: same members, first occurrences in order, no duplicates |
| Lists.DedupOfNoDup | src/task/tasks.service.ts:203-205 | a list without duplicates is its own dedup |
| Lists.DedupAppend | src/task/tasks.service.ts:204 | `[...new Set([...a, ...b])]` is the dedup of a with the missing elements of b appended in order |
| Lists.Present | src/task/tasks.service.ts:405-418 | populate of a list of references keeps exactly the ids that resolve, and all of them when all resolve |
| Lists.PresentAppend | src/task/tasks.service.ts:405-418 | populate keeps the references' order: resolving a concatenation concatenates the resolved parts |
| Decimal.ValueShow | src/files/file.service.ts:113-124 | `parseInt` reads back the number `${n}` wrote |
| Decimal.ShowInjective | src/files/file.service.ts:124 | different numbers have different numerals |
| Decimal.ValueLeadingZero | src/files/file.service.ts:113-114 | leading zeros do not change the parsed value |
| FileService.DetermineFileType | src/files/file.service.ts:76-80 | 'image' iff the type starts with `image/`, 'video' iff `video/`, 'file' otherwise |
| FileService.WhitelistCategories | src/files/file.service.ts:23-32 | every whitelisted type is classified as the category of its list |
| FileService.CheckUpload | src/files/file.service.ts:19-56 | accepted iff whitelisted, at most 100 MiB and with content; each failure's message in check order |
| FileService.UploadFile | src/files/file.service.ts:19-74 | on success the metadata record is stored under the new id; on failure the store is unchanged |
| FileService.DeleteFile | src/files/file.service.ts:82-88 | removes the record; a missing id is no error |
| FileService.MatchRange | src/files/file.service.ts:110 | a match is exactly `bytes=` digits `-` optional digits |
| FileService.MatchRangeComplete | src/files/file.service.ts:110 | every header of that form matches, with its two groups |
| FileService.SuffixRangeRejected | src/files/file.service.ts:110-111 | a suffix range `bytes=-N` never matches |
| FileService.ParseRangeRoundTrip | src/files/file.service.ts:110-114 | a header written from numbers parses back to those numbers |
| FileService.ResolveRange | src/files/file.service.ts:113-129 | accepted iff first < size and first <= last < size (rejected, not clamped); 206 with `Content-Range: bytes first-last/size` and length last-first+1 |
| FileService.GetFileStream | src/files/file.service.ts:102-141 | missing file gives NotFound; no range gives 200 with the whole file; a bad header gives "Invalid range header"; a range reply streams a non-empty part of the file |
| FileService.RangeReplyRepeatable | src/files/file.service.ts:109-131 | asking again for the range a 206 reply announced gives the same reply |
| ChatService.Create | src/chat/chat.service.ts:30-36 | a new chat with no task and no threads; nothing else changes |
| ChatService.WithTask | src/chat/chat.service.ts:24-26 | sets the chat's task, overwriting it, and changes no other chat and no other field |
| ChatService.AddTaskId | src/chat/chat.service.ts:17-28 | succeeds iff the chat exists; otherwise "Chat not found" with the store unchanged |
| TaskTree.ParticipantList | src/task/tasks.service.ts:64-73 | the creator first, then the requested ids in order, duplicates kept |
| TaskTree.ParentTask | src/task/tasks.service.ts:75-82 | no parent id gives none; otherwise the parent must exist and be in the same room, or "Parent task not found or invalid" |
| TaskTree.UploadAll | src/task/tasks.service.ts:88-92 | succeeds iff every upload passes its checks; the stored file ids are then the old ones plus the new ids |
| TaskTree.UpdatedParticipants | src/task/tasks.service.ts:197-210 | removal wins over addition; adding dedups; with no non-empty list the participants are unchanged |
| TaskTree.UpdatedParticipantsKeepsOrder | src/task/tasks.service.ts:202-208 | for a participant list without duplicates and with no removals, the existing participants are kept in order as a prefix (`Lists.DedupAppend` gives the order in general) |
| TaskTree.MergedFileIds | src/task/tasks.service.ts:175-195 | existing ++ uploaded minus every id to remove; plain concatenation when nothing is removed |
| TaskTree.MergedFileIdsOrder | src/task/tasks.service.ts:186-189 | the result is the filtered existing ids followed by the filtered uploaded ids |
| TaskTree.FindById | src/task/tasks.service.ts:396-421 | fails, with "Task not found", iff the task is missing; otherwise gives the stored task (chat and room are not populated, so a dangling one does not fail) |
| TaskTree.SetParents | src/task/tasks.service.ts:342-356 | every listed existing task gets the new parent link, every other task keeps its own; no other field of any task and no other collection changes |
| TaskTree.Purged | src/task/tasks.service.ts:314-316 | removes the task, its chat and its files; every remaining task, chat and file record is unchanged, and rooms, users, threads and messages are untouched |
| TaskTree.DeleteOutcome | src/task/tasks.service.ts:303-326 | fails iff the task is missing, rethrowing "Task not found"; a delete removes exactly that task id |
| TaskTree.FoundTasks | src/task/tasks.service.ts:270-276 | exactly the listed ids that name a task |
| TaskTree.ToSet | src/task/tasks.service.ts:189 | the members of a list |
| TasksService.ValidateUsers | src/task/tasks.service.ts:64-73 | succeeds iff every id names a user; otherwise "User does not exist" |
| TasksService.UploadFiles | src/task/tasks.service.ts:88-92 | uploads one by one, equal to `UploadAll`; the ids returned are the new ids |
| TasksService.UpdateParentOrRoom | src/task/tasks.service.ts:123-138 | pushes the task onto its parent (adding the moderator to the parent's participants as a set) or onto its room |
| TasksService.Create | src/task/tasks.service.ts:40-62 | the outcome of `CreateOutcome`: the new store, or "Transaction failed: " with the store rolled back |
| TasksService.HandleFileUpdates | src/task/tasks.service.ts:175-195 | returns `MergedFileIds`; stores the uploads and deletes every id to remove, owned or not |
| TasksService.DeleteFiles | src/task/tasks.service.ts:190-192 | deleting the listed files one by one removes exactly those files and nothing else |
| TasksService.Update | src/task/tasks.service.ts:140-158 | the outcome of `UpdateOutcome`, with rollback on error, including the null read when the written task is mapped with an unresolved chat or room (lines 231-257) |
| TasksService.SetParents | src/task/tasks.service.ts:342-356 | the per-child `updateOne` loop equals `TaskTree.SetParents` |
| TasksService.TransferSubTasks | src/task/tasks.service.ts:328-365 | equals `TaskTree.TransferSubTasks` |
| TasksService.RemoveFromParentOrRoom | src/task/tasks.service.ts:367-381 | equals `TaskTree.RemoveFromParentOrRoom` |
| TasksService.Delete | src/task/tasks.service.ts:303-326 | the outcome of `DeleteOutcome`, with rollback on error |
| TasksService.ChatIdsOf | src/task/tasks.service.ts:292-293 | the found tasks' chat ids in order; fails with the null-read TypeError iff some chat does not resolve |
| TasksService.DeleteChats | src/task/tasks.service.ts:294-296 | the loop removes exactly the listed chats |
| TasksService.DeleteManySteps | src/task/tasks.service.ts:261-301 | the three bulk steps give the state `DeleteManyOutcome` describes |
| TasksService.DeleteMany | src/task/tasks.service.ts:261-268 | nothing when no listed task exists; else deletes the found tasks' files and chats and the listed tasks |
| Consistency.PopulateResolves | src/task/tasks.service.ts:405-418 | under the links, populate drops no parent and no child |
| Consistency.CreateChecks | src/task/tasks.service.ts:40-58 | create succeeds iff the users exist, the parent is valid and every upload passes; otherwise the error of the first failing step (users, parent, then the upload's own error), each wrapped as a failed transaction; on success the new state is `Created` applied to the uploaded file records |
| Consistency.CreatedEffects | src/task/tasks.service.ts:94-138 | the new task's fields (TODO, creator as moderator, participants, no subtasks, parent, room), the chat bound to it, the parent's subTasks and participants or the room's tasks updated, and nothing else |
| Consistency.CreateKeepsValid | src/task/tasks.service.ts:40-62 | a successful create keeps `Valid`, and `Strict` |
| Consistency.CreatedKeepsRanked | src/task/tasks.service.ts:103-114 | the new task ranks above its parent, so no cycle appears |
| Consistency.NoSelfLinks | src/task/tasks.service.ts:328-348 | under `Valid` no task is its own parent or child, nor its parent's child |
| Consistency.DeleteLeafUnderParent | src/task/tasks.service.ts:367-373 | deleting (`delete`, lines 309-316) a childless subtask pulls it from its parent's subTasks only |
| Consistency.DeleteLeafTopLevel | src/task/tasks.service.ts:374-380 | deleting (`delete`, lines 309-316) a childless top-level task pulls it from its room's tasks only |
| Consistency.DeleteInnerTask | src/task/tasks.service.ts:328-348 | the parent loses the id and gains the children at the end, as a set; each child's parent becomes the grandparent |
| Consistency.DeleteTopLevelWithChildren | src/task/tasks.service.ts:349-364 | each child becomes top-level and is added to the room's tasks as a set; the deleted id stays in the room's list |
| Consistency.DeleteKeepsValid | src/task/tasks.service.ts:303-381 | delete keeps `Valid`; it keeps `Strict` unless the task is top-level with children |
| Consistency.TopLevelDeleteLeavesDangling | src/task/tasks.service.ts:349-364 | deleting a top-level task with children leaves its id in the room's tasks, breaking `Strict` |
| Consistency.UpdateChecks | src/task/tasks.service.ts:140-257 | update succeeds iff the task exists, the users to add exist, every upload passes and the task's chat and room resolve; otherwise the error of the first failing step in that order (task not found, user does not exist, the upload's own error, the null read), each wrapped as a failed transaction |
| Consistency.UpdateEffects | src/task/tasks.service.ts:140-257 | on success only the task's title, description, status, files and participants change, as the dto gives them; every id to remove loses its file record; rooms, chats and users are untouched |
| Consistency.UpdateKeepsValid | src/task/tasks.service.ts:140-158 | update keeps `Valid` and `Strict` |
| RoomsService.Create | src/rooms/rooms.service.ts:23-35 | the room has the given name, moderator and participants and no tasks |
| RoomsService.Resolve | src/rooms/rooms.service.ts:37-41 | the populated list pairs each resolving id with its document, in order |
| RoomsService.FindById | src/rooms/rooms.service.ts:37-46 | "Room not found" iff the id does not resolve; the populated participants are exactly the listed users that exist |
| RoomsService.WithParticipant | src/rooms/rooms.service.ts:62-71 | `$addToSet`: a present user changes nothing; an absent one is appended |
| RoomsService.AddParticipantIdempotent | src/rooms/rooms.service.ts:62-71 | adding the same participant twice equals adding once |
| RoomsService.AddParticipant | src/rooms/rooms.service.ts:62-71 | "Room not found" with the store unchanged, or the state `WithParticipant` describes |
| RoomsService.FindByModerator | src/rooms/rooms.service.ts:73-79 | exactly the rooms whose moderator is the id |
| RoomsService.FindByParticipant | src/rooms/rooms.service.ts:81-87 | exactly the rooms whose participants contain the id |
| RoomsService.CreatorFindsRoom | src/rooms/rooms.controller.ts:44-48 | a created room is found by both queries for its creator |
| RoomsService.DeleteOutcome | src/rooms/rooms.service.ts:89-120 | "Room not found" for a missing room; a successful delete removes the room |
| RoomsService.Delete | src/rooms/rooms.service.ts:89-120 | the outcome of `DeleteOutcome`, with rollback on error |
| RoomDelete.DeleteFailsOnlyOnMissingChat | src/rooms/rooms.service.ts:101-115 | an existing room's delete fails iff a listed task lost its chat, as "Failed to delete room: " |
| RoomDelete.ValidDeleteSucceeds | src/rooms/rooms.service.ts:89-109 | under `Valid` a room delete succeeds |
| RoomDelete.DeleteEffects | src/rooms/rooms.service.ts:101-107 | removes the room and exactly the listed tasks with their chats and files; other tasks are untouched |
| RoomDelete.DeleteOrphansSubtasks | src/rooms/rooms.service.ts:101-104 | a subtask of a listed task survives with a parent link to a deleted task |
| RoomsController.MapRoomToDto | src/rooms/rooms.controller.ts:114-131 | fails iff the moderator does not resolve; keeps the order and length of participants and tasks, with their ids and names |
| RoomsController.CreateRoom | src/rooms/rooms.controller.ts:40-51 | the creator is moderator and sole participant; the DTO fails iff the creator has no user document, and the room stays |
| RoomsController.AddParticipant | src/rooms/rooms.controller.ts:89-103 | "User does not exist", "Room not found" or "User already in room" leave the store unchanged; otherwise the participant count grows by exactly one |
| Guards.ChatAccessGuard | src/chat/guards/chat-access.guard.ts:14-41 | the chat id comes from the body, else the route; BadRequest iff absent; a cast error for a malformed id; NotFound (chat) iff the chat is missing; NotFound (task) iff the chat's task is unset or missing; Forbidden iff the user is not among that task's participants; passes iff none of these |
| Guards.TaskParticipantGuard | src/task/guard/task-participants.guard.ts:18-45 | BadRequest iff the id is invalid; NotFound iff the task is missing; Forbidden("Forbidden") iff the task exists and the user is not a participant; passes iff the user is a participant |
| Guards.TaskModeratorGuard | src/task/guard/task-moderator.guard.ts:42-64 | BadRequest iff the id is invalid; NotFound iff the task is missing; Forbidden("Only moderator allowed") iff the task exists and the user is not its moderator, participant or not; passes iff the user is the moderator |
| Guards.RoomModeratorGuard | src/rooms/guard/room-moderator.guard.ts:46-69 | BadRequest iff the id is invalid; NotFound iff the room is missing; Forbidden("Only moderator allowed") iff the room exists and the user is not its moderator; passes iff the user is the moderator, and hands on the room's id, moderator, participants and tasks |
| Guards.RoomIdSource | src/rooms/guard/room-participants.guard.ts:21 | route `id`, else route `roomId`, else body `roomId` |
| Guards.RoomParticipantsGuard | src/rooms/guard/room-participants.guard.ts:18-46 | BadRequest iff the id is absent or invalid; NotFound iff the room is missing; Forbidden("Forbidden") iff the room exists and the user is not listed, the moderator included; passes iff the user is listed; hands on the room's id, moderator, participants and tasks |
| Guards.ModeratorNeedNotBeParticipant | src/rooms/guard/room-participants.guard.ts:40-42 | an unlisted moderator passes the moderator guard and fails the participants guard |
| Guards.AuthorVerdict | src/messages/guard/MessageAuthor.guard.ts:14-47 | '/messages' is checked before '/threads'; BadRequest iff neither occurs; in each branch a cast error for a malformed id, NotFound iff the message or thread is missing, Forbidden with the branch's message iff it exists and the caller is not the sender; passes iff the caller is the message's, or the main message's, sender |
| Guards.MessageAuthorGuardAsWritten | src/messages/guard/MessageAuthor.guard.ts:16-28 | never passes: the author of an existing message is refused |
| Guards.MessageAuthorGuard | src/messages/guard/MessageAuthor.guard.ts:14-47 | the guard against the caller's own id: the author passes; another caller gets Forbidden with the branch's message; a missing message or thread gets NotFound |
| Guards.AuthorRefusedAsWritten | src/messages/guard/MessageAuthor.guard.ts:16-28 | for an existing message, the author is refused as written and let through when compared by id |
| Gateway.ChannelsDistinct | src/rooms/room.gateway.ts:54-78 | room and chat channel names never collide and each names one room or chat |
| Gateway.CheckChatAccess | src/rooms/room.gateway.ts:150-155 | false for a missing chat; true iff the user is a populated participant of the chat's task; throws iff the id is not an ObjectId, the chat has no task (`toString` of undefined) or its task is missing ("Task not found") |
| Gateway.CheckRoomAccess | src/rooms/room.gateway.ts:157-160 | throws "Room not found" for a missing room; true iff the user is a populated participant |
| Gateway.ChatGuardAgreesWithGateway | src/chat/guards/chat-access.guard.ts:30-38 | for a chat whose task exists and a user who exists, the HTTP guard and the gateway check agree |
| Gateway.GatewayDropsMissingUsers | src/rooms/room.gateway.ts:153-154 | a listed participant with no user document passes the HTTP guard but not the gateway |
| Gateway.HandleConnection | src/rooms/room.gateway.ts:39-50 | a verified token sets the user id; otherwise the socket is disconnected and the user id is unset |
| Gateway.HandleDisconnect | src/rooms/room.gateway.ts:52-58 | `userOffline` goes to the last room joined, only if there is one |
| Gateway.HandleJoinRoom | src/rooms/room.gateway.ts:60-70 | an unauthorized join only emits 'Forbidden' to the caller; an authorized one adds the room channel, overwrites the room, broadcasts `userOnline`, then acknowledges |
| Gateway.HandleJoinChat | src/rooms/room.gateway.ts:72-80 | the chat channel is added only when access holds; the room is never changed |
| Gateway.HandleSendMessage | src/rooms/room.gateway.ts:82-114 | unauthorized or failed sends emit an error to the caller only; otherwise `createMessage` to the chat's channel, then the notice to the channel of the task's room |
| Gateway.HandleSendThread | src/rooms/room.gateway.ts:116-148 | as for messages, with `threadMessage` and `newThreadNotification` |

## Left out

- MongoDB sessions, `withTransaction` and populate mechanics. A transaction is a snapshot of the store that is restored on error; populate drops references that do not resolve.
- GridFS byte streaming, chunk deletion and the upload pipe. Only the metadata records and the byte interval a download would stream are modelled.
- Authentication (JWT signing, bcrypt, cookies, clocks). In the gateway, token verification is a function parameter.
- `Types.ObjectId.isValid` is a function parameter. Ids reaching the services are taken to be well-formed ObjectIds: a cast error there is not modelled. It is modelled in the guards and in the gateway's checks.
- Concurrency: the `Promise.all` fan-out is sequential here. Socket.io delivery is an append to the server's emit log.
- `chatService.delete` does not exist in the code shown; it is modelled as removing the chat record. No thread or message cascade exists, and none is added.
- `messageService.create` and `threadService.create` are outside this model. The gateway takes the created record, or the error creation failed with, as a parameter. `checkMessageAuthor` is never called and is left out.
- Gateway.HandleSendMessage: the store is one value for the whole handler. So the "Chat not found" branch after a granted access check, and a failure of the task lookup after the chat event was emitted, cannot happen in the model; both need a concurrent delete.
- Gateway.HandleJoinRoom, Gateway.HandleJoinChat, Gateway.HandleSendMessage, Gateway.HandleSendThread: a check that throws ends the handler with that error (`Err`). The framework's `exception` event to the client is not modelled.
- The response DTOs of task create, update and find (`mapToPopulatedTask`) are not modelled as values. Create and find do not populate chat or room, so their `_id` reads cannot fail, and a populated array drops what does not resolve. Update populates both, and a chat or room that does not resolve fails the update with the null read; that failure is modelled.
- Errors of the database itself are not modelled; a write never fails. So after the lookup, no step of a task delete fails, and the "Failed to delete task: " wrapping is never reached.
- `rooms.service.update` (src/rooms/rooms.service.ts:48-60) is left out although it writes a room's name and participants: its only caller, the controller's `updateRoom` (src/rooms/rooms.controller.ts:75-84), is commented out, so no route reaches it.
- `getFileMetadata`, `downloadFile`, the rooms controller's `getMyRooms`, `getRoom` and `deleteRoom` wrappers, and the task controller routing are left out: they only read or forward.
- Transferring subtasks applies `$pull` and `$addToSet` to the same path in one update. MongoDB rejects that as a conflict; the model applies the evident intent: pull, then add as a set.
- Task statuses other than TODO are carried by name.
- Promoted children are added to the grandparent at the end, with set semantics. This follows the code; a splice at the deleted task's position is not what the code does.
- Consistency.CreateKeepsValid: assumes the store-generated task and chat ids are fresh; the generator is not modelled.
- RoomsService.FindByModerator: returns the set of room ids. The order of the query's result and the populated documents are not modelled.
- RoomsService.FindByParticipant: returns the set of room ids, as for `FindByModerator`.

## Findings

| source | as written | input that shows it | evidently intended | confidence | as-written member | corrected member |
|---|---|---|---|---|---|---|
| src/messages/guard/MessageAuthor.guard.ts:16 | compares the sender with `req.user.sub`, but the request's user is the user document, which has no `sub`; the id compared is undefined | the author of an existing message calls a `/messages/:id` route: Forbidden "You are not the author of this message" | compare with the caller's own id | not executed; medium (the guard is wired only to commented-out routes) | Guards.MessageAuthorGuardAsWritten, Guards.AuthorRefusedAsWritten | Guards.MessageAuthorGuard |
