/** The six HTTP guards. Each reads the store and gives a verdict: the
    request goes on (`Ok`) or is refused with the first failing check's
    error. Ids are checked with `isValid`, which stands for
    `Types.ObjectId.isValid`; `findById` on a string that is not an
    ObjectId fails with a cast error, which is not an HttpException. */
module Guards {
  import opened Common
  import opened Schema

  /** `Types.ObjectId.isValid` on a parameter that may be absent. */
  predicate ValidId(isValid: string -> bool, id: Option<string>)
  {
    id.Some? && isValid(id.value)
  }

  /** The error `findById` raises for a value that is not an ObjectId. */
  function CastError(value: string, model: string): (e: HttpError)
    ensures e.Internal?
  {
    Internal("Cast to ObjectId failed for value \"" + value + "\" (type string) at path \"_id\" for model \"" + model + "\"")
  }

  /** Whether `part` occurs in `s` (`String.prototype.includes`). */
  predicate Contains(s: string, part: string)
    decreases |s|
  {
    (|part| <= |s| && s[..|part|] == part) || (|s| > 0 && Contains(s[1..], part))
  }

  const ChatIdRequired := "chatId is required"
  const ChatNotFound := "Чат не найден"
  const ChatTaskNotFound := "Задача не найдена"
  const AccessDenied := "Доступ запрещён"

  /** `ChatAccessGuard`: the chat id comes from the body, else from the
      route; the chat must exist, its task must exist, and the user must be
      one of the task's participants. */
  function ChatAccessGuard(d: Db, isValid: string -> bool, userId: Id,
                           bodyChatId: Option<string>, paramsChatId: Option<string>): (r: Result<()>)
    ensures var chatId := Or(bodyChatId, paramsChatId);
      && (!Truthy(chatId) <==> r == Err(BadRequest(ChatIdRequired)))
      && (r.Ok? <==>
            Truthy(chatId) && isValid(chatId.value) && chatId.value in d.chats
            && d.chats[chatId.value].task.Some? && d.chats[chatId.value].task.value in d.tasks
            && userId in d.tasks[d.chats[chatId.value].task.value].participants)
      && (r == Err(Forbidden(AccessDenied)) <==>
            Truthy(chatId) && isValid(chatId.value) && chatId.value in d.chats
            && d.chats[chatId.value].task.Some? && d.chats[chatId.value].task.value in d.tasks
            && userId !in d.tasks[d.chats[chatId.value].task.value].participants)
      && (Truthy(chatId) && !isValid(chatId.value) ==> r == Err(CastError(chatId.value, "Chat")))
      && (r == Err(NotFound(ChatNotFound)) <==>
            Truthy(chatId) && isValid(chatId.value) && chatId.value !in d.chats)
      && (r == Err(NotFound(ChatTaskNotFound)) <==>
            Truthy(chatId) && isValid(chatId.value) && chatId.value in d.chats
            && (d.chats[chatId.value].task.None? || d.chats[chatId.value].task.value !in d.tasks))
  {
    var chatId := Or(bodyChatId, paramsChatId);
    if !Truthy(chatId) then Err(BadRequest(ChatIdRequired))
    else if !isValid(chatId.value) then Err(CastError(chatId.value, "Chat"))
    else if chatId.value !in d.chats then Err(NotFound(ChatNotFound))
    else
      var task := d.chats[chatId.value].task;
      if task.None? || task.value !in d.tasks then Err(NotFound(ChatTaskNotFound))
      else if userId !in d.tasks[task.value].participants then Err(Forbidden(AccessDenied))
      else Ok(())
  }

  /** `TaskParticipantGuard`: the task named by the route must exist and
      list the user among its participants. */
  function TaskParticipantGuard(d: Db, isValid: string -> bool, userId: Id, taskId: Option<string>): (r: Result<()>)
    ensures !ValidId(isValid, taskId) <==> r == Err(BadRequest("Invalid task ID"))
    ensures ValidId(isValid, taskId) && taskId.value !in d.tasks <==> r == Err(NotFound("Task not found"))
    ensures r.Ok? <==> ValidId(isValid, taskId) && taskId.value in d.tasks && userId in d.tasks[taskId.value].participants
    ensures r.Err? && r.error.Forbidden? ==> r.error.message == "Forbidden"
    ensures ValidId(isValid, taskId) && taskId.value in d.tasks && userId !in d.tasks[taskId.value].participants
            <==> r == Err(Forbidden("Forbidden"))
  {
    if !ValidId(isValid, taskId) then Err(BadRequest("Invalid task ID"))
    else if taskId.value !in d.tasks then Err(NotFound("Task not found"))
    else if userId !in d.tasks[taskId.value].participants then Err(Forbidden("Forbidden"))
    else Ok(())
  }

  /** `TaskModeratorGuard`: only the task's moderator passes, participant or
      not. */
  function TaskModeratorGuard(d: Db, isValid: string -> bool, userId: Id, taskId: Option<string>): (r: Result<()>)
    ensures !ValidId(isValid, taskId) <==> r == Err(BadRequest("Invalid task ID"))
    ensures ValidId(isValid, taskId) && taskId.value !in d.tasks <==> r == Err(NotFound("Task not found"))
    ensures r.Ok? <==> ValidId(isValid, taskId) && taskId.value in d.tasks && d.tasks[taskId.value].moderator == userId
    ensures r.Err? && r.error.Forbidden? ==> r.error.message == "Only moderator allowed"
    ensures ValidId(isValid, taskId) && taskId.value in d.tasks && d.tasks[taskId.value].moderator != userId
            <==> r == Err(Forbidden("Only moderator allowed"))
  {
    if !ValidId(isValid, taskId) then Err(BadRequest("Invalid task ID"))
    else if taskId.value !in d.tasks then Err(NotFound("Task not found"))
    else if d.tasks[taskId.value].moderator != userId then Err(Forbidden("Only moderator allowed"))
    else Ok(())
  }

  /** The room document the room guards hand on with the request:
      `select('moderator participants tasks')` reads the id and those three
      fields, and not the name. */
  datatype SelectedRoom = SelectedRoom(id: Id, moderator: Id, participants: seq<Id>, tasks: seq<Id>)

  function SelectRoom(d: Db, roomId: Id): SelectedRoom
    requires roomId in d.rooms
  {
    var room := d.rooms[roomId];
    SelectedRoom(roomId, room.moderator, room.participants, room.tasks)
  }

  /** `RoomModeratorGuard`: only the room's moderator passes; the selected
      fields of the room found are handed on with the request. */
  function RoomModeratorGuard(d: Db, isValid: string -> bool, userId: Id, roomId: Option<string>): (r: Result<SelectedRoom>)
    ensures !ValidId(isValid, roomId) <==> r == Err(BadRequest("Invalid room ID"))
    ensures ValidId(isValid, roomId) && roomId.value !in d.rooms <==> r == Err(NotFound("Room not found"))
    ensures r.Ok? <==> ValidId(isValid, roomId) && roomId.value in d.rooms && d.rooms[roomId.value].moderator == userId
    ensures r.Ok? ==> var room := d.rooms[roomId.value];
      && r.value.id == roomId.value && r.value.moderator == room.moderator == userId
      && r.value.participants == room.participants && r.value.tasks == room.tasks
    ensures r.Err? && r.error.Forbidden? ==> r.error.message == "Only moderator allowed"
    ensures ValidId(isValid, roomId) && roomId.value in d.rooms && d.rooms[roomId.value].moderator != userId
            <==> r == Err(Forbidden("Only moderator allowed"))
  {
    if !ValidId(isValid, roomId) then Err(BadRequest("Invalid room ID"))
    else if roomId.value !in d.rooms then Err(NotFound("Room not found"))
    else if d.rooms[roomId.value].moderator != userId then Err(Forbidden("Only moderator allowed"))
    else Ok(SelectRoom(d, roomId.value))
  }

  /** The room id `RoomParticipantsGuard` reads: the route's `id`, else the
      route's `roomId`, else the body's `roomId`. */
  function RoomIdSource(paramsId: Option<string>, paramsRoomId: Option<string>, bodyRoomId: Option<string>): (id: Option<string>)
    ensures Truthy(paramsId) ==> id == paramsId
    ensures !Truthy(paramsId) && Truthy(paramsRoomId) ==> id == paramsRoomId
    ensures !Truthy(paramsId) && !Truthy(paramsRoomId) ==> id == bodyRoomId
  {
    Or(Or(paramsId, paramsRoomId), bodyRoomId)
  }

  /** `RoomParticipantsGuard`: only a participant of the room passes, even
      the moderator is refused when not listed; the selected fields of the
      room found are handed on with the request. */
  function RoomParticipantsGuard(d: Db, isValid: string -> bool, userId: Id,
                                 paramsId: Option<string>, paramsRoomId: Option<string>, bodyRoomId: Option<string>): (r: Result<SelectedRoom>)
    ensures var roomId := RoomIdSource(paramsId, paramsRoomId, bodyRoomId);
      && (!Truthy(roomId) ==> r == Err(BadRequest("Room ID is required")))
      && (Truthy(roomId) && !isValid(roomId.value) ==> r == Err(BadRequest("Invalid room ID")))
      && (r.Err? && r.error.BadRequest? <==> !Truthy(roomId) || !isValid(roomId.value))
      && (Truthy(roomId) && isValid(roomId.value) && roomId.value !in d.rooms <==> r == Err(NotFound("Room not found")))
      && (r.Ok? <==> Truthy(roomId) && isValid(roomId.value) && roomId.value in d.rooms
                     && userId in d.rooms[roomId.value].participants)
      && (r.Ok? ==> var room := d.rooms[roomId.value];
            && r.value.id == roomId.value && r.value.moderator == room.moderator
            && r.value.participants == room.participants && r.value.tasks == room.tasks
            && userId in r.value.participants)
      && ((Truthy(roomId) && isValid(roomId.value) && roomId.value in d.rooms
           && userId !in d.rooms[roomId.value].participants) <==> r == Err(Forbidden("Forbidden")))
  {
    var roomId := RoomIdSource(paramsId, paramsRoomId, bodyRoomId);
    if !Truthy(roomId) then Err(BadRequest("Room ID is required"))
    else if !isValid(roomId.value) then Err(BadRequest("Invalid room ID"))
    else if roomId.value !in d.rooms then Err(NotFound("Room not found"))
    else if userId !in d.rooms[roomId.value].participants then Err(Forbidden("Forbidden"))
    else Ok(SelectRoom(d, roomId.value))
  }

  /** A room's moderator who is not among its participants passes the
      moderator guard and is refused by the participants guard. */
  lemma ModeratorNeedNotBeParticipant(d: Db, isValid: string -> bool, roomId: string)
    requires isValid(roomId) && roomId != "" && roomId in d.rooms
    requires d.rooms[roomId].moderator !in d.rooms[roomId].participants
    ensures var m := d.rooms[roomId].moderator;
      && RoomModeratorGuard(d, isValid, m, Some(roomId)).Ok?
      && RoomParticipantsGuard(d, isValid, m, Some(roomId), None, None) == Err(Forbidden("Forbidden"))
  {
  }

  /** The verdict of `MessageAuthorGuard` for a caller whose id, as the guard
      reads it, is `caller` (`None`: undefined). A URL with '/messages' is
      checked against the message's sender, before any '/threads' test; a
      URL with '/threads' against the sender of the thread's main message. */
  function AuthorVerdict(d: Db, isValid: string -> bool, url: string, id: Id, caller: Option<Id>): (r: Result<()>)
    ensures !Contains(url, "/messages") && !Contains(url, "/threads") <==> r == Err(BadRequest("Invalid request URL"))
    ensures r.Ok? <==> (caller.Some? && isValid(id) &&
      if Contains(url, "/messages") then id in d.messages && d.messages[id].sender == caller.value
      else (Contains(url, "/threads") && id in d.threads && d.threads[id].mainMessage.Some?
            && d.threads[id].mainMessage.value in d.messages
            && d.messages[d.threads[id].mainMessage.value].sender == caller.value))
    ensures Contains(url, "/messages") ==>
      && (!isValid(id) ==> r == Err(CastError(id, "Message")))
      && (isValid(id) && id !in d.messages <==> r == Err(NotFound("Message not found")))
      && (isValid(id) && id in d.messages && (caller.None? || d.messages[id].sender != caller.value)
          <==> r == Err(Forbidden("You are not the author of this message")))
    ensures !Contains(url, "/messages") && Contains(url, "/threads") ==>
      && (!isValid(id) ==> r == Err(CastError(id, "Thread")))
      && (isValid(id) && id !in d.threads <==> r == Err(NotFound("Thread not found")))
      && (isValid(id) && id in d.threads && r.Err? <==> r == Err(Forbidden("You are not the author of this thread")))
  {
    if Contains(url, "/messages") then
      if !isValid(id) then Err(CastError(id, "Message"))
      else if id !in d.messages then Err(NotFound("Message not found"))
      else if caller.None? || d.messages[id].sender != caller.value then
        Err(Forbidden("You are not the author of this message"))
      else Ok(())
    else if Contains(url, "/threads") then
      if !isValid(id) then Err(CastError(id, "Thread"))
      else if id !in d.threads then Err(NotFound("Thread not found"))
      else
        var main := d.threads[id].mainMessage;
        if main.None? || main.value !in d.messages || caller.None? || d.messages[main.value].sender != caller.value then
          Err(Forbidden("You are not the author of this thread"))
        else Ok(())
    else Err(BadRequest("Invalid request URL"))
  }

  /** `MessageAuthorGuard` as written: it compares against `req.user.sub`,
      but the request's user is the user document, which has no `sub`, so
      the caller's id reads as undefined and no request passes. */
  function MessageAuthorGuardAsWritten(d: Db, isValid: string -> bool, url: string, id: Id, userId: Id): (r: Result<()>)
    ensures r.Err?
    ensures Contains(url, "/messages") && isValid(id) && id in d.messages ==>
      r == Err(Forbidden("You are not the author of this message"))
  {
    AuthorVerdict(d, isValid, url, id, None)
  }

  /** `MessageAuthorGuard` compared against the caller's own id. */
  function MessageAuthorGuard(d: Db, isValid: string -> bool, url: string, id: Id, userId: Id): (r: Result<()>)
    ensures Contains(url, "/messages") && isValid(id) && id in d.messages ==>
      (r.Ok? <==> d.messages[id].sender == userId)
    ensures Contains(url, "/messages") && isValid(id) && id !in d.messages ==> r == Err(NotFound("Message not found"))
    ensures !Contains(url, "/messages") && Contains(url, "/threads") && isValid(id) && id in d.threads ==>
      (r.Ok? <==> var main := d.threads[id].mainMessage;
                  main.Some? && main.value in d.messages && d.messages[main.value].sender == userId)
    ensures Contains(url, "/messages") && isValid(id) && id in d.messages && d.messages[id].sender != userId ==>
      r == Err(Forbidden("You are not the author of this message"))
    ensures !Contains(url, "/messages") && Contains(url, "/threads") && isValid(id) && id !in d.threads ==>
      r == Err(NotFound("Thread not found"))
    ensures !Contains(url, "/messages") && Contains(url, "/threads") && isValid(id) && id in d.threads && r.Err? ==>
      r == Err(Forbidden("You are not the author of this thread"))
  {
    AuthorVerdict(d, isValid, url, id, Some(userId))
  }

  /** The author of an existing message is refused by the guard as written
      and let through by the corrected one. */
  lemma AuthorRefusedAsWritten(d: Db, isValid: string -> bool, id: Id)
    requires isValid(id) && id in d.messages
    ensures MessageAuthorGuardAsWritten(d, isValid, "/messages/" + id, id, d.messages[id].sender)
              == Err(Forbidden("You are not the author of this message"))
    ensures MessageAuthorGuard(d, isValid, "/messages/" + id, id, d.messages[id].sender) == Ok(())
  {
    var url := "/messages/" + id;
    assert url[..|"/messages"|] == "/messages";
  }
}
