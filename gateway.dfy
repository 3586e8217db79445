/** The websocket gateway (namespace `/ws`). Each connection carries the id
    of its user, the last room it joined and the channels it belongs to; the
    server's emits are logged in order. The store is read-only here: the
    records the message and thread services create are outside this model
    and enter as the outcome of that creation. */
module Gateway {
  import opened Common
  import opened Schema
  import opened TaskTree
  import RoomsService
  import Guards

  datatype Target = Caller | Channel(name: string)

  /** What an event carries. */
  datatype Payload =
    | Text(text: string)
    | UserPayload(userId: Option<Id>)
    | RoomPayload(roomId: string)
    | ChatPayload(chatId: string)
    | MessagePayload(chatId: string, message: string)
    | ThreadPayload(chatId: string, thread: string)
    | MessageNotice(chatId: string, threadId: string)
    | ThreadNotice(chatId: string)

  datatype Emit = Emit(target: Target, event: string, payload: Payload)

  function RoomChannel(roomId: string): (c: string)
    ensures |c| == 5 + |roomId| && c[..5] == "room:" && c[5..] == roomId
  {
    "room:" + roomId
  }

  function ChatChannel(chatId: string): (c: string)
    ensures |c| == 5 + |chatId| && c[..5] == "chat:" && c[5..] == chatId
  {
    "chat:" + chatId
  }

  /** Room and chat channels never share a name, and each names one room or
      chat. */
  lemma ChannelsDistinct(a: string, b: string)
    ensures RoomChannel(a) != ChatChannel(b)
    ensures RoomChannel(a) == RoomChannel(b) <==> a == b
    ensures ChatChannel(a) == ChatChannel(b) <==> a == b
  {
    assert RoomChannel(a)[3] == 'm' && ChatChannel(b)[3] == 't';
  }

  /** The message of the TypeError raised by calling `toString` on an unset
      reference. */
  const UndefinedRead := "Cannot read properties of undefined (reading 'toString')"

  /** `checkChatAccess`: false for a missing chat; otherwise whether the
      user is among the participants of the chat's task as populated (user
      documents that exist). An error is thrown when the chat has no task or
      its task is missing. */
  function CheckChatAccess(d: Db, isValid: string -> bool, userId: Option<Id>, chatId: string): (r: Result<bool>)
    ensures isValid(chatId) && chatId !in d.chats ==> r == Ok(false)
    ensures r == Ok(true) <==>
      isValid(chatId) && chatId in d.chats && d.chats[chatId].task.Some?
      && d.chats[chatId].task.value in d.tasks
      && userId.Some? && userId.value in d.tasks[d.chats[chatId].task.value].participants
      && userId.value in d.users
    ensures r.Err? <==>
      !isValid(chatId)
      || (chatId in d.chats && (d.chats[chatId].task.None? || d.chats[chatId].task.value !in d.tasks))
    ensures isValid(chatId) && chatId in d.chats && d.chats[chatId].task.None? ==> r == Err(Internal(UndefinedRead))
    ensures isValid(chatId) && chatId in d.chats && d.chats[chatId].task.Some? && d.chats[chatId].task.value !in d.tasks ==>
      r == Err(NotFound("Task not found"))
  {
    if !isValid(chatId) then Err(Guards.CastError(chatId, "Chat"))
    else if chatId !in d.chats then Ok(false)
    else
      var task := d.chats[chatId].task;
      if task.None? then Err(Internal(UndefinedRead))
      else match TaskTree.FindById(d, task.value)
        case Err(e) => Err(e)
        case Ok(t) => Ok(userId.Some? && userId.value in Lists.Present(t.participants, d.users))
  }

  /** `checkRoomAccess`: whether the user is among the room's participants as
      populated; a missing room throws "Room not found". */
  function CheckRoomAccess(d: Db, isValid: string -> bool, userId: Option<Id>, roomId: string): (r: Result<bool>)
    ensures isValid(roomId) && roomId !in d.rooms <==> r == Err(NotFound("Room not found"))
    ensures r.Err? <==> !isValid(roomId) || roomId !in d.rooms
    ensures r == Ok(true) <==>
      isValid(roomId) && roomId in d.rooms && userId.Some?
      && userId.value in d.rooms[roomId].participants && userId.value in d.users
  {
    if !isValid(roomId) then Err(Guards.CastError(roomId, "Room"))
    else match RoomsService.FindById(d, roomId)
      case Err(e) => Err(e)
      case Ok(room) =>
        Ok(userId.Some? && RoomsService.ListsParticipant(room, userId.value))
  }

  /** Where the HTTP chat guard and the gateway's check meet: for a chat
      whose task exists and a user with a user document, both let the
      same users in. */
  lemma ChatGuardAgreesWithGateway(d: Db, isValid: string -> bool, userId: Id, chatId: string)
    requires chatId != "" && isValid(chatId) && chatId in d.chats && d.chats[chatId].task.Some?
    requires d.chats[chatId].task.value in d.tasks
    requires userId in d.users
    ensures (Guards.ChatAccessGuard(d, isValid, userId, Some(chatId), None).Ok?
             <==> CheckChatAccess(d, isValid, Some(userId), chatId) == Ok(true))
  {
  }

  /** A participant id whose user document is gone passes the HTTP chat
      guard, which compares raw ids, but not the gateway's check, which
      compares populated participants. */
  lemma GatewayDropsMissingUsers(d: Db, isValid: string -> bool, userId: Id, chatId: string)
    requires chatId != "" && isValid(chatId) && chatId in d.chats && d.chats[chatId].task.Some?
    requires d.chats[chatId].task.value in d.tasks
    requires userId in d.tasks[d.chats[chatId].task.value].participants && userId !in d.users
    ensures Guards.ChatAccessGuard(d, isValid, userId, Some(chatId), None).Ok?
    ensures CheckChatAccess(d, isValid, Some(userId), chatId) == Ok(false)
  {
  }

  /** The server side: every emit, to the caller or to a channel, in order. */
  class Server {
    var emitted: seq<Emit>

    constructor ()
      ensures emitted == []
    {
      emitted := [];
    }
  }

  /** One client socket: `data.userId`, `data.roomId`, its joined channels
      and whether it is still connected. */
  class Connection {
    var userId: Option<Id>
    var roomId: Option<string>
    var channels: set<string>
    var connected: bool

    constructor ()
      ensures userId == None && roomId == None && channels == {} && connected
    {
      userId := None;
      roomId := None;
      channels := {};
      connected := true;
    }
  }

  /** `handleConnection`: the token comes from the handshake's auth, else
      from its query. `verify` stands for the JWT verification and gives the
      token's subject, or `None` where verification throws; an absent token
      fails verification. */
  method HandleConnection(client: Connection, authToken: Option<string>, queryToken: Option<string>,
                          verify: string -> Option<Id>)
    modifies client
    ensures var token := Or(authToken, queryToken);
      var sub := if token.Some? then verify(token.value) else None;
      && (sub.Some? ==> client.userId == sub && client.connected == old(client.connected))
      && (sub.None? ==> client.userId == old(client.userId) && !client.connected)
    ensures client.roomId == old(client.roomId) && client.channels == old(client.channels)
  {
    var token := Or(authToken, queryToken);
    var sub := if token.Some? then verify(token.value) else None;
    if sub.Some? {
      client.userId := sub;
    } else {
      client.connected := false;
    }
  }

  /** `handleDisconnect`: the last room joined, if any, hears that the user
      went offline. */
  method HandleDisconnect(server: Server, client: Connection)
    modifies server
    ensures Truthy(client.roomId) ==>
      server.emitted == old(server.emitted) + [Emit(Channel(RoomChannel(client.roomId.value)), "userOffline", UserPayload(client.userId))]
    ensures !Truthy(client.roomId) ==> server.emitted == old(server.emitted)
  {
    if Truthy(client.roomId) {
      server.emitted := server.emitted + [Emit(Channel(RoomChannel(client.roomId.value)), "userOffline", UserPayload(client.userId))];
    }
  }

  /** `handleJoinRoom`. A caller who is not a participant only gets an
      error; a participant joins the room's channel, which becomes the
      connection's room (earlier room channels are kept), the room hears
      that the user is online and the caller gets the acknowledgement.
      `Err` is the error the access check throws. */
  method HandleJoinRoom(server: Server, client: Connection, d: Db, isValid: string -> bool, roomId: string)
    returns (r: Result<()>)
    modifies server, client
    ensures var access := CheckRoomAccess(d, isValid, old(client.userId), roomId);
      && (access.Err? ==> r == Err(access.error))
      && (access == Ok(true) ==>
            r == Ok(())
            && client.channels == old(client.channels) + {RoomChannel(roomId)}
            && client.roomId == Some(roomId)
            && server.emitted == old(server.emitted) + [Emit(Channel(RoomChannel(roomId)), "userOnline", UserPayload(client.userId)),
                                                         Emit(Caller, "joinRoom", RoomPayload(roomId))])
      && (access != Ok(true) ==> client.channels == old(client.channels) && client.roomId == old(client.roomId))
      && (access == Ok(false) ==> r == Ok(()) && server.emitted == old(server.emitted) + [Emit(Caller, "error", Text("Forbidden"))])
      && (access.Err? ==> server.emitted == old(server.emitted))
    ensures client.userId == old(client.userId) && client.connected == old(client.connected)
  {
    var access := CheckRoomAccess(d, isValid, client.userId, roomId);
    r := JoinRoomAfterCheck(server, client, roomId, access);
  }

  /** The rest of `handleJoinRoom`, once the access check has answered. */
  method JoinRoomAfterCheck(server: Server, client: Connection, roomId: string, access: Result<bool>)
    returns (r: Result<()>)
    modifies server, client
    ensures access.Err? ==> r == Err(access.error) && server.emitted == old(server.emitted)
    ensures access == Ok(true) ==>
      r == Ok(())
      && client.channels == old(client.channels) + {RoomChannel(roomId)}
      && client.roomId == Some(roomId)
      && server.emitted == old(server.emitted) + [Emit(Channel(RoomChannel(roomId)), "userOnline", UserPayload(client.userId)),
                                                   Emit(Caller, "joinRoom", RoomPayload(roomId))]
    ensures access != Ok(true) ==> client.channels == old(client.channels) && client.roomId == old(client.roomId)
    ensures access == Ok(false) ==> r == Ok(()) && server.emitted == old(server.emitted) + [Emit(Caller, "error", Text("Forbidden"))]
    ensures client.userId == old(client.userId) && client.connected == old(client.connected)
  {
    if access.Err? {
      return Err(access.error);
    }
    if !access.value {
      server.emitted := server.emitted + [Emit(Caller, "error", Text("Forbidden"))];
      return Ok(());
    }
    client.channels := client.channels + {RoomChannel(roomId)};
    client.roomId := Some(roomId);
    server.emitted := server.emitted + [Emit(Channel(RoomChannel(roomId)), "userOnline", UserPayload(client.userId))];
    server.emitted := server.emitted + [Emit(Caller, "joinRoom", RoomPayload(roomId))];
    r := Ok(());
  }

  /** `handleJoinChat`: like joining a room, but without a broadcast and
      without touching the connection's room. */
  method HandleJoinChat(server: Server, client: Connection, d: Db, isValid: string -> bool, chatId: string)
    returns (r: Result<()>)
    modifies server, client
    ensures var access := CheckChatAccess(d, isValid, client.userId, chatId);
      && (access.Err? ==> r == Err(access.error) && server.emitted == old(server.emitted))
      && (access == Ok(true) ==>
            r == Ok(())
            && client.channels == old(client.channels) + {ChatChannel(chatId)}
            && server.emitted == old(server.emitted) + [Emit(Caller, "joinedChat", ChatPayload(chatId))])
      && (access != Ok(true) ==> client.channels == old(client.channels))
      && (access == Ok(false) ==> r == Ok(()) && server.emitted == old(server.emitted) + [Emit(Caller, "error", Text("Forbidden"))])
    ensures client.userId == old(client.userId) && client.roomId == old(client.roomId)
    ensures client.connected == old(client.connected)
  {
    var access := CheckChatAccess(d, isValid, client.userId, chatId);
    if access.Err? {
      return Err(access.error);
    }
    if !access.value {
      server.emitted := server.emitted + [Emit(Caller, "error", Text("Forbidden"))];
      return Ok(());
    }
    client.channels := client.channels + {ChatChannel(chatId)};
    server.emitted := server.emitted + [Emit(Caller, "joinedChat", ChatPayload(chatId))];
    r := Ok(());
  }

  /** `handleSendMessage`. The message the message service creates is
      `created`: its value, or the error it failed with. */
  method HandleSendMessage(server: Server, client: Connection, d: Db, isValid: string -> bool,
                           chatId: string, threadId: string, created: Result<string>)
    returns (r: Result<()>)
    modifies server
    ensures var access := CheckChatAccess(d, isValid, client.userId, chatId);
      && (access.Err? ==> r == Err(access.error) && server.emitted == old(server.emitted))
      && (access == Ok(false) ==> r == Ok(()) && server.emitted == old(server.emitted) + [Emit(Caller, "error", Text("Forbidden"))])
      && (access == Ok(true) && created.Err? ==>
            r == Ok(()) && server.emitted == old(server.emitted) + [Emit(Caller, "error", Text("Failed to send message: " + created.error.message))])
      && (access == Ok(true) && created.Ok? ==>
            r == Ok(())
            && server.emitted == old(server.emitted) + [
                 Emit(Channel(ChatChannel(chatId)), "createMessage", MessagePayload(chatId, created.value)),
                 Emit(Channel(RoomChannel(d.tasks[d.chats[chatId].task.value].room)), "newMessageNotification", MessageNotice(chatId, threadId))])
  {
    var access := CheckChatAccess(d, isValid, client.userId, chatId);
    if access.Err? {
      return Err(access.error);
    }
    if !access.value {
      server.emitted := server.emitted + [Emit(Caller, "error", Text("Forbidden"))];
      return Ok(());
    }
    var chat := d.chats[chatId];
    if created.Err? {
      server.emitted := server.emitted + [Emit(Caller, "error", Text("Failed to send message: " + created.error.message))];
      return Ok(());
    }
    server.emitted := server.emitted + [Emit(Channel(ChatChannel(chatId)), "createMessage", MessagePayload(chatId, created.value))];
    var task := TaskTree.FindById(d, chat.task.value);
    server.emitted := server.emitted + [Emit(Channel(RoomChannel(task.value.room)), "newMessageNotification", MessageNotice(chatId, threadId))];
    r := Ok(());
  }

  /** `handleSendThread`: as `handleSendMessage`, with the thread the thread
      service creates. */
  method HandleSendThread(server: Server, client: Connection, d: Db, isValid: string -> bool,
                          chatId: string, created: Result<string>)
    returns (r: Result<()>)
    modifies server
    ensures var access := CheckChatAccess(d, isValid, client.userId, chatId);
      && (access.Err? ==> r == Err(access.error) && server.emitted == old(server.emitted))
      && (access == Ok(false) ==> r == Ok(()) && server.emitted == old(server.emitted) + [Emit(Caller, "error", Text("Forbidden"))])
      && (access == Ok(true) && created.Err? ==>
            r == Ok(()) && server.emitted == old(server.emitted) + [Emit(Caller, "error", Text("Failed to send thread: " + created.error.message))])
      && (access == Ok(true) && created.Ok? ==>
            r == Ok(())
            && server.emitted == old(server.emitted) + [
                 Emit(Channel(ChatChannel(chatId)), "threadMessage", ThreadPayload(chatId, created.value)),
                 Emit(Channel(RoomChannel(d.tasks[d.chats[chatId].task.value].room)), "newThreadNotification", ThreadNotice(chatId))])
  {
    var access := CheckChatAccess(d, isValid, client.userId, chatId);
    if access.Err? {
      return Err(access.error);
    }
    if !access.value {
      server.emitted := server.emitted + [Emit(Caller, "error", Text("Forbidden"))];
      return Ok(());
    }
    var chat := d.chats[chatId];
    if created.Err? {
      server.emitted := server.emitted + [Emit(Caller, "error", Text("Failed to send thread: " + created.error.message))];
      return Ok(());
    }
    server.emitted := server.emitted + [Emit(Channel(ChatChannel(chatId)), "threadMessage", ThreadPayload(chatId, created.value))];
    var task := TaskTree.FindById(d, chat.task.value);
    server.emitted := server.emitted + [Emit(Channel(RoomChannel(task.value.room)), "newThreadNotification", ThreadNotice(chatId))];
    r := Ok(());
  }
}
