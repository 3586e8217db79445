/** `RoomsService`: rooms are created with an empty task list, gain
    participants with set semantics, and are deleted together with the tasks
    they list. */
module RoomsService {
  import opened Common
  import opened Lists
  import opened Schema
  import opened Persistence
  import opened TaskTree
  import TasksService

  /** The data `create` is given. */
  datatype NewRoom = NewRoom(name: string, moderator: Id, participants: seq<Id>)

  /** `create`: `roomId` stands for the id the database generates. */
  method Create(db: Store, data: NewRoom, roomId: Id) returns (id: Id)
    modifies db
    ensures id == roomId
    ensures db.Snapshot() == old(db.Snapshot()).(rooms := old(db.rooms)[roomId := Room(data.name, data.moderator, data.participants, [])])
  {
    db.rooms := db.rooms[roomId := Room(data.name, data.moderator, data.participants, [])];
    id := roomId;
  }

  /** A room read with `populate('moderator participants tasks')`: the
      moderator is null when the user is missing; the lists keep the
      references that resolve, with their documents. */
  datatype PopulatedRoom = PopulatedRoom(
    id: Id,
    name: string,
    moderator: Option<(Id, User)>,
    participants: seq<(Id, User)>,
    tasks: seq<(Id, Task)>)

  /** The documents behind the ids that resolve, in order. */
  function Resolve<V>(ids: seq<Id>, m: map<Id, V>): (r: seq<(Id, V)>)
    ensures |r| == |Present(ids, m)|
    ensures forall i :: 0 <= i < |r| ==> r[i].0 == Present(ids, m)[i] && r[i].0 in m && r[i].1 == m[r[i].0]
  {
    if ids == [] then []
    else if ids[0] in m then
      assert Present(ids, m) == [ids[0]] + Present(ids[1..], m);
      [(ids[0], m[ids[0]])] + Resolve(ids[1..], m)
    else
      assert Present(ids, m) == Present(ids[1..], m);
      Resolve(ids[1..], m)
  }

  /** Whether a populated room lists the user among its participants. */
  predicate ListsParticipant(room: PopulatedRoom, u: Id)
  {
    exists i :: 0 <= i < |room.participants| && room.participants[i].0 == u
  }

  function Populate(d: Db, id: Id): PopulatedRoom
    requires id in d.rooms
  {
    var room := d.rooms[id];
    PopulatedRoom(id, room.name,
                  if room.moderator in d.users then Some((room.moderator, d.users[room.moderator])) else None,
                  Resolve(room.participants, d.users), Resolve(room.tasks, d.tasks))
  }

  /** `findById`. */
  function FindById(d: Db, id: Id): (r: Result<PopulatedRoom>)
    ensures r.Err? <==> id !in d.rooms
    ensures r.Err? ==> r.error == NotFound("Room not found")
    ensures r.Ok? ==> r.value.id == id && r.value.name == d.rooms[id].name
    ensures r.Ok? ==> forall u :: u in d.rooms[id].participants && u in d.users <==> ListsParticipant(r.value, u)
  {
    if id !in d.rooms then Err(NotFound("Room not found")) else Ok(Populate(d, id))
  }

  /** The state after `addParticipant` on an existing room (`$addToSet`). */
  function WithParticipant(d: Db, roomId: Id, userId: Id): (d': Db)
    requires roomId in d.rooms
    ensures d'.rooms.Keys == d.rooms.Keys && roomId in d'.rooms
    ensures forall u :: u in d'.rooms[roomId].participants <==> u in d.rooms[roomId].participants || u == userId
    ensures userId in d.rooms[roomId].participants ==> d' == d
    ensures userId !in d.rooms[roomId].participants ==>
      d'.rooms[roomId].participants == d.rooms[roomId].participants + [userId]
  {
    d.(rooms := d.rooms[roomId := d.rooms[roomId].(participants := AddToSet(d.rooms[roomId].participants, [userId]))])
  }

  /** Adding the same participant twice is adding it once. */
  lemma AddParticipantIdempotent(d: Db, roomId: Id, userId: Id)
    requires roomId in d.rooms
    ensures WithParticipant(WithParticipant(d, roomId, userId), roomId, userId) == WithParticipant(d, roomId, userId)
  {
  }

  /** `addParticipant`: "Room not found" when no room has the id. */
  method AddParticipant(db: Store, roomId: Id, userId: Id) returns (r: Result<PopulatedRoom>)
    modifies db
    ensures r.Ok? <==> roomId in old(db.rooms)
    ensures r.Err? ==> r.error == NotFound("Room not found") && db.Snapshot() == old(db.Snapshot())
    ensures r.Ok? ==> (db.Snapshot() == WithParticipant(old(db.Snapshot()), roomId, userId)
                       && r.value == Populate(db.Snapshot(), roomId))
  {
    if roomId !in db.rooms {
      return Err(NotFound("Room not found"));
    }
    db.rooms := db.rooms[roomId := db.rooms[roomId].(participants := AddToSet(db.rooms[roomId].participants, [userId]))];
    r := Ok(Populate(db.Snapshot(), roomId));
  }

  /** `findByModerator`: the rooms whose moderator is the id. */
  function FindByModerator(d: Db, moderatorId: Id): (ids: set<Id>)
    ensures forall r :: r in ids <==> r in d.rooms && d.rooms[r].moderator == moderatorId
  {
    set r | r in d.rooms && d.rooms[r].moderator == moderatorId
  }

  /** `findByParticipant`: the rooms whose participants contain the id. */
  function FindByParticipant(d: Db, participantId: Id): (ids: set<Id>)
    ensures forall r :: r in ids <==> r in d.rooms && participantId in d.rooms[r].participants
  {
    set r | r in d.rooms && participantId in d.rooms[r].participants
  }

  /** A room's creator is found by both queries once `createRoom` made them
      moderator and sole participant. */
  lemma CreatorFindsRoom(d: Db, roomId: Id, name: string, userId: Id)
    ensures var d' := d.(rooms := d.rooms[roomId := Room(name, userId, [userId], [])]);
      roomId in FindByModerator(d', userId) && roomId in FindByParticipant(d', userId)
  {
  }

  /** The outcome of `delete`: "Room not found" is rethrown as it is; any
      other error becomes "Failed to delete room: " and the transaction is
      rolled back. The room's tasks, when it lists any, go through
      `deleteMany`. */
  function DeleteOutcome(d: Db, roomId: Id): (r: Result<Db>)
    ensures roomId !in d.rooms ==> r == Err(NotFound("Room not found"))
    ensures r.Ok? ==> roomId in d.rooms && roomId !in r.value.rooms
  {
    if roomId !in d.rooms then Err(NotFound("Room not found"))
    else
      var room := d.rooms[roomId];
      if |room.tasks| > 0 then
        match DeleteManyOutcome(d, room.tasks)
        case Err(e) => Err(BadRequest("Failed to delete room: " + e.message))
        case Ok(d1) => Ok(d1.(rooms := d1.rooms - {roomId}))
      else Ok(d.(rooms := d.rooms - {roomId}))
  }

  /** `delete`. */
  method Delete(db: Store, roomId: Id) returns (r: Result<()>)
    modifies db
    ensures var o := DeleteOutcome(old(db.Snapshot()), roomId);
      && (o.Ok? ==> r == Ok(()) && db.Snapshot() == o.value)
      && (o.Err? ==> r == Err(o.error) && db.Snapshot() == old(db.Snapshot()))
  {
    var start := db.Snapshot();
    if roomId !in db.rooms {
      return Err(NotFound("Room not found"));
    }
    var room := db.rooms[roomId];
    if |room.tasks| > 0 {
      var deleted := TasksService.DeleteMany(db, room.tasks);
      if deleted.Err? {
        db.Rollback(start);
        return Err(BadRequest("Failed to delete room: " + deleted.error.message));
      }
    }
    db.rooms := db.rooms - {roomId};
    r := Ok(());
  }
}

/** `RoomsController`: the creation and membership rules applied before the
    service is called, and the room DTO. */
module RoomsController {
  import opened Common
  import opened Lists
  import opened Schema
  import opened Persistence
  import TaskTree
  import RoomsService

  datatype UserRef = UserRef(id: Id, username: string)
  datatype TaskRef = TaskRef(id: Id, title: string)
  datatype RoomDto = RoomDto(id: Id, name: string, moderator: UserRef, participants: seq<UserRef>, tasks: seq<TaskRef>)

  /** `mapRoomToDto`: reading `_id` of a null moderator throws. */
  function MapRoomToDto(room: RoomsService.PopulatedRoom): (r: Result<RoomDto>)
    ensures r.Err? <==> room.moderator.None?
    ensures r.Err? ==> r.error == Internal(TaskTree.NullRead)
    ensures r.Ok? ==> (r.value.id == room.id && r.value.name == room.name
      && r.value.moderator == UserRef(room.moderator.value.0, room.moderator.value.1.username))
    ensures r.Ok? ==> (|r.value.participants| == |room.participants|
      && forall i :: 0 <= i < |room.participants| ==>
           r.value.participants[i].id == room.participants[i].0
           && r.value.participants[i].username == room.participants[i].1.username)
    ensures r.Ok? ==> (|r.value.tasks| == |room.tasks|
      && forall i :: 0 <= i < |room.tasks| ==>
           r.value.tasks[i].id == room.tasks[i].0 && r.value.tasks[i].title == room.tasks[i].1.title)
  {
    if room.moderator.None? then Err(Internal(TaskTree.NullRead))
    else
      Ok(RoomDto(room.id, room.name, UserRef(room.moderator.value.0, room.moderator.value.1.username),
                 seq(|room.participants|, i requires 0 <= i < |room.participants| =>
                       UserRef(room.participants[i].0, room.participants[i].1.username)),
                 seq(|room.tasks|, i requires 0 <= i < |room.tasks| =>
                       TaskRef(room.tasks[i].0, room.tasks[i].1.title))))
  }

  /** `createRoom`: the creator is the moderator and the sole participant.
      The room is written before it is read back and mapped, so a creator
      with no user document gets an error and the room stays. */
  method CreateRoom(db: Store, name: string, userId: Id, roomId: Id) returns (r: Result<RoomDto>)
    modifies db
    ensures db.Snapshot() == old(db.Snapshot()).(rooms := old(db.rooms)[roomId := Room(name, userId, [userId], [])])
    ensures roomId in db.rooms && db.rooms[roomId].moderator in db.rooms[roomId].participants
    ensures r.Ok? <==> userId in db.users
    ensures r.Ok? ==> (r.value.moderator.id == userId && |r.value.participants| == 1
      && r.value.participants[0].id == userId && r.value.tasks == [])
  {
    var id := RoomsService.Create(db, RoomsService.NewRoom(name, userId, [userId]), roomId);
    var room := RoomsService.FindById(db.Snapshot(), id);
    r := MapRoomToDto(room.value);
  }

  /** `addParticipant`: the user must exist ("User does not exist", thrown
      by the user lookup), the room must exist, and the user must not be a
      participant yet; then the participant is added. */
  method AddParticipant(db: Store, roomId: Id, userId: Id) returns (r: Result<RoomDto>)
    modifies db
    ensures userId !in old(db.users) ==> r == Err(NotFound("User does not exist"))
    ensures userId in old(db.users) && roomId !in old(db.rooms) ==> r == Err(NotFound("Room not found"))
    ensures userId in old(db.users) && roomId in old(db.rooms) && userId in old(db.rooms)[roomId].participants ==>
      r == Err(BadRequest("User already in room"))
    ensures r.Err? && r.error.Status() != 500 ==> db.Snapshot() == old(db.Snapshot())
    ensures (userId in old(db.users) && roomId in old(db.rooms) && userId !in old(db.rooms)[roomId].participants) ==>
      (db.Snapshot() == RoomsService.WithParticipant(old(db.Snapshot()), roomId, userId)
       && |db.rooms[roomId].participants| == |old(db.rooms)[roomId].participants| + 1
       && r == MapRoomToDto(RoomsService.Populate(db.Snapshot(), roomId)))
  {
    if userId !in db.users {
      return Err(NotFound("User does not exist"));
    }
    ghost var d := db.Snapshot();
    var room := RoomsService.FindById(db.Snapshot(), roomId);
    if room.Err? {
      return Err(room.error);
    }
    if RoomsService.ListsParticipant(room.value, userId) {
      return Err(BadRequest("User already in room"));
    }
    assert userId !in d.rooms[roomId].participants;
    var updated := RoomsService.AddParticipant(db, roomId, userId);
    assert db.Snapshot() == RoomsService.WithParticipant(d, roomId, userId);
    r := MapRoomToDto(updated.value);
  }
}
