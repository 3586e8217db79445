/** What deleting a room does to the tasks it lists and to their subtasks. */
module RoomDelete {
  import opened Common
  import opened Schema
  import opened TaskTree
  import opened Consistency
  import RoomsService

  /** Deleting an existing room fails only when a task it lists has lost its
      chat, and then with the wrapped null-read message. */
  lemma DeleteFailsOnlyOnMissingChat(d: Db, roomId: Id)
    requires roomId in d.rooms
    ensures RoomsService.DeleteOutcome(d, roomId).Err? <==>
      exists x :: x in d.rooms[roomId].tasks && x in d.tasks && d.tasks[x].chat !in d.chats
    ensures RoomsService.DeleteOutcome(d, roomId).Err? ==>
      RoomsService.DeleteOutcome(d, roomId).error == BadRequest("Failed to delete room: " + NullRead)
  {
    var found := FoundTasks(d, d.rooms[roomId].tasks);
    if exists x :: x in d.rooms[roomId].tasks && x in d.tasks && d.tasks[x].chat !in d.chats {
      var x :| x in d.rooms[roomId].tasks && x in d.tasks && d.tasks[x].chat !in d.chats;
      assert x in found;
    }
  }

  /** Under the invariant a room delete always succeeds. */
  lemma ValidDeleteSucceeds(d: Db, roomId: Id)
    requires Valid(d) && roomId in d.rooms
    ensures RoomsService.DeleteOutcome(d, roomId).Ok?
  {
    var rank :| Linked(d, rank);
    DeleteFailsOnlyOnMissingChat(d, roomId);
  }

  /** A successful room delete removes the room and exactly the tasks it
      lists, with their chats and files; every other task is untouched. */
  lemma DeleteEffects(d: Db, roomId: Id)
    requires RoomsService.DeleteOutcome(d, roomId).Ok?
    ensures var d' := RoomsService.DeleteOutcome(d, roomId).value;
      && roomId in d.rooms
      && d'.rooms == d.rooms - {roomId}
      && (forall x :: x in d'.tasks <==> x in d.tasks && x !in d.rooms[roomId].tasks)
      && (forall x :: x in d'.tasks ==> d'.tasks[x] == d.tasks[x])
      && (forall x :: x in d.tasks && x in d.rooms[roomId].tasks ==> d.tasks[x].chat !in d'.chats)
      && (forall x, f :: x in d.tasks && x in d.rooms[roomId].tasks && f in d.tasks[x].files ==> f !in d'.files)
      && d'.users == d.users && d'.threads == d.threads && d'.messages == d.messages
  {
    DeleteKeepsOthers(d, roomId);
    DeleteRemovesAttachments(d, roomId);
  }

  /** The room and its listed tasks go; the rest of the store stays. */
  lemma DeleteKeepsOthers(d: Db, roomId: Id)
    requires RoomsService.DeleteOutcome(d, roomId).Ok?
    ensures var d' := RoomsService.DeleteOutcome(d, roomId).value;
      && roomId in d.rooms
      && d'.rooms == d.rooms - {roomId}
      && (forall x :: x in d'.tasks <==> x in d.tasks && x !in d.rooms[roomId].tasks)
      && (forall x :: x in d'.tasks ==> d'.tasks[x] == d.tasks[x])
      && d'.users == d.users && d'.threads == d.threads && d'.messages == d.messages
  {
    var room := d.rooms[roomId];
    var found := FoundTasks(d, room.tasks);
    var d' := RoomsService.DeleteOutcome(d, roomId).value;
    if |room.tasks| > 0 && found != {} {
      assert d'.tasks == d.tasks - found;
    } else {
      assert d'.tasks == d.tasks;
    }
  }

  /** The chats and files of the listed tasks go with them. */
  lemma DeleteRemovesAttachments(d: Db, roomId: Id)
    requires RoomsService.DeleteOutcome(d, roomId).Ok?
    ensures var d' := RoomsService.DeleteOutcome(d, roomId).value;
      && roomId in d.rooms
      && (forall x :: x in d.tasks && x in d.rooms[roomId].tasks ==> d.tasks[x].chat !in d'.chats)
      && (forall x, f :: x in d.tasks && x in d.rooms[roomId].tasks && f in d.tasks[x].files ==> f !in d'.files)
  {
    var room := d.rooms[roomId];
    var found := FoundTasks(d, room.tasks);
    if |room.tasks| > 0 && found != {} {
      var d' := RoomsService.DeleteOutcome(d, roomId).value;
      forall x, f | x in d.tasks && x in room.tasks && f in d.tasks[x].files
        ensures f !in d'.files
      {
        assert f in FilesOf(d, found);
      }
    }
  }

  /** A room lists top-level tasks only, so a subtask of a listed task is not
      deleted with the room: it survives with its parent link pointing at a
      task that no longer exists, and the parent invariant is broken. */
  lemma DeleteOrphansSubtasks(d: Db, roomId: Id, x: Id)
    requires ParentsLinked(d) && RoomListsLinked(d)
    requires roomId in d.rooms && RoomsService.DeleteOutcome(d, roomId).Ok?
    requires x in d.tasks && d.tasks[x].parentTask.Some? && d.tasks[x].parentTask.value in d.rooms[roomId].tasks
    ensures var d' := RoomsService.DeleteOutcome(d, roomId).value;
      && x in d'.tasks && d'.tasks[x].parentTask == d.tasks[x].parentTask
      && d.tasks[x].parentTask.value !in d'.tasks
      && !ParentsLinked(d')
  {
    var p := d.tasks[x].parentTask.value;
    assert x !in d.rooms[roomId].tasks;
    DeleteEffects(d, roomId);
  }
}
