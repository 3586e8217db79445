/** `TasksService`: the task operations on the shared store. `create`,
    `update` and `delete` each run in one transaction: on an error every
    collection is rolled back. `deleteMany` runs inside the caller's
    transaction. */
module TasksService {
  import opened Common
  import opened Lists
  import opened Schema
  import opened Persistence
  import opened TaskTree
  import FileService
  import ChatService

  /** `validateParticipants` and `validateParticipantsToAdd`: every id must
      name a user; `getUser` throws "User does not exist" otherwise. */
  method ValidateUsers(db: Store, ids: seq<Id>) returns (r: Result<()>)
    ensures r.Ok? <==> AllUsersExist(db.Snapshot(), ids)
    ensures r.Err? ==> r.error == NotFound("User does not exist")
  {
    for i := 0 to |ids|
      invariant forall j :: 0 <= j < i ==> ids[j] in db.users
    {
      if ids[i] !in db.users {
        return Err(NotFound("User does not exist"));
      }
    }
    return Ok(());
  }

  /** One upload of `uploadFiles`: the rest of the list starts after it. */
  lemma UploadAllStep(files: map<Id, FileDoc>, uploads: seq<FileService.Upload>, ids: seq<Id>, i: nat)
    requires |ids| == |uploads| && i < |uploads|
    ensures var rest := UploadAll(files, uploads[i..], ids[i..]);
      match FileService.CheckUpload(uploads[i])
      case Err(e) => rest == Err(e)
      case Ok(t) => rest == UploadAll(files[ids[i] := FileService.StoredDoc(uploads[i], t)], uploads[i + 1..], ids[i + 1..])
  {
    assert uploads[i..][0] == uploads[i] && uploads[i..][1..] == uploads[i + 1..];
    assert ids[i..][0] == ids[i] && ids[i..][1..] == ids[i + 1..];
  }

  /** `uploadFiles`: uploads every file in order; the first rejected upload
      ends the step with its error. */
  method UploadFiles(db: Store, uploads: seq<FileService.Upload>, ids: seq<Id>) returns (r: Result<seq<Id>>)
    requires |ids| == |uploads|
    modifies db
    ensures var o := UploadAll(old(db.files), uploads, ids);
      && (r.Ok? <==> o.Ok?)
      && (r.Ok? ==> r.value == ids && db.Snapshot() == old(db.Snapshot()).(files := o.value))
      && (r.Err? ==> r.error == o.error && db.Snapshot() == old(db.Snapshot()).(files := db.files))
  {
    var start := db.Snapshot();
    for i := 0 to |uploads|
      invariant db.Snapshot() == start.(files := db.files)
      invariant UploadAll(start.files, uploads, ids) == UploadAll(db.files, uploads[i..], ids[i..])
    {
      UploadAllStep(db.files, uploads, ids, i);
      var up := FileService.UploadFile(db, uploads[i], ids[i]);
      if up.Err? {
        return Err(up.error);
      }
    }
    assert uploads[|uploads|..] == [];
    return Ok(ids);
  }

  /** `updateParentOrRoom`. */
  method UpdateParentOrRoom(db: Store, taskId: Id, moderator: Id, parent: Option<Id>, roomId: Id)
    modifies db
    ensures db.Snapshot() == AttachTask(old(db.Snapshot()), taskId, moderator, parent, roomId)
  {
    if parent.Some? {
      var p := parent.value;
      if p in db.tasks {
        db.tasks := db.tasks[p := db.tasks[p].(subTasks := db.tasks[p].subTasks + [taskId],
                                               participants := AddToSet(db.tasks[p].participants, [moderator]))];
      }
    } else if roomId in db.rooms {
      db.rooms := db.rooms[roomId := db.rooms[roomId].(tasks := db.rooms[roomId].tasks + [taskId])];
    }
  }

  /** `create`: `taskId`, `chatId` and `fileIds` stand for the ids the
      database generates. */
  method Create(db: Store, dto: CreateTaskDto, userId: Id, uploads: seq<FileService.Upload>,
                taskId: Id, chatId: Id, fileIds: seq<Id>) returns (r: Result<Id>)
    requires |fileIds| == |uploads|
    modifies db
    ensures var o := CreateOutcome(old(db.Snapshot()), dto, userId, uploads, taskId, chatId, fileIds);
      && (o.Ok? ==> r == Ok(taskId) && db.Snapshot() == o.value)
      && (o.Err? ==> r == Err(o.error) && db.Snapshot() == old(db.Snapshot()))
  {
    var start := db.Snapshot();
    var users := ValidateUsers(db, ParticipantList(dto, userId));
    if users.Err? {
      db.Rollback(start);
      return Err(TransactionFailed(users.error));
    }
    var parent := ParentTask(db.Snapshot(), dto.parentTaskId, dto.roomId);
    if parent.Err? {
      db.Rollback(start);
      return Err(TransactionFailed(parent.error));
    }
    var chat := ChatService.Create(db, chatId);
    var uploaded := UploadFiles(db, uploads, fileIds);
    if uploaded.Err? {
      db.Rollback(start);
      return Err(TransactionFailed(uploaded.error));
    }
    db.tasks := db.tasks[taskId := NewTask(dto, userId, uploaded.value, chat, parent.value)];
    var linked := ChatService.AddTaskId(db, chat, taskId);
    assert linked.Ok?;
    UpdateParentOrRoom(db, taskId, userId, parent.value, dto.roomId);
    r := Ok(taskId);
  }

  /** `handleFileUpdates`: uploads the new files, then deletes the record of
      every id to remove and filters those ids out of the list. */
  method HandleFileUpdates(db: Store, existing: seq<Id>, uploads: seq<FileService.Upload>, newFileIds: seq<Id>,
                           toRemove: Option<seq<Id>>) returns (r: Result<seq<Id>>)
    requires |newFileIds| == |uploads|
    modifies db
    ensures var o := UploadAll(old(db.files), uploads, newFileIds);
      && (r.Ok? <==> o.Ok?)
      && (r.Ok? ==> (r.value == MergedFileIds(existing, newFileIds, toRemove)
            && db.Snapshot() == old(db.Snapshot()).(files :=
                 if NonEmpty(toRemove) then o.value - ToSet(toRemove.value) else o.value)))
      && (r.Err? ==> r.error == o.error && db.Snapshot() == old(db.Snapshot()).(files := db.files))
  {
    var fileIds := existing;
    if |uploads| > 0 {
      var uploaded := UploadFiles(db, uploads, newFileIds);
      if uploaded.Err? {
        return Err(uploaded.error);
      }
      fileIds := fileIds + uploaded.value;
    } else {
      assert fileIds == existing + newFileIds;
    }
    if NonEmpty(toRemove) {
      var xs := toRemove.value;
      fileIds := RemoveAll(fileIds, xs);
      DeleteFiles(db, xs);
    }
    r := Ok(fileIds);
  }

  /** The removal loop of `handleFileUpdates`: each file record is deleted in turn. */
  method DeleteFiles(db: Store, fileIds: seq<Id>)
    modifies db
    ensures db.Snapshot() == old(db.Snapshot()).(files := old(db.files) - ToSet(fileIds))
  {
    var start := db.Snapshot();
    for i := 0 to |fileIds|
      invariant db.Snapshot() == start.(files := db.files)
      invariant db.files == start.files - ToSet(fileIds[..i])
    {
      FileService.DeleteFile(db, fileIds[i]);
      assert ToSet(fileIds[..i + 1]) == ToSet(fileIds[..i]) + {fileIds[i]} by {
        assert fileIds[..i + 1] == fileIds[..i] + [fileIds[i]];
      }
    }
    assert fileIds[..|fileIds|] == fileIds;
  }

  /** `update`: the task is read with its files and participants populated;
      the written task is mapped with its chat and room populated. */
  method Update(db: Store, taskId: Id, dto: UpdateTaskDto, uploads: seq<FileService.Upload>, newFileIds: seq<Id>)
    returns (r: Result<Id>)
    requires |newFileIds| == |uploads|
    modifies db
    ensures var o := UpdateOutcome(old(db.Snapshot()), taskId, dto, uploads, newFileIds);
      && (o.Ok? ==> r == Ok(taskId) && db.Snapshot() == o.value)
      && (o.Err? ==> r == Err(o.error) && db.Snapshot() == old(db.Snapshot()))
  {
    var start := db.Snapshot();
    var found := FindById(db.Snapshot(), taskId);
    if found.Err? {
      return Err(TransactionFailed(found.error));
    }
    var t := found.value;
    var existingFiles := Present(t.files, db.files);
    var existingParticipants := Present(t.participants, db.users);
    var users := ValidateUsers(db, if dto.participantsToAdd.Some? then dto.participantsToAdd.value else []);
    if users.Err? {
      db.Rollback(start);
      return Err(TransactionFailed(users.error));
    }
    var fileIds := HandleFileUpdates(db, existingFiles, uploads, newFileIds, dto.fileIdsToRemove);
    if fileIds.Err? {
      db.Rollback(start);
      return Err(TransactionFailed(fileIds.error));
    }
    var participants := UpdatedParticipants(existingParticipants, dto.participantsToAdd, dto.participantsToRemove);
    db.tasks := db.tasks[taskId := UpdatedTask(t, dto, fileIds.value, participants)];
    // `mapToPopulatedTask` reads `_id` of the populated chat and room.
    if t.chat !in db.chats || t.room !in db.rooms {
      db.Rollback(start);
      return Err(TransactionFailed(Internal(NullRead)));
    }
    r := Ok(taskId);
  }

  /** One `updateOne` per listed task, setting or unsetting its parent; an
      id that names no task matches nothing. */
  method SetParents(db: Store, kids: seq<Id>, parent: Option<Id>)
    modifies db
    ensures db.Snapshot() == TaskTree.SetParents(old(db.Snapshot()), kids, parent)
  {
    var start := db.Snapshot();
    for i := 0 to |kids|
      invariant db.Snapshot() == start.(tasks := db.tasks)
      invariant db.tasks == map k | k in start.tasks :: if k in kids[..i] then start.tasks[k].(parentTask := parent) else start.tasks[k]
    {
      if kids[i] in db.tasks {
        db.tasks := db.tasks[kids[i] := db.tasks[kids[i]].(parentTask := parent)];
      }
      assert kids[..i + 1] == kids[..i] + [kids[i]];
    }
    assert kids[..|kids|] == kids;
  }

  /** `transferSubTasks`. */
  method TransferSubTasks(db: Store, id: Id, t: Task)
    modifies db
    ensures db.Snapshot() == TaskTree.TransferSubTasks(old(db.Snapshot()), id, t)
  {
    var kids := PopulatedChildren(db.Snapshot(), t);
    if kids == [] {
      return;
    }
    var parent := PopulatedParent(db.Snapshot(), t);
    if parent.Some? {
      var p := parent.value;
      db.tasks := db.tasks[p := db.tasks[p].(subTasks := AddToSet(RemoveAll(db.tasks[p].subTasks, [id]), kids))];
      SetParents(db, kids, parent);
    } else {
      SetParents(db, kids, None);
      if t.room in db.rooms {
        db.rooms := db.rooms[t.room := db.rooms[t.room].(tasks := AddToSet(db.rooms[t.room].tasks, kids))];
      }
    }
  }

  /** `removeFromParentOrRoom`. */
  method RemoveFromParentOrRoom(db: Store, id: Id, t: Task)
    modifies db
    ensures db.Snapshot() == TaskTree.RemoveFromParentOrRoom(old(db.Snapshot()), id, t)
  {
    var parent := PopulatedParent(db.Snapshot(), t);
    if parent.Some? {
      var p := parent.value;
      db.tasks := db.tasks[p := db.tasks[p].(subTasks := RemoveAll(db.tasks[p].subTasks, [id]))];
    } else if t.room in db.rooms {
      db.rooms := db.rooms[t.room := db.rooms[t.room].(tasks := RemoveAll(db.rooms[t.room].tasks, [id]))];
    }
  }

  /** `delete`: the task is read first; no later step fails. */
  method Delete(db: Store, id: Id) returns (r: Result<bool>)
    modifies db
    ensures var o := DeleteOutcome(old(db.Snapshot()), id);
      && (o.Ok? ==> r == Ok(true) && db.Snapshot() == o.value)
      && (o.Err? ==> r == Err(o.error) && db.Snapshot() == old(db.Snapshot()))
  {
    var found := FindById(db.Snapshot(), id);
    if found.Err? {
      return Err(found.error);
    }
    var t := found.value;
    ghost var d := db.Snapshot();
    if PopulatedChildren(db.Snapshot(), t) != [] {
      TransferSubTasks(db, id, t);
    } else {
      RemoveFromParentOrRoom(db, id, t);
    }
    ghost var moved := db.Snapshot();
    db.files := db.files - ToSet(t.files);
    db.chats := db.chats - {t.chat};
    db.tasks := db.tasks - {id};
    assert db.Snapshot() == moved.(files := moved.files - ToSet(t.files), chats := moved.chats - {t.chat},
                                   tasks := moved.tasks - {id});
    r := Ok(true);
  }

  /** The chat ids `deleteTasksChats` reads off the found tasks, in order;
      a chat that does not resolve reads `_id` of null, which throws. */
  method ChatIdsOf(db: Store, found: seq<Id>) returns (r: Result<seq<Id>>)
    requires forall t :: t in found ==> t in db.tasks
    ensures r.Err? <==> exists t :: t in found && db.tasks[t].chat !in db.chats
    ensures r.Err? ==> r.error == Internal(NullRead)
    ensures r.Ok? ==> |r.value| == |found| && forall j :: 0 <= j < |found| ==> r.value[j] == db.tasks[found[j]].chat
  {
    var chatIds: seq<Id> := [];
    for i := 0 to |found|
      invariant |chatIds| == i
      invariant forall j :: 0 <= j < i ==> chatIds[j] == db.tasks[found[j]].chat && chatIds[j] in db.chats
    {
      var c := db.tasks[found[i]].chat;
      if c !in db.chats {
        return Err(Internal(NullRead));
      }
      chatIds := chatIds + [c];
    }
    return Ok(chatIds);
  }

  /** The loop of `deleteTasksChats`: each chat is removed in turn. */
  method DeleteChats(db: Store, chatIds: seq<Id>)
    modifies db
    ensures db.Snapshot() == old(db.Snapshot()).(chats := old(db.chats) - ToSet(chatIds))
  {
    var start := db.Snapshot();
    for i := 0 to |chatIds|
      invariant db.Snapshot() == start.(chats := db.chats)
      invariant db.chats == start.chats - ToSet(chatIds[..i])
    {
      db.chats := db.chats - {chatIds[i]};
      assert ToSet(chatIds[..i + 1]) == ToSet(chatIds[..i]) + {chatIds[i]} by {
        assert chatIds[..i + 1] == chatIds[..i] + [chatIds[i]];
      }
    }
    assert chatIds[..|chatIds|] == chatIds;
  }

  /** The state the steps of `deleteMany` reach is the outcome's. */
  lemma DeleteManySteps(d: Db, taskIds: seq<Id>, found: seq<Id>, chatIds: seq<Id>)
    requires ToSet(found) == FoundTasks(d, taskIds) && found != []
    requires |chatIds| == |found| && forall j :: 0 <= j < |found| ==> chatIds[j] == d.tasks[found[j]].chat
    requires forall t :: t in found ==> d.tasks[t].chat in d.chats
    ensures DeleteManyOutcome(d, taskIds)
         == Ok(d.(files := d.files - FilesOf(d, ToSet(found)), chats := d.chats - ToSet(chatIds), tasks := d.tasks - ToSet(taskIds)))
  {
    var foundSet := FoundTasks(d, taskIds);
    assert found[0] in foundSet;
    assert !exists t :: t in foundSet && d.tasks[t].chat !in d.chats;
    assert ToSet(chatIds) == (set t | t in foundSet :: d.tasks[t].chat) by {
      forall t | t in foundSet ensures d.tasks[t].chat in ToSet(chatIds) {
        var j :| 0 <= j < |found| && found[j] == t;
        assert chatIds[j] == d.tasks[t].chat;
      }
    }
    assert d.tasks - ToSet(taskIds) == d.tasks - foundSet;
  }

  /** `deleteMany`: runs inside the caller's transaction, so on an error the
      file deletions already made stay for the caller to roll back. */
  method DeleteMany(db: Store, taskIds: seq<Id>) returns (r: Result<()>)
    modifies db
    ensures var d := old(db.Snapshot());
      var o := DeleteManyOutcome(d, taskIds);
      && (o.Ok? ==> r == Ok(()) && db.Snapshot() == o.value)
      && (o.Err? ==> r == Err(o.error) && db.Snapshot() == d.(files := d.files - FilesOf(d, FoundTasks(d, taskIds))))
  {
    var start := db.Snapshot();
    var found := Dedup(Present(taskIds, db.tasks));
    assert ToSet(found) == FoundTasks(start, taskIds);
    if found == [] {
      return Ok(());
    }
    db.files := db.files - FilesOf(start, ToSet(found));
    assert db.Snapshot() == start.(files := start.files - FilesOf(start, ToSet(found)));
    var chatIds := ChatIdsOf(db, found);
    if chatIds.Err? {
      return Err(chatIds.error);
    }
    DeleteChats(db, chatIds.value);
    db.tasks := db.tasks - ToSet(taskIds);
    assert db.Snapshot() == start.(files := start.files - FilesOf(start, ToSet(found)),
                                   chats := start.chats - ToSet(chatIds.value), tasks := start.tasks - ToSet(taskIds));
    DeleteManySteps(start, taskIds, found, chatIds.value);
    r := Ok(());
  }
}
