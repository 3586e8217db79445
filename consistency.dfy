/** The cross-references the task operations keep in step: a task and its
    chat point at each other, a task and its parent point at each other and
    share a room, a top-level task is listed by its room, and the parent
    links have no cycle. */
module Consistency {
  import opened Common
  import opened Lists
  import opened Schema
  import opened TaskTree
  import FileService

  /** Every task's chat exists and names the task back. */
  ghost predicate ChatsLinked(d: Db)
  {
    forall id :: id in d.tasks ==>
      d.tasks[id].chat in d.chats && d.chats[d.tasks[id].chat].task == Some(id)
  }

  /** A task's parent exists, lists it among its subTasks and is in the same room. */
  ghost predicate ParentsLinked(d: Db)
  {
    forall id :: id in d.tasks && d.tasks[id].parentTask.Some? ==>
      var p := d.tasks[id].parentTask.value;
      p in d.tasks && id in d.tasks[p].subTasks && d.tasks[p].room == d.tasks[id].room
  }

  /** Every listed subtask exists and names the task as its parent. */
  ghost predicate ChildrenLinked(d: Db)
  {
    forall id, c :: id in d.tasks && c in d.tasks[id].subTasks ==>
      c in d.tasks && d.tasks[c].parentTask == Some(id)
  }

  /** A top-level task whose room exists is listed in the room's tasks. */
  ghost predicate RootsListed(d: Db)
  {
    forall id :: id in d.tasks && d.tasks[id].parentTask.None? && d.tasks[id].room in d.rooms ==>
      id in d.rooms[d.tasks[id].room].tasks
  }

  /** Every task a room lists that exists is a top-level task of that room. */
  ghost predicate RoomListsLinked(d: Db)
  {
    forall r, x :: r in d.rooms && x in d.rooms[r].tasks && x in d.tasks ==>
      d.tasks[x].parentTask.None? && d.tasks[x].room == r
  }

  /** Every id a room lists names an existing task. */
  ghost predicate RoomListsResolve(d: Db)
  {
    forall r, x :: r in d.rooms && x in d.rooms[r].tasks ==> x in d.tasks
  }

  /** The subTasks and room task lists have no repeated id. */
  ghost predicate ListsNoDup(d: Db)
  {
    && (forall id :: id in d.tasks ==> NoDup(d.tasks[id].subTasks))
    && (forall r :: r in d.rooms ==> NoDup(d.rooms[r].tasks))
  }

  /** Every task has a rank, and a parent's rank is below its child's, so
      parent links have no cycle. */
  ghost predicate Ranked(d: Db, rank: map<Id, nat>)
  {
    forall id :: id in d.tasks ==>
      id in rank && (d.tasks[id].parentTask.Some? && d.tasks[id].parentTask.value in rank ==>
        rank[d.tasks[id].parentTask.value] < rank[id])
  }

  ghost predicate Linked(d: Db, rank: map<Id, nat>)
  {
    ChatsLinked(d) && ParentsLinked(d) && ChildrenLinked(d) && RootsListed(d)
    && RoomListsLinked(d) && ListsNoDup(d) && Ranked(d, rank)
  }

  /** The invariant every operation but one keeps; room lists may hold ids
      of deleted tasks. */
  ghost predicate Valid(d: Db)
  {
    exists rank :: Linked(d, rank)
  }

  /** The invariant with room lists naming existing tasks only. */
  ghost predicate Strict(d: Db)
  {
    Valid(d) && RoomListsResolve(d)
  }

  /** An id for a new task: no task has it and no room lists it. */
  ghost predicate FreshTaskId(d: Db, id: Id)
  {
    id !in d.tasks && forall r :: r in d.rooms ==> id !in d.rooms[r].tasks
  }

  /** With the links in place, `populate` drops nothing. */
  lemma PopulateResolves(d: Db, id: Id)
    requires ParentsLinked(d) && ChildrenLinked(d) && id in d.tasks
    ensures PopulatedChildren(d, d.tasks[id]) == d.tasks[id].subTasks
    ensures PopulatedParent(d, d.tasks[id]) == d.tasks[id].parentTask
  {
  }

  // ---------------------------------------------------------------- create

  /** When `create` succeeds and when it fails with the parent's error. */
  lemma CreateChecks(d: Db, dto: CreateTaskDto, userId: Id, uploads: seq<FileService.Upload>,
                     taskId: Id, chatId: Id, fileIds: seq<Id>)
    requires |fileIds| == |uploads|
    ensures var r := CreateOutcome(d, dto, userId, uploads, taskId, chatId, fileIds);
      && (r.Ok? <==> AllUsersExist(d, ParticipantList(dto, userId))
                     && ParentTask(d, dto.parentTaskId, dto.roomId).Ok?
                     && forall i :: 0 <= i < |uploads| ==> FileService.CheckUpload(uploads[i]).Ok?)
      && (!AllUsersExist(d, ParticipantList(dto, userId)) ==>
            r == Err(TransactionFailed(NotFound("User does not exist"))))
      && (AllUsersExist(d, ParticipantList(dto, userId)) && ParentTask(d, dto.parentTaskId, dto.roomId).Err? ==>
            r == Err(TransactionFailed(NotFound("Parent task not found or invalid"))))
      && (AllUsersExist(d, ParticipantList(dto, userId)) && ParentTask(d, dto.parentTaskId, dto.roomId).Ok?
          && UploadAll(d.files, uploads, fileIds).Err? ==>
            r == Err(TransactionFailed(UploadAll(d.files, uploads, fileIds).error)))
      && (r.Ok? ==> r.value == Created(d, dto, userId, taskId, chatId, fileIds, UploadAll(d.files, uploads, fileIds).value,
                                       ParentTask(d, dto.parentTaskId, dto.roomId).value))
  {
  }

  /** What a successful `create` writes: the task, its chat bound to it, and
      the new id appended to the parent's subTasks (with the creator added to
      the parent's participants if absent) or to the room's tasks. Nothing
      else changes but the file records. */
  lemma CreatedEffects(d: Db, dto: CreateTaskDto, userId: Id, taskId: Id, chatId: Id, fileIds: seq<Id>,
                       files: map<Id, FileDoc>, parent: Option<Id>)
    requires taskId !in d.tasks && (parent.Some? ==> parent.value in d.tasks)
    ensures var d' := Created(d, dto, userId, taskId, chatId, fileIds, files, parent);
      && d'.tasks.Keys == d.tasks.Keys + {taskId}
      && d'.tasks[taskId].status == Todo
      && d'.tasks[taskId].moderator == userId
      && d'.tasks[taskId].participants == ParticipantList(dto, userId)
      && d'.tasks[taskId].files == fileIds
      && d'.tasks[taskId].chat == chatId
      && d'.tasks[taskId].parentTask == parent
      && d'.tasks[taskId].subTasks == []
      && d'.tasks[taskId].room == dto.roomId
      && d'.chats == d.chats[chatId := Chat(Some(taskId), [])]
      && d'.files == files && d'.users == d.users
      && d'.threads == d.threads && d'.messages == d.messages
      && (parent.Some? ==>
            var p := parent.value;
            && d'.tasks[p] == d.tasks[p].(subTasks := d.tasks[p].subTasks + [taskId],
                                          participants := AddToSet(d.tasks[p].participants, [userId]))
            && (forall x :: x in d.tasks && x != p ==> d'.tasks[x] == d.tasks[x])
            && d'.rooms == d.rooms)
      && (parent.None? ==>
            && (forall x :: x in d.tasks ==> d'.tasks[x] == d.tasks[x])
            && (dto.roomId in d.rooms ==>
                  d'.rooms == d.rooms[dto.roomId := d.rooms[dto.roomId].(tasks := d.rooms[dto.roomId].tasks + [taskId])])
            && (dto.roomId !in d.rooms ==> d'.rooms == d.rooms))
  {
    CreatedAdded(d, dto, userId, taskId, chatId, fileIds, files, parent);
  }

  /** The links `create` adds, in the terms the invariant needs. */
  ghost predicate Added(d: Db, d': Db, taskId: Id, chatId: Id, parent: Option<Id>, roomId: Id, moderator: Id)
    requires parent.Some? ==> parent.value in d.tasks
  {
    && d'.tasks.Keys == d.tasks.Keys + {taskId}
    && d'.tasks[taskId].chat == chatId && d'.tasks[taskId].parentTask == parent
    && d'.tasks[taskId].subTasks == [] && d'.tasks[taskId].room == roomId
    && d'.chats == d.chats[chatId := Chat(Some(taskId), [])]
    && KeptBut(d, d', parent)
    && (parent.Some? ==>
          var p := parent.value;
          && d'.tasks[p] == d.tasks[p].(subTasks := d.tasks[p].subTasks + [taskId],
                                        participants := AddToSet(d.tasks[p].participants, [moderator]))
          && d'.rooms == d.rooms)
    && (parent.None? ==>
          && (roomId in d.rooms ==> d'.rooms == d.rooms[roomId := d.rooms[roomId].(tasks := d.rooms[roomId].tasks + [taskId])])
          && (roomId !in d.rooms ==> d'.rooms == d.rooms))
  }

  /** Every task but the parent is as it was. */
  ghost predicate KeptBut(d: Db, d': Db, parent: Option<Id>)
  {
    forall x :: x in d.tasks && parent != Some(x) ==> x in d'.tasks && d'.tasks[x] == d.tasks[x]
  }

  lemma CreatedAdded(d: Db, dto: CreateTaskDto, userId: Id, taskId: Id, chatId: Id, fileIds: seq<Id>,
                     files: map<Id, FileDoc>, parent: Option<Id>)
    requires taskId !in d.tasks && (parent.Some? ==> parent.value in d.tasks)
    ensures var d' := Created(d, dto, userId, taskId, chatId, fileIds, files, parent);
      && Added(d, d', taskId, chatId, parent, dto.roomId, userId)
      && d'.tasks[taskId] == NewTask(dto, userId, fileIds, chatId, parent)
      && d'.files == files && d'.users == d.users
      && d'.threads == d.threads && d'.messages == d.messages
  {
    var nt := NewTask(dto, userId, fileIds, chatId, parent);
    var d1 := d.(chats := d.chats[chatId := Chat(None, [])], files := files, tasks := d.tasks[taskId := nt]);
    var d2 := d1.(chats := d1.chats[chatId := d1.chats[chatId].(task := Some(taskId))]);
    var d' := Created(d, dto, userId, taskId, chatId, fileIds, files, parent);
    assert d' == AttachTask(d2, taskId, userId, parent, dto.roomId);
    assert d2.chats == d.chats[chatId := Chat(Some(taskId), [])];
    if parent.Some? {
      var p := parent.value;
      assert d2.tasks[p] == d.tasks[p];
      AddedUnder(d, d', taskId, chatId, p, dto.roomId, userId, nt);
    } else {
      AddedTop(d, d', taskId, chatId, dto.roomId, nt);
    }
  }

  lemma AddedUnder(d: Db, d': Db, taskId: Id, chatId: Id, p: Id, roomId: Id, moderator: Id, nt: Task)
    requires taskId !in d.tasks && p in d.tasks
    requires nt.chat == chatId && nt.parentTask == Some(p) && nt.subTasks == [] && nt.room == roomId
    requires d'.tasks == d.tasks[taskId := nt][p := d.tasks[p].(subTasks := d.tasks[p].subTasks + [taskId],
                                                                participants := AddToSet(d.tasks[p].participants, [moderator]))]
    requires d'.chats == d.chats[chatId := Chat(Some(taskId), [])] && d'.rooms == d.rooms
    ensures Added(d, d', taskId, chatId, Some(p), roomId, moderator) && d'.tasks[taskId] == nt
  {
  }

  lemma AddedTop(d: Db, d': Db, taskId: Id, chatId: Id, roomId: Id, nt: Task)
    requires taskId !in d.tasks
    requires nt.chat == chatId && nt.parentTask == None && nt.subTasks == [] && nt.room == roomId
    requires d'.tasks == d.tasks[taskId := nt]
    requires d'.chats == d.chats[chatId := Chat(Some(taskId), [])]
    requires roomId in d.rooms ==> d'.rooms == d.rooms[roomId := d.rooms[roomId].(tasks := d.rooms[roomId].tasks + [taskId])]
    requires roomId !in d.rooms ==> d'.rooms == d.rooms
    ensures forall m :: Added(d, d', taskId, chatId, None, roomId, m)
    ensures d'.tasks[taskId] == nt
  {
  }

  /** `create` keeps the invariant, strict or not, for fresh task and chat ids. */
  lemma CreateKeepsValid(d: Db, dto: CreateTaskDto, userId: Id, uploads: seq<FileService.Upload>,
                         taskId: Id, chatId: Id, fileIds: seq<Id>)
    requires |fileIds| == |uploads|
    requires Valid(d) && FreshTaskId(d, taskId) && chatId !in d.chats
    requires CreateOutcome(d, dto, userId, uploads, taskId, chatId, fileIds).Ok?
    ensures Valid(CreateOutcome(d, dto, userId, uploads, taskId, chatId, fileIds).value)
    ensures RoomListsResolve(d) ==> RoomListsResolve(CreateOutcome(d, dto, userId, uploads, taskId, chatId, fileIds).value)
  {
    var rank :| Linked(d, rank);
    CreateChecks(d, dto, userId, uploads, taskId, chatId, fileIds);
    var parent := ParentTask(d, dto.parentTaskId, dto.roomId).value;
    var files := UploadAll(d.files, uploads, fileIds).value;
    CreatedKeepsLinked(d, rank, dto, userId, taskId, chatId, fileIds, files, parent);
  }

  lemma CreatedKeepsLinked(d: Db, rank: map<Id, nat>, dto: CreateTaskDto, userId: Id, taskId: Id, chatId: Id,
                           fileIds: seq<Id>, files: map<Id, FileDoc>, parent: Option<Id>)
    requires Linked(d, rank) && FreshTaskId(d, taskId) && chatId !in d.chats
    requires parent.Some? ==> parent.value in d.tasks && d.tasks[parent.value].room == dto.roomId
    ensures Valid(Created(d, dto, userId, taskId, chatId, fileIds, files, parent))
    ensures RoomListsResolve(d) ==> RoomListsResolve(Created(d, dto, userId, taskId, chatId, fileIds, files, parent))
  {
    var d' := Created(d, dto, userId, taskId, chatId, fileIds, files, parent);
    var rank' := rank[taskId := if parent.Some? then rank[parent.value] + 1 else 0];
    CreatedAdded(d, dto, userId, taskId, chatId, fileIds, files, parent);
    AddedKeepsLinked(d, d', rank, taskId, chatId, parent, dto.roomId, userId);
  }

  lemma AddedKeepsLinked(d: Db, d': Db, rank: map<Id, nat>, taskId: Id, chatId: Id, parent: Option<Id>, roomId: Id, moderator: Id)
    requires Linked(d, rank) && FreshTaskId(d, taskId) && chatId !in d.chats
    requires parent.Some? ==> parent.value in d.tasks && d.tasks[parent.value].room == roomId
    requires Added(d, d', taskId, chatId, parent, roomId, moderator)
    ensures Linked(d', rank[taskId := if parent.Some? then rank[parent.value] + 1 else 0])
    ensures RoomListsResolve(d) ==> RoomListsResolve(d')
  {
    AddedKeepsChats(d, d', taskId, chatId, parent, roomId, moderator);
    AddedKeepsParents(d, d', taskId, chatId, parent, roomId, moderator);
    AddedKeepsChildren(d, d', taskId, chatId, parent, roomId, moderator);
    AddedKeepsRoomLists(d, d', taskId, chatId, parent, roomId, moderator);
    AddedKeepsNoDup(d, d', taskId, chatId, parent, roomId, moderator);
    AddedKeepsRanked(d, d', rank, taskId, chatId, parent, roomId, moderator);
  }

  lemma AddedKeepsChats(d: Db, d': Db, taskId: Id, chatId: Id, parent: Option<Id>, roomId: Id, moderator: Id)
    requires ChatsLinked(d) && taskId !in d.tasks && chatId !in d.chats
    requires parent.Some? ==> parent.value in d.tasks
    requires Added(d, d', taskId, chatId, parent, roomId, moderator)
    ensures ChatsLinked(d')
  {
    forall x | x in d'.tasks
      ensures d'.tasks[x].chat in d'.chats && d'.chats[d'.tasks[x].chat].task == Some(x)
    {
      if x != taskId {
        if parent == Some(x) {
          assert d'.tasks[x].chat == d.tasks[x].chat;
        } else {
          assert d'.tasks[x] == d.tasks[x];
        }
        assert d.tasks[x].chat != chatId;
      }
    }
  }

  lemma AddedKeepsParents(d: Db, d': Db, taskId: Id, chatId: Id, parent: Option<Id>, roomId: Id, moderator: Id)
    requires ParentsLinked(d) && taskId !in d.tasks
    requires parent.Some? ==> parent.value in d.tasks && d.tasks[parent.value].room == roomId
    requires Added(d, d', taskId, chatId, parent, roomId, moderator)
    ensures ParentsLinked(d')
  {
    forall x | x in d'.tasks && d'.tasks[x].parentTask.Some?
      ensures var q := d'.tasks[x].parentTask.value;
        q in d'.tasks && x in d'.tasks[q].subTasks && d'.tasks[q].room == d'.tasks[x].room
    {
      if x != taskId {
        AddedParentOf(d, d', taskId, chatId, parent, roomId, moderator, x);
      }
    }
  }

  lemma AddedParentOf(d: Db, d': Db, taskId: Id, chatId: Id, parent: Option<Id>, roomId: Id, moderator: Id, x: Id)
    requires ParentsLinked(d) && taskId !in d.tasks
    requires parent.Some? ==> parent.value in d.tasks && d.tasks[parent.value].room == roomId
    requires Added(d, d', taskId, chatId, parent, roomId, moderator)
    requires x in d.tasks && x in d'.tasks && d'.tasks[x].parentTask.Some?
    ensures var q := d'.tasks[x].parentTask.value;
      q in d'.tasks && x in d'.tasks[q].subTasks && d'.tasks[q].room == d'.tasks[x].room
  {
    var q := d.tasks[x].parentTask.value;
    assert d'.tasks[x].parentTask == d.tasks[x].parentTask && d'.tasks[x].room == d.tasks[x].room;
    assert x in d.tasks[q].subTasks;
    assert x in d'.tasks[q].subTasks && d'.tasks[q].room == d.tasks[q].room;
  }

  lemma AddedKeepsChildren(d: Db, d': Db, taskId: Id, chatId: Id, parent: Option<Id>, roomId: Id, moderator: Id)
    requires ChildrenLinked(d) && taskId !in d.tasks
    requires parent.Some? ==> parent.value in d.tasks
    requires Added(d, d', taskId, chatId, parent, roomId, moderator)
    ensures ChildrenLinked(d')
  {
    forall x | true
      ensures ChildrenOf(d', x)
    {
      forall c | x in d'.tasks && c in d'.tasks[x].subTasks
        ensures c in d'.tasks && d'.tasks[c].parentTask == Some(x)
      {
        AddedChildOf(d, d', taskId, chatId, parent, roomId, moderator, x, c);
      }
    }
    ChildrenFromHalves(d', taskId);
  }

  lemma AddedChildOf(d: Db, d': Db, taskId: Id, chatId: Id, parent: Option<Id>, roomId: Id, moderator: Id, x: Id, c: Id)
    requires ChildrenLinked(d) && taskId !in d.tasks
    requires parent.Some? ==> parent.value in d.tasks
    requires Added(d, d', taskId, chatId, parent, roomId, moderator)
    requires x in d'.tasks && c in d'.tasks[x].subTasks
    ensures c in d'.tasks && d'.tasks[c].parentTask == Some(x)
  {
    assert x != taskId;
    if parent == Some(x) && c == taskId {
    } else {
      assert c in d.tasks[x].subTasks;
      ChildLink(d, x, c);
      assert c != taskId;
      if parent != Some(c) {
        assert d'.tasks[c] == d.tasks[c];
      }
    }
  }

  /** Covers `RootsListed`, `RoomListsLinked` and `RoomListsResolve`. */
  lemma AddedKeepsRoomLists(d: Db, d': Db, taskId: Id, chatId: Id, parent: Option<Id>, roomId: Id, moderator: Id)
    requires RootsListed(d) && RoomListsLinked(d) && FreshTaskId(d, taskId)
    requires parent.Some? ==> parent.value in d.tasks
    requires Added(d, d', taskId, chatId, parent, roomId, moderator)
    ensures RootsListed(d') && RoomListsLinked(d')
    ensures RoomListsResolve(d) ==> RoomListsResolve(d')
  {
    AddedKeepsRoots(d, d', taskId, chatId, parent, roomId, moderator);
    AddedKeepsRoomListsLinked(d, d', taskId, chatId, parent, roomId, moderator);
  }

  lemma AddedKeepsRoots(d: Db, d': Db, taskId: Id, chatId: Id, parent: Option<Id>, roomId: Id, moderator: Id)
    requires RootsListed(d) && taskId !in d.tasks
    requires parent.Some? ==> parent.value in d.tasks
    requires Added(d, d', taskId, chatId, parent, roomId, moderator)
    ensures RootsListed(d')
  {
    forall x | x in d'.tasks && d'.tasks[x].parentTask.None? && d'.tasks[x].room in d'.rooms
      ensures x in d'.rooms[d'.tasks[x].room].tasks
    {
      if x != taskId {
        AddedSameLinks(d, d', taskId, chatId, parent, roomId, moderator, x);
      }
    }
  }

  lemma AddedKeepsRoomListsLinked(d: Db, d': Db, taskId: Id, chatId: Id, parent: Option<Id>, roomId: Id, moderator: Id)
    requires RoomListsLinked(d) && FreshTaskId(d, taskId)
    requires parent.Some? ==> parent.value in d.tasks
    requires Added(d, d', taskId, chatId, parent, roomId, moderator)
    ensures RoomListsLinked(d')
    ensures RoomListsResolve(d) ==> RoomListsResolve(d')
  {
    forall r, x | r in d'.rooms && x in d'.rooms[r].tasks && x in d'.tasks
      ensures d'.tasks[x].parentTask.None? && d'.tasks[x].room == r
    {
      if x != taskId {
        assert x in d.rooms[r].tasks;
        AddedSameLinks(d, d', taskId, chatId, parent, roomId, moderator, x);
      }
    }
  }

  /** An old task keeps its parent and its room. */
  lemma AddedSameLinks(d: Db, d': Db, taskId: Id, chatId: Id, parent: Option<Id>, roomId: Id, moderator: Id, x: Id)
    requires parent.Some? ==> parent.value in d.tasks
    requires Added(d, d', taskId, chatId, parent, roomId, moderator)
    requires x in d.tasks
    ensures x in d'.tasks && d'.tasks[x].parentTask == d.tasks[x].parentTask && d'.tasks[x].room == d.tasks[x].room
  {
  }

  lemma AddedKeepsNoDup(d: Db, d': Db, taskId: Id, chatId: Id, parent: Option<Id>, roomId: Id, moderator: Id)
    requires ListsNoDup(d) && ChildrenLinked(d) && FreshTaskId(d, taskId)
    requires parent.Some? ==> parent.value in d.tasks
    requires Added(d, d', taskId, chatId, parent, roomId, moderator)
    ensures ListsNoDup(d')
  {
    if parent.Some? {
      var p := parent.value;
      assert taskId !in d.tasks[p].subTasks;
      NoDupSnoc(d.tasks[p].subTasks, taskId);
    } else if roomId in d.rooms {
      NoDupSnoc(d.rooms[roomId].tasks, taskId);
    }
  }

  lemma AddedKeepsRanked(d: Db, d': Db, rank: map<Id, nat>, taskId: Id, chatId: Id, parent: Option<Id>, roomId: Id, moderator: Id)
    requires Ranked(d, rank) && ParentsLinked(d) && taskId !in d.tasks
    requires parent.Some? ==> parent.value in d.tasks
    requires Added(d, d', taskId, chatId, parent, roomId, moderator)
    ensures Ranked(d', rank[taskId := if parent.Some? then rank[parent.value] + 1 else 0])
  {
    var rank' := rank[taskId := if parent.Some? then rank[parent.value] + 1 else 0];
    forall x | x in d'.tasks
      ensures x in rank' && (d'.tasks[x].parentTask.Some? && d'.tasks[x].parentTask.value in rank' ==>
        rank'[d'.tasks[x].parentTask.value] < rank'[x])
    {
      if x != taskId {
        AddedSameLinks(d, d', taskId, chatId, parent, roomId, moderator, x);
      }
    }
  }

  /** The new task ranks above its parent, so `create` adds no cycle. */
  lemma CreatedKeepsRanked(d: Db, rank: map<Id, nat>, dto: CreateTaskDto, userId: Id, taskId: Id, chatId: Id,
                           fileIds: seq<Id>, files: map<Id, FileDoc>, parent: Option<Id>)
    requires Ranked(d, rank) && ParentsLinked(d) && taskId !in d.tasks
    requires parent.Some? ==> parent.value in d.tasks
    ensures Ranked(Created(d, dto, userId, taskId, chatId, fileIds, files, parent),
                   rank[taskId := if parent.Some? then rank[parent.value] + 1 else 0])
  {
    CreatedAdded(d, dto, userId, taskId, chatId, fileIds, files, parent);
    AddedKeepsRanked(d, Created(d, dto, userId, taskId, chatId, fileIds, files, parent), rank, taskId, chatId, parent, dto.roomId, userId);
  }

  lemma NoDupSnoc<T>(s: seq<T>, x: T)
    requires NoDup(s) && x !in s
    ensures NoDup(s + [x])
  {
  }

  // ---------------------------------------------------------------- delete

  /** Under the invariant, a task is not its own parent and not among its
      own subtasks, and its parent is not among them either. */
  lemma NoSelfLinks(d: Db, rank: map<Id, nat>, id: Id)
    requires Linked(d, rank) && id in d.tasks
    ensures d.tasks[id].parentTask != Some(id) && id !in d.tasks[id].subTasks
    ensures d.tasks[id].parentTask.Some? ==> d.tasks[id].parentTask.value !in d.tasks[id].subTasks
  {
    var t := d.tasks[id];
    if t.parentTask.Some? {
      var p := t.parentTask.value;
      assert rank[p] < rank[id];
    }
  }

  /** Deleting a task with no subtasks under a parent: the parent's subTasks
      lose the id; no room list and no other task changes. */
  lemma DeleteLeafUnderParent(d: Db, id: Id)
    requires Valid(d) && id in d.tasks && d.tasks[id].subTasks == [] && d.tasks[id].parentTask.Some?
    ensures var t := d.tasks[id];
      var p := t.parentTask.value;
      var d' := AfterDelete(d, id);
      && p != id && p in d.tasks
      && d'.tasks == d.tasks[p := d.tasks[p].(subTasks := RemoveAll(d.tasks[p].subTasks, [id]))] - {id}
      && d'.rooms == d.rooms && d'.users == d.users
      && d'.chats == d.chats - {t.chat}
      && (forall f :: f in d'.files <==> f in d.files && f !in t.files)
  {
    var rank :| Linked(d, rank);
    NoSelfLinks(d, rank, id);
    PopulateResolves(d, id);
    LeafUnderParentShape(d, id, d.tasks[id].parentTask.value);
  }

  /** `AfterDelete` of a task with no resolving subtasks and parent `p`. */
  lemma LeafUnderParentShape(d: Db, id: Id, p: Id)
    requires id in d.tasks && PopulatedChildren(d, d.tasks[id]) == [] && PopulatedParent(d, d.tasks[id]) == Some(p) && p != id
    ensures var t := d.tasks[id];
      var d' := AfterDelete(d, id);
      && p in d.tasks
      && d'.tasks == d.tasks[p := d.tasks[p].(subTasks := RemoveAll(d.tasks[p].subTasks, [id]))] - {id}
      && d'.rooms == d.rooms && d'.users == d.users
      && d'.chats == d.chats - {t.chat}
      && (forall f :: f in d'.files <==> f in d.files && f !in t.files)
  {
    var t := d.tasks[id];
    var d1 := d.(tasks := d.tasks[p := d.tasks[p].(subTasks := RemoveAll(d.tasks[p].subTasks, [id]))]);
    assert RemoveFromParentOrRoom(d, id, t) == d1;
    assert AfterDelete(d, id) == Purged(d1, id, t);
  }

  /** Deleting a top-level task with no subtasks: its room's tasks lose the
      id; no other list and no other task changes. */
  lemma DeleteLeafTopLevel(d: Db, id: Id)
    requires Valid(d) && id in d.tasks && d.tasks[id].subTasks == [] && d.tasks[id].parentTask.None?
    ensures var t := d.tasks[id];
      var d' := AfterDelete(d, id);
      && d'.tasks == d.tasks - {id}
      && (t.room in d.rooms ==> d'.rooms == d.rooms[t.room := d.rooms[t.room].(tasks := RemoveAll(d.rooms[t.room].tasks, [id]))])
      && (t.room !in d.rooms ==> d'.rooms == d.rooms)
      && d'.users == d.users
      && d'.chats == d.chats - {t.chat}
      && (forall f :: f in d'.files <==> f in d.files && f !in t.files)
  {
    var rank :| Linked(d, rank);
    PopulateResolves(d, id);
    LeafTopLevelShape(d, id);
  }

  /** `AfterDelete` of a task with no resolving subtasks and no resolving parent. */
  lemma LeafTopLevelShape(d: Db, id: Id)
    requires id in d.tasks && PopulatedChildren(d, d.tasks[id]) == [] && PopulatedParent(d, d.tasks[id]) == None
    ensures var t := d.tasks[id];
      var d' := AfterDelete(d, id);
      && d'.tasks == d.tasks - {id}
      && (t.room in d.rooms ==> d'.rooms == d.rooms[t.room := d.rooms[t.room].(tasks := RemoveAll(d.rooms[t.room].tasks, [id]))])
      && (t.room !in d.rooms ==> d'.rooms == d.rooms)
      && d'.users == d.users
      && d'.chats == d.chats - {t.chat}
      && (forall f :: f in d'.files <==> f in d.files && f !in t.files)
  {
    var t := d.tasks[id];
    var d1 := if t.room in d.rooms
      then d.(rooms := d.rooms[t.room := d.rooms[t.room].(tasks := RemoveAll(d.rooms[t.room].tasks, [id]))])
      else d;
    assert RemoveFromParentOrRoom(d, id, t) == d1;
    assert AfterDelete(d, id) == Purged(d1, id, t);
  }

  /** Deleting a task with subtasks under a parent: the parent's subTasks
      lose the id and gain, at the end, each subtask it lacks; each subtask
      gets that parent; no room list changes. */
  lemma DeleteInnerTask(d: Db, id: Id)
    requires Valid(d) && id in d.tasks && d.tasks[id].subTasks != [] && d.tasks[id].parentTask.Some?
    ensures var t := d.tasks[id];
      var p := t.parentTask.value;
      var d' := AfterDelete(d, id);
      && p != id && p in d.tasks && p !in t.subTasks
      && d'.tasks.Keys == d.tasks.Keys - {id}
      && d'.tasks[p] == d.tasks[p].(subTasks := AddToSet(RemoveAll(d.tasks[p].subTasks, [id]), t.subTasks))
      && (forall k :: k in t.subTasks ==> k in d'.tasks && d'.tasks[k] == d.tasks[k].(parentTask := Some(p)))
      && (forall k :: k in d'.tasks && k != p && k !in t.subTasks ==> d'.tasks[k] == d.tasks[k])
      && d'.rooms == d.rooms && d'.users == d.users
      && d'.chats == d.chats - {t.chat}
      && (forall f :: f in d'.files <==> f in d.files && f !in t.files)
  {
    var rank :| Linked(d, rank);
    NoSelfLinks(d, rank, id);
    PopulateResolves(d, id);
    InnerShape(d, id, d.tasks[id].parentTask.value);
  }

  /** `AfterDelete` of a task whose subtasks all resolve, none of them `p`,
      and whose parent `p` resolves. */
  lemma InnerShape(d: Db, id: Id, p: Id)
    requires id in d.tasks && p in d.tasks && p != id && p !in d.tasks[id].subTasks && id !in d.tasks[id].subTasks
    requires PopulatedChildren(d, d.tasks[id]) == d.tasks[id].subTasks != []
    requires PopulatedParent(d, d.tasks[id]) == Some(p)
    ensures var t := d.tasks[id];
      var d' := AfterDelete(d, id);
      && InnerDeleted(d, d', id, p)
      && d'.rooms == d.rooms && d'.users == d.users
      && d'.chats == d.chats - {t.chat}
      && (forall f :: f in d'.files <==> f in d.files && f !in t.files)
  {
    var t := d.tasks[id];
    var K := t.subTasks;
    var d1 := d.(tasks := d.tasks[p := d.tasks[p].(subTasks := AddToSet(RemoveAll(d.tasks[p].subTasks, [id]), K))]);
    var d2 := SetParents(d1, K, Some(p));
    assert TransferSubTasks(d, id, t) == d2;
    assert AfterDelete(d, id) == Purged(d2, id, t);
    InnerTasks(d, id, p, AfterDelete(d, id));
  }

  /** Pointwise reading of the task map after promoting the subtasks of `id` to `p`. */
  lemma InnerTasks(d: Db, id: Id, p: Id, d': Db)
    requires id in d.tasks && p in d.tasks && p != id && p !in d.tasks[id].subTasks && id !in d.tasks[id].subTasks
    requires forall k :: k in d.tasks[id].subTasks ==> k in d.tasks
    requires var K := d.tasks[id].subTasks;
      d'.tasks == SetParents(d.(tasks := d.tasks[p := d.tasks[p].(subTasks := AddToSet(RemoveAll(d.tasks[p].subTasks, [id]), K))]), K, Some(p)).tasks - {id}
    ensures InnerDeleted(d, d', id, p)
  {
    InnerTasksParent(d, id, p, d');
    InnerTasksPromoted(d, id, p, d');
    InnerTasksUnchanged(d, id, p, d');
  }

  lemma InnerTasksParent(d: Db, id: Id, p: Id, d': Db)
    requires id in d.tasks && p in d.tasks && p != id && p !in d.tasks[id].subTasks
    requires var K := d.tasks[id].subTasks;
      d'.tasks == SetParents(d.(tasks := d.tasks[p := d.tasks[p].(subTasks := AddToSet(RemoveAll(d.tasks[p].subTasks, [id]), K))]), K, Some(p)).tasks - {id}
    ensures d'.tasks.Keys == d.tasks.Keys - {id} && p in d'.tasks
    ensures d'.tasks[p] == d.tasks[p].(subTasks := AddToSet(RemoveAll(d.tasks[p].subTasks, [id]), d.tasks[id].subTasks))
  {
  }

  lemma InnerTasksPromoted(d: Db, id: Id, p: Id, d': Db)
    requires id in d.tasks && p in d.tasks && p != id && p !in d.tasks[id].subTasks && id !in d.tasks[id].subTasks
    requires forall k :: k in d.tasks[id].subTasks ==> k in d.tasks
    requires var K := d.tasks[id].subTasks;
      d'.tasks == SetParents(d.(tasks := d.tasks[p := d.tasks[p].(subTasks := AddToSet(RemoveAll(d.tasks[p].subTasks, [id]), K))]), K, Some(p)).tasks - {id}
    ensures Promoted(d, d', id, p)
  {
  }

  lemma InnerTasksUnchanged(d: Db, id: Id, p: Id, d': Db)
    requires id in d.tasks && p in d.tasks && p != id && p !in d.tasks[id].subTasks && id !in d.tasks[id].subTasks
    requires var K := d.tasks[id].subTasks;
      d'.tasks == SetParents(d.(tasks := d.tasks[p := d.tasks[p].(subTasks := AddToSet(RemoveAll(d.tasks[p].subTasks, [id]), K))]), K, Some(p)).tasks - {id}
    ensures UnchangedBut(d, d', id, p)
  {
  }

  /** Deleting a top-level task with subtasks: each subtask loses its parent
      and is added to the room's tasks if absent; the deleted id is not
      pulled from the room's tasks. */
  lemma DeleteTopLevelWithChildren(d: Db, id: Id)
    requires Valid(d) && id in d.tasks && d.tasks[id].subTasks != [] && d.tasks[id].parentTask.None?
    ensures var t := d.tasks[id];
      var d' := AfterDelete(d, id);
      && d'.tasks.Keys == d.tasks.Keys - {id}
      && (forall k :: k in t.subTasks ==> k in d'.tasks && d'.tasks[k] == d.tasks[k].(parentTask := None))
      && (forall k :: k in d'.tasks && k !in t.subTasks ==> d'.tasks[k] == d.tasks[k])
      && (t.room in d.rooms ==> d'.rooms == d.rooms[t.room := d.rooms[t.room].(tasks := AddToSet(d.rooms[t.room].tasks, t.subTasks))])
      && (t.room !in d.rooms ==> d'.rooms == d.rooms)
      && (t.room in d.rooms && id in d.rooms[t.room].tasks ==> id in d'.rooms[t.room].tasks)
      && d'.users == d.users
      && d'.chats == d.chats - {t.chat}
      && (forall f :: f in d'.files <==> f in d.files && f !in t.files)
  {
    var rank :| Linked(d, rank);
    NoSelfLinks(d, rank, id);
    PopulateResolves(d, id);
    TopLevelShape(d, id);
  }

  /** Deleting the task's chat leaves every other task's chat in place. */
  lemma PurgeKeepsChats(d: Db, d': Db, id: Id)
    requires ChatsLinked(d) && id in d.tasks && ChatsPurged(d, d', id)
    ensures ChatsLinked(d')
  {
  }

  /** The task `id` and its chat are gone; every other task keeps its chat. */
  ghost predicate ChatsPurged(d: Db, d': Db, id: Id)
    requires id in d.tasks
  {
    && d'.tasks.Keys == d.tasks.Keys - {id} && d'.chats == d.chats - {d.tasks[id].chat}
    && forall k :: k in d'.tasks ==> d'.tasks[k].chat == d.tasks[k].chat
  }

  /** The tasks after deleting `id`, a task with no subtasks under `p`. */
  ghost predicate LeafRemoved(d: Db, d': Db, id: Id, p: Id)
    requires p in d.tasks
  {
    && d'.tasks.Keys == d.tasks.Keys - {id}
    && p in d'.tasks
    && d'.tasks[p] == d.tasks[p].(subTasks := RemoveAll(d.tasks[p].subTasks, [id]))
    && (forall k :: k in d'.tasks && k != p ==> d'.tasks[k] == d.tasks[k])
  }

  /** The subtasks `x` lists name it as their parent. */
  ghost predicate ChildrenOf(d: Db, x: Id)
  {
    x in d.tasks ==> forall c :: c in d.tasks[x].subTasks ==> c in d.tasks && d.tasks[c].parentTask == Some(x)
  }

  /** `ChildrenLinked` for every task but `p`. */
  ghost predicate ChildrenLinkedExcept(d: Db, p: Id)
  {
    forall x :: x != p ==> ChildrenOf(d, x)
  }

  lemma ChildrenFromHalves(d: Db, p: Id)
    requires ChildrenOf(d, p) && ChildrenLinkedExcept(d, p)
    ensures ChildrenLinked(d)
  {
    forall x, c | x in d.tasks && c in d.tasks[x].subTasks
      ensures c in d.tasks && d.tasks[c].parentTask == Some(x)
    {
      assert ChildrenOf(d, x);
    }
  }

  lemma LeafUnderParentKeepsTree(d: Db, rank: map<Id, nat>, id: Id, p: Id, d': Db)
    requires ParentsLinked(d) && ChildrenLinked(d) && ListsNoDup(d) && Ranked(d, rank)
    requires id in d.tasks && d.tasks[id].subTasks == [] && d.tasks[id].parentTask == Some(p) && p != id && p in d.tasks
    requires d'.tasks == d.tasks[p := d.tasks[p].(subTasks := RemoveAll(d.tasks[p].subTasks, [id]))] - {id}
    requires d'.rooms == d.rooms
    ensures ParentsLinked(d') && ChildrenLinked(d') && ListsNoDup(d') && Ranked(d', rank)
  {
    LeafUnderParentTasks(d, id, p, d');
    LeafUnderParentKeepsParents(d, id, p, d');
    LeafUnderParentChildrenOfP(d, id, p, d');
    LeafUnderParentChildrenOfOthers(d, id, p, d');
    ChildrenFromHalves(d', p);
    LeafUnderParentKeepsOrder(d, rank, id, p, d');
  }

  lemma LeafUnderParentKeepsOrder(d: Db, rank: map<Id, nat>, id: Id, p: Id, d': Db)
    requires ListsNoDup(d) && Ranked(d, rank)
    requires id in d.tasks && p != id && p in d.tasks
    requires LeafRemoved(d, d', id, p) && d'.rooms == d.rooms
    ensures ListsNoDup(d') && Ranked(d', rank)
  {
  }

  lemma LeafUnderParentKeepsParents(d: Db, id: Id, p: Id, d': Db)
    requires ParentsLinked(d)
    requires id in d.tasks && d.tasks[id].subTasks == [] && p != id && p in d.tasks
    requires LeafRemoved(d, d', id, p)
    ensures ParentsLinked(d')
  {
    forall x | x in d'.tasks && d'.tasks[x].parentTask.Some?
      ensures var q := d'.tasks[x].parentTask.value;
        q in d'.tasks && x in d'.tasks[q].subTasks && d'.tasks[q].room == d'.tasks[x].room
    {
      var q := d.tasks[x].parentTask.value;
      assert x in d.tasks[q].subTasks;
    }
  }

  /** The parent's remaining subtasks still name it. */
  lemma LeafUnderParentChildrenOfP(d: Db, id: Id, p: Id, d': Db)
    requires ChildrenLinked(d)
    requires id in d.tasks && d.tasks[id].parentTask == Some(p) && p != id && p in d.tasks
    requires LeafRemoved(d, d', id, p)
    ensures ChildrenOf(d', p)
  {
    forall c | c in d'.tasks[p].subTasks
      ensures c in d'.tasks && d'.tasks[c].parentTask == Some(p)
    {
      assert c in d.tasks[p].subTasks && c != id;
      ChildLink(d, p, c);
    }
  }

  /** Every other task keeps its subtasks, and they keep their parent. */
  lemma LeafUnderParentChildrenOfOthers(d: Db, id: Id, p: Id, d': Db)
    requires ChildrenLinked(d)
    requires id in d.tasks && d.tasks[id].parentTask == Some(p) && p != id && p in d.tasks
    requires LeafRemoved(d, d', id, p)
    ensures ChildrenLinkedExcept(d', p)
  {
    forall x | x != p
      ensures ChildrenOf(d', x)
    {
      forall c | x in d'.tasks && c in d'.tasks[x].subTasks
        ensures c in d'.tasks && d'.tasks[c].parentTask == Some(x)
      {
        assert d'.tasks[x] == d.tasks[x];
        ChildLink(d, x, c);
        assert c != id;
      }
    }
  }

  /** Pointwise reading of the task map after deleting a leaf under `p`. */
  lemma LeafUnderParentTasks(d: Db, id: Id, p: Id, d': Db)
    requires id in d.tasks && p != id && p in d.tasks
    requires d'.tasks == d.tasks[p := d.tasks[p].(subTasks := RemoveAll(d.tasks[p].subTasks, [id]))] - {id}
    ensures LeafRemoved(d, d', id, p)
  {
  }

  lemma LeafUnderParentKeepsChatFields(d: Db, id: Id, p: Id, d': Db)
    requires id in d.tasks && p in d.tasks
    requires LeafRemoved(d, d', id, p) && d'.chats == d.chats - {d.tasks[id].chat}
    ensures ChatsPurged(d, d', id)
  {
  }

  /** One instance of `ChildrenLinked`. */
  lemma ChildLink(d: Db, x: Id, c: Id)
    requires ChildrenLinked(d) && x in d.tasks && c in d.tasks[x].subTasks
    ensures c in d.tasks && d.tasks[c].parentTask == Some(x)
  {
  }

  lemma LeafUnderParentKeepsRooms(d: Db, id: Id, p: Id, d': Db)
    requires RootsListed(d) && RoomListsLinked(d)
    requires id in d.tasks && d.tasks[id].parentTask == Some(p) && p != id && p in d.tasks
    requires d'.tasks == d.tasks[p := d.tasks[p].(subTasks := RemoveAll(d.tasks[p].subTasks, [id]))] - {id}
    requires d'.rooms == d.rooms
    ensures RootsListed(d') && RoomListsLinked(d')
    ensures RoomListsResolve(d) ==> RoomListsResolve(d')
  {
  }

  lemma LeafTopLevelKeepsTree(d: Db, rank: map<Id, nat>, id: Id, d': Db)
    requires ParentsLinked(d) && ChildrenLinked(d) && ListsNoDup(d) && Ranked(d, rank)
    requires id in d.tasks && d.tasks[id].subTasks == [] && d.tasks[id].parentTask.None?
    requires d'.tasks == d.tasks - {id}
    requires var r := d.tasks[id].room;
      && (r in d.rooms ==> d'.rooms == d.rooms[r := d.rooms[r].(tasks := RemoveAll(d.rooms[r].tasks, [id]))])
      && (r !in d.rooms ==> d'.rooms == d.rooms)
    ensures ParentsLinked(d') && ChildrenLinked(d') && ListsNoDup(d') && Ranked(d', rank)
  {
  }

  lemma LeafTopLevelKeepsRooms(d: Db, id: Id, d': Db)
    requires RootsListed(d) && RoomListsLinked(d)
    requires id in d.tasks && d.tasks[id].parentTask.None?
    requires d'.tasks == d.tasks - {id}
    requires var r := d.tasks[id].room;
      && (r in d.rooms ==> d'.rooms == d.rooms[r := d.rooms[r].(tasks := RemoveAll(d.rooms[r].tasks, [id]))])
      && (r !in d.rooms ==> d'.rooms == d.rooms)
    ensures RootsListed(d') && RoomListsLinked(d')
    ensures RoomListsResolve(d) ==> RoomListsResolve(d')
  {
  }

  /** The tasks after deleting `id`, which has subtasks and parent `p`. */
  ghost predicate InnerDeleted(d: Db, d': Db, id: Id, p: Id)
    requires id in d.tasks && p in d.tasks
  {
    && d'.tasks.Keys == d.tasks.Keys - {id}
    && p in d'.tasks
    && d'.tasks[p] == d.tasks[p].(subTasks := AddToSet(RemoveAll(d.tasks[p].subTasks, [id]), d.tasks[id].subTasks))
    && Promoted(d, d', id, p)
    && UnchangedBut(d, d', id, p)
  }

  /** Each subtask of `id` has `p` for its parent. */
  ghost predicate Promoted(d: Db, d': Db, id: Id, p: Id)
    requires id in d.tasks
  {
    forall k :: k in d.tasks[id].subTasks ==> k in d'.tasks && k in d.tasks && d'.tasks[k] == d.tasks[k].(parentTask := Some(p))
  }

  /** Every task but `p` and the subtasks of `id` is as it was. */
  ghost predicate UnchangedBut(d: Db, d': Db, id: Id, p: Id)
    requires id in d.tasks
  {
    forall k :: k in d'.tasks && k != p && k !in d.tasks[id].subTasks ==> k in d.tasks && d'.tasks[k] == d.tasks[k]
  }

  lemma InnerKeepsParents(d: Db, id: Id, p: Id, d': Db)
    requires ParentsLinked(d) && ChildrenLinked(d)
    requires id in d.tasks && d.tasks[id].parentTask == Some(p) && p != id && p in d.tasks
    requires p !in d.tasks[id].subTasks && d.tasks[p].parentTask != Some(p)
    requires InnerDeleted(d, d', id, p)
    ensures ParentsLinked(d')
  {
    forall x | x in d'.tasks && d'.tasks[x].parentTask.Some?
      ensures var q := d'.tasks[x].parentTask.value;
        q in d'.tasks && x in d'.tasks[q].subTasks && d'.tasks[q].room == d'.tasks[x].room
    {
      InnerParentOf(d, id, p, d', x);
    }
  }

  lemma InnerParentOf(d: Db, id: Id, p: Id, d': Db, x: Id)
    requires ParentsLinked(d) && ChildrenLinked(d)
    requires id in d.tasks && d.tasks[id].parentTask == Some(p) && p != id && p in d.tasks
    requires p !in d.tasks[id].subTasks && d.tasks[p].parentTask != Some(p)
    requires InnerDeleted(d, d', id, p)
    requires x in d'.tasks && d'.tasks[x].parentTask.Some?
    ensures var q := d'.tasks[x].parentTask.value;
      q in d'.tasks && x in d'.tasks[q].subTasks && d'.tasks[q].room == d'.tasks[x].room
  {
    var K := d.tasks[id].subTasks;
    if x in K {
      assert d.tasks[x].parentTask == Some(id);
    } else {
      var q := d.tasks[x].parentTask.value;
      assert d'.tasks[x].parentTask == d.tasks[x].parentTask;
      assert x in d.tasks[q].subTasks;
      if q == id {
        assert false;
      } else if q == p {
        assert x in RemoveAll(d.tasks[p].subTasks, [id]);
      } else {
        assert d'.tasks[q].subTasks == d.tasks[q].subTasks;
      }
    }
  }

  lemma InnerKeepsChildren(d: Db, id: Id, p: Id, d': Db)
    requires ChildrenLinked(d)
    requires id in d.tasks && d.tasks[id].parentTask == Some(p) && p != id && p in d.tasks
    requires p !in d.tasks[id].subTasks && d.tasks[p].parentTask != Some(p)
    requires InnerDeleted(d, d', id, p)
    ensures ChildrenLinked(d')
  {
    InnerChildrenOfP(d, id, p, d');
    InnerChildrenOfOthers(d, id, p, d');
    ChildrenFromHalves(d', p);
  }

  /** The parent's subtasks, old and promoted, name it. */
  lemma InnerChildrenOfP(d: Db, id: Id, p: Id, d': Db)
    requires ChildrenLinked(d)
    requires id in d.tasks && p != id && p in d.tasks
    requires p !in d.tasks[id].subTasks && d.tasks[p].parentTask != Some(p)
    requires InnerDeleted(d, d', id, p)
    ensures ChildrenOf(d', p)
  {
    var K := d.tasks[id].subTasks;
    forall c | c in d'.tasks[p].subTasks
      ensures c in d'.tasks && d'.tasks[c].parentTask == Some(p)
    {
      if c !in K {
        assert c in RemoveAll(d.tasks[p].subTasks, [id]);
        assert c in d.tasks[p].subTasks && c != id;
        ChildLink(d, p, c);
        assert c != p;
        assert d'.tasks[c] == d.tasks[c];
      }
    }
  }

  /** Every other task keeps its subtasks, and they keep their parent. */
  lemma InnerChildrenOfOthers(d: Db, id: Id, p: Id, d': Db)
    requires ChildrenLinked(d)
    requires id in d.tasks && d.tasks[id].parentTask == Some(p) && p != id && p in d.tasks
    requires InnerDeleted(d, d', id, p)
    ensures ChildrenLinkedExcept(d', p)
  {
    forall x | x != p
      ensures ChildrenOf(d', x)
    {
      forall c | x in d'.tasks && c in d'.tasks[x].subTasks
        ensures c in d'.tasks && d'.tasks[c].parentTask == Some(x)
      {
        InnerChildOfOther(d, id, p, d', x, c);
      }
    }
  }

  lemma InnerChildOfOther(d: Db, id: Id, p: Id, d': Db, x: Id, c: Id)
    requires ChildrenLinked(d)
    requires id in d.tasks && d.tasks[id].parentTask == Some(p) && p != id && p in d.tasks
    requires InnerDeleted(d, d', id, p)
    requires x in d'.tasks && x != p && c in d'.tasks[x].subTasks
    ensures c in d'.tasks && d'.tasks[c].parentTask == Some(x)
  {
    var K := d.tasks[id].subTasks;
    assert d'.tasks[x].subTasks == d.tasks[x].subTasks by {
      if x !in K { assert d'.tasks[x] == d.tasks[x]; }
    }
    ChildLink(d, x, c);
    assert x != id;
    assert c != id;
    assert c !in K by {
      if c in K { ChildLink(d, id, c); }
    }
    if c != p { assert d'.tasks[c] == d.tasks[c]; }
  }

  lemma InnerKeepsOrder(d: Db, rank: map<Id, nat>, id: Id, p: Id, d': Db)
    requires ListsNoDup(d) && Ranked(d, rank) && ChildrenLinked(d)
    requires id in d.tasks && d.tasks[id].parentTask == Some(p) && p != id && p in d.tasks
    requires InnerDeleted(d, d', id, p) && d'.rooms == d.rooms
    ensures ListsNoDup(d') && Ranked(d', rank)
  {
    var K := d.tasks[id].subTasks;
    forall x | x in K ensures rank[p] < rank[x] {
      assert d.tasks[x].parentTask == Some(id);
    }
  }

  lemma InnerKeepsChatFields(d: Db, id: Id, p: Id, d': Db)
    requires id in d.tasks && p in d.tasks
    requires InnerDeleted(d, d', id, p) && d'.chats == d.chats - {d.tasks[id].chat}
    ensures ChatsPurged(d, d', id)
  {
  }

  lemma InnerKeepsRooms(d: Db, id: Id, p: Id, d': Db)
    requires RootsListed(d) && RoomListsLinked(d) && ChildrenLinked(d)
    requires id in d.tasks && d.tasks[id].parentTask == Some(p) && p != id && p in d.tasks
    requires InnerDeleted(d, d', id, p) && d'.rooms == d.rooms
    ensures RootsListed(d') && RoomListsLinked(d')
    ensures RoomListsResolve(d) ==> RoomListsResolve(d')
  {
    InnerKeepsRoots(d, id, p, d');
    InnerKeepsRoomLists(d, id, p, d');
  }

  lemma InnerKeepsRoots(d: Db, id: Id, p: Id, d': Db)
    requires RootsListed(d) && ChildrenLinked(d)
    requires id in d.tasks && d.tasks[id].parentTask == Some(p) && p != id && p in d.tasks
    requires InnerDeleted(d, d', id, p) && d'.rooms == d.rooms
    ensures RootsListed(d')
  {
    forall x | x in d'.tasks && d'.tasks[x].parentTask.None? && d'.tasks[x].room in d'.rooms
      ensures x in d'.rooms[d'.tasks[x].room].tasks
    {
      assert x !in d.tasks[id].subTasks by {
        if x in d.tasks[id].subTasks { ChildLink(d, id, x); }
      }
      assert d'.tasks[x].parentTask == d.tasks[x].parentTask && d'.tasks[x].room == d.tasks[x].room;
    }
  }

  lemma InnerKeepsRoomLists(d: Db, id: Id, p: Id, d': Db)
    requires RoomListsLinked(d) && ChildrenLinked(d)
    requires id in d.tasks && d.tasks[id].parentTask == Some(p) && p != id && p in d.tasks
    requires InnerDeleted(d, d', id, p) && d'.rooms == d.rooms
    ensures RoomListsLinked(d')
    ensures RoomListsResolve(d) ==> RoomListsResolve(d')
  {
    forall r, x | r in d'.rooms && x in d'.rooms[r].tasks && x in d'.tasks
      ensures d'.tasks[x].parentTask.None? && d'.tasks[x].room == r
    {
      assert x !in d.tasks[id].subTasks by {
        if x in d.tasks[id].subTasks { ChildLink(d, id, x); }
      }
    }
  }

  /** The tasks and rooms after deleting `id`, a top-level task with subtasks. */
  ghost predicate TopLevelDeleted(d: Db, d': Db, id: Id)
    requires id in d.tasks
  {
    var t := d.tasks[id];
    && d'.tasks.Keys == d.tasks.Keys - {id}
    && Detached(d, d', id)
    && UnchangedOutside(d, d', id)
    && (t.room in d.rooms ==> d'.rooms == d.rooms[t.room := d.rooms[t.room].(tasks := AddToSet(d.rooms[t.room].tasks, t.subTasks))])
    && (t.room !in d.rooms ==> d'.rooms == d.rooms)
  }

  /** Each subtask of `id` has no parent. */
  ghost predicate Detached(d: Db, d': Db, id: Id)
    requires id in d.tasks
  {
    forall k :: k in d.tasks[id].subTasks ==> k in d'.tasks && k in d.tasks && d'.tasks[k] == d.tasks[k].(parentTask := None)
  }

  /** Every task but the subtasks of `id` is as it was. */
  ghost predicate UnchangedOutside(d: Db, d': Db, id: Id)
    requires id in d.tasks
  {
    forall k :: k in d'.tasks && k !in d.tasks[id].subTasks ==> k in d.tasks && d'.tasks[k] == d.tasks[k]
  }

  /** `AfterDelete` of a top-level task whose subtasks all resolve. */
  lemma TopLevelShape(d: Db, id: Id)
    requires id in d.tasks && id !in d.tasks[id].subTasks
    requires PopulatedChildren(d, d.tasks[id]) == d.tasks[id].subTasks != []
    requires PopulatedParent(d, d.tasks[id]) == None
    ensures var t := d.tasks[id];
      var d' := AfterDelete(d, id);
      && TopLevelDeleted(d, d', id)
      && d'.users == d.users
      && d'.chats == d.chats - {t.chat}
      && (forall f :: f in d'.files <==> f in d.files && f !in t.files)
  {
    var t := d.tasks[id];
    var d1 := SetParents(d, t.subTasks, None);
    var d2 := if t.room in d1.rooms
      then d1.(rooms := d1.rooms[t.room := d1.rooms[t.room].(tasks := AddToSet(d1.rooms[t.room].tasks, t.subTasks))])
      else d1;
    assert TransferSubTasks(d, id, t) == d2;
    assert AfterDelete(d, id) == Purged(d2, id, t);
    assert d2.tasks == d1.tasks && d1.rooms == d.rooms;
    TopLevelTasks(d, id, AfterDelete(d, id));
  }

  /** Pointwise reading of the task map after detaching the subtasks of `id`. */
  lemma TopLevelTasks(d: Db, id: Id, d': Db)
    requires id in d.tasks && id !in d.tasks[id].subTasks
    requires forall k :: k in d.tasks[id].subTasks ==> k in d.tasks
    requires d'.tasks == SetParents(d, d.tasks[id].subTasks, None).tasks - {id}
    ensures d'.tasks.Keys == d.tasks.Keys - {id} && Detached(d, d', id) && UnchangedOutside(d, d', id)
  {
    TopLevelTasksDetached(d, id, d');
    TopLevelTasksUnchanged(d, id, d');
  }

  lemma TopLevelTasksDetached(d: Db, id: Id, d': Db)
    requires id in d.tasks && id !in d.tasks[id].subTasks
    requires forall k :: k in d.tasks[id].subTasks ==> k in d.tasks
    requires d'.tasks == SetParents(d, d.tasks[id].subTasks, None).tasks - {id}
    ensures Detached(d, d', id)
  {
  }

  lemma TopLevelTasksUnchanged(d: Db, id: Id, d': Db)
    requires id in d.tasks
    requires d'.tasks == SetParents(d, d.tasks[id].subTasks, None).tasks - {id}
    ensures d'.tasks.Keys == d.tasks.Keys - {id} && UnchangedOutside(d, d', id)
  {
  }

  lemma TopLevelKeepsChatFields(d: Db, id: Id, d': Db)
    requires id in d.tasks
    requires TopLevelDeleted(d, d', id) && d'.chats == d.chats - {d.tasks[id].chat}
    ensures ChatsPurged(d, d', id)
  {
  }

  lemma TopLevelKeepsTree(d: Db, rank: map<Id, nat>, id: Id, d': Db)
    requires ParentsLinked(d) && ChildrenLinked(d) && ListsNoDup(d) && Ranked(d, rank)
    requires id in d.tasks && d.tasks[id].parentTask.None?
    requires TopLevelDeleted(d, d', id)
    ensures ParentsLinked(d') && ChildrenLinked(d') && ListsNoDup(d') && Ranked(d', rank)
  {
    TopLevelKeepsParents(d, id, d');
    TopLevelKeepsChildren(d, id, d');
  }

  lemma TopLevelKeepsParents(d: Db, id: Id, d': Db)
    requires ParentsLinked(d)
    requires id in d.tasks && d.tasks[id].parentTask.None?
    requires TopLevelDeleted(d, d', id)
    ensures ParentsLinked(d')
  {
    var K := d.tasks[id].subTasks;
    forall x | x in d'.tasks && d'.tasks[x].parentTask.Some?
      ensures var q := d'.tasks[x].parentTask.value;
        q in d'.tasks && x in d'.tasks[q].subTasks && d'.tasks[q].room == d'.tasks[x].room
    {
      assert x !in K;
      var q := d.tasks[x].parentTask.value;
      assert x in d.tasks[q].subTasks;
      assert q != id;
      assert d'.tasks[q].subTasks == d.tasks[q].subTasks && d'.tasks[q].room == d.tasks[q].room;
    }
  }

  lemma TopLevelKeepsChildren(d: Db, id: Id, d': Db)
    requires ChildrenLinked(d)
    requires id in d.tasks && d.tasks[id].parentTask.None?
    requires TopLevelDeleted(d, d', id)
    ensures ChildrenLinked(d')
  {
    forall x | x != id
      ensures ChildrenOf(d', x)
    {
      forall c | x in d'.tasks && c in d'.tasks[x].subTasks
        ensures c in d'.tasks && d'.tasks[c].parentTask == Some(x)
      {
        TopLevelChildOf(d, id, d', x, c);
      }
    }
    ChildrenFromHalves(d', id);
  }

  lemma TopLevelChildOf(d: Db, id: Id, d': Db, x: Id, c: Id)
    requires ChildrenLinked(d)
    requires id in d.tasks && d.tasks[id].parentTask.None?
    requires TopLevelDeleted(d, d', id)
    requires x in d'.tasks && c in d'.tasks[x].subTasks
    ensures c in d'.tasks && d'.tasks[c].parentTask == Some(x)
  {
    var K := d.tasks[id].subTasks;
    assert d'.tasks[x].subTasks == d.tasks[x].subTasks by {
      if x !in K { assert d'.tasks[x] == d.tasks[x]; }
    }
    ChildLink(d, x, c);
    assert c != id && x != id;
    assert c !in K by {
      if c in K { ChildLink(d, id, c); }
    }
    assert d'.tasks[c] == d.tasks[c];
  }

  lemma TopLevelKeepsRooms(d: Db, id: Id, d': Db)
    requires RootsListed(d) && RoomListsLinked(d) && ParentsLinked(d) && ChildrenLinked(d)
    requires id in d.tasks && d.tasks[id].parentTask.None?
    requires TopLevelDeleted(d, d', id)
    ensures RootsListed(d') && RoomListsLinked(d')
  {
    TopLevelKeepsRoots(d, id, d');
    TopLevelKeepsRoomLists(d, id, d');
  }

  lemma TopLevelKeepsRoots(d: Db, id: Id, d': Db)
    requires RootsListed(d) && ParentsLinked(d) && ChildrenLinked(d)
    requires id in d.tasks && d.tasks[id].parentTask.None?
    requires TopLevelDeleted(d, d', id)
    ensures RootsListed(d')
  {
    forall x | x in d'.tasks && d'.tasks[x].parentTask.None? && d'.tasks[x].room in d'.rooms
      ensures x in d'.rooms[d'.tasks[x].room].tasks
    {
      TopLevelRootListed(d, id, d', x);
    }
  }

  lemma TopLevelRootListed(d: Db, id: Id, d': Db, x: Id)
    requires RootsListed(d) && ParentsLinked(d) && ChildrenLinked(d)
    requires id in d.tasks && d.tasks[id].parentTask.None?
    requires TopLevelDeleted(d, d', id)
    requires x in d'.tasks && d'.tasks[x].parentTask.None? && d'.tasks[x].room in d'.rooms
    ensures x in d'.rooms[d'.tasks[x].room].tasks
  {
    var t := d.tasks[id];
    if x in t.subTasks {
      ChildLink(d, id, x);
      assert d.tasks[x].room == t.room;
    } else {
      assert d'.tasks[x] == d.tasks[x];
      assert d.tasks[x].room in d.rooms;
      assert x in d.rooms[d.tasks[x].room].tasks;
    }
  }

  lemma TopLevelKeepsRoomLists(d: Db, id: Id, d': Db)
    requires RoomListsLinked(d) && ParentsLinked(d) && ChildrenLinked(d)
    requires id in d.tasks && d.tasks[id].parentTask.None?
    requires TopLevelDeleted(d, d', id)
    ensures RoomListsLinked(d')
  {
    forall r, x | r in d'.rooms && x in d'.rooms[r].tasks && x in d'.tasks
      ensures d'.tasks[x].parentTask.None? && d'.tasks[x].room == r
    {
      TopLevelRoomListLinked(d, id, d', r, x);
    }
  }

  lemma TopLevelRoomListLinked(d: Db, id: Id, d': Db, r: Id, x: Id)
    requires RoomListsLinked(d) && ParentsLinked(d) && ChildrenLinked(d)
    requires id in d.tasks && d.tasks[id].parentTask.None?
    requires TopLevelDeleted(d, d', id)
    requires r in d'.rooms && x in d'.rooms[r].tasks && x in d'.tasks
    ensures d'.tasks[x].parentTask.None? && d'.tasks[x].room == r
  {
    var t := d.tasks[id];
    if x in t.subTasks {
      ChildLink(d, id, x);
      if r != t.room {
        // x would be listed by a room of `d` while having a parent.
        assert false;
      }
      assert d.tasks[x].room == t.room;
    } else {
      assert d'.tasks[x] == d.tasks[x];
      assert x in d.rooms[r].tasks;
    }
  }

  /** `delete` keeps the invariant in all four cases, and keeps the strict
      one except when the task is top-level and has subtasks. */
  lemma DeleteKeepsValid(d: Db, id: Id)
    requires Valid(d) && id in d.tasks
    ensures Valid(AfterDelete(d, id))
    ensures RoomListsResolve(d) && (d.tasks[id].parentTask.Some? || d.tasks[id].subTasks == []) ==>
      RoomListsResolve(AfterDelete(d, id))
  {
    var rank :| Linked(d, rank);
    var t := d.tasks[id];
    if t.subTasks == [] && t.parentTask.Some? {
      LeafUnderParentKeepsLinked(d, rank, id);
    } else if t.subTasks == [] {
      LeafTopLevelKeepsLinked(d, rank, id);
    } else if t.parentTask.Some? {
      InnerKeepsLinked(d, rank, id);
    } else {
      TopLevelKeepsLinked(d, rank, id);
    }
  }

  lemma LeafUnderParentKeepsLinked(d: Db, rank: map<Id, nat>, id: Id)
    requires Linked(d, rank) && id in d.tasks && d.tasks[id].subTasks == [] && d.tasks[id].parentTask.Some?
    ensures Linked(AfterDelete(d, id), rank)
    ensures RoomListsResolve(d) ==> RoomListsResolve(AfterDelete(d, id))
  {
    var d' := AfterDelete(d, id);
    var p := d.tasks[id].parentTask.value;
    DeleteLeafUnderParent(d, id);
    LeafUnderParentKeepsTree(d, rank, id, p, d');
    LeafUnderParentKeepsRooms(d, id, p, d');
    LeafUnderParentTasks(d, id, p, d');
    LeafUnderParentKeepsChatFields(d, id, p, d');
    PurgeKeepsChats(d, d', id);
  }

  lemma LeafTopLevelKeepsLinked(d: Db, rank: map<Id, nat>, id: Id)
    requires Linked(d, rank) && id in d.tasks && d.tasks[id].subTasks == [] && d.tasks[id].parentTask.None?
    ensures Linked(AfterDelete(d, id), rank)
    ensures RoomListsResolve(d) ==> RoomListsResolve(AfterDelete(d, id))
  {
    var d' := AfterDelete(d, id);
    DeleteLeafTopLevel(d, id);
    LeafTopLevelKeepsTree(d, rank, id, d');
    LeafTopLevelKeepsRooms(d, id, d');
    PurgeKeepsChats(d, d', id);
  }

  lemma InnerKeepsLinked(d: Db, rank: map<Id, nat>, id: Id)
    requires Linked(d, rank) && id in d.tasks && d.tasks[id].subTasks != [] && d.tasks[id].parentTask.Some?
    ensures Linked(AfterDelete(d, id), rank)
    ensures RoomListsResolve(d) ==> RoomListsResolve(AfterDelete(d, id))
  {
    var d' := AfterDelete(d, id);
    var p := d.tasks[id].parentTask.value;
    NoSelfLinks(d, rank, id);
    NoSelfLinks(d, rank, p);
    PopulateResolves(d, id);
    InnerShape(d, id, p);
    InnerKeepsParents(d, id, p, d');
    InnerKeepsChildren(d, id, p, d');
    InnerKeepsOrder(d, rank, id, p, d');
    InnerKeepsRooms(d, id, p, d');
    InnerKeepsChatFields(d, id, p, d');
    PurgeKeepsChats(d, d', id);
  }

  lemma TopLevelKeepsLinked(d: Db, rank: map<Id, nat>, id: Id)
    requires Linked(d, rank) && id in d.tasks && d.tasks[id].subTasks != [] && d.tasks[id].parentTask.None?
    ensures Linked(AfterDelete(d, id), rank)
  {
    var d' := AfterDelete(d, id);
    NoSelfLinks(d, rank, id);
    PopulateResolves(d, id);
    TopLevelShape(d, id);
    TopLevelKeepsTree(d, rank, id, d');
    TopLevelKeepsRooms(d, id, d');
    TopLevelKeepsChatFields(d, id, d');
    PurgeKeepsChats(d, d', id);
  }

  /** Deleting a top-level task that has subtasks, in a room that lists it,
      leaves its id in the room's tasks with no task behind it. */
  lemma TopLevelDeleteLeavesDangling(d: Db, id: Id)
    requires Strict(d) && id in d.tasks && d.tasks[id].parentTask.None? && d.tasks[id].subTasks != []
    requires d.tasks[id].room in d.rooms
    ensures var d' := AfterDelete(d, id);
      id !in d'.tasks && d.tasks[id].room in d'.rooms && id in d'.rooms[d.tasks[id].room].tasks
    ensures !RoomListsResolve(AfterDelete(d, id))
  {
    DeleteTopLevelWithChildren(d, id);
  }

  // ---------------------------------------------------------------- update

  /** When `update` succeeds, and otherwise which step fails first: the
      task lookup, the users to add, the uploads, and last the null read of
      a task whose chat or room does not resolve. */
  lemma UpdateChecks(d: Db, taskId: Id, dto: UpdateTaskDto, uploads: seq<FileService.Upload>, newFileIds: seq<Id>)
    requires |newFileIds| == |uploads|
    ensures var r := UpdateOutcome(d, taskId, dto, uploads, newFileIds);
      && (taskId !in d.tasks ==> r == Err(TransactionFailed(NotFound("Task not found"))))
      && (taskId in d.tasks && dto.participantsToAdd.Some? && !AllUsersExist(d, dto.participantsToAdd.value) ==>
            r == Err(TransactionFailed(NotFound("User does not exist"))))
      && (taskId in d.tasks
          && (dto.participantsToAdd.Some? ==> AllUsersExist(d, dto.participantsToAdd.value))
          && UploadAll(d.files, uploads, newFileIds).Err? ==>
            r == Err(TransactionFailed(UploadAll(d.files, uploads, newFileIds).error)))
      && (r.Ok? <==> taskId in d.tasks
                     && (dto.participantsToAdd.Some? ==> AllUsersExist(d, dto.participantsToAdd.value))
                     && (forall i :: 0 <= i < |uploads| ==> FileService.CheckUpload(uploads[i]).Ok?)
                     && d.tasks[taskId].chat in d.chats && d.tasks[taskId].room in d.rooms)
      && (taskId in d.tasks
          && (dto.participantsToAdd.Some? ==> AllUsersExist(d, dto.participantsToAdd.value))
          && (forall i :: 0 <= i < |uploads| ==> FileService.CheckUpload(uploads[i]).Ok?)
          && (d.tasks[taskId].chat !in d.chats || d.tasks[taskId].room !in d.rooms)
          ==> r == Err(TransactionFailed(Internal(NullRead))))
  {
  }

  /** What a successful `update` writes: the task's fields the dto gives,
      its participants and file ids merged; every id to remove loses its
      file record, whether or not the task owned it; nothing else. */
  lemma UpdateEffects(d: Db, taskId: Id, dto: UpdateTaskDto, uploads: seq<FileService.Upload>, newFileIds: seq<Id>)
    requires |newFileIds| == |uploads|
    ensures var r := UpdateOutcome(d, taskId, dto, uploads, newFileIds);
      r.Ok? ==>
            var d' := r.value;
            var t := d.tasks[taskId];
            var t' := d'.tasks[taskId];
            && d'.tasks.Keys == d.tasks.Keys
            && (forall x :: x in d.tasks && x != taskId ==> d'.tasks[x] == d.tasks[x])
            && t'.title == (if dto.title.Some? then dto.title.value else t.title)
            && t'.description == (if dto.description.Some? then dto.description else t.description)
            && t'.status == (if dto.status.Some? then dto.status.value else t.status)
            && t'.participants == UpdatedParticipants(Present(t.participants, d.users), dto.participantsToAdd, dto.participantsToRemove)
            && t'.files == MergedFileIds(Present(t.files, d.files), newFileIds, dto.fileIdsToRemove)
            && t'.chat == t.chat && t'.parentTask == t.parentTask && t'.subTasks == t.subTasks
            && t'.room == t.room && t'.moderator == t.moderator
            && (NonEmpty(dto.fileIdsToRemove) ==> forall f :: f in dto.fileIdsToRemove.value ==> f !in d'.files)
            && (forall f :: f in d.files && !(NonEmpty(dto.fileIdsToRemove) && f in dto.fileIdsToRemove.value) ==> f in d'.files)
            && d'.rooms == d.rooms && d'.chats == d.chats && d'.users == d.users
  {
  }

  /** `update` changes no field the invariant is about. */
  lemma UpdateKeepsValid(d: Db, taskId: Id, dto: UpdateTaskDto, uploads: seq<FileService.Upload>, newFileIds: seq<Id>)
    requires |newFileIds| == |uploads|
    requires Valid(d) && UpdateOutcome(d, taskId, dto, uploads, newFileIds).Ok?
    ensures Valid(UpdateOutcome(d, taskId, dto, uploads, newFileIds).value)
    ensures RoomListsResolve(d) ==> RoomListsResolve(UpdateOutcome(d, taskId, dto, uploads, newFileIds).value)
  {
    var rank :| Linked(d, rank);
    UpdatedSameLinks(d, taskId, dto, uploads, newFileIds);
    SameLinksKeepLinked(d, UpdateOutcome(d, taskId, dto, uploads, newFileIds).value, rank);
  }

  lemma UpdatedSameLinks(d: Db, taskId: Id, dto: UpdateTaskDto, uploads: seq<FileService.Upload>, newFileIds: seq<Id>)
    requires |newFileIds| == |uploads|
    requires UpdateOutcome(d, taskId, dto, uploads, newFileIds).Ok?
    ensures SameLinks(d, UpdateOutcome(d, taskId, dto, uploads, newFileIds).value)
  {
    var t := d.tasks[taskId];
    var files := UploadAll(d.files, uploads, newFileIds).value;
    var fileIds := MergedFileIds(Present(t.files, d.files), newFileIds, dto.fileIdsToRemove);
    var files' := if NonEmpty(dto.fileIdsToRemove) then files - ToSet(dto.fileIdsToRemove.value) else files;
    var participants := UpdatedParticipants(Present(t.participants, d.users), dto.participantsToAdd, dto.participantsToRemove);
    assert UpdateOutcome(d, taskId, dto, uploads, newFileIds).value
        == d.(files := files', tasks := d.tasks[taskId := UpdatedTask(t, dto, fileIds, participants)]);
  }

  /** Two states whose tasks, chats and rooms agree on every field the
      invariant is about. */
  ghost predicate SameLinks(d: Db, d': Db)
  {
    && d'.tasks.Keys == d.tasks.Keys && d'.rooms == d.rooms && d'.chats == d.chats
    && forall x :: x in d.tasks ==>
         && d'.tasks[x].chat == d.tasks[x].chat && d'.tasks[x].parentTask == d.tasks[x].parentTask
         && d'.tasks[x].subTasks == d.tasks[x].subTasks && d'.tasks[x].room == d.tasks[x].room
  }

  lemma SameLinksKeepLinked(d: Db, d': Db, rank: map<Id, nat>)
    requires Linked(d, rank) && SameLinks(d, d')
    ensures Linked(d', rank)
    ensures RoomListsResolve(d) ==> RoomListsResolve(d')
  {
    SameLinksKeepTree(d, d', rank);
    SameLinksKeepRooms(d, d');
  }

  lemma SameLinksKeepTree(d: Db, d': Db, rank: map<Id, nat>)
    requires ChatsLinked(d) && ParentsLinked(d) && ChildrenLinked(d) && Ranked(d, rank) && SameLinks(d, d')
    ensures ChatsLinked(d') && ParentsLinked(d') && ChildrenLinked(d') && Ranked(d', rank)
  {
  }

  lemma SameLinksKeepRooms(d: Db, d': Db)
    requires RootsListed(d) && RoomListsLinked(d) && ListsNoDup(d) && SameLinks(d, d')
    ensures RootsListed(d') && RoomListsLinked(d') && ListsNoDup(d')
    ensures RoomListsResolve(d) ==> RoomListsResolve(d')
  {
  }
}
