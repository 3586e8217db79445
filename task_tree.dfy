/** The effect of each step of the task operations on a database state, as
    functions. `TasksService` performs the same steps on the store and is
    proved to reach these states. */
module TaskTree {
  import opened Common
  import opened Lists
  import opened Schema
  import FileService

  // ---------------------------------------------------------------- create

  datatype CreateTaskDto = CreateTaskDto(
    title: string,
    description: Option<string>,
    participants: Option<seq<Id>>,
    roomId: Id,
    parentTaskId: Option<string>)

  /** `validateParticipants`: the creator first, then the requested ids, in
      order and with duplicates kept. */
  function ParticipantList(dto: CreateTaskDto, userId: Id): (ids: seq<Id>)
    ensures |ids| > 0 && ids[0] == userId
    ensures dto.participants.Some? ==> ids[1..] == dto.participants.value
    ensures dto.participants.None? ==> ids == [userId]
  {
    [userId] + if dto.participants.Some? then dto.participants.value else []
  }

  /** Every id names an existing user (`getUser` throws otherwise). */
  predicate AllUsersExist(d: Db, ids: seq<Id>)
  {
    forall u :: u in ids ==> u in d.users
  }

  /** `getParentTask`: no parent unless the dto names one; a named parent
      must exist and belong to the requested room. */
  function ParentTask(d: Db, parentTaskId: Option<string>, roomId: Id): (r: Result<Option<Id>>)
    ensures !Truthy(parentTaskId) ==> r == Ok(None)
    ensures Truthy(parentTaskId) ==>
      (r.Ok? <==> parentTaskId.value in d.tasks && d.tasks[parentTaskId.value].room == roomId)
    ensures Truthy(parentTaskId) && r.Ok? ==> r.value == Some(parentTaskId.value)
    ensures r.Err? ==> r.error == NotFound("Parent task not found or invalid")
  {
    if !Truthy(parentTaskId) then Ok(None)
    else
      var p := parentTaskId.value;
      if p !in d.tasks || d.tasks[p].room != roomId then Err(NotFound("Parent task not found or invalid"))
      else Ok(Some(p))
  }

  /** `uploadFiles`: every upload is checked and its record written; the
      first rejected upload fails the whole step. */
  function UploadAll(files: map<Id, FileDoc>, uploads: seq<FileService.Upload>, ids: seq<Id>): (r: Result<map<Id, FileDoc>>)
    requires |ids| == |uploads|
    ensures r.Ok? <==> forall i :: 0 <= i < |uploads| ==> FileService.CheckUpload(uploads[i]).Ok?
    ensures r.Ok? ==> forall k :: k in r.value <==> k in files || k in ids
    decreases |uploads|
  {
    if uploads == [] then Ok(files)
    else
      match FileService.CheckUpload(uploads[0])
      case Err(e) => Err(e)
      case Ok(t) =>
        var rest := UploadAll(files[ids[0] := FileService.StoredDoc(uploads[0], t)], uploads[1..], ids[1..]);
        assert forall i :: 1 <= i < |uploads| ==> uploads[i] == uploads[1..][i - 1];
        assert ids == [ids[0]] + ids[1..];
        rest
  }

  /** The task `createTaskEntity` writes. */
  function NewTask(dto: CreateTaskDto, userId: Id, fileIds: seq<Id>, chatId: Id, parent: Option<Id>): Task
  {
    Task(dto.title, dto.description, Todo, userId, ParticipantList(dto, userId), fileIds, chatId, parent, [], dto.roomId)
  }

  /** `updateParentOrRoom`: with a parent, the new id is pushed on its
      subTasks and the creator added to its participants if absent; without
      one, the id is pushed on the room's tasks (an update that matches no
      room changes nothing). */
  function AttachTask(d: Db, taskId: Id, moderator: Id, parent: Option<Id>, roomId: Id): Db
  {
    match parent
    case Some(p) =>
      if p in d.tasks then
        var pt := d.tasks[p];
        d.(tasks := d.tasks[p := pt.(subTasks := pt.subTasks + [taskId],
                                     participants := AddToSet(pt.participants, [moderator]))])
      else d
    case None =>
      if roomId in d.rooms then
        d.(rooms := d.rooms[roomId := d.rooms[roomId].(tasks := d.rooms[roomId].tasks + [taskId])])
      else d
  }

  /** The error `create` reports: the cause's message behind "Transaction failed: ". */
  function TransactionFailed(e: HttpError): HttpError
  {
    BadRequest("Transaction failed: " + e.message)
  }

  /** The state `create` leaves once every check passed: the chat inserted
      and bound to the task, the uploaded files' records, the task, and the
      task attached to its parent or room. */
  function Created(d: Db, dto: CreateTaskDto, userId: Id, taskId: Id, chatId: Id, fileIds: seq<Id>,
                   files: map<Id, FileDoc>, parent: Option<Id>): Db
  {
    var d1 := d.(chats := d.chats[chatId := Chat(None, [])], files := files,
                 tasks := d.tasks[taskId := NewTask(dto, userId, fileIds, chatId, parent)]);
    var d2 := d1.(chats := d1.chats[chatId := d1.chats[chatId].(task := Some(taskId))]);
    AttachTask(d2, taskId, userId, parent, dto.roomId)
  }

  /** The outcome of `create`: the new state of the database, or the error
      (in which case the transaction leaves the database as it was). */
  function CreateOutcome(d: Db, dto: CreateTaskDto, userId: Id, uploads: seq<FileService.Upload>,
                         taskId: Id, chatId: Id, fileIds: seq<Id>): Result<Db>
    requires |fileIds| == |uploads|
  {
    if !AllUsersExist(d, ParticipantList(dto, userId)) then
      Err(TransactionFailed(NotFound("User does not exist")))
    else
      match ParentTask(d, dto.parentTaskId, dto.roomId)
      case Err(e) => Err(TransactionFailed(e))
      case Ok(parent) =>
        match UploadAll(d.files, uploads, fileIds)
        case Err(e) => Err(TransactionFailed(e))
        case Ok(files) => Ok(Created(d, dto, userId, taskId, chatId, fileIds, files, parent))
  }

  // ---------------------------------------------------------------- update

  datatype UpdateTaskDto = UpdateTaskDto(
    title: Option<string>,
    description: Option<string>,
    status: Option<TaskStatus>,
    participantsToAdd: Option<seq<Id>>,
    participantsToRemove: Option<seq<Id>>,
    fileIdsToRemove: Option<seq<Id>>)

  /** A list given and non-empty (`list && list.length > 0`). */
  predicate NonEmpty(xs: Option<seq<Id>>)
  {
    xs.Some? && |xs.value| > 0
  }

  /** `updateParticipants`: the added ids are merged in with duplicates
      removed (only when some are given), then every id to remove is
      filtered out, so removal wins over addition. */
  function UpdatedParticipants(existing: seq<Id>, toAdd: Option<seq<Id>>, toRemove: Option<seq<Id>>): (r: seq<Id>)
    ensures forall y :: y in r <==>
      (y in existing || (NonEmpty(toAdd) && y in toAdd.value)) && !(NonEmpty(toRemove) && y in toRemove.value)
    ensures NonEmpty(toAdd) ==> NoDup(r)
    ensures !NonEmpty(toAdd) && !NonEmpty(toRemove) ==> r == existing
  {
    var merged := if NonEmpty(toAdd) then Dedup(existing + toAdd.value) else existing;
    if NonEmpty(toRemove) then RemoveAll(merged, toRemove.value) else merged
  }

  /** Adding without removing keeps the existing participants, in their
      order, as a prefix, and appends only the ids that were missing. */
  lemma UpdatedParticipantsKeepsOrder(existing: seq<Id>, toAdd: seq<Id>)
    requires NoDup(existing) && |toAdd| > 0
    ensures UpdatedParticipants(existing, Some(toAdd), None) == AddToSet(existing, toAdd)
    ensures UpdatedParticipants(existing, Some(toAdd), None)[..|existing|] == existing
  {
    DedupAppend(existing, toAdd);
    DedupOfNoDup(existing);
  }

  /** `handleFileUpdates` on ids: the existing ids, then the uploaded ones,
      with every id to remove filtered out (when some are given). */
  function MergedFileIds(existing: seq<Id>, uploaded: seq<Id>, toRemove: Option<seq<Id>>): (r: seq<Id>)
    ensures forall y :: y in r <==> (y in existing || y in uploaded) && !(NonEmpty(toRemove) && y in toRemove.value)
    ensures !NonEmpty(toRemove) ==> r == existing + uploaded
  {
    if NonEmpty(toRemove) then RemoveAll(existing + uploaded, toRemove.value) else existing + uploaded
  }

  /** The merged list keeps the order: the surviving existing ids come
      first, then the surviving uploaded ones. */
  lemma MergedFileIdsOrder(existing: seq<Id>, uploaded: seq<Id>, toRemove: seq<Id>)
    requires |toRemove| > 0
    ensures MergedFileIds(existing, uploaded, Some(toRemove))
         == RemoveAll(existing, toRemove) + RemoveAll(uploaded, toRemove)
  {
    RemoveAllAppend(existing, uploaded, toRemove);
  }

  /** The task after `updateTaskEntity`: fields the dto leaves undefined are kept. */
  function UpdatedTask(t: Task, dto: UpdateTaskDto, fileIds: seq<Id>, participants: seq<Id>): Task
  {
    t.(title := if dto.title.Some? then dto.title.value else t.title,
       description := if dto.description.Some? then dto.description else t.description,
       status := if dto.status.Some? then dto.status.value else t.status,
       files := fileIds,
       participants := participants)
  }

  /** The message of the TypeError raised by reading `_id` of an unresolved
      (null) reference. */
  const NullRead := "Cannot read properties of null (reading '_id')"

  /** `findById`: the task with its moderator, participants, subtasks,
      parent and files populated. Its chat and room stay ObjectIds, whose
      `_id` is the id itself, so only a missing task fails. */
  function FindById(d: Db, id: Id): (r: Result<Task>)
    ensures r.Err? <==> id !in d.tasks
    ensures r.Err? ==> r.error == NotFound("Task not found")
    ensures r.Ok? ==> id in d.tasks && r.value == d.tasks[id]
  {
    if id !in d.tasks then Err(NotFound("Task not found"))
    else Ok(d.tasks[id])
  }

  /** The outcome of `update`. The task is read first, with its files and
      participants populated, so references to missing files or users are
      dropped. The updated task is read back with its chat and room
      populated and mapped by reading `_id` of each: a chat or room that does
      not resolve is null there, the read throws and the transaction rolls
      back. */
  function UpdateOutcome(d: Db, taskId: Id, dto: UpdateTaskDto, uploads: seq<FileService.Upload>, newFileIds: seq<Id>): Result<Db>
    requires |newFileIds| == |uploads|
  {
    match FindById(d, taskId)
    case Err(e) => Err(TransactionFailed(e))
    case Ok(t) =>
      if dto.participantsToAdd.Some? && !AllUsersExist(d, dto.participantsToAdd.value) then
        Err(TransactionFailed(NotFound("User does not exist")))
      else
        match UploadAll(d.files, uploads, newFileIds)
        case Err(e) => Err(TransactionFailed(e))
        case Ok(files) =>
          if t.chat !in d.chats || t.room !in d.rooms then Err(TransactionFailed(Internal(NullRead)))
          else
          var fileIds := MergedFileIds(Present(t.files, d.files), newFileIds, dto.fileIdsToRemove);
          var files' := if NonEmpty(dto.fileIdsToRemove) then files - ToSet(dto.fileIdsToRemove.value) else files;
          var participants := UpdatedParticipants(Present(t.participants, d.users), dto.participantsToAdd, dto.participantsToRemove);
          Ok(d.(files := files', tasks := d.tasks[taskId := UpdatedTask(t, dto, fileIds, participants)]))
  }

  function ToSet(xs: seq<Id>): (s: set<Id>)
    ensures forall y :: y in s <==> y in xs
  {
    set y | y in xs
  }

  // ---------------------------------------------------------------- delete

  /** The parent as `populate` gives it: unset when the id resolves to no task. */
  function PopulatedParent(d: Db, t: Task): (p: Option<Id>)
    ensures p.Some? ==> p == t.parentTask && p.value in d.tasks
  {
    if t.parentTask.Some? && t.parentTask.value in d.tasks then t.parentTask else None
  }

  /** The children as `populate` gives them: the subTasks that resolve. */
  function PopulatedChildren(d: Db, t: Task): seq<Id>
  {
    Present(t.subTasks, d.tasks)
  }

  /** `removeFromParentOrRoom`: the id is pulled from the parent's subTasks,
      or, for a top-level task, from its room's tasks. */
  function RemoveFromParentOrRoom(d: Db, id: Id, t: Task): (d': Db)
    ensures d'.tasks.Keys == d.tasks.Keys
  {
    match PopulatedParent(d, t)
    case Some(p) =>
      d.(tasks := d.tasks[p := d.tasks[p].(subTasks := RemoveAll(d.tasks[p].subTasks, [id]))])
    case None =>
      if t.room in d.rooms then
        d.(rooms := d.rooms[t.room := d.rooms[t.room].(tasks := RemoveAll(d.rooms[t.room].tasks, [id]))])
      else d
  }

  /** Every listed task that exists gets `parentTask` set to `parent`
      (unset when `parent` is None). */
  function SetParents(d: Db, kids: seq<Id>, parent: Option<Id>): (d': Db)
    ensures d'.tasks.Keys == d.tasks.Keys
    ensures d' == d.(tasks := d'.tasks)
    ensures forall k :: k in d.tasks ==>
      d'.tasks[k].parentTask == (if k in kids then parent else d.tasks[k].parentTask)
    ensures forall k :: k in d.tasks ==> d'.tasks[k] == d.tasks[k].(parentTask := d'.tasks[k].parentTask)
  {
    d.(tasks := map k | k in d.tasks :: if k in kids then d.tasks[k].(parentTask := parent) else d.tasks[k])
  }

  /** `transferSubTasks`: with a parent, the id is pulled from the parent's
      subTasks, the children added to it as a set (at the end), and each
      child's parent set to it; for a top-level task, each child's parent is
      unset and the children added to the room's tasks as a set. The task's
      own id is not pulled from the room's tasks. */
  function TransferSubTasks(d: Db, id: Id, t: Task): (d': Db)
    ensures d'.tasks.Keys == d.tasks.Keys
  {
    var kids := PopulatedChildren(d, t);
    if kids == [] then d
    else match PopulatedParent(d, t)
      case Some(p) =>
        var pt := d.tasks[p];
        var d1 := d.(tasks := d.tasks[p := pt.(subTasks := AddToSet(RemoveAll(pt.subTasks, [id]), kids))]);
        SetParents(d1, kids, Some(p))
      case None =>
        var d1 := SetParents(d, kids, None);
        if t.room in d1.rooms then
          d1.(rooms := d1.rooms[t.room := d1.rooms[t.room].(tasks := AddToSet(d1.rooms[t.room].tasks, kids))])
        else d1
  }

  /** The ids of the files of some tasks. */
  function FilesOf(d: Db, ids: set<Id>): set<Id>
  {
    set t, f | t in ids && t in d.tasks && f in d.tasks[t].files :: f
  }

  /** The last steps of `delete`: the task's files, its chat and the task
      itself are deleted. */
  function Purged(d: Db, id: Id, t: Task): (d': Db)
    ensures d'.tasks.Keys == d.tasks.Keys - {id} && d'.chats.Keys == d.chats.Keys - {t.chat}
    ensures forall f :: f in d'.files <==> f in d.files && f !in t.files
    ensures d' == d.(files := d'.files, chats := d'.chats, tasks := d'.tasks)
    ensures forall k :: k in d'.tasks ==> d'.tasks[k] == d.tasks[k]
    ensures forall c :: c in d'.chats ==> d'.chats[c] == d.chats[c]
    ensures forall f :: f in d'.files ==> d'.files[f] == d.files[f]
  {
    d.(files := d.files - ToSet(t.files), chats := d.chats - {t.chat}, tasks := d.tasks - {id})
  }

  /** The state after `delete` of an existing task: the children are
      transferred (or the task detached when it has none), then its files,
      its chat and the task itself are deleted. */
  function AfterDelete(d: Db, id: Id): Db
    requires id in d.tasks
  {
    var t := d.tasks[id];
    Purged(if PopulatedChildren(d, t) != [] then TransferSubTasks(d, id, t) else RemoveFromParentOrRoom(d, id, t), id, t)
  }

  /** The outcome of `delete`: "Task not found" is rethrown as it is; an
      existing task is deleted, and no task id survives but the others. */
  function DeleteOutcome(d: Db, id: Id): (r: Result<Db>)
    ensures r.Err? <==> id !in d.tasks
    ensures r.Err? ==> r.error == NotFound("Task not found")
    ensures r.Ok? ==> r.value.tasks.Keys == d.tasks.Keys - {id}
  {
    match FindById(d, id)
    case Err(e) => Err(e)
    case Ok(_) => Ok(AfterDelete(d, id))
  }

  // ---------------------------------------------------------------- deleteMany

  /** The tasks `getTasksByIds` finds: the listed ids that name a task. */
  function FoundTasks(d: Db, taskIds: seq<Id>): (found: set<Id>)
    ensures forall t :: t in found <==> t in taskIds && t in d.tasks
  {
    set t | t in taskIds && t in d.tasks
  }

  /** The outcome of `deleteMany`: if none of the listed tasks exists,
      nothing happens. Otherwise the files of the found tasks, their chats
      and the tasks are deleted. A found task whose chat is missing makes the
      chat step read `_id` of null, which throws. */
  function DeleteManyOutcome(d: Db, taskIds: seq<Id>): (r: Result<Db>)
  {
    var found := FoundTasks(d, taskIds);
    if found == {} then Ok(d)
    else if exists t :: t in found && d.tasks[t].chat !in d.chats then Err(Internal(NullRead))
    else
      Ok(d.(files := d.files - FilesOf(d, found),
            chats := d.chats - (set t | t in found :: d.tasks[t].chat),
            tasks := d.tasks - found))
  }
}
