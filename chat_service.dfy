/** `ChatService`: a chat is created empty and later bound to its task. */
module ChatService {
  import opened Common
  import opened Schema
  import opened Persistence

  /** The chat `create` writes: no task and no threads yet. */
  const EmptyChat: Chat := Chat(None, [])

  /** `create`: inserts an empty chat under the freshly generated `chatId`. */
  method Create(db: Store, chatId: Id) returns (id: Id)
    modifies db
    ensures id == chatId
    ensures db.Snapshot() == old(db.Snapshot()).(chats := old(db.chats)[chatId := EmptyChat])
  {
    db.chats := db.chats[chatId := EmptyChat];
    id := chatId;
  }

  /** The state after `addTaskId` on an existing chat: its `task` field is
      overwritten, nothing else changes. */
  function WithTask(d: Db, chatId: Id, taskId: Id): (d': Db)
    requires chatId in d.chats
    ensures d'.chats.Keys == d.chats.Keys
    ensures d'.chats[chatId].task == Some(taskId) && d'.chats[chatId].threads == d.chats[chatId].threads
    ensures forall c :: c in d.chats && c != chatId ==> d'.chats[c] == d.chats[c]
    ensures d' == d.(chats := d'.chats)
  {
    d.(chats := d.chats[chatId := d.chats[chatId].(task := Some(taskId))])
  }

  /** `addTaskId`: fails with "Chat not found" when the chat is missing. */
  method AddTaskId(db: Store, chatId: Id, taskId: Id) returns (r: Result<()>)
    modifies db
    ensures r.Ok? <==> chatId in old(db.chats)
    ensures r.Ok? ==> db.Snapshot() == WithTask(old(db.Snapshot()), chatId, taskId)
    ensures r.Err? ==> r.error == NotFound("Chat not found") && db.Snapshot() == old(db.Snapshot())
  {
    if chatId !in db.chats {
      return Err(NotFound("Chat not found"));
    }
    db.chats := db.chats[chatId := db.chats[chatId].(task := Some(taskId))];
    r := Ok(());
  }
}
