/** The documents of the six collections (tasks, rooms, chats, files, threads,
    messages) and the users they refer to. References between documents are
    ids; each collection is a map from id to document. */
module Schema {
  import opened Common

  /** `TaskStatus`; new tasks start as TODO. The other members of the enum
      are not part of this model and are carried by name. */
  datatype TaskStatus = Todo | OtherStatus(name: string)

  /** The `type` field of a file: 'image' | 'video' | 'file'. */
  datatype FileType = ImageFile | VideoFile | GenericFile
  {
    function Name(): string
    {
      match this
      case ImageFile => "image"
      case VideoFile => "video"
      case GenericFile => "file"
    }
  }

  datatype Task = Task(
    title: string,
    description: Option<string>,
    status: TaskStatus,
    moderator: Id,
    participants: seq<Id>,
    files: seq<Id>,
    chat: Id,
    parentTask: Option<Id>,
    subTasks: seq<Id>,
    room: Id)

  datatype Room = Room(name: string, moderator: Id, participants: seq<Id>, tasks: seq<Id>)

  /** `task` is unset until the owning task is linked to its chat. */
  datatype Chat = Chat(task: Option<Id>, threads: seq<Id>)

  /** The metadata record of an uploaded file (the `fs.files` collection). */
  datatype FileDoc = FileDoc(filename: string, length: nat, fileType: FileType, mimetype: string)

  datatype Thread = Thread(chat: Id, mainMessage: Option<Id>, replies: seq<Id>)

  datatype Message = Message(thread: Id, sender: Id, content: string, files: seq<Id>)

  datatype User = User(username: string)

  /** One state of the database. */
  datatype Db = Db(
    tasks: map<Id, Task>,
    rooms: map<Id, Room>,
    chats: map<Id, Chat>,
    files: map<Id, FileDoc>,
    threads: map<Id, Thread>,
    messages: map<Id, Message>,
    users: map<Id, User>)
}

/** The database the services share. A service operation runs in one
    transaction: it updates the collections step by step and, on an error,
    the transaction is aborted and every collection is back to what it was. */
module Persistence {
  import opened Common
  import opened Schema

  class Store {
    var tasks: map<Id, Task>
    var rooms: map<Id, Room>
    var chats: map<Id, Chat>
    var files: map<Id, FileDoc>
    var threads: map<Id, Thread>
    var messages: map<Id, Message>
    var users: map<Id, User>

    /** The state of every collection. */
    function Snapshot(): Db
      reads this
    {
      Db(tasks, rooms, chats, files, threads, messages, users)
    }

    constructor (d: Db)
      ensures Snapshot() == d
    {
      tasks, rooms, chats, files := d.tasks, d.rooms, d.chats, d.files;
      threads, messages, users := d.threads, d.messages, d.users;
    }

    /** Abort of a transaction: every collection gets back its value at the
        start of the transaction. */
    method Rollback(d: Db)
      modifies this
      ensures Snapshot() == d
    {
      tasks, rooms, chats, files := d.tasks, d.rooms, d.chats, d.files;
      threads, messages, users := d.threads, d.messages, d.users;
    }
  }
}
