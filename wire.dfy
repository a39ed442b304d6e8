/** The wire side: the parts, messages, tasks and streaming events of the Agent2Agent
    protocol (section 6 of the A2A specification) as the bridge reads and writes them. */
module Wire {
  import opened Wrappers
  import opened Values

  /** The content of a file part. `NoFile` is a file part whose content is nil. */
  datatype FileContent =
    | FileBytes(name: string, mimeType: string, bytes: string)
    | FileURI(name: string, mimeType: string, uri: string)
    | NoFile

  /** A wire part. `OtherPart` stands for any implementation of the part interface other
      than the three value kinds the codec knows (for instance a pointer to one). */
  datatype Part =
    | TextPart(text: string, metadata: Meta)
    | FilePart(file: FileContent, metadata: Meta)
    | DataPart(data: Fields, metadata: Meta)
    | OtherPart(typeName: string)

  datatype Role = RoleUser | RoleAgent

  datatype Message = Message(
    role: Role,
    parts: seq<Part>,
    taskID: string,
    contextID: string)

  datatype TaskState =
    | Submitted
    | Working
    | InputRequired
    | Completed
    | Canceled
    | Failed
    | Rejected
    | AuthRequired
    | Unknown

  datatype TaskStatus = TaskStatus(state: TaskState, message: Option<Message>)

  datatype Artifact = Artifact(id: string, parts: seq<Part>)

  datatype Task = Task(
    id: string,
    contextID: string,
    status: TaskStatus,
    artifacts: seq<Artifact>)

  datatype StatusUpdate = StatusUpdate(
    taskID: string,
    contextID: string,
    status: TaskStatus,
    final: bool,
    metadata: Option<Meta>)

  datatype ArtifactUpdate = ArtifactUpdate(
    taskID: string,
    contextID: string,
    artifact: Artifact,
    append: bool,
    lastChunk: bool,
    metadata: Option<Meta>)

  /** An event of a wire stream. `OtherEvent` is a kind the translator does not know. */
  datatype Event =
    | TaskEvent(task: Task)
    | MessageEvent(message: Message)
    | StatusUpdateEvent(statusUpdate: StatusUpdate)
    | ArtifactUpdateEvent(artifactUpdate: ArtifactUpdate)
    | OtherEvent(typeName: string)

  /** The task and context a server-side request belongs to (`a2asrv.RequestContext`). */
  datatype RequestContext = RequestContext(
    taskID: string,
    contextID: string,
    message: Option<Message>,
    storedTask: Option<Task>)

  /** What an event constructor reads of its task (`a2a.TaskInfoProvider`). */
  datatype TaskInfo = TaskInfo(taskID: string, contextID: string)

  function RequestTaskInfo(reqCtx: RequestContext): TaskInfo {
    TaskInfo(reqCtx.taskID, reqCtx.contextID)
  }

  /** `a2a.NewStatusUpdateEvent`: a non-final update of the task's status. */
  function NewStatusUpdate(info: TaskInfo, state: TaskState, msg: Option<Message>): (u: StatusUpdate)
    ensures u.taskID == info.taskID && u.contextID == info.contextID
    ensures u.status == TaskStatus(state, msg) && !u.final && u.metadata.None?
  {
    StatusUpdate(info.taskID, info.contextID, TaskStatus(state, msg), false, None)
  }

  /** `a2a.NewArtifactEvent`: the first chunk of a new artifact of the task, under the
      fresh `id` the library allocates. It does not set `Append`. */
  function NewArtifactEvent(info: TaskInfo, id: string, parts: seq<Part>): (u: ArtifactUpdate)
    ensures u.taskID == info.taskID && u.contextID == info.contextID
    ensures u.artifact == Artifact(id, parts) && !u.append && !u.lastChunk && u.metadata.None?
  {
    ArtifactUpdate(info.taskID, info.contextID, Artifact(id, parts), false, false, None)
  }

  /** `a2a.NewArtifactUpdateEvent`: a chunk appended to the task's artifact `id`. */
  function NewArtifactUpdate(info: TaskInfo, id: string, parts: seq<Part>): (u: ArtifactUpdate)
    ensures u.taskID == info.taskID && u.contextID == info.contextID
    ensures u.artifact == Artifact(id, parts) && u.append && !u.lastChunk && u.metadata.None?
  {
    ArtifactUpdate(info.taskID, info.contextID, Artifact(id, parts), true, false, None)
  }

  /** `a2a.NewMessageForTask`: a message bound to the task and its context. */
  function NewMessageForTask(role: Role, info: TaskInfo, parts: seq<Part>): (m: Message)
    ensures m.role == role && m.parts == parts && m.taskID == info.taskID && m.contextID == info.contextID
  {
    Message(role, parts, info.taskID, info.contextID)
  }
}
