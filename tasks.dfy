/**
 * The tasks store: records decoded from local storage, and the pure
 * snapshot-to-snapshot steps that each store operation hands to `update`.
 */
module Tasks {
  import opened Wrappers
  import opened Json
  import opened Text
  import opened Seqs

  /** The local storage key the store reads and writes. */
  const StorageKey: string := "touche:tasks"

  /** The board a task falls back to when its stored board reference is blank. */
  const DefaultBoardId: string := "default"

  datatype Status = Active | InProgress | Done

  datatype Task = Task(
    id: string,
    boardId: string,
    title: string,
    note: string,
    status: Status,
    createdAt: string,
    updatedAt: string)

  /** A draft as `addTask` receives it; `note` is optional. */
  datatype TaskDraft = TaskDraft(boardId: string, title: string, note: Option<string>)

  /**
   * The partial record `updateTask` receives: every task field but `id` and
   * `createdAt`, plus the legacy `completed` flag.
   */
  datatype TaskChanges = TaskChanges(
    boardId: Option<string>,
    title: Option<string>,
    note: Option<string>,
    status: Option<Status>,
    updatedAt: Option<string>,
    completed: Option<bool>)

  /** The changes object `{}`. */
  const NoChanges: TaskChanges := TaskChanges(None, None, None, None, None, None)

  /** What every task the store holds satisfies: a non-blank id and a trimmed, non-empty title. */
  predicate WellFormed(t: Task) {
    Trim(t.id) != "" && t.title != "" && IsTrimmed(t.title)
  }

  /** No two tasks share an id. */
  predicate UniqueIds(tasks: seq<Task>) {
    forall i, j :: 0 <= i < j < |tasks| ==> tasks[i].id != tasks[j].id
  }

  // ---------------------------------------------------------------------
  // Status names

  /** The stored name of a status; distinct statuses have distinct names. */
  function StatusName(st: Status): (r: string)
    ensures r == "active" || r == "in_progress" || r == "done"
    ensures r == "active" <==> st == Active
    ensures r == "done" <==> st == Done
  {
    match st
    case Active => "active"
    case InProgress => "in_progress"
    case Done => "done"
  }

  /** `['active', 'in_progress', 'done'].includes(s)`, giving the status named. */
  function ParseStatus(s: string): (r: Option<Status>)
    ensures r.Some? ==> StatusName(r.value) == s
  {
    if s == "active" then Some(Active)
    else if s == "in_progress" then Some(InProgress)
    else if s == "done" then Some(Done)
    else None
  }

  lemma ParseStatusName(st: Status)
    ensures ParseStatus(StatusName(st)) == Some(st)
  {
  }

  // ---------------------------------------------------------------------
  // Decoding (toTaskArray)

  /**
   * The legacy fallback for the status: `"done"` when the old `completed`
   * flag is the boolean `true`, `"active"` otherwise.
   */
  function LegacyStatus(item: Json): (r: Status)
    ensures r != InProgress
    ensures r == Done <==> GetBool(item, "completed") == Some(true)
  {
    if GetBool(item, "completed") == Some(true) then Done else Active
  }

  /**
   * One element of the stored array, or `None` when it is dropped.  `now`
   * is the clock reading used for a missing `createdAt`.
   */
  function DecodeTaskItem(item: Json, now: string): (r: Option<Task>)
    ensures r.Some? <==> NonBlank(item, "id").Some? && NonBlank(item, "title").Some?
    ensures r.Some? ==> WellFormed(r.value)
  {
    if !IsRecord(item) then None
    else
      match (NonBlank(item, "id"), NonBlank(item, "title"))
      case (Some(id), Some(title)) =>
        var boardId := NonBlank(item, "boardId").GetOr(DefaultBoardId);
        var note := GetString(item, "note").GetOr("");
        var status :=
          match GetString(item, "status")
          case Some(s) => ParseStatus(s).GetOr(LegacyStatus(item))
          case None => LegacyStatus(item);
        var createdAt := GetString(item, "createdAt").GetOr(now);
        var updatedAt := GetString(item, "updatedAt").GetOr(createdAt);
        Some(Task(id, boardId, Trim(title), note, status, createdAt, updatedAt))
      case _ => None
  }

  function TaskDecoder(now: string): Json -> Option<Task> {
    item => DecodeTaskItem(item, now)
  }

  /** `toTaskArray`: keeps the well-formed elements of an array, drops the rest. */
  function ToTaskArray(value: Json, now: string): (r: seq<Task>)
    ensures !value.JArr? ==> r == []
    ensures value.JArr? ==> |r| <= |value.items|
  {
    match value
    case JArr(items) => FilterMap(items, TaskDecoder(now))
    case _ => []
  }

  /** The decode path of `readFromStorage`; `None` is a missing, empty or unparsable entry. */
  function ReadTasks(stored: Option<Json>, now: string): (r: seq<Task>)
    ensures stored.None? ==> r == []
  {
    match stored
    case Some(v) => ToTaskArray(v, now)
    case None => []
  }

  // ---------------------------------------------------------------------
  // Encoding (JSON.stringify of the array)

  /**
   * One task as `JSON.stringify` writes it: exactly the seven fields, each a
   * string that reads back as written.
   */
  function EncodeTask(t: Task): (o: Json)
    ensures o.JObj? && o.fields.Keys == {"id", "boardId", "title", "note", "status", "createdAt", "updatedAt"}
    ensures GetString(o, "id") == Some(t.id) && GetString(o, "boardId") == Some(t.boardId)
    ensures GetString(o, "title") == Some(t.title) && GetString(o, "note") == Some(t.note)
    ensures GetString(o, "status").Some? && ParseStatus(GetString(o, "status").value) == Some(t.status)
    ensures GetString(o, "createdAt") == Some(t.createdAt) && GetString(o, "updatedAt") == Some(t.updatedAt)
  {
    ParseStatusName(t.status);
    JObj(map[
      "id" := JStr(t.id),
      "boardId" := JStr(t.boardId),
      "title" := JStr(t.title),
      "note" := JStr(t.note),
      "status" := JStr(StatusName(t.status)),
      "createdAt" := JStr(t.createdAt),
      "updatedAt" := JStr(t.updatedAt)])
  }

  function EncodeTasks(tasks: seq<Task>): (v: Json)
    ensures v.JArr? && |v.items| == |tasks|
  {
    JArr(seq(|tasks|, i requires 0 <= i < |tasks| => EncodeTask(tasks[i])))
  }

  /** The tasks that survive being written out and read back unchanged. */
  predicate RoundTrips(t: Task) {
    WellFormed(t) && Trim(t.boardId) != ""
  }

  // ---------------------------------------------------------------------
  // Store steps (the callbacks given to `update`)

  /** `normaliseNote`: an absent or empty note is `""`, any other is trimmed. */
  function NormaliseNote(value: Option<string>): (r: string)
    ensures IsTrimmed(r)
    ensures value.None? ==> r == ""
    ensures value.Some? ==> r == Trim(value.value)
  {
    if value.Some? && value.value != "" then Trim(value.value) else ""
  }

  /** `addTask`: prepends a fresh active task, unless the title trims to nothing. */
  function AddTaskStep(tasks: seq<Task>, draft: TaskDraft, id: string, now: string): (r: seq<Task>)
    ensures Trim(draft.title) == "" ==> r == tasks
    ensures Trim(draft.title) != "" ==>
      && |r| == |tasks| + 1 && r[1..] == tasks
      && r[0].id == id && r[0].boardId == draft.boardId
      && r[0].title == Trim(draft.title) && r[0].note == NormaliseNote(draft.note)
      && r[0].status == Active && r[0].createdAt == now && r[0].updatedAt == now
  {
    var trimmedTitle := Trim(draft.title);
    if trimmedTitle == "" then tasks
    else [Task(id, draft.boardId, trimmedTitle, NormaliseNote(draft.note), Active, now, now)] + tasks
  }

  /** The title a task would get from `changes`. */
  function NewTitle(task: Task, changes: TaskChanges): string {
    if changes.title.Some? then Trim(changes.title.value) else task.title
  }

  /**
   * The per-task callback of `updateTask`.  Only `title`, `note` and the
   * legacy `completed` flag are read from `changes`; its `status`, `boardId`
   * and `updatedAt` are ignored.
   */
  function UpdateOne(task: Task, id: string, changes: TaskChanges, now: string): (r: Task)
    ensures task.id != id || NewTitle(task, changes) == "" ==> r == task
    ensures task.id == id && NewTitle(task, changes) != "" ==>
      && r.id == task.id && r.boardId == task.boardId && r.createdAt == task.createdAt
      && r.title == NewTitle(task, changes)
      && r.note == (if changes.note.Some? then NormaliseNote(changes.note) else task.note)
      && r.status == (if changes.completed.Some? then (if changes.completed.value then Done else Active) else task.status)
      && r.updatedAt == now
  {
    if task.id != id then task
    else
      var trimmedTitle := NewTitle(task, changes);
      if trimmedTitle == "" then task
      else
        task.(
          title := trimmedTitle,
          note := if changes.note.Some? then NormaliseNote(changes.note) else task.note,
          status := if changes.completed.Some? then (if changes.completed.value then Done else Active) else task.status,
          updatedAt := now)
  }

  /** `updateTask`: applies UpdateOne to every task, so only tasks with the id can change. */
  function UpdateTaskStep(tasks: seq<Task>, id: string, changes: TaskChanges, now: string): (r: seq<Task>)
    ensures |r| == |tasks|
    ensures forall i :: 0 <= i < |tasks| && tasks[i].id != id ==> r[i] == tasks[i]
    ensures forall i :: 0 <= i < |tasks| && tasks[i].id == id ==> r[i] == UpdateOne(tasks[i], id, changes, now)
  {
    seq(|tasks|, i requires 0 <= i < |tasks| => UpdateOne(tasks[i], id, changes, now))
  }

  /** The status `toggleCompleted` moves to: done becomes active, anything else done. */
  function Toggled(st: Status): (r: Status)
    ensures r == Done <==> st != Done
    ensures st == Done ==> r == Active
  {
    if st == Done then Active else Done
  }

  /** `toggleCompleted`: only the matching tasks' status and `updatedAt` change. */
  function ToggleCompletedStep(tasks: seq<Task>, id: string, now: string): (r: seq<Task>)
    ensures |r| == |tasks|
    ensures forall i :: 0 <= i < |tasks| && tasks[i].id != id ==> r[i] == tasks[i]
    ensures forall i :: 0 <= i < |tasks| && tasks[i].id == id ==>
      r[i] == tasks[i].(status := Toggled(tasks[i].status), updatedAt := now)
  {
    seq(|tasks|, i requires 0 <= i < |tasks| =>
      if tasks[i].id != id then tasks[i]
      else tasks[i].(status := Toggled(tasks[i].status), updatedAt := now))
  }

  /** `setStatus`: only the matching tasks' status and `updatedAt` change. */
  function SetStatusStep(tasks: seq<Task>, id: string, status: Status, now: string): (r: seq<Task>)
    ensures |r| == |tasks|
    ensures forall i :: 0 <= i < |tasks| && tasks[i].id != id ==> r[i] == tasks[i]
    ensures forall i :: 0 <= i < |tasks| && tasks[i].id == id ==>
      r[i].status == status && r[i].updatedAt == now
      && r[i].(status := tasks[i].status, updatedAt := tasks[i].updatedAt) == tasks[i]
  {
    seq(|tasks|, i requires 0 <= i < |tasks| =>
      if tasks[i].id != id then tasks[i] else tasks[i].(status := status, updatedAt := now))
  }

  function IdIsNot(id: string): Task -> bool { (t: Task) => t.id != id }
  function NotDone(): Task -> bool { (t: Task) => t.status != Done }
  function OnBoard(boardId: string): Task -> bool { (t: Task) => t.boardId == boardId }

  /** `deleteTask` */
  function DeleteTaskStep(tasks: seq<Task>, id: string): (r: seq<Task>)
    ensures forall t :: t in r ==> t in tasks && t.id != id
    ensures forall t :: t in tasks && t.id != id ==> t in r
  {
    Filter(tasks, IdIsNot(id))
  }

  /** `clearCompleted` */
  function ClearCompletedStep(tasks: seq<Task>): (r: seq<Task>)
    ensures forall t :: t in r ==> t in tasks && t.status != Done
    ensures forall t :: t in tasks && t.status != Done ==> t in r
  {
    Filter(tasks, NotDone())
  }

  /** The filter `getTasksByBoard` applies to the current snapshot. */
  function TasksOnBoard(tasks: seq<Task>, boardId: string): (r: seq<Task>)
    ensures forall t :: t in r ==> t in tasks && t.boardId == boardId
    ensures forall t :: t in tasks && t.boardId == boardId ==> t in r
  {
    Filter(tasks, OnBoard(boardId))
  }

  // ---------------------------------------------------------------------
  // Properties of decoding

  /**
   * `toTaskArray` keeps, in their order, exactly the elements that have a
   * non-blank string id and title, each decoded on its own.
   */
  lemma ToTaskArraySelects(items: seq<Json>, now: string) returns (idx: seq<nat>)
    ensures Increasing(idx, |items|) && |idx| == |ToTaskArray(JArr(items), now)|
    ensures forall k :: 0 <= k < |idx| ==>
      DecodeTaskItem(items[idx[k]], now) == Some(ToTaskArray(JArr(items), now)[k])
    ensures forall i :: 0 <= i < |items| ==>
      (i in idx <==> NonBlank(items[i], "id").Some? && NonBlank(items[i], "title").Some?)
  {
    idx := FilterMapSelects(items, TaskDecoder(now));
  }

  /** Every decoded task has a non-blank id and a trimmed, non-empty title. */
  lemma ToTaskArrayWellFormed(value: Json, now: string)
    ensures forall t :: t in ToTaskArray(value, now) ==> WellFormed(t)
  {
    if value.JArr? {
      var r := ToTaskArray(value, now);
      var idx := ToTaskArraySelects(value.items, now);
      forall k | 0 <= k < |r| ensures WellFormed(r[k]) {
        assert DecodeTaskItem(value.items[idx[k]], now) == Some(r[k]);
      }
    }
  }

  /** Arrays pass the `isRecord` test, but every field lookup on them misses, so they are dropped. */
  lemma ArrayItemDropped(items: seq<Json>, now: string)
    ensures DecodeTaskItem(JArr(items), now) == None
  {
    assert NonBlank(JArr(items), "id") == None;
  }

  /** The defaults and fallbacks applied to a kept element. */
  lemma DecodeTaskDefaults(item: Json, now: string)
    requires DecodeTaskItem(item, now).Some?
    ensures var t := DecodeTaskItem(item, now).value;
      && t.id == GetString(item, "id").value
      && t.title == Trim(GetString(item, "title").value)
      && t.boardId == (if NonBlank(item, "boardId").Some? then GetString(item, "boardId").value else DefaultBoardId)
      && t.note == (if GetString(item, "note").Some? then GetString(item, "note").value else "")
      && t.createdAt == GetString(item, "createdAt").GetOr(now)
      && (GetString(item, "updatedAt").None? ==> t.updatedAt == t.createdAt)
      && (GetString(item, "updatedAt").Some? ==> t.updatedAt == GetString(item, "updatedAt").value)
  {
  }

  /**
   * A status that is absent, not a string or not one of the three names is
   * derived from the legacy flag: done exactly when `completed` is `true`.
   */
  lemma DecodeTaskLegacyStatus(item: Json, now: string)
    requires DecodeTaskItem(item, now).Some?
    requires GetString(item, "status").None? || ParseStatus(GetString(item, "status").value).None?
    ensures DecodeTaskItem(item, now).value.status == Done <==> GetBool(item, "completed") == Some(true)
    ensures DecodeTaskItem(item, now).value.status != InProgress
  {
  }

  /** A valid status string is taken as it is, whatever `completed` says. */
  lemma DecodeTaskNamedStatus(item: Json, now: string, st: Status)
    requires DecodeTaskItem(item, now).Some?
    requires GetString(item, "status") == Some(StatusName(st))
    ensures DecodeTaskItem(item, now).value.status == st
  {
    ParseStatusName(st);
  }

  // ---------------------------------------------------------------------
  // Round trip through storage

  lemma DecodeEncodeTask(t: Task, now: string)
    requires RoundTrips(t)
    ensures DecodeTaskItem(EncodeTask(t), now) == Some(t)
  {
    TrimOfTrimmed(t.title);
    ParseStatusName(t.status);
  }

  /** A task with a blank board reference reads back attached to the default board. */
  lemma BlankBoardIdReadsBackAsDefault(t: Task, now: string)
    requires WellFormed(t) && Trim(t.boardId) == ""
    ensures DecodeTaskItem(EncodeTask(t), now) == Some(t.(boardId := DefaultBoardId))
  {
    TrimOfTrimmed(t.title);
    ParseStatusName(t.status);
  }

  /** Writing the tasks out and reading them back yields the same sequence. */
  lemma TasksRoundTrip(tasks: seq<Task>, now: string)
    requires forall t :: t in tasks ==> RoundTrips(t)
    ensures ReadTasks(Some(EncodeTasks(tasks)), now) == tasks
  {
    var items := EncodeTasks(tasks).items;
    EncodedTasksDecode(tasks, now);
    FilterMapTotal(items, TaskDecoder(now), tasks);
    assert FilterMap(items, TaskDecoder(now)) == tasks;
    assert ToTaskArray(JArr(items), now) == tasks;
  }

  /** Every stored object decodes back to the task it was written from. */
  lemma EncodedTasksDecode(tasks: seq<Task>, now: string)
    requires forall t :: t in tasks ==> RoundTrips(t)
    ensures var items := EncodeTasks(tasks).items;
      forall i :: 0 <= i < |items| ==> TaskDecoder(now)(items[i]) == Some(tasks[i])
  {
    forall i | 0 <= i < |tasks| ensures TaskDecoder(now)(EncodeTasks(tasks).items[i]) == Some(tasks[i]) {
      DecodeEncodedAt(tasks, i, now);
    }
  }

  lemma DecodeEncodedAt(tasks: seq<Task>, i: nat, now: string)
    requires i < |tasks| && forall t :: t in tasks ==> RoundTrips(t)
    ensures TaskDecoder(now)(EncodeTasks(tasks).items[i]) == Some(tasks[i])
  {
    assert tasks[i] in tasks;
    assert EncodeTasks(tasks).items[i] == EncodeTask(tasks[i]);
    DecodeEncodeTask(tasks[i], now);
  }

  // ---------------------------------------------------------------------
  // Properties of the store steps

  /** A successful `addTask` keeps every task well formed and, given a fresh id, the ids distinct. */
  lemma AddTaskKeepsInvariants(tasks: seq<Task>, draft: TaskDraft, id: string, now: string)
    requires forall t :: t in tasks ==> WellFormed(t)
    requires Trim(id) != "" && forall t :: t in tasks ==> t.id != id
    ensures forall t :: t in AddTaskStep(tasks, draft, id, now) ==> WellFormed(t)
    ensures UniqueIds(tasks) ==> UniqueIds(AddTaskStep(tasks, draft, id, now))
  {
    var r := AddTaskStep(tasks, draft, id, now);
    if Trim(draft.title) != "" {
      forall t | t in r ensures WellFormed(t) {
        if t != r[0] { assert t in r[1..]; }
      }
      if UniqueIds(tasks) {
        forall i, j | 0 <= i < j < |r| ensures r[i].id != r[j].id {
          assert r[j] == tasks[j - 1];
          if i > 0 { assert r[i] == tasks[i - 1]; }
        }
      }
    }
  }

  /** `updateTask` reads only `title`, `note` and `completed` from the changes. */
  lemma UpdateTaskIgnoresOtherFields(tasks: seq<Task>, id: string, c1: TaskChanges, c2: TaskChanges, now: string)
    requires c1.title == c2.title && c1.note == c2.note && c1.completed == c2.completed
    ensures UpdateTaskStep(tasks, id, c1, now) == UpdateTaskStep(tasks, id, c2, now)
  {
    var r1, r2 := UpdateTaskStep(tasks, id, c1, now), UpdateTaskStep(tasks, id, c2, now);
    forall i | 0 <= i < |tasks| ensures r1[i] == r2[i] {
      assert NewTitle(tasks[i], c1) == NewTitle(tasks[i], c2);
    }
  }

  /** Without a `completed` flag, `updateTask` never changes a status, even when `status` is supplied. */
  lemma UpdateTaskStatusOnlyViaCompleted(tasks: seq<Task>, id: string, changes: TaskChanges, now: string)
    requires changes.completed.None?
    ensures forall i :: 0 <= i < |tasks| ==> UpdateTaskStep(tasks, id, changes, now)[i].status == tasks[i].status
  {
  }

  /** An empty changes object still stamps `updatedAt` on every matching task with a title. */
  lemma UpdateTaskEmptyChanges(tasks: seq<Task>, id: string, now: string)
    ensures forall i :: 0 <= i < |tasks| && tasks[i].id == id && tasks[i].title != "" ==>
      UpdateTaskStep(tasks, id, NoChanges, now)[i] == tasks[i].(updatedAt := now)
  {
  }

  /** A supplied title that trims to nothing leaves the whole list as it was, timestamps included. */
  lemma UpdateTaskBlankTitle(tasks: seq<Task>, id: string, changes: TaskChanges, now: string)
    requires changes.title.Some? && Trim(changes.title.value) == ""
    ensures UpdateTaskStep(tasks, id, changes, now) == tasks
  {
    var r := UpdateTaskStep(tasks, id, changes, now);
    forall i | 0 <= i < |tasks| ensures r[i] == tasks[i] {
      assert NewTitle(tasks[i], changes) == "";
    }
  }

  lemma UpdateTaskKeepsWellFormed(tasks: seq<Task>, id: string, changes: TaskChanges, now: string)
    requires forall t :: t in tasks ==> WellFormed(t)
    ensures forall t :: t in UpdateTaskStep(tasks, id, changes, now) ==> WellFormed(t)
  {
    var r := UpdateTaskStep(tasks, id, changes, now);
    forall k | 0 <= k < |r| ensures WellFormed(r[k]) {
      assert tasks[k] in tasks;
      assert r[k] == UpdateOne(tasks[k], id, changes, now);
      UpdateOneKeepsWellFormed(tasks[k], id, changes, now);
    }
  }

  lemma UpdateOneKeepsWellFormed(task: Task, id: string, changes: TaskChanges, now: string)
    requires WellFormed(task)
    ensures WellFormed(UpdateOne(task, id, changes, now))
  {
    if changes.title.Some? {
      assert IsTrimmed(Trim(changes.title.value));
    }
  }

  /**
   * Toggling twice restores the status of an active or done task; an
   * in-progress task comes back active, its intermediate state lost.
   */
  lemma ToggleCompletedTwice(tasks: seq<Task>, id: string, now1: string, now2: string)
    ensures var r := ToggleCompletedStep(ToggleCompletedStep(tasks, id, now1), id, now2);
      forall i :: 0 <= i < |tasks| ==>
        r[i].status == (if tasks[i].id == id && tasks[i].status == InProgress then Active else tasks[i].status)
  {
  }

  /**
   * A task just added is active; toggling it once makes it done and twice
   * makes it active again, and its creation time never moves.
   */
  lemma AddThenToggleTwice(tasks: seq<Task>, draft: TaskDraft, id: string, now0: string, now1: string, now2: string)
    requires Trim(draft.title) != ""
    ensures var added := AddTaskStep(tasks, draft, id, now0);
      var once := ToggleCompletedStep(added, id, now1);
      var twice := ToggleCompletedStep(once, id, now2);
      && added[0].status == Active
      && once[0].status == Done && once[0].updatedAt == now1
      && twice[0].status == Active && twice[0].updatedAt == now2
      && twice[0].createdAt == now0
  {
    var added := AddTaskStep(tasks, draft, id, now0);
    assert added[0].id == id;
    var once := ToggleCompletedStep(added, id, now1);
    assert once[0] == added[0].(status := Done, updatedAt := now1);
  }

  lemma ToggleAndSetKeepWellFormed(tasks: seq<Task>, id: string, status: Status, now: string)
    requires forall t :: t in tasks ==> WellFormed(t)
    ensures forall t :: t in ToggleCompletedStep(tasks, id, now) ==> WellFormed(t)
    ensures forall t :: t in SetStatusStep(tasks, id, status, now) ==> WellFormed(t)
  {
    var r1, r2 := ToggleCompletedStep(tasks, id, now), SetStatusStep(tasks, id, status, now);
    forall k | 0 <= k < |tasks| ensures WellFormed(r1[k]) && WellFormed(r2[k]) {
      assert tasks[k] in tasks;
    }
  }

  /** `deleteTask` removes exactly the tasks with the id and keeps the others in order. */
  lemma DeleteTaskSelects(tasks: seq<Task>, id: string) returns (idx: seq<nat>)
    ensures Increasing(idx, |tasks|) && |idx| == |DeleteTaskStep(tasks, id)|
    ensures forall k :: 0 <= k < |idx| ==> tasks[idx[k]] == DeleteTaskStep(tasks, id)[k]
    ensures forall i :: 0 <= i < |tasks| ==> (i in idx <==> tasks[i].id != id)
  {
    idx := FilterSelects(tasks, IdIsNot(id));
  }

  /** Deleting an id no task has changes nothing. */
  lemma DeleteAbsentTask(tasks: seq<Task>, id: string)
    requires forall t :: t in tasks ==> t.id != id
    ensures DeleteTaskStep(tasks, id) == tasks
  {
    FilterAll(tasks, IdIsNot(id));
  }

  /** `clearCompleted` removes exactly the done tasks and keeps the others in order. */
  lemma ClearCompletedSelects(tasks: seq<Task>) returns (idx: seq<nat>)
    ensures Increasing(idx, |tasks|) && |idx| == |ClearCompletedStep(tasks)|
    ensures forall k :: 0 <= k < |idx| ==> tasks[idx[k]] == ClearCompletedStep(tasks)[k]
    ensures forall i :: 0 <= i < |tasks| ==> (i in idx <==> tasks[i].status != Done)
  {
    idx := FilterSelects(tasks, NotDone());
  }

  /** `getTasksByBoard` returns exactly the tasks on the board, in list order. */
  lemma TasksOnBoardSelects(tasks: seq<Task>, boardId: string) returns (idx: seq<nat>)
    ensures Increasing(idx, |tasks|) && |idx| == |TasksOnBoard(tasks, boardId)|
    ensures forall k :: 0 <= k < |idx| ==> tasks[idx[k]] == TasksOnBoard(tasks, boardId)[k]
    ensures forall i :: 0 <= i < |tasks| ==> (i in idx <==> tasks[i].boardId == boardId)
  {
    idx := FilterSelects(tasks, OnBoard(boardId));
  }

  // ---------------------------------------------------------------------
  // The store

  /**
   * The store returned by `createTaskStore`: its current snapshot, replaced
   * wholesale by every operation.
   */
  class TaskStore {
    var tasks: seq<Task>

    ghost predicate Valid()
      reads this
    {
      forall t :: t in tasks ==> WellFormed(t)
    }

    /** Starts from what `readFromStorage` decodes; `now` is the clock at start-up. */
    constructor (stored: Option<Json>, now: string)
      ensures Valid() && tasks == ReadTasks(stored, now)
    {
      tasks := ReadTasks(stored, now);
      if stored.Some? { ToTaskArrayWellFormed(stored.value, now); }
    }

    /** `id` stands for `createId()` and `now` for the clock. */
    method AddTask(draft: TaskDraft, id: string, now: string)
      requires Valid()
      requires Trim(id) != "" && forall t :: t in tasks ==> t.id != id
      modifies this
      ensures Valid() && tasks == AddTaskStep(old(tasks), draft, id, now)
    {
      AddTaskKeepsInvariants(tasks, draft, id, now);
      tasks := AddTaskStep(tasks, draft, id, now);
    }

    method UpdateTask(id: string, changes: TaskChanges, now: string)
      requires Valid()
      modifies this
      ensures Valid() && tasks == UpdateTaskStep(old(tasks), id, changes, now)
    {
      UpdateTaskKeepsWellFormed(tasks, id, changes, now);
      tasks := UpdateTaskStep(tasks, id, changes, now);
    }

    method ToggleCompleted(id: string, now: string)
      requires Valid()
      modifies this
      ensures Valid() && tasks == ToggleCompletedStep(old(tasks), id, now)
    {
      ToggleAndSetKeepWellFormed(tasks, id, Active, now);
      tasks := ToggleCompletedStep(tasks, id, now);
    }

    method SetStatus(id: string, status: Status, now: string)
      requires Valid()
      modifies this
      ensures Valid() && tasks == SetStatusStep(old(tasks), id, status, now)
    {
      ToggleAndSetKeepWellFormed(tasks, id, status, now);
      tasks := SetStatusStep(tasks, id, status, now);
    }

    method DeleteTask(id: string)
      requires Valid()
      modifies this
      ensures Valid() && tasks == DeleteTaskStep(old(tasks), id)
    {
      tasks := DeleteTaskStep(tasks, id);
    }

    method ClearCompleted()
      requires Valid()
      modifies this
      ensures Valid() && tasks == ClearCompletedStep(old(tasks))
    {
      tasks := ClearCompletedStep(tasks);
    }

    /** Reads the current snapshot without changing it, filtered to one board. */
    method GetTasksByBoard(boardId: string) returns (current: seq<Task>)
      ensures current == TasksOnBoard(tasks, boardId)
    {
      current := TasksOnBoard(tasks, boardId);
    }

    /** The `storage` event handler: a write to this key in another tab replaces the snapshot. */
    method HandleStorage(key: string, stored: Option<Json>, now: string)
      requires Valid()
      modifies this
      ensures Valid()
      ensures key == StorageKey ==> tasks == ReadTasks(stored, now)
      ensures key != StorageKey ==> tasks == old(tasks)
    {
      if key == StorageKey {
        tasks := ReadTasks(stored, now);
        if stored.Some? { ToTaskArrayWellFormed(stored.value, now); }
      }
    }
  }
}
