/**
 * The boards store: records decoded from local storage, the pure
 * snapshot-to-snapshot steps of its operations, and the invariant that the
 * list of boards is never empty.
 */
module Boards {
  import opened Wrappers
  import opened Json
  import opened Text
  import opened Seqs

  const StorageKey: string := "touche:boards"
  const DefaultBoardId: string := "default"
  const DefaultBoardName: string := "Board"

  datatype Board = Board(id: string, name: string, createdAt: string, updatedAt: string)

  datatype BoardDraft = BoardDraft(name: string)

  /** The partial record `updateBoard` receives: every field but `id` and `createdAt`. */
  datatype BoardChanges = BoardChanges(name: Option<string>, updatedAt: Option<string>)

  /** A non-blank id and a trimmed, non-empty name. */
  predicate WellFormed(b: Board) {
    Trim(b.id) != "" && b.name != "" && IsTrimmed(b.name)
  }

  /** What the store holds at every point: at least one board, each well formed. */
  predicate ValidBoards(boards: seq<Board>) {
    |boards| > 0 && forall b :: b in boards ==> WellFormed(b)
  }

  // ---------------------------------------------------------------------
  // Decoding (toBoardArray) and the start-up read

  /** One element of the stored array, or `None` when it is dropped. */
  function DecodeBoardItem(item: Json, now: string): (r: Option<Board>)
    ensures r.Some? <==> NonBlank(item, "id").Some? && NonBlank(item, "name").Some?
    ensures r.Some? ==> WellFormed(r.value)
  {
    if !IsRecord(item) then None
    else
      match (NonBlank(item, "id"), NonBlank(item, "name"))
      case (Some(id), Some(name)) =>
        var createdAt := GetString(item, "createdAt").GetOr(now);
        var updatedAt := GetString(item, "updatedAt").GetOr(createdAt);
        Some(Board(id, Trim(name), createdAt, updatedAt))
      case _ => None
  }

  function BoardDecoder(now: string): Json -> Option<Board> {
    item => DecodeBoardItem(item, now)
  }

  /** `toBoardArray` */
  function ToBoardArray(value: Json, now: string): (r: seq<Board>)
    ensures !value.JArr? ==> r == []
    ensures value.JArr? ==> |r| <= |value.items|
  {
    match value
    case JArr(items) => FilterMap(items, BoardDecoder(now))
    case _ => []
  }

  /** `createDefaultBoard` */
  function CreateDefaultBoard(now: string): (b: Board)
    ensures WellFormed(b)
    ensures b.id == DefaultBoardId && b.name == DefaultBoardName
    ensures b.createdAt == now && b.updatedAt == now
  {
    assert DefaultBoardId[0] == 'd';
    assert DefaultBoardName[0] == 'B' && DefaultBoardName[|DefaultBoardName| - 1] == 'd';
    Board(DefaultBoardId, DefaultBoardName, now, now)
  }

  /** `ensureMinimumBoards`: the identity on a non-empty list, the default board otherwise. */
  function EnsureMinimumBoards(boards: seq<Board>, now: string): (r: seq<Board>)
    ensures |r| > 0
    ensures |boards| > 0 ==> r == boards
    ensures boards == [] ==> r == [CreateDefaultBoard(now)]
  {
    if |boards| == 0 then [CreateDefaultBoard(now)] else boards
  }

  /** The decode path of `readFromStorage`; `None` is a missing, empty or unparsable entry. */
  function ReadBoards(stored: Option<Json>, now: string): (r: seq<Board>)
    ensures |r| > 0
    ensures stored.None? ==> r == [CreateDefaultBoard(now)]
  {
    match stored
    case Some(v) => EnsureMinimumBoards(ToBoardArray(v, now), now)
    case None => EnsureMinimumBoards([], now)
  }

  // ---------------------------------------------------------------------
  // Encoding

  /**
   * One board as `JSON.stringify` writes it: exactly the four fields, each a
   * string that reads back as written.
   */
  function EncodeBoard(b: Board): (o: Json)
    ensures o.JObj? && o.fields.Keys == {"id", "name", "createdAt", "updatedAt"}
    ensures GetString(o, "id") == Some(b.id) && GetString(o, "name") == Some(b.name)
    ensures GetString(o, "createdAt") == Some(b.createdAt) && GetString(o, "updatedAt") == Some(b.updatedAt)
  {
    JObj(map[
      "id" := JStr(b.id),
      "name" := JStr(b.name),
      "createdAt" := JStr(b.createdAt),
      "updatedAt" := JStr(b.updatedAt)])
  }

  function EncodeBoards(boards: seq<Board>): (v: Json)
    ensures v.JArr? && |v.items| == |boards|
  {
    JArr(seq(|boards|, i requires 0 <= i < |boards| => EncodeBoard(boards[i])))
  }

  // ---------------------------------------------------------------------
  // Store steps

  /** `addBoard`: appends a fresh board, unless the name trims to nothing. */
  function AddBoardStep(boards: seq<Board>, draft: BoardDraft, id: string, now: string): (r: seq<Board>)
    ensures Trim(draft.name) == "" ==> r == boards
    ensures Trim(draft.name) != "" ==>
      && |r| == |boards| + 1 && r[..|boards|] == boards
      && r[|boards|].id == id && r[|boards|].name == Trim(draft.name)
      && r[|boards|].createdAt == now && r[|boards|].updatedAt == now
  {
    var trimmedName := Trim(draft.name);
    if trimmedName == "" then boards
    else boards + [Board(id, trimmedName, now, now)]
  }

  /** The name a board would get from `changes`. */
  function NewName(board: Board, changes: BoardChanges): string {
    if changes.name.Some? then Trim(changes.name.value) else board.name
  }

  /** The per-board callback of `updateBoard`; `changes.updatedAt` is ignored. */
  function UpdateOne(board: Board, id: string, changes: BoardChanges, now: string): (r: Board)
    ensures board.id != id || NewName(board, changes) == "" ==> r == board
    ensures board.id == id && NewName(board, changes) != "" ==>
      r == Board(board.id, NewName(board, changes), board.createdAt, now)
  {
    if board.id != id then board
    else
      var trimmedName := NewName(board, changes);
      if trimmedName == "" then board
      else board.(name := trimmedName, updatedAt := now)
  }

  /** `updateBoard`: only boards with the id can change, each by UpdateOne. */
  function UpdateBoardStep(boards: seq<Board>, id: string, changes: BoardChanges, now: string): (r: seq<Board>)
    ensures |r| == |boards|
    ensures forall i :: 0 <= i < |boards| && boards[i].id != id ==> r[i] == boards[i]
    ensures forall i :: 0 <= i < |boards| && boards[i].id == id ==> r[i] == UpdateOne(boards[i], id, changes, now)
  {
    seq(|boards|, i requires 0 <= i < |boards| => UpdateOne(boards[i], id, changes, now))
  }

  function IdIsNot(id: string): Board -> bool { (b: Board) => b.id != id }

  /** `boards.filter((board) => board.id !== id)` */
  function WithoutId(boards: seq<Board>, id: string): (r: seq<Board>)
    ensures forall b :: b in r ==> b in boards && b.id != id
    ensures forall b :: b in boards && b.id != id ==> b in r
  {
    Filter(boards, IdIsNot(id))
  }

  /**
   * `deleteBoard`: refuses to touch a list of at most one board or one
   * without the id; otherwise removes the boards with the id, putting the
   * default board in place when nothing would be left.
   */
  function DeleteBoardStep(boards: seq<Board>, id: string, now: string): (r: seq<Board>)
    ensures |boards| > 0 ==> |r| > 0
    ensures |boards| <= 1 || (forall b :: b in boards ==> b.id != id) ==> r == boards
    ensures |boards| > 1 && (exists b :: b in boards && b.id == id) ==>
      r == EnsureMinimumBoards(WithoutId(boards, id), now)
  {
    if |boards| <= 1 then boards
    else
      var filtered := WithoutId(boards, id);
      if |filtered| == |boards| then
        FilterLengthEqual(boards, id);
        boards
      else
        WithoutAbsentId(boards, id);
        if |filtered| > 0 then filtered
        else EnsureMinimumBoards(filtered, now)
  }

  /** Filtering out an id no board has changes nothing. */
  lemma WithoutAbsentId(boards: seq<Board>, id: string)
    ensures (forall b :: b in boards ==> b.id != id) ==> WithoutId(boards, id) == boards
  {
    if forall b :: b in boards ==> b.id != id {
      FilterAll(boards, IdIsNot(id));
    }
  }

  /** The filter drops a board exactly when one has the id. */
  lemma FilterLengthEqual(boards: seq<Board>, id: string)
    requires |WithoutId(boards, id)| == |boards|
    ensures forall b :: b in boards ==> b.id != id
  {
    FilterKeepsLength(boards, IdIsNot(id));
  }

  // ---------------------------------------------------------------------
  // Properties of decoding

  /** `toBoardArray` keeps, in their order, exactly the elements with a non-blank string id and name. */
  lemma ToBoardArraySelects(items: seq<Json>, now: string) returns (idx: seq<nat>)
    ensures Increasing(idx, |items|) && |idx| == |ToBoardArray(JArr(items), now)|
    ensures forall k :: 0 <= k < |idx| ==>
      DecodeBoardItem(items[idx[k]], now) == Some(ToBoardArray(JArr(items), now)[k])
    ensures forall i :: 0 <= i < |items| ==>
      (i in idx <==> NonBlank(items[i], "id").Some? && NonBlank(items[i], "name").Some?)
  {
    idx := FilterMapSelects(items, BoardDecoder(now));
  }

  lemma ToBoardArrayWellFormed(value: Json, now: string)
    ensures forall b :: b in ToBoardArray(value, now) ==> WellFormed(b)
  {
    if value.JArr? {
      var r := ToBoardArray(value, now);
      var idx := ToBoardArraySelects(value.items, now);
      forall k | 0 <= k < |r| ensures WellFormed(r[k]) {
        assert DecodeBoardItem(value.items[idx[k]], now) == Some(r[k]);
      }
    }
  }

  /** Whatever storage holds, the store starts with at least one board, each well formed. */
  lemma ReadBoardsValid(stored: Option<Json>, now: string)
    ensures ValidBoards(ReadBoards(stored, now))
  {
    if stored.Some? { ToBoardArrayWellFormed(stored.value, now); }
  }

  /** The defaults applied to a kept element. */
  lemma DecodeBoardDefaults(item: Json, now: string)
    requires DecodeBoardItem(item, now).Some?
    ensures var b := DecodeBoardItem(item, now).value;
      && b.id == GetString(item, "id").value
      && b.name == Trim(GetString(item, "name").value)
      && b.createdAt == GetString(item, "createdAt").GetOr(now)
      && b.updatedAt == GetString(item, "updatedAt").GetOr(b.createdAt)
  {
  }

  // ---------------------------------------------------------------------
  // Round trip through storage

  lemma DecodeEncodeBoard(b: Board, now: string)
    requires WellFormed(b)
    ensures DecodeBoardItem(EncodeBoard(b), now) == Some(b)
  {
    TrimOfTrimmed(b.name);
  }

  /** Writing a list of well-formed boards out and decoding it yields the same list. */
  lemma BoardsRoundTrip(boards: seq<Board>, now: string)
    requires forall b :: b in boards ==> WellFormed(b)
    ensures ToBoardArray(EncodeBoards(boards), now) == boards
  {
    var items := EncodeBoards(boards).items;
    EncodedBoardsDecode(boards, now);
    FilterMapTotal(items, BoardDecoder(now), boards);
    assert FilterMap(items, BoardDecoder(now)) == boards;
  }

  /** Every stored object decodes back to the board it was written from. */
  lemma EncodedBoardsDecode(boards: seq<Board>, now: string)
    requires forall b :: b in boards ==> WellFormed(b)
    ensures var items := EncodeBoards(boards).items;
      forall i :: 0 <= i < |items| ==> BoardDecoder(now)(items[i]) == Some(boards[i])
  {
    forall i | 0 <= i < |boards| ensures BoardDecoder(now)(EncodeBoards(boards).items[i]) == Some(boards[i]) {
      DecodeEncodedAt(boards, i, now);
    }
  }

  lemma DecodeEncodedAt(boards: seq<Board>, i: nat, now: string)
    requires i < |boards| && forall b :: b in boards ==> WellFormed(b)
    ensures BoardDecoder(now)(EncodeBoards(boards).items[i]) == Some(boards[i])
  {
    assert boards[i] in boards;
    assert EncodeBoards(boards).items[i] == EncodeBoard(boards[i]);
    DecodeEncodeBoard(boards[i], now);
  }

  /** What the store persists, read back at start-up, is the list it persisted. */
  lemma ReadBoardsRoundTrip(boards: seq<Board>, now: string)
    requires ValidBoards(boards)
    ensures ReadBoards(Some(EncodeBoards(boards)), now) == boards
  {
    BoardsRoundTrip(boards, now);
  }

  // ---------------------------------------------------------------------
  // Properties of the store steps

  lemma AddBoardKeepsValid(boards: seq<Board>, draft: BoardDraft, id: string, now: string)
    requires ValidBoards(boards) && Trim(id) != ""
    ensures ValidBoards(AddBoardStep(boards, draft, id, now))
  {
    var r := AddBoardStep(boards, draft, id, now);
    if Trim(draft.name) != "" {
      forall b | b in r ensures WellFormed(b) {
        if b != r[|boards|] {
          var k :| 0 <= k < |r| && r[k] == b;
          assert r[k] == boards[k];
        }
      }
    }
  }

  /** A supplied name that trims to nothing leaves every board as it was, timestamps included. */
  lemma UpdateBoardBlankName(boards: seq<Board>, id: string, changes: BoardChanges, now: string)
    requires changes.name.Some? && Trim(changes.name.value) == ""
    ensures UpdateBoardStep(boards, id, changes, now) == boards
  {
    var r := UpdateBoardStep(boards, id, changes, now);
    forall i | 0 <= i < |boards| ensures r[i] == boards[i] {
      assert NewName(boards[i], changes) == "";
    }
  }

  /** Updating an id no board has leaves the list unchanged. */
  lemma UpdateBoardUnknownId(boards: seq<Board>, id: string, changes: BoardChanges, now: string)
    requires forall b :: b in boards ==> b.id != id
    ensures UpdateBoardStep(boards, id, changes, now) == boards
  {
    var r := UpdateBoardStep(boards, id, changes, now);
    forall i | 0 <= i < |boards| ensures r[i] == boards[i] {
      assert boards[i] in boards;
    }
  }

  lemma UpdateBoardKeepsValid(boards: seq<Board>, id: string, changes: BoardChanges, now: string)
    requires ValidBoards(boards)
    ensures ValidBoards(UpdateBoardStep(boards, id, changes, now))
  {
    var r := UpdateBoardStep(boards, id, changes, now);
    forall k | 0 <= k < |r| ensures WellFormed(r[k]) {
      assert boards[k] in boards;
      assert r[k] == UpdateOne(boards[k], id, changes, now);
      UpdateOneKeepsWellFormed(boards[k], id, changes, now);
    }
  }

  lemma UpdateOneKeepsWellFormed(board: Board, id: string, changes: BoardChanges, now: string)
    requires WellFormed(board)
    ensures WellFormed(UpdateOne(board, id, changes, now))
  {
    if changes.name.Some? {
      assert IsTrimmed(Trim(changes.name.value));
    }
  }

  /**
   * When `deleteBoard` does remove something and a board with another id
   * remains, the result is the old list with exactly the boards carrying
   * the id taken out, in order.
   */
  lemma DeleteBoardSelects(boards: seq<Board>, id: string, now: string) returns (idx: seq<nat>)
    requires |boards| > 1
    requires exists b :: b in boards && b.id == id
    requires exists b :: b in boards && b.id != id
    ensures var r := DeleteBoardStep(boards, id, now);
      && Increasing(idx, |boards|) && |idx| == |r|
      && (forall k :: 0 <= k < |idx| ==> boards[idx[k]] == r[k])
      && (forall i :: 0 <= i < |boards| ==> (i in idx <==> boards[i].id != id))
  {
    idx := FilterSelects(boards, IdIsNot(id));
    var b :| b in boards && b.id != id;
    assert b in WithoutId(boards, id);
  }

  /** When every board carries the id, deleting it leaves only the default board. */
  lemma DeleteBoardAllMatching(boards: seq<Board>, id: string, now: string)
    requires |boards| > 1 && forall b :: b in boards ==> b.id == id
    ensures DeleteBoardStep(boards, id, now) == [CreateDefaultBoard(now)]
  {
    assert boards[0] in boards;
  }

  lemma DeleteBoardKeepsValid(boards: seq<Board>, id: string, now: string)
    requires ValidBoards(boards)
    ensures ValidBoards(DeleteBoardStep(boards, id, now))
  {
  }

  /** The list after a run of `deleteBoard` calls, each given as its id and clock reading. */
  function Deleted(boards: seq<Board>, calls: seq<(string, string)>): (r: seq<Board>)
    ensures |boards| > 0 ==> |r| > 0
    decreases |calls|
  {
    if calls == [] then boards
    else Deleted(DeleteBoardStep(boards, calls[0].0, calls[0].1), calls[1..])
  }

  /** Starting from a valid list, any run of deletions keeps it valid, hence non-empty. */
  lemma {:induction false} DeleteSequenceKeepsValid(boards: seq<Board>, calls: seq<(string, string)>)
    requires ValidBoards(boards)
    ensures ValidBoards(Deleted(boards, calls))
    decreases |calls|
  {
    if calls != [] {
      DeleteBoardKeepsValid(boards, calls[0].0, calls[0].1);
      DeleteSequenceKeepsValid(DeleteBoardStep(boards, calls[0].0, calls[0].1), calls[1..]);
    }
  }

  // ---------------------------------------------------------------------
  // The store

  /** The store returned by `createBoardStore`; its snapshot is never empty. */
  class BoardStore {
    var boards: seq<Board>

    ghost predicate Valid()
      reads this
    {
      ValidBoards(boards)
    }

    constructor (stored: Option<Json>, now: string)
      ensures Valid() && boards == ReadBoards(stored, now)
    {
      boards := ReadBoards(stored, now);
      ReadBoardsValid(stored, now);
    }

    /** `id` stands for `createId()` and `now` for the clock. */
    method AddBoard(draft: BoardDraft, id: string, now: string)
      requires Valid()
      requires Trim(id) != "" && forall b :: b in boards ==> b.id != id
      modifies this
      ensures Valid() && boards == AddBoardStep(old(boards), draft, id, now)
    {
      AddBoardKeepsValid(boards, draft, id, now);
      boards := AddBoardStep(boards, draft, id, now);
    }

    method UpdateBoard(id: string, changes: BoardChanges, now: string)
      requires Valid()
      modifies this
      ensures Valid() && boards == UpdateBoardStep(old(boards), id, changes, now)
    {
      UpdateBoardKeepsValid(boards, id, changes, now);
      boards := UpdateBoardStep(boards, id, changes, now);
    }

    /** `now` is the clock reading used if the default board has to be recreated. */
    method DeleteBoard(id: string, now: string)
      requires Valid()
      modifies this
      ensures Valid() && boards == DeleteBoardStep(old(boards), id, now)
    {
      boards := DeleteBoardStep(boards, id, now);
    }

    /** The `storage` event handler: a write to this key in another tab replaces the snapshot. */
    method HandleStorage(key: string, stored: Option<Json>, now: string)
      requires Valid()
      modifies this
      ensures Valid()
      ensures key == StorageKey ==> boards == ReadBoards(stored, now)
      ensures key != StorageKey ==> boards == old(boards)
    {
      if key == StorageKey {
        boards := ReadBoards(stored, now);
        ReadBoardsValid(stored, now);
      }
    }
  }
}
