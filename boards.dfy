/**
  The board tree that the board context keeps as its single state value `allboard`
  and that the sidebar appends to: `{boards, active}`, each board with its lists,
  each list with its items.
 */
module Boards {
  import opened Wrappers
  import opened Js

  /** A card entry of a list's `items` (nothing in the core fills it yet). */
  datatype Card = Card(id: Value, title: Value, position: Value)

  /** `{id, title, position, items}` */
  datatype BoardList = BoardList(id: Value, title: Value, position: Value, items: seq<Card>)

  /** `{id, name, bgcolor, lists, isActive}`; `isActive` is absent (None) until a board is
      activated through the context, and `id` is `undefined` for a board created in the sidebar. */
  datatype Board = Board(id: Value, name: Value, bgcolor: string, lists: seq<BoardList>, isActive: Option<bool>)

  /** `allboard`: the boards and the `active` pointer, a board id (context) or an index (sidebar). */
  datatype AllBoard = AllBoard(boards: seq<Board>, active: Value)

  /** The state used when nothing was saved: `{boards: [], active: null}`. */
  const EmptyState := AllBoard([], Null)

  predicate UniqueIds(bs: seq<Board>)
  {
    forall i, j :: 0 <= i < j < |bs| ==> bs[i].id != bs[j].id
  }

  predicate FlaggedActive(b: Board)
  {
    b.isActive == Some(true)
  }

  predicate AtMostOneFlagged(bs: seq<Board>)
  {
    forall i, j :: 0 <= i < |bs| && 0 <= j < |bs| && FlaggedActive(bs[i]) && FlaggedActive(bs[j]) ==> i == j
  }

  /** Every board's `isActive` flag agrees with the `active` pointer. */
  predicate FlagsMatchPointer(s: AllBoard)
  {
    forall i :: 0 <= i < |s.boards| ==> s.boards[i].isActive == Some(s.boards[i].id == s.active)
  }

  /** The `active` pointer is `null` or the id of a board in the collection. */
  predicate ActiveResolves(s: AllBoard)
  {
    s.active == Null || exists i :: 0 <= i < |s.boards| && s.boards[i].id == s.active
  }

  /** The index that `boards.find(b => b.id === id)` stops at: the first board with that id. */
  function FindBoard(bs: seq<Board>, id: Value): (r: Option<nat>)
    ensures r.None? <==> forall k :: 0 <= k < |bs| ==> bs[k].id != id
    ensures r.Some? ==> r.value < |bs| && bs[r.value].id == id
    ensures r.Some? ==> forall k :: 0 <= k < r.value ==> bs[k].id != id
  {
    if |bs| == 0 then None
    else if bs[0].id == id then Some(0)
    else match FindBoard(bs[1..], id)
      case None => None
      case Some(k) => Some(k + 1)
  }
}
