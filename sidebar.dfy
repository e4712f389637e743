/**
  The sidebar (src/components/Sidebar.jsx): a "Create Board" popover whose form is appended
  to the shared board list, and one button per board that points `active` at that board's
  INDEX. The context (BoardContext) uses board ids for `active`; the lemmas at the end show
  where the two conventions meet.
 */
module Sidebar {
  import opened Wrappers
  import opened Js
  import opened Http
  import opened Boards
  import opened BoardContext

  /** The popover form `boardData`: `{name, bgcolor}`. */
  datatype BoardForm = BoardForm(name: string, bgcolor: string)

  /** `blankBoard`: an empty name and red. */
  const BlankBoard := BoardForm("", "#f60000")

  /** The board `addBoard` pushes: the form's fields, no id, no lists. */
  function BoardFromForm(form: BoardForm): Board
  {
    Board(Undefined, Str(form.name), form.bgcolor, [], None)
  }

  /** The state after `addBoard` with `form`. */
  function WithBoardAdded(s: AllBoard, form: BoardForm): (r: AllBoard)
    ensures |r.boards| == |s.boards| + 1
    ensures r.boards[..|s.boards|] == s.boards
    // any name is taken as typed, the empty one included
    ensures r.boards[|s.boards|].name == Str(form.name) && r.boards[|s.boards|].bgcolor == form.bgcolor
    ensures r.boards[|s.boards|].lists == [] && r.boards[|s.boards|].id == Undefined
    ensures r.active == s.active
  {
    s.(boards := s.boards + [BoardFromForm(form)])
  }

  /** The state after the sidebar's `setActiveBoard(i)`. */
  function WithIndexActive(s: AllBoard, i: nat): (r: AllBoard)
    ensures r.boards == s.boards && r.active == Num(i)
  {
    s.(active := Num(i))
  }

  /** Index 0 is falsy: the next successful board refresh replaces it with the first board's id. */
  lemma IndexZeroLostOnRefresh(s: AllBoard, items: seq<ServerBoard>)
    requires |items| > 0 && Truthy(items[0].id)
    ensures var reply := Response(true, 200, Json(Num(1), None, Items(items)));
            FetchBoardsNext(WithIndexActive(s, 0), reply).active == items[0].id
  {
  }

  /** Any other index is kept by a refresh, in the field the context fills with board ids. */
  lemma IndexKeptAsIdOnRefresh(s: AllBoard, i: nat, items: seq<ServerBoard>)
    requires i > 0
    ensures var reply := Response(true, 200, Json(Num(1), None, Items(items)));
            FetchBoardsNext(WithIndexActive(s, i), reply).active == Num(i)
  {
  }

  /** Pointing `active` at an index leaves the context's `isActive` flags behind. */
  lemma IndexPointerStalesFlags()
    ensures var s := WithActiveBoard(AllBoard([Board(Num(10), Str("A"), "#fff", [], None)], Null), Num(10));
            FlagsMatchPointer(s) && !FlagsMatchPointer(WithIndexActive(s, 0))
  {
    var s := WithActiveBoard(AllBoard([Board(Num(10), Str("A"), "#fff", [], None)], Null), Num(10));
    assert s.boards[0].isActive == Some(true);
  }

  /** The sidebar: its form, the popover's visibility, and the shared context. */
  class SidebarPanel {
    const context: BoardProvider
    var boardData: BoardForm
    var showpop: bool

    constructor (context: BoardProvider)
      ensures this.context == context && boardData == BlankBoard && !showpop
    {
      this.context := context;
      boardData := BlankBoard;
      showpop := false;
    }

    /** Typing a board title. */
    method EditName(name: string)
      modifies this
      ensures boardData == old(boardData).(name := name) && showpop == old(showpop)
    {
      boardData := boardData.(name := name);
    }

    /** Picking a board colour. */
    method EditColor(bgcolor: string)
      modifies this
      ensures boardData == old(boardData).(bgcolor := bgcolor) && showpop == old(showpop)
    {
      boardData := boardData.(bgcolor := bgcolor);
    }

    /** The "+" and close buttons. */
    method TogglePopover()
      modifies this
      ensures showpop == !old(showpop) && boardData == old(boardData)
    {
      showpop := !showpop;
    }

    /** `addBoard`: push the form onto the shared boards, reset the form, toggle the popover. */
    method AddBoard()
      modifies this, context
      ensures context.allboard == WithBoardAdded(old(context.allboard), old(boardData))
      ensures boardData == BlankBoard && showpop == !old(showpop)
    {
      var boards := context.allboard.boards;
      context.allboard := context.allboard.(boards := boards + [BoardFromForm(boardData)]);
      boardData := BlankBoard;
      showpop := !showpop;
    }

    /** `setActiveBoard(i)` for the i-th button. */
    method SetActiveBoard(i: nat)
      modifies context
      ensures context.allboard == WithIndexActive(old(context.allboard), i)
    {
      context.allboard := context.allboard.(active := Num(i));
    }
  }
}
