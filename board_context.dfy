/**
  The board context (src/context/BoardContext.jsx): one state cell `allboard` and the
  operations that talk to the server. Each state change is a pure updater of the old tree
  (the functions below, which carry the properties); the class BoardProvider holds the cell
  and its methods apply the updaters, or compute a result without touching the cell.
 */
module BoardContext {
  import opened Wrappers
  import opened Js
  import opened Http
  import opened Boards

  const DefaultBoardColor := "#5d5b5f"
  const UnknownError := "Unknown error"
  const InvalidIdMessage := "Invalid list ID format"
  const InvalidIdPhrase := "Invalid list ID"
  const MismatchMessage := "Server returned mismatched list ID"
  const TitleFallbackPrefix := "HTTP error! status: "
  const CardsFallbackPrefix := "Failed to fetch cards. Status code: "

  /** A 2xx response whose body parsed as JSON. */
  predicate ParsedOk<T>(reply: Reply<T>)
  {
    reply.Response? && reply.ok && reply.body.Json?
  }

  /** A response whose JSON body says `status === 1`, whatever the HTTP status. */
  predicate StatusOne<T>(reply: Reply<T>)
  {
    reply.Response? && reply.body.Json? && reply.body.status == Num(1)
  }

  // ---------------------------------------------------------------- fetchBoards

  function BoardFromServer(b: ServerBoard): Board
  {
    Board(b.id, b.name, DefaultBoardColor, [], None)
  }

  /** The state after `fetchBoards` receives `reply`. */
  function FetchBoardsNext(prev: AllBoard, reply: Reply<ServerBoard>): (next: AllBoard)
    // a failed request, a non-2xx status or an unparsable body leave the state as it was
    ensures !ParsedOk(reply) ==> next == prev
    // a body without a `data` array empties the boards and keeps `active`
    ensures ParsedOk(reply) && !reply.body.data.Items? ==> next == prev.(boards := [])
    // a `data` array replaces the boards, in order, dropping every loaded list
    ensures ParsedOk(reply) && reply.body.data.Items? ==>
      var items := reply.body.data.items;
      && |next.boards| == |items|
      && (forall i :: 0 <= i < |items| ==>
            next.boards[i] == Board(items[i].id, items[i].name, DefaultBoardColor, [], None))
      && (Truthy(prev.active) ==> next.active == prev.active)
      && (!Truthy(prev.active) && |items| > 0 && Truthy(items[0].id) ==> next.active == items[0].id)
      && (!Truthy(prev.active) && (|items| == 0 || !Truthy(items[0].id)) ==> next.active == Null)
  {
    if !ParsedOk(reply) then prev
    else match reply.body.data
      case Items(items) =>
        var first := if |items| == 0 then Undefined else items[0].id;
        AllBoard(seq(|items|, i requires 0 <= i < |items| => BoardFromServer(items[i])),
                 Or(Or(prev.active, first), Null))
      case _ => prev.(boards := [])
  }

  /** A truthy `active` survives a refresh even when no returned board has that id. */
  lemma StaleActiveSurvivesFetch()
    ensures var prev := AllBoard([], Num(7));
            var reply := Response(true, 200, Json(Num(1), None, Items([ServerBoard(Num(1), Str("Todo"))])));
            var next := FetchBoardsNext(prev, reply);
            next.active == Num(7) && |next.boards| == 1 && !ActiveResolves(next)
  {
  }

  // ---------------------------------------------------------------- fetchListsForBoard

  /** The lists built from the lists reply's `data`: one empty-item list per entry, or none. */
  function ListsFromServer(p: Payload<ServerItem>): (ls: seq<BoardList>)
    ensures p.Items? ==> |ls| == |p.items|
    ensures p.Items? ==> forall i :: 0 <= i < |ls| ==>
      ls[i] == BoardList(p.items[i].id, p.items[i].title, p.items[i].position, [])
    ensures !p.Items? ==> ls == []
  {
    match p
    case Items(es) => seq(|es|, i requires 0 <= i < |es| => BoardList(es[i].id, es[i].title, es[i].position, []))
    case _ => []
  }

  /** Every board whose id is `boardId` gets `lists`; nothing else changes. */
  function ReplaceLists(s: AllBoard, boardId: Value, lists: seq<BoardList>): (r: AllBoard)
    ensures r.active == s.active && |r.boards| == |s.boards|
    ensures forall i :: 0 <= i < |s.boards| ==>
      r.boards[i] == if s.boards[i].id == boardId then s.boards[i].(lists := lists) else s.boards[i]
  {
    s.(boards := seq(|s.boards|, i requires 0 <= i < |s.boards| =>
                       if s.boards[i].id == boardId then s.boards[i].(lists := lists) else s.boards[i]))
  }

  /** The server answered with `status === 1`. */
  predicate ListsAccepted(reply: Reply<ServerItem>)
  {
    ParsedOk(reply) && reply.body.status == Num(1)
  }

  /** The server answered, parsably, with another status. */
  predicate ListsRefused(reply: Reply<ServerItem>)
  {
    ParsedOk(reply) && reply.body.status != Num(1)
  }

  /** An error other than an abort reached the `catch` block. */
  predicate ListsErrored(reply: Reply<ServerItem>)
  {
    !reply.Aborted? && !ParsedOk(reply)
  }

  /** The state after `fetchListsForBoard(boardId)` receives `reply`. */
  function ListsFetchNext(prev: AllBoard, boardId: Value, reply: Reply<ServerItem>): (next: AllBoard)
    // the board count, their order, `active` and every field but `lists` are kept
    ensures next.active == prev.active && |next.boards| == |prev.boards|
    ensures forall i :: 0 <= i < |prev.boards| ==> next.boards[i].(lists := prev.boards[i].lists) == prev.boards[i]
    // only the boards with that id change
    ensures forall i :: 0 <= i < |prev.boards| && prev.boards[i].id != boardId ==> next.boards[i] == prev.boards[i]
    ensures reply.Aborted? || ListsRefused(reply) ==> next == prev
    ensures ListsAccepted(reply) ==> forall i :: 0 <= i < |prev.boards| && prev.boards[i].id == boardId ==>
      next.boards[i].lists == ListsFromServer(reply.body.data)
    ensures ListsErrored(reply) ==> forall i :: 0 <= i < |prev.boards| && prev.boards[i].id == boardId ==>
      next.boards[i].lists == []
  {
    if reply.Aborted? then prev
    else if !ParsedOk(reply) then ReplaceLists(prev, boardId, [])
    else if reply.body.status == Num(1) then ReplaceLists(prev, boardId, ListsFromServer(reply.body.data))
    else prev
  }

  /** `{success: true}` or `{success: false, error}`. */
  datatype FetchResult = Fetched | FetchFailed(error: string)

  /** What `fetchListsForBoard` resolves to. */
  function ListsFetchResult(reply: Reply<ServerItem>): (r: FetchResult)
    ensures r.FetchFailed? <==> ListsRefused(reply)
    ensures ListsRefused(reply) ==> r.error == MessageOr(reply.body.message, UnknownError)
    ensures ListsRefused(reply) ==> r.error != ""
  {
    if ListsRefused(reply) then FetchFailed(MessageOr(reply.body.message, UnknownError)) else Fetched
  }

  /** A reported failure never changes the state. */
  lemma FailedListFetchChangesNothing(prev: AllBoard, boardId: Value, reply: Reply<ServerItem>)
    requires ListsFetchResult(reply).FetchFailed?
    ensures ListsFetchNext(prev, boardId, reply) == prev
  {
  }

  /** A board with no lists and a request that failed outright look the same afterwards. */
  lemma EmptyListsIndistinguishableFromError(prev: AllBoard, boardId: Value, message: string)
    ensures var empty := Response(true, 200, Json(Num(1), None, Items([])));
            var failed: Reply<ServerItem> := NetworkFailure(message);
            && ListsFetchNext(prev, boardId, empty) == ListsFetchNext(prev, boardId, failed)
            && ListsFetchResult(empty) == ListsFetchResult(failed) == Fetched
  {
  }

  // ---------------------------------------------------------------- setActiveBoard

  /** The state after `setActiveBoard(boardId)`. */
  function WithActiveBoard(prev: AllBoard, boardId: Value): (next: AllBoard)
    ensures next.active == boardId && |next.boards| == |prev.boards|
    // only the `isActive` flags change
    ensures forall i :: 0 <= i < |prev.boards| ==> next.boards[i].(isActive := prev.boards[i].isActive) == prev.boards[i]
    ensures forall i :: 0 <= i < |prev.boards| ==> (FlaggedActive(next.boards[i]) <==> prev.boards[i].id == boardId)
    ensures FlagsMatchPointer(next)
    ensures UniqueIds(prev.boards) ==> AtMostOneFlagged(next.boards)
  {
    AllBoard(seq(|prev.boards|, i requires 0 <= i < |prev.boards| =>
                   prev.boards[i].(isActive := Some(prev.boards[i].id == boardId))),
             boardId)
  }

  // ---------------------------------------------------------------- how the updaters combine

  /** Receiving the same boards reply twice leaves the state as receiving it once. */
  lemma FetchBoardsIdempotent(prev: AllBoard, reply: Reply<ServerBoard>)
    ensures FetchBoardsNext(FetchBoardsNext(prev, reply), reply) == FetchBoardsNext(prev, reply)
  {
  }

  /** Receiving the same lists reply twice leaves the state as receiving it once. */
  lemma ListsFetchIdempotent(prev: AllBoard, boardId: Value, reply: Reply<ServerItem>)
    ensures ListsFetchNext(ListsFetchNext(prev, boardId, reply), boardId, reply) == ListsFetchNext(prev, boardId, reply)
  {
  }

  /** Activating a board and loading a board's lists touch different fields, so their order does not matter. */
  lemma ActivationCommutesWithListsFetch(prev: AllBoard, active: Value, boardId: Value, reply: Reply<ServerItem>)
    ensures WithActiveBoard(ListsFetchNext(prev, boardId, reply), active)
         == ListsFetchNext(WithActiveBoard(prev, active), boardId, reply)
  {
  }

  // ---------------------------------------------------------------- createList, createCard

  /** The body of the create-list request. */
  datatype ListRequest = ListRequest(boardId: Value, title: string, position: nat)

  /** The body of the create-card request. */
  datatype CardRequest = CardRequest(listId: Value, title: string, position: Value)

  /** `{success: true, data}` or `{success: false, error}` where `error` may be undefined. */
  datatype Created<T> = Created(item: T) | CreateFailed(error: Option<string>)

  /** The position `createList` asks for: the list count of the first board with that id, or 0. */
  function NextListPosition(boards: seq<Board>, boardId: Value): (p: nat)
    ensures forall i :: (0 <= i < |boards| && boards[i].id == boardId &&
      (forall k :: 0 <= k < i ==> boards[k].id != boardId)) ==> p == |boards[i].lists|
    ensures (forall i :: 0 <= i < |boards| ==> boards[i].id != boardId) ==> p == 0
  {
    match FindBoard(boards, boardId)
    case None => 0
    case Some(i) => |boards[i].lists|
  }

  /** How `createList` and `createCard` read the reply: created entry, or the error's message. */
  function CreatedEntry(reply: Reply<ServerItem>): (r: Result<ServerItem, Option<string>>)
    // success needs `status === 1` and a readable `data`; the HTTP status is never consulted
    ensures r.Ok? <==> StatusOne(reply) && !(reply.body.data.Scalar? && Nullish(reply.body.data.v))
    ensures r.Ok? && reply.body.data.Entity? ==> r.value == reply.body.data.entity
    ensures r.Ok? && !reply.body.data.Entity? ==> r.value == ServerItem(Undefined, Undefined, Undefined)
    ensures ThrownMessage(reply).Some? ==> r == Err(ThrownMessage(reply))
    ensures reply.Response? && reply.body.Json? && reply.body.status != Num(1) ==> r == Err(reply.body.message)
    ensures StatusOne(reply) && reply.body.data.Scalar? && Nullish(reply.body.data.v) ==>
      r == Err(Some(CannotReadMessage(reply.body.data.v, "id")))
  {
    match reply
    case NetworkFailure(m) => Err(Some(m))
    case Aborted(m) => Err(Some(m))
    case Response(_, _, body) =>
      match body
      case NotJson(m) => Err(Some(m))
      case Json(status, message, data) =>
        if status != Num(1) then Err(message)
        else match ReadEntry(data)
          case Ok(e) => Ok(e)
          case Err(m) => Err(Some(m))
  }

  /** A create reply is read the same whatever its HTTP status. */
  lemma CreateIgnoresHttpStatus(b: Body<ServerItem>, s1: nat, s2: nat)
    ensures CreatedEntry(Response(false, s1, b)) == CreatedEntry(Response(true, s2, b))
  {
  }

  // ---------------------------------------------------------------- updateListTitle, fetchCardsForList

  /** The title-update request: `PUT /lists/{listId}?name=...`. */
  datatype TitleRequest = TitleRequest(listId: int, name: string)

  /** `{success: true, data}` or `{success: false, error, isInvalidId}`. */
  datatype TitleResult = TitleUpdated(data: ServerItem) | TitleFailed(error: string, isInvalidId: bool)

  /** `{success: true, data}` or `{success: false, error}`. */
  datatype CardsResult = CardsFetched(data: Payload<ServerItem>) | CardsFailed(error: string)

  /** How `updateListTitle` and `fetchCardsForList` read the reply: `response.ok && data.status === 1`
      gives `data.data`; otherwise the message thrown, `data.message` or a fallback with the status. */
  function ConfirmedData(reply: Reply<ServerItem>, fallbackPrefix: string): (r: Result<Payload<ServerItem>, string>)
    ensures r.Ok? <==> ParsedOk(reply) && reply.body.status == Num(1)
    ensures r.Ok? ==> r.value == reply.body.data
    ensures ThrownMessage(reply).Some? ==> r == Err(ThrownMessage(reply).value)
    ensures reply.Response? && reply.body.Json? && (!reply.ok || reply.body.status != Num(1)) ==>
      r == Err(MessageOr(reply.body.message, fallbackPrefix + Decimal(reply.httpStatus)))
  {
    match reply
    case NetworkFailure(m) => Err(m)
    case Aborted(m) => Err(m)
    case Response(ok, httpStatus, body) =>
      match body
      case NotJson(m) => Err(m)
      case Json(status, message, data) =>
        if !ok || status != Num(1) then Err(MessageOr(message, fallbackPrefix + Decimal(httpStatus)))
        else Ok(data)
  }

  /** A failed title update, flagged as an invalid id when its message mentions one. */
  function TitleFailure(message: string): TitleResult
  {
    TitleFailed(message, Includes(message, InvalidIdPhrase))
  }

  /** What `updateListTitle(listId, ...)` resolves to. */
  function TitleUpdate(listId: Value, reply: Reply<ServerItem>): (r: TitleResult)
    // a non-number id is rejected before any request, and flagged
    ensures !listId.Num? ==> r == TitleFailed(InvalidIdMessage, true)
    // success needs an ok response, `status === 1` and the requested id echoed back
    ensures r.TitleUpdated? <==> (listId.Num? && ParsedOk(reply) && reply.body.status == Num(1)
                                  && reply.body.data.Entity? && reply.body.data.entity.id == listId)
    ensures r.TitleUpdated? ==> r.data == reply.body.data.entity
    ensures r.TitleFailed? ==> r.isInvalidId == Includes(r.error, InvalidIdPhrase)
    ensures (listId.Num? && ParsedOk(reply) && reply.body.status == Num(1) && !r.TitleUpdated?
             && !(reply.body.data.Scalar? && Nullish(reply.body.data.v))) ==> r == TitleFailure(MismatchMessage)
    // a thrown request, a non-ok reply or `status !== 1` fails with that error's message
    ensures listId.Num? && ConfirmedData(reply, TitleFallbackPrefix).Err? ==>
      r == TitleFailure(ConfirmedData(reply, TitleFallbackPrefix).error)
    // a confirmed reply whose `data` is null or undefined fails reading its `id`
    ensures (listId.Num? && ParsedOk(reply) && reply.body.status == Num(1)
             && reply.body.data.Scalar? && Nullish(reply.body.data.v)) ==>
      r == TitleFailure(CannotReadMessage(reply.body.data.v, "id"))
  {
    if !listId.Num? then
      assert OccursAt(InvalidIdMessage, InvalidIdPhrase, 0);
      TitleFailed(InvalidIdMessage, true)
    else match ConfirmedData(reply, TitleFallbackPrefix)
      case Err(m) => TitleFailure(m)
      case Ok(data) =>
        match ReadEntry(data)
        case Err(m) => TitleFailure(m)
        case Ok(e) => if e.id != listId then TitleFailure(MismatchMessage) else TitleUpdated(e)
  }

  /** A numeric id is flagged invalid only when the error's message mentions an invalid id. */
  lemma ServerMessageCanFlagInvalidId(listId: int)
    ensures var reply := Response(false, 400, Json(Num(0), Some(InvalidIdPhrase), Scalar(Null)));
            TitleUpdate(Num(listId), reply) == TitleFailed(InvalidIdPhrase, true)
  {
    assert OccursAt(InvalidIdPhrase, InvalidIdPhrase, 0);
  }

  // ---------------------------------------------------------------- the provider

  /** The provider: the state cell `allboard` and the operations it offers. */
  class BoardProvider {
    var allboard: AllBoard

    /** The state restored from the saved copy, or the empty state. */
    constructor (saved: Option<AllBoard>)
      ensures saved.Some? ==> allboard == saved.value
      ensures saved.None? ==> allboard == EmptyState
    {
      allboard := if saved.Some? then saved.value else EmptyState;
    }

    method FetchBoards(reply: Reply<ServerBoard>)
      modifies this
      ensures allboard == FetchBoardsNext(old(allboard), reply)
    {
      if reply.Response? && reply.ok && reply.body.Json? {
        match reply.body.data
        case Items(items) =>
          var first := if |items| == 0 then Undefined else items[0].id;
          var boards := seq(|items|, i requires 0 <= i < |items| => BoardFromServer(items[i]));
          allboard := AllBoard(boards, Or(Or(allboard.active, first), Null));
        case _ =>
          allboard := allboard.(boards := []);
      }
    }

    method FetchListsForBoard(boardId: Value, reply: Reply<ServerItem>) returns (result: FetchResult)
      modifies this
      ensures allboard == ListsFetchNext(old(allboard), boardId, reply)
      ensures result == ListsFetchResult(reply)
    {
      match reply
      case Aborted(_) =>
        return Fetched;
      case NetworkFailure(_) =>
        allboard := ReplaceLists(allboard, boardId, []);
        return Fetched;
      case Response(ok, _, body) =>
        if !ok || body.NotJson? {
          allboard := ReplaceLists(allboard, boardId, []);
          return Fetched;
        }
        if body.status == Num(1) {
          allboard := ReplaceLists(allboard, boardId, ListsFromServer(body.data));
          return Fetched;
        }
        return FetchFailed(MessageOr(body.message, UnknownError));
    }

    method SetActiveBoard(boardId: Value)
      modifies this
      ensures allboard == WithActiveBoard(old(allboard), boardId)
    {
      var boards := allboard.boards;
      allboard := AllBoard(seq(|boards|, i requires 0 <= i < |boards| =>
                                 boards[i].(isActive := Some(boards[i].id == boardId))),
                           boardId);
    }

    /** Sends `{board_id, title, position}`; the state is not touched. */
    method CreateList(boardId: Value, title: string, reply: Reply<ServerItem>)
      returns (request: ListRequest, result: Created<BoardList>)
      ensures request.boardId == boardId && request.title == title
      ensures request.position == NextListPosition(allboard.boards, boardId)
      ensures result.Created? <==> CreatedEntry(reply).Ok?
      ensures result.Created? ==> var e := CreatedEntry(reply).value;
                                  result.item == BoardList(e.id, e.title, Undefined, [])
      ensures result.CreateFailed? ==> result.error == CreatedEntry(reply).error
    {
      var found := FindBoard(allboard.boards, boardId);
      var position := if found.Some? then |allboard.boards[found.value].lists| else 0;
      request := ListRequest(boardId, title, position);
      match CreatedEntry(reply)
      case Ok(e) => result := Created(BoardList(e.id, e.title, Undefined, []));
      case Err(m) => result := CreateFailed(m);
    }

    /** Sends `{list_id, title, position}` as given; the state is not touched. */
    method CreateCard(listId: Value, title: string, position: Value, reply: Reply<ServerItem>)
      returns (request: CardRequest, result: Created<Card>)
      ensures request == CardRequest(listId, title, position)
      ensures result.Created? <==> CreatedEntry(reply).Ok?
      ensures result.Created? ==> var e := CreatedEntry(reply).value;
                                  result.item == Card(e.id, e.title, e.position)
      ensures result.CreateFailed? ==> result.error == CreatedEntry(reply).error
    {
      request := CardRequest(listId, title, position);
      match CreatedEntry(reply)
      case Ok(e) => result := Created(Card(e.id, e.title, e.position));
      case Err(m) => result := CreateFailed(m);
    }

    /** Sends the rename only for a numeric id; the state is not touched. */
    method UpdateListTitle(listId: Value, newTitle: string, reply: Reply<ServerItem>)
      returns (request: Option<TitleRequest>, result: TitleResult)
      ensures request.None? <==> !listId.Num?
      ensures request.Some? ==> request.value == TitleRequest(listId.n, newTitle)
      ensures result == TitleUpdate(listId, reply)
    {
      if !listId.Num? {
        assert OccursAt(InvalidIdMessage, InvalidIdPhrase, 0);
        return None, TitleFailed(InvalidIdMessage, true);
      }
      request := Some(TitleRequest(listId.n, newTitle));
      var confirmed := ConfirmedData(reply, TitleFallbackPrefix);
      if confirmed.Err? {
        return request, TitleFailure(confirmed.error);
      }
      var entry := ReadEntry(confirmed.value);
      if entry.Err? {
        return request, TitleFailure(entry.error);
      }
      if entry.value.id != listId {
        return request, TitleFailure(MismatchMessage);
      }
      result := TitleUpdated(entry.value);
    }

    /** `GET /cards/{listId}`; the state is not touched. */
    method FetchCardsForList(listId: Value, reply: Reply<ServerItem>) returns (result: CardsResult)
      ensures result.CardsFetched? <==> ParsedOk(reply) && reply.body.status == Num(1)
      ensures result.CardsFetched? ==> result.data == reply.body.data
      ensures result.CardsFailed? ==> result.error == ConfirmedData(reply, CardsFallbackPrefix).error
    {
      match ConfirmedData(reply, CardsFallbackPrefix)
      case Ok(data) => result := CardsFetched(data);
      case Err(m) => result := CardsFailed(m);
    }
  }
}
