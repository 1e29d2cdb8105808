/**
 The transcript reducer: frames in, rows out, where a tool row already shown is changed later when
 its result arrives; and the replay of stored history through the same reducer.
 */
module Reducer {
  import opened Base

  datatype Role = Assistant | ToolResult | System | OtherRole(name: string)

  datatype Block = ToolCall(id: string, name: string, args: string) | OtherBlock(text: string)

  /** A message body is normally a list of blocks, but may be a plain text. */
  datatype Content = Blocks(blocks: seq<Block>) | Plain(text: string)

  /** A message; the last four fields are those of a tool's result. */
  datatype Message = Message(role: Role, content: Content,
                             toolCallId: string, toolName: string, details: Option<string>, isError: bool)

  datatype Outcome = Outcome(content: Content, details: Option<string>, isError: bool)

  datatype Payload = Payload(content: Option<Content>, details: Option<string>)

  datatype Level = Warning | Error | OtherLevel(name: string)

  /** What an envelope carries; `Other` stands for envelopes without a frame and frames not listed. */
  datatype Frame =
    | MessageEnd(message: Option<Message>)
    | ToolStart(id: string, name: string, args: string)
    | ToolEnd(id: string, result: Option<Payload>, isError: bool)
    | UiRequest(notify: bool, level: Level, text: string)
    | Other

  /** A row of the transcript, by value. */
  datatype Row =
    | MessageRow(message: Message)
    | ToolRow(id: string, name: string, args: string, result: Option<Outcome>)
    | NoticeRow(level: Level, text: string)

  function OutcomeOf(result: Option<Payload>, isError: bool): Outcome {
    match result
    case None => Outcome(Blocks([]), None, isError)
    case Some(p) => Outcome(if p.content.Some? then p.content.value else Blocks([]), p.details, isError)
  }

  // ── What the transcript of a stream is ────────────────────────────────────

  /** What is known of the result of `id` from a frame, given what the later frames say. */
  function EndStep(frame: Frame, later: Option<Outcome>, id: string): Option<Outcome> {
    match frame
    case ToolStart(i, _, _) => if i == id then None else later
    case ToolEnd(i, result, isError) => if i == id && later.None? then Some(OutcomeOf(result, isError)) else later
    case _ => later
  }

  /** The last result reported for `id` before it is started again. */
  function LastEnd(frames: seq<Frame>, id: string): Option<Outcome> {
    if frames == [] then None else EndStep(frames[0], LastEnd(frames[1..], id), id)
  }

  /** The row a frame puts in the transcript, given the frames after it. */
  function RowOf(frame: Frame, later: seq<Frame>): (rows: seq<Row>)
    ensures |rows| <= 1
  {
    match frame
    case MessageEnd(message) =>
      if message.None? || message.value.role == ToolResult then [] else [MessageRow(message.value)]
    case ToolStart(id, name, args) => [ToolRow(id, name, args, LastEnd(later, id))]
    case ToolEnd(_, _, _) => []
    case UiRequest(notify, level, text) =>
      if notify && (level == Warning || level == Error) then [NoticeRow(level, text)] else []
    case Other => []
  }

  /** The transcript of a stream, each tool row with the result it will end up with. */
  function Rows(frames: seq<Frame>): seq<Row> {
    if frames == [] then [] else RowOf(frames[0], frames[1..]) + Rows(frames[1..])
  }

  /** Where the row of the last start of `id` stands. */
  function LastStart(frames: seq<Frame>, id: string): Option<nat> {
    if frames == [] then None
    else
      var later := LastStart(frames[1..], id);
      if later.Some? then Some(later.value + |RowOf(frames[0], frames[1..])|)
      else if frames[0].ToolStart? && frames[0].id == id then Some(0)
      else None
  }

  lemma {:induction false} LastStartIsItsRow(frames: seq<Frame>, id: string)
    ensures LastStart(frames, id).Some? ==>
              var k := LastStart(frames, id).value;
              k < |Rows(frames)| && Rows(frames)[k].ToolRow? && Rows(frames)[k].id == id
  {
    if frames != [] {
      LastStartIsItsRow(frames[1..], id);
    }
  }

  lemma StreamCons(frame: Frame, rest: seq<Frame>, id: string)
    ensures LastEnd([frame] + rest, id) == EndStep(frame, LastEnd(rest, id), id)
    ensures Rows([frame] + rest) == RowOf(frame, rest) + Rows(rest)
  {
    assert ([frame] + rest)[1..] == rest;
  }

  // ── Two streams in a row ──────────────────────────────────────────────────

  lemma {:induction false} LastEndConcat(h: seq<Frame>, l: seq<Frame>, id: string)
    ensures LastEnd(h + l, id) == if LastStart(h, id).None? && LastEnd(l, id).Some? then LastEnd(l, id)
                                  else LastEnd(h, id)
  {
    if h == [] {
      assert h + l == l;
    } else {
      assert (h + l)[1..] == h[1..] + l;
      LastEndConcat(h[1..], l, id);
    }
  }

  /** A row of the earlier stream, once the later one has been seen too. */
  function Updated(row: Row, isLast: bool, l: seq<Frame>): Row {
    if row.ToolRow? && isLast && LastEnd(l, row.id).Some?
    then row.(result := LastEnd(l, row.id))
    else row
  }

  ghost predicate IsLastStart(h: seq<Frame>, k: nat)
    requires k < |Rows(h)|
  {
    Rows(h)[k].ToolRow? && LastStart(h, Rows(h)[k].id) == Some(k)
  }

  /**
   Reducing two streams in a row gives the rows of the first, changed only in the results of the
   tool rows the second ends before restarting, and then exactly the rows of the second.
   */
  lemma {:induction false} ReduceConcat(h: seq<Frame>, l: seq<Frame>)
    ensures |Rows(h + l)| == |Rows(h)| + |Rows(l)|
    ensures Rows(h + l)[|Rows(h)|..] == Rows(l)
    ensures forall k :: 0 <= k < |Rows(h)| ==> Rows(h + l)[k] == Updated(Rows(h)[k], IsLastStart(h, k), l)
  {
    if h == [] {
      assert h + l == l;
    } else {
      var t := h[1..];
      assert (h + l)[0] == h[0] && (h + l)[1..] == t + l;
      ReduceConcat(t, l);
      var head, headNow := RowOf(h[0], t), RowOf(h[0], t + l);
      assert |head| == |headNow|;
      assert Rows(h) == head + Rows(t) && Rows(h + l) == headNow + Rows(t + l);
      forall k | 0 <= k < |Rows(h)|
        ensures Rows(h + l)[k] == Updated(Rows(h)[k], IsLastStart(h, k), l)
      {
        if k < |head| {
          if h[0].ToolStart? {
            LastEndConcat(t, l, h[0].id);
            LastStartIsItsRow(t, h[0].id);
          }
        } else {
          assert Rows(h)[k] == Rows(t)[k - |head|] && Rows(h + l)[k] == Rows(t + l)[k - |head|];
          assert IsLastStart(h, k) == IsLastStart(t, k - |head|);
        }
      }
    }
  }

  // ── The reducer ───────────────────────────────────────────────────────────

  /** A tool card; its result is filled in after the card has been put in the transcript. */
  class Card {
    const toolCallId: string
    const toolName: string
    const args: string
    var result: Option<Outcome>

    constructor (id: string, name: string, args: string)
      ensures toolCallId == id && toolName == name && this.args == args && result == None
    {
      toolCallId, toolName, this.args, result := id, name, args, None;
    }
  }

  datatype Item = MessageItem(message: Message) | CardItem(card: Card) | NoticeItem(level: Level, text: string)

  function ViewItem(item: Item): Row
    reads if item.CardItem? then {item.card} else {}
  {
    match item
    case MessageItem(m) => MessageRow(m)
    case CardItem(c) => ToolRow(c.toolCallId, c.toolName, c.args, c.result)
    case NoticeItem(level, text) => NoticeRow(level, text)
  }

  ghost function Cards(items: seq<Item>): set<Card> {
    set item | item in items && item.CardItem? :: item.card
  }

  lemma CardsSnoc(items: seq<Item>, item: Item)
    ensures Cards(items + [item]) == Cards(items) + if item.CardItem? then {item.card} else {}
  {
    assert forall x :: x in items + [item] <==> x in items || x == item;
  }

  /** The items as they now read. */
  ghost predicate Reads(items: seq<Item>, rows: seq<Row>)
    reads Cards(items)
  {
    && |items| == |rows|
    && forall k :: 0 <= k < |items| ==> ViewItem(items[k]) == rows[k]
  }

  /** No card stands twice in the transcript. */
  ghost predicate OwnCards(items: seq<Item>) {
    forall j, k :: 0 <= j < k < |items| && items[j].CardItem? && items[k].CardItem? ==> items[j].card != items[k].card
  }

  /** The table holds, for each id started so far, the card of its last start. */
  ghost predicate Tracks(toolsById: map<string, Card>, items: seq<Item>, done: seq<Frame>) {
    forall id ::
      && (id in toolsById <==> LastStart(done, id).Some?)
      && (LastStart(done, id).Some? ==>
            var k := LastStart(done, id).value;
            k < |items| && items[k] == CardItem(toolsById[id]))
  }

  lemma {:induction false} LastStartSnoc(done: seq<Frame>, frame: Frame, id: string)
    ensures LastStart(done + [frame], id)
         == if frame.ToolStart? && frame.id == id then Some(|Rows(done)|) else LastStart(done, id)
  {
    if done == [] {
      assert done + [frame] == [frame] && [frame][1..] == [];
    } else {
      assert (done + [frame])[1..] == done[1..] + [frame];
      LastStartSnoc(done[1..], frame, id);
      LastStartIsItsRow(done[1..], id);
    }
  }

  /** One more frame: a new row, or a result in the row of the last start of its id. */
  function NextRows(done: seq<Frame>, frame: Frame): seq<Row> {
    if !frame.ToolEnd? then Rows(done) + RowOf(frame, [])
    else
      var at := LastStart(done, frame.id);
      if at.None? then Rows(done)
      else
        (LastStartIsItsRow(done, frame.id);
         Rows(done)[at.value := Rows(done)[at.value].(result := Some(OutcomeOf(frame.result, frame.isError)))])
  }

  /** A new row goes at the end, and the rows before it stay. */
  lemma RowsThenRow(done: seq<Frame>, frame: Frame)
    requires !frame.ToolEnd?
    ensures Rows(done + [frame]) == Rows(done) + RowOf(frame, [])
  {
    ReduceConcat(done, [frame]);
    OneFrame(frame);
    var rows, next := Rows(done), Rows(done + [frame]);
    forall k | 0 <= k < |rows| ensures next[k] == rows[k] {
      assert next[k] == Updated(rows[k], IsLastStart(done, k), [frame]);
    }
    PrefixAndRest(rows, next);
  }

  lemma PrefixAndRest<T>(a: seq<T>, b: seq<T>)
    requires |a| <= |b| && forall k :: 0 <= k < |a| ==> b[k] == a[k]
    ensures b == a + b[|a|..]
  {
  }

  /** An end changes the row of the last start of its id, if there is one, and no other. */
  lemma EndChangesOneRow(done: seq<Frame>, frame: Frame, k: nat)
    requires frame.ToolEnd? && k < |Rows(done)|
    ensures |Rows(done + [frame])| == |Rows(done)| && |NextRows(done, frame)| == |Rows(done)|
    ensures Rows(done + [frame])[k] == NextRows(done, frame)[k]
  {
    ReduceConcat(done, [frame]);
    OneFrame(frame);
    LastStartIsItsRow(done, frame.id);
    assert Rows(done + [frame])[k] == Updated(Rows(done)[k], IsLastStart(done, k), [frame]);
  }

  lemma RowsSnoc(done: seq<Frame>, frame: Frame)
    ensures Rows(done + [frame]) == NextRows(done, frame)
  {
    if frame.ToolEnd? {
      ReduceConcat(done, [frame]);
      OneFrame(frame);
      LastStartIsItsRow(done, frame.id);
      forall k | 0 <= k < |Rows(done)| ensures Rows(done + [frame])[k] == NextRows(done, frame)[k] {
        EndChangesOneRow(done, frame, k);
      }
    } else {
      RowsThenRow(done, frame);
    }
  }

  lemma OneFrame(frame: Frame)
    ensures Rows([frame]) == RowOf(frame, [])
    ensures forall id :: LastEnd([frame], id) == OneEnd(frame, id)
  {
    assert [frame][1..] == [];
  }

  function OneEnd(frame: Frame, id: string): Option<Outcome> {
    if frame.ToolEnd? && frame.id == id then Some(OutcomeOf(frame.result, frame.isError)) else None
  }

  lemma TracksOn(toolsById: map<string, Card>, items: seq<Item>, more: seq<Item>, done: seq<Frame>, frame: Frame)
    requires Tracks(toolsById, items, done) && !frame.ToolStart?
    ensures Tracks(toolsById, items + more, done + [frame])
  {
    forall id ensures LastStart(done + [frame], id) == LastStart(done, id) {
      LastStartSnoc(done, frame, id);
    }
  }

  lemma TracksStart(toolsById: map<string, Card>, items: seq<Item>, card: Card, done: seq<Frame>, frame: Frame)
    requires Tracks(toolsById, items, done) && frame.ToolStart? && |items| == |Rows(done)|
    ensures Tracks(toolsById[frame.id := card], items + [CardItem(card)], done + [frame])
  {
    forall id
      ensures LastStart(done + [frame], id) == if frame.id == id then Some(|items|) else LastStart(done, id)
    {
      LastStartSnoc(done, frame, id);
    }
  }

  lemma ReadsPush(items: seq<Item>, item: Item, rows: seq<Row>)
    requires Reads(items, rows)
    ensures Reads(items + [item], rows + [ViewItem(item)])
  {
  }

  method Push(items: seq<Item>, item: Item, toolsById: map<string, Card>, ghost done: seq<Frame>, ghost frame: Frame)
    returns (out: seq<Item>)
    requires Reads(items, Rows(done)) && OwnCards(items) && Tracks(toolsById, items, done)
    requires !item.CardItem? && RowOf(frame, []) == [ViewItem(item)]
    ensures Cards(out) == Cards(items) && OwnCards(out)
    ensures Reads(out, Rows(done + [frame])) && Tracks(toolsById, out, done + [frame])
  {
    CardsSnoc(items, item);
    RowsSnoc(done, frame);
    ReadsPush(items, item, Rows(done));
    TracksOn(toolsById, items, [item], done, frame);
    out := items + [item];
  }

  method Start(items: seq<Item>, toolsById: map<string, Card>, id: string, name: string, args: string,
               ghost done: seq<Frame>)
    returns (out: seq<Item>, byId: map<string, Card>)
    requires Reads(items, Rows(done)) && OwnCards(items) && Tracks(toolsById, items, done)
    ensures fresh(Cards(out) - Cards(items)) && OwnCards(out)
    ensures var frame := ToolStart(id, name, args);
            Reads(out, Rows(done + [frame])) && Tracks(byId, out, done + [frame])
  {
    var card := new Card(id, name, args);
    CardsSnoc(items, CardItem(card));
    RowsSnoc(done, ToolStart(id, name, args));
    ReadsPush(items, CardItem(card), Rows(done));
    TracksStart(toolsById, items, card, done, ToolStart(id, name, args));
    byId := toolsById[id := card];
    out := items + [CardItem(card)];
  }

  method End(items: seq<Item>, toolsById: map<string, Card>, id: string, result: Option<Payload>, isError: bool,
             ghost done: seq<Frame>)
    requires Reads(items, Rows(done)) && OwnCards(items) && Tracks(toolsById, items, done)
    modifies Cards(items)
    ensures var frame := ToolEnd(id, result, isError);
            Reads(items, Rows(done + [frame])) && Tracks(toolsById, items, done + [frame])
  {
    RowsSnoc(done, ToolEnd(id, result, isError));
    TracksOn(toolsById, items, [], done, ToolEnd(id, result, isError));
    assert items + [] == items;
    if id in toolsById {
      LastStartIsItsRow(done, id);
      var card := toolsById[id];
      ghost var at := LastStart(done, id).value;
      assert items[at] == CardItem(card) && items[at] in items;
      card.result := Some(OutcomeOf(result, isError));
    }
  }

  method Reduce(frames: seq<Frame>) returns (items: seq<Item>)
    ensures fresh(Cards(items)) && OwnCards(items)
    ensures Reads(items, Rows(frames))
  {
    items := [];
    var toolsById: map<string, Card> := map[];
    for n := 0 to |frames|
      invariant fresh(Cards(items)) && OwnCards(items)
      invariant Reads(items, Rows(frames[..n]))
      invariant Tracks(toolsById, items, frames[..n])
    {
      ghost var done := frames[..n];
      var frame := frames[n];
      assert frames[..n + 1] == done + [frame];
      match frame {
        case MessageEnd(message) =>
          if message.Some? && message.value.role != ToolResult {
            items := Push(items, MessageItem(message.value), toolsById, done, frame);
          } else {
            Skip(items, toolsById, done, frame);
          }
        case ToolStart(id, name, args) =>
          items, toolsById := Start(items, toolsById, id, name, args, done);
        case ToolEnd(id, result, isError) =>
          End(items, toolsById, id, result, isError, done);
        case UiRequest(notify, level, text) =>
          if notify && (level == Warning || level == Error) {
            items := Push(items, NoticeItem(level, text), toolsById, done, frame);
          } else {
            Skip(items, toolsById, done, frame);
          }
        case Other =>
          Skip(items, toolsById, done, frame);
      }
    }
    assert frames[..|frames|] == frames;
  }

  lemma Skip(items: seq<Item>, toolsById: map<string, Card>, done: seq<Frame>, frame: Frame)
    requires Tracks(toolsById, items, done) && !frame.ToolStart? && !frame.ToolEnd? && RowOf(frame, []) == []
    ensures Rows(done + [frame]) == Rows(done) && Tracks(toolsById, items, done + [frame])
  {
    RowsSnoc(done, frame);
    TracksOn(toolsById, items, [], done, frame);
    assert items + [] == items;
  }
}
