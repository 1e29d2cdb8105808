/** What a transcript is made of: the messages, calls and notices of its stream, and each call's own result. */
module TranscriptParts {
  import opened Base
  import opened Reducer
  import opened Replay

  // ── The parts of a stream ─────────────────────────────────────────────────

  /** The messages completed in a stream, but for tools' results. */
  function MessagesIn(frames: seq<Frame>): seq<Message> {
    if frames == [] then []
    else
      (match frames[0]
       case MessageEnd(Some(m)) => if m.role == ToolResult then [] else [m]
       case _ => [])
      + MessagesIn(frames[1..])
  }

  datatype Call = Call(id: string, name: string, args: string)

  /** The tools started in a stream. */
  function CallsIn(frames: seq<Frame>): seq<Call> {
    if frames == [] then []
    else
      (match frames[0]
       case ToolStart(id, name, args) => [Call(id, name, args)]
       case _ => [])
      + CallsIn(frames[1..])
  }

  datatype Alert = Alert(isError: bool, text: string)

  /** The warnings and errors notified in a stream. */
  function AlertsIn(frames: seq<Frame>): seq<Alert> {
    if frames == [] then []
    else
      (match frames[0]
       case UiRequest(true, Warning, text) => [Alert(false, text)]
       case UiRequest(true, Error, text) => [Alert(true, text)]
       case _ => [])
      + AlertsIn(frames[1..])
  }

  // ── The parts of a transcript ─────────────────────────────────────────────

  function MessagesShown(rows: seq<Row>): seq<Message> {
    if rows == [] then [] else (if rows[0].MessageRow? then [rows[0].message] else []) + MessagesShown(rows[1..])
  }

  function CallsShown(rows: seq<Row>): seq<Call> {
    if rows == [] then []
    else (if rows[0].ToolRow? then [Call(rows[0].id, rows[0].name, rows[0].args)] else []) + CallsShown(rows[1..])
  }

  function AlertsShown(rows: seq<Row>): seq<Alert> {
    if rows == [] then []
    else (if rows[0].NoticeRow? then [Alert(rows[0].level == Error, rows[0].text)] else []) + AlertsShown(rows[1..])
  }

  /** The first row and the rest, for each part. */
  lemma MessagesShownCons(head: seq<Row>, rest: seq<Row>)
    requires |head| <= 1
    ensures MessagesShown(head + rest) == MessagesShown(head) + MessagesShown(rest)
  {
    if head == [] {
      assert head + rest == rest;
    } else {
      assert (head + rest)[1..] == rest && head[1..] == [];
    }
  }

  lemma CallsShownCons(head: seq<Row>, rest: seq<Row>)
    requires |head| <= 1
    ensures CallsShown(head + rest) == CallsShown(head) + CallsShown(rest)
  {
    if head == [] {
      assert head + rest == rest;
    } else {
      assert (head + rest)[1..] == rest && head[1..] == [];
    }
  }

  lemma AlertsShownCons(head: seq<Row>, rest: seq<Row>)
    requires |head| <= 1
    ensures AlertsShown(head + rest) == AlertsShown(head) + AlertsShown(rest)
  {
    if head == [] {
      assert head + rest == rest;
    } else {
      assert (head + rest)[1..] == rest && head[1..] == [];
    }
  }

  lemma FramesCons(frame: Frame, later: seq<Frame>)
    ensures MessagesShown(RowOf(frame, later)) == MessagesIn([frame])
    ensures CallsShown(RowOf(frame, later)) == CallsIn([frame])
    ensures AlertsShown(RowOf(frame, later)) == AlertsIn([frame])
    ensures |RowOf(frame, later)| == |MessagesIn([frame])| + |CallsIn([frame])| + |AlertsIn([frame])|
  {
    assert [frame][1..] == [];
    var rows := RowOf(frame, later);
    assert rows != [] ==> rows[1..] == [];
  }

  lemma PartsOfCons(frame: Frame, rest: seq<Frame>)
    ensures MessagesIn([frame] + rest) == MessagesIn([frame]) + MessagesIn(rest)
    ensures CallsIn([frame] + rest) == CallsIn([frame]) + CallsIn(rest)
    ensures AlertsIn([frame] + rest) == AlertsIn([frame]) + AlertsIn(rest)
  {
    MessagesConcat([frame], rest);
    CallsConcat([frame], rest);
    AlertsConcat([frame], rest);
  }

  /**
   The transcript shows exactly the messages, the calls and the warnings and errors of its stream, each of
   them once and in order, and nothing else.
   */
  lemma {:induction false} TranscriptIsItsParts(frames: seq<Frame>)
    ensures MessagesShown(Rows(frames)) == MessagesIn(frames)
    ensures CallsShown(Rows(frames)) == CallsIn(frames)
    ensures AlertsShown(Rows(frames)) == AlertsIn(frames)
    ensures |Rows(frames)| == |MessagesIn(frames)| + |CallsIn(frames)| + |AlertsIn(frames)|
  {
    if frames != [] {
      TranscriptIsItsParts(frames[1..]);
      FramesCons(frames[0], frames[1..]);
      PartsOfCons(frames[0], frames[1..]);
      MessagesShownCons(RowOf(frames[0], frames[1..]), Rows(frames[1..]));
      CallsShownCons(RowOf(frames[0], frames[1..]), Rows(frames[1..]));
      AlertsShownCons(RowOf(frames[0], frames[1..]), Rows(frames[1..]));
      assert [frames[0]] + frames[1..] == frames;
    }
  }

  // ── The result of a call ──────────────────────────────────────────────────

  /** The stream neither starts nor ends the call. */
  ghost predicate Silent(frames: seq<Frame>, id: string) {
    forall f :: f in frames ==> !(f.ToolStart? && f.id == id) && !(f.ToolEnd? && f.id == id)
  }

  lemma {:induction false} SilentTellsNothing(frames: seq<Frame>, rest: seq<Frame>, id: string)
    requires Silent(frames, id)
    ensures LastEnd(frames + rest, id) == LastEnd(rest, id)
  {
    if frames == [] {
      assert frames + rest == rest;
    } else {
      assert frames[0] in frames && (frames + rest)[1..] == frames[1..] + rest;
      SilentTellsNothing(frames[1..], rest, id);
    }
  }

  /**
   A call started and ended once stands where it was started, with the content, details and error flag of its
   end as they came, no content meaning an empty list; one not ended yet stands there without a result.
   */
  lemma OwnResultIsShown(a: seq<Frame>, id: string, name: string, args: string, b: seq<Frame>, end: Frame,
                         z: seq<Frame>)
    requires Silent(b, id) && Silent(z, id) && end.ToolEnd? && end.id == id
    ensures var rows := Rows(a + ([ToolStart(id, name, args)] + (b + ([end] + z))));
            |Rows(a)| < |rows| && IsCall(rows[|Rows(a)|], id, name, args) && ShowsEnd(rows[|Rows(a)|], end)
    ensures var rows := Rows(a + ([ToolStart(id, name, args)] + b));
            |Rows(a)| < |rows| && IsCall(rows[|Rows(a)|], id, name, args) && rows[|Rows(a)|].result == None
  {
    var start := ToolStart(id, name, args);
    SilentTellsNothing(z, [], id);
    assert z + [] == z;
    StreamCons(end, z, id);
    SilentTellsNothing(b, [end] + z, id);
    RowOfStart(a, start, b + ([end] + z));
    SilentTellsNothing(b, [], id);
    assert b + [] == b;
    RowOfStart(a, start, b);
  }

  lemma RowOfStart(a: seq<Frame>, start: Frame, tail: seq<Frame>)
    requires start.ToolStart?
    ensures var rows := Rows(a + ([start] + tail));
            |Rows(a)| < |rows| && rows[|Rows(a)|] == ToolRow(start.id, start.name, start.args, LastEnd(tail, start.id))
  {
    ReduceConcat(a, [start] + tail);
    StreamCons(start, tail, start.id);
    assert Rows(a + ([start] + tail))[|Rows(a)|..][0] == Rows([start] + tail)[0];
  }

  ghost predicate IsCall(row: Row, id: string, name: string, args: string) {
    row.ToolRow? && row.id == id && row.name == name && row.args == args
  }

  ghost predicate ShowsEnd(row: Row, end: Frame)
    requires row.ToolRow? && end.ToolEnd?
  {
    && row.result.Some?
    && row.result.value.isError == end.isError
    && row.result.value.details == (if end.result.Some? then end.result.value.details else None)
    && row.result.value.content
       == (if end.result.Some? && end.result.value.content.Some? then end.result.value.content.value else Blocks([]))
  }

  // ── A history as a stream ─────────────────────────────────────────────────

  datatype Result = Result(id: string, content: Content, details: Option<string>, isError: bool)

  /** The results reported in a stream, where the frame carries any. */
  function ResultsIn(frames: seq<Frame>): seq<Result> {
    if frames == [] then []
    else
      (match frames[0]
       case ToolEnd(id, Some(Payload(Some(content), details)), isError) => [Result(id, content, details, isError)]
       case _ => [])
      + ResultsIn(frames[1..])
  }

  /** What an entry says itself, unless it is the system record or a tool's result. */
  function Talk(e: Entry): seq<Message> {
    match e
    case MessageEntry(Some(m)) => if m.role == System || m.role == ToolResult then [] else [m]
    case _ => []
  }

  function TalkOf(entries: seq<Entry>): seq<Message> {
    if entries == [] then [] else Talk(entries[0]) + TalkOf(entries[1..])
  }

  function CallsOfBlocks(blocks: seq<Block>): seq<Call> {
    if blocks == [] then []
    else
      (match blocks[0]
       case ToolCall(id, name, args) => [Call(id, name, args)]
       case OtherBlock(_) => [])
      + CallsOfBlocks(blocks[1..])
  }

  /** The tools an entry calls, if the assistant says it. */
  function Called(e: Entry): seq<Call> {
    match e
    case MessageEntry(Some(m)) =>
      if m.role == Assistant && m.content.Blocks? then CallsOfBlocks(m.content.blocks) else []
    case _ => []
  }

  function CallsOf(entries: seq<Entry>): seq<Call> {
    if entries == [] then [] else Called(entries[0]) + CallsOf(entries[1..])
  }

  /** The tool result an entry is. */
  function Reported(e: Entry): seq<Result> {
    match e
    case MessageEntry(Some(m)) =>
      if m.role == ToolResult then [Result(m.toolCallId, m.content, m.details, m.isError)] else []
    case _ => []
  }

  function ResultsOf(entries: seq<Entry>): seq<Result> {
    if entries == [] then [] else Reported(entries[0]) + ResultsOf(entries[1..])
  }

  lemma {:induction false} MessagesConcat(a: seq<Frame>, b: seq<Frame>)
    ensures MessagesIn(a + b) == MessagesIn(a) + MessagesIn(b)
  {
    if a == [] {
      assert a + b == b;
    } else {
      assert (a + b)[1..] == a[1..] + b;
      MessagesConcat(a[1..], b);
      var first := [a[0]];
      assert first[1..] == [];
      Assoc(MessagesIn(first), MessagesIn(a[1..]), MessagesIn(b));
    }
  }

  lemma {:induction false} CallsConcat(a: seq<Frame>, b: seq<Frame>)
    ensures CallsIn(a + b) == CallsIn(a) + CallsIn(b)
  {
    if a == [] {
      assert a + b == b;
    } else {
      assert (a + b)[1..] == a[1..] + b;
      CallsConcat(a[1..], b);
      var first := [a[0]];
      assert first[1..] == [];
      Assoc(CallsIn(first), CallsIn(a[1..]), CallsIn(b));
    }
  }

  lemma {:induction false} ResultsConcat(a: seq<Frame>, b: seq<Frame>)
    ensures ResultsIn(a + b) == ResultsIn(a) + ResultsIn(b)
  {
    if a == [] {
      assert a + b == b;
    } else {
      assert (a + b)[1..] == a[1..] + b;
      ResultsConcat(a[1..], b);
      var first := [a[0]];
      assert first[1..] == [];
      Assoc(ResultsIn(first), ResultsIn(a[1..]), ResultsIn(b));
    }
  }

  lemma {:induction false} AlertsConcat(a: seq<Frame>, b: seq<Frame>)
    ensures AlertsIn(a + b) == AlertsIn(a) + AlertsIn(b)
  {
    if a == [] {
      assert a + b == b;
    } else {
      assert (a + b)[1..] == a[1..] + b;
      AlertsConcat(a[1..], b);
      var first := [a[0]];
      assert first[1..] == [];
      Assoc(AlertsIn(first), AlertsIn(a[1..]), AlertsIn(b));
    }
  }

  lemma StreamConcat(a: seq<Frame>, b: seq<Frame>)
    ensures MessagesIn(a + b) == MessagesIn(a) + MessagesIn(b)
    ensures CallsIn(a + b) == CallsIn(a) + CallsIn(b)
    ensures ResultsIn(a + b) == ResultsIn(a) + ResultsIn(b)
  {
    MessagesConcat(a, b);
    CallsConcat(a, b);
    ResultsConcat(a, b);
  }

  lemma {:induction false} CallFramesSay(blocks: seq<Block>)
    ensures MessagesIn(CallFrames(blocks)) == [] && ResultsIn(CallFrames(blocks)) == []
    ensures CallsIn(CallFrames(blocks)) == CallsOfBlocks(blocks)
  {
    if blocks != [] {
      CallFramesSay(blocks[1..]);
      StreamConcat(CallFrame(blocks[0]), CallFrames(blocks[1..]));
      assert CallFrame(blocks[0]) != [] ==> CallFrame(blocks[0])[1..] == [];
    }
  }

  lemma EntryFramesSay(e: Entry)
    ensures MessagesIn(EntryFrames(e)) == Talk(e)
    ensures CallsIn(EntryFrames(e)) == Called(e)
    ensures ResultsIn(EntryFrames(e)) == Reported(e)
  {
    if e.MessageEntry? && e.message.Some? {
      var m := e.message.value;
      if m.role == ToolResult {
        assert EntryFrames(e)[1..] == [];
      } else if m.role != System {
        CallFramesSay(CallingBlocks(m));
        StreamConcat([MessageEnd(Some(m))], CallFrames(CallingBlocks(m)));
        assert [MessageEnd(Some(m))][1..] == [];
      }
    }
  }

  /** Replay streams exactly a history's talk, its assistant's calls and its tools' results, each once and in order. */
  lemma {:induction false} ReplaySaysTheHistory(entries: seq<Entry>)
    ensures MessagesIn(Frames(entries)) == TalkOf(entries)
    ensures CallsIn(Frames(entries)) == CallsOf(entries)
    ensures ResultsIn(Frames(entries)) == ResultsOf(entries)
  {
    if entries != [] {
      ReplaySaysTheHistory(entries[1..]);
      EntryFramesSay(entries[0]);
      StreamConcat(EntryFrames(entries[0]), Frames(entries[1..]));
    }
  }
}
