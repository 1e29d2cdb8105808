/** Stored history, replayed as the frames the live stream would have carried. */
module Replay {
  import opened Base
  import opened Reducer

  datatype Entry = NotAMessage | MessageEntry(message: Option<Message>)

  // ── What the transcript of a history is ───────────────────────────────────

  /** The message an entry shows: neither the system record nor a tool's result. */
  function ShownMessage(e: Entry): Option<Message> {
    if e.MessageEntry? && e.message.Some? && e.message.value.role != System && e.message.value.role != ToolResult
    then e.message
    else None
  }

  /** The tool result an entry holds. */
  function ResultMessage(e: Entry): Option<Message> {
    if e.MessageEntry? && e.message.Some? && e.message.value.role == ToolResult then e.message else None
  }

  /** The blocks a message may call tools from. */
  function CallingBlocks(m: Message): seq<Block> {
    if m.role == Assistant && m.content.Blocks? then m.content.blocks else []
  }

  predicate Calls(blocks: seq<Block>, id: string) {
    blocks != [] && ((blocks[0].ToolCall? && blocks[0].id == id) || Calls(blocks[1..], id))
  }

  /** The last result for `id` in a history, before a message calls `id` again. */
  function Answer(entries: seq<Entry>, id: string): Option<Outcome> {
    if entries == [] then None
    else
      var e, later := entries[0], Answer(entries[1..], id);
      if ShownMessage(e).Some? && Calls(CallingBlocks(ShownMessage(e).value), id) then None
      else if ResultMessage(e).Some? && ResultMessage(e).value.toolCallId == id && later.None?
      then var m := ResultMessage(e).value; Some(Outcome(m.content, m.details, m.isError))
      else later
  }

  /** One card for each call of a message, with its own last result. */
  function CardRows(blocks: seq<Block>, later: seq<Entry>): seq<Row> {
    if blocks == [] then []
    else match blocks[0]
      case ToolCall(id, name, args) =>
        [ToolRow(id, name, args, if Calls(blocks[1..], id) then None else Answer(later, id))]
        + CardRows(blocks[1..], later)
      case OtherBlock(_) => CardRows(blocks[1..], later)
  }

  /** The rows an entry adds, given the entries after it. */
  function EntryRows(e: Entry, later: seq<Entry>): seq<Row> {
    match ShownMessage(e)
    case None => []
    case Some(m) => [MessageRow(m)] + CardRows(CallingBlocks(m), later)
  }

  /** Each shown message once and in order, followed by its cards. */
  function Transcript(entries: seq<Entry>): seq<Row> {
    if entries == [] then [] else EntryRows(entries[0], entries[1..]) + Transcript(entries[1..])
  }

  // ── The frames ────────────────────────────────────────────────────────────

  function CallFrame(b: Block): seq<Frame> {
    match b
    case ToolCall(id, name, args) => [ToolStart(id, name, args)]
    case OtherBlock(_) => []
  }

  function CallFrames(blocks: seq<Block>): seq<Frame> {
    if blocks == [] then [] else CallFrame(blocks[0]) + CallFrames(blocks[1..])
  }

  function EntryFrames(e: Entry): seq<Frame> {
    if ResultMessage(e).Some?
    then var m := ResultMessage(e).value;
         [ToolEnd(m.toolCallId, Some(Payload(Some(m.content), m.details)), m.isError)]
    else if ShownMessage(e).Some?
    then var m := ShownMessage(e).value;
         [MessageEnd(Some(m))] + CallFrames(CallingBlocks(m))
    else []
  }

  function Frames(entries: seq<Entry>): seq<Frame> {
    if entries == [] then [] else EntryFrames(entries[0]) + Frames(entries[1..])
  }

  lemma {:induction false} CallFramesSnoc(blocks: seq<Block>, b: Block)
    ensures CallFrames(blocks + [b]) == CallFrames(blocks) + CallFrame(b)
  {
    if blocks == [] {
      assert blocks + [b] == [b] && [b][1..] == [];
      assert CallFrames([b]) == CallFrame(b) + CallFrames([]);
    } else {
      assert (blocks + [b])[1..] == blocks[1..] + [b];
      CallFramesSnoc(blocks[1..], b);
      Assoc(CallFrame(blocks[0]), CallFrames(blocks[1..]), CallFrame(b));
    }
  }

  lemma {:induction false} FramesSnoc(entries: seq<Entry>, e: Entry)
    ensures Frames(entries + [e]) == Frames(entries) + EntryFrames(e)
  {
    if entries == [] {
      assert entries + [e] == [e] && [e][1..] == [];
    } else {
      assert (entries + [e])[1..] == entries[1..] + [e];
      FramesSnoc(entries[1..], e);
      Assoc(EntryFrames(entries[0]), Frames(entries[1..]), EntryFrames(e));
    }
  }

  method StartFrames(blocks: seq<Block>) returns (out: seq<Frame>)
    ensures out == CallFrames(blocks)
  {
    out := [];
    for k := 0 to |blocks|
      invariant out == CallFrames(blocks[..k])
    {
      assert blocks[..k + 1] == blocks[..k] + [blocks[k]];
      CallFramesSnoc(blocks[..k], blocks[k]);
      if blocks[k].ToolCall? {
        out := out + [ToolStart(blocks[k].id, blocks[k].name, blocks[k].args)];
      }
    }
    assert blocks[..|blocks|] == blocks;
  }

  method MessageFrames(message: Message) returns (out: seq<Frame>)
    requires message.role != System && message.role != ToolResult
    ensures out == EntryFrames(MessageEntry(Some(message)))
  {
    out := [MessageEnd(Some(message))];
    if message.role != Assistant || !message.content.Blocks? {
      assert out + [] == out;
      return;
    }
    var starts := StartFrames(message.content.blocks);
    out := out + starts;
  }

  method EntriesToEnvelopes(entries: seq<Entry>) returns (out: seq<Frame>)
    ensures out == Frames(entries)
  {
    out := [];
    for n := 0 to |entries|
      invariant out == Frames(entries[..n])
    {
      var entry := entries[n];
      assert entries[..n + 1] == entries[..n] + [entry];
      FramesSnoc(entries[..n], entry);
      var frames := [];
      if entry.MessageEntry? && entry.message.Some? && entry.message.value.role != System {
        var message := entry.message.value;
        if message.role == ToolResult {
          frames := [ToolEnd(message.toolCallId, Some(Payload(Some(message.content), message.details)),
                             message.isError)];
        } else {
          frames := MessageFrames(message);
        }
      }
      assert frames == EntryFrames(entry);
      out := out + frames;
    }
    assert entries[..|entries|] == entries;
  }

  // ── Replay agrees with the history ────────────────────────────────────────

  lemma {:induction false} LastEndOfCalls(blocks: seq<Block>, rest: seq<Frame>, id: string)
    ensures LastEnd(CallFrames(blocks) + rest, id) == if Calls(blocks, id) then None else LastEnd(rest, id)
  {
    if blocks == [] {
      assert CallFrames(blocks) + rest == rest;
    } else {
      var tail := CallFrames(blocks[1..]) + rest;
      LastEndOfCalls(blocks[1..], rest, id);
      CallFramesCons(blocks, rest);
      if blocks[0].ToolCall? {
        StreamCons(CallFrame(blocks[0])[0], tail, id);
      }
    }
  }

  lemma CallFramesCons(blocks: seq<Block>, rest: seq<Frame>)
    requires blocks != []
    ensures var tail := CallFrames(blocks[1..]) + rest;
            CallFrames(blocks) + rest
            == if blocks[0].ToolCall? then [CallFrame(blocks[0])[0]] + tail else tail
  {
    Assoc(CallFrame(blocks[0]), CallFrames(blocks[1..]), rest);
    assert CallFrames(blocks) == CallFrame(blocks[0]) + CallFrames(blocks[1..]);
    assert blocks[0].ToolCall? ==> CallFrame(blocks[0]) == [CallFrame(blocks[0])[0]];
  }

  /** An entry's frames in front of the others. */
  lemma EntryFramesCons(e: Entry, rest: seq<Frame>)
    ensures var frames := EntryFrames(e) + rest;
            && (ResultMessage(e).Some? ==> frames == [EntryFrames(e)[0]] + rest)
            && (ShownMessage(e).Some? ==>
                  var m := ShownMessage(e).value;
                  frames == [MessageEnd(Some(m))] + (CallFrames(CallingBlocks(m)) + rest))
            && (ResultMessage(e).None? && ShownMessage(e).None? ==> frames == rest)
  {
    if ResultMessage(e).Some? {
      assert EntryFrames(e) == [EntryFrames(e)[0]];
    } else if ShownMessage(e).Some? {
      var m := ShownMessage(e).value;
      Assoc([MessageEnd(Some(m))], CallFrames(CallingBlocks(m)), rest);
    }
  }

  lemma LastEndOfEntry(e: Entry, rest: seq<Frame>, id: string)
    ensures LastEnd(EntryFrames(e) + rest, id)
         == if ShownMessage(e).Some? && Calls(CallingBlocks(ShownMessage(e).value), id) then None
            else if ResultMessage(e).Some? && ResultMessage(e).value.toolCallId == id && LastEnd(rest, id).None?
            then var m := ResultMessage(e).value; Some(Outcome(m.content, m.details, m.isError))
            else LastEnd(rest, id)
  {
    EntryFramesCons(e, rest);
    if ResultMessage(e).Some? {
      StreamCons(EntryFrames(e)[0], rest, id);
    } else if ShownMessage(e).Some? {
      var m := ShownMessage(e).value;
      StreamCons(MessageEnd(Some(m)), CallFrames(CallingBlocks(m)) + rest, id);
      LastEndOfCalls(CallingBlocks(m), rest, id);
    }
  }

  lemma {:induction false} LastEndIsAnswer(entries: seq<Entry>, id: string)
    ensures LastEnd(Frames(entries), id) == Answer(entries, id)
  {
    if entries != [] {
      LastEndIsAnswer(entries[1..], id);
      LastEndOfEntry(entries[0], Frames(entries[1..]), id);
    }
  }

  lemma {:induction false} RowsOfCalls(blocks: seq<Block>, later: seq<Entry>)
    ensures Rows(CallFrames(blocks) + Frames(later)) == CardRows(blocks, later) + Rows(Frames(later))
  {
    var rest := Frames(later);
    if blocks == [] {
      assert CallFrames(blocks) + rest == rest;
    } else {
      var tail := CallFrames(blocks[1..]) + rest;
      RowsOfCalls(blocks[1..], later);
      CallFramesCons(blocks, rest);
      if blocks[0].ToolCall? {
        var id := blocks[0].id;
        StreamCons(CallFrame(blocks[0])[0], tail, id);
        LastEndOfCalls(blocks[1..], rest, id);
        LastEndIsAnswer(later, id);
        Assoc(RowOf(CallFrame(blocks[0])[0], tail), CardRows(blocks[1..], later), Rows(rest));
      }
    }
  }

  lemma RowsOfEntry(e: Entry, later: seq<Entry>)
    ensures Rows(EntryFrames(e) + Frames(later)) == EntryRows(e, later) + Rows(Frames(later))
  {
    var rest := Frames(later);
    EntryFramesCons(e, rest);
    if ResultMessage(e).Some? {
      StreamCons(EntryFrames(e)[0], rest, "");
    } else if ShownMessage(e).Some? {
      RowsOfMessage(ShownMessage(e).value, later);
    }
  }

  lemma RowsOfMessage(m: Message, later: seq<Entry>)
    requires m.role != ToolResult
    ensures Rows([MessageEnd(Some(m))] + (CallFrames(CallingBlocks(m)) + Frames(later)))
         == [MessageRow(m)] + CardRows(CallingBlocks(m), later) + Rows(Frames(later))
  {
    var tail := CallFrames(CallingBlocks(m)) + Frames(later);
    StreamCons(MessageEnd(Some(m)), tail, "");
    RowsOfCalls(CallingBlocks(m), later);
    assert RowOf(MessageEnd(Some(m)), tail) == [MessageRow(m)];
    Assoc([MessageRow(m)], CardRows(CallingBlocks(m), later), Rows(Frames(later)));
  }

  /** Replaying a history through the reducer gives its transcript. */
  lemma {:induction false} ReplayIsTheTranscript(entries: seq<Entry>)
    ensures Rows(Frames(entries)) == Transcript(entries)
  {
    if entries != [] {
      ReplayIsTheTranscript(entries[1..]);
      RowsOfEntry(entries[0], entries[1..]);
    }
  }

  /** Every call named once and answered once, later on, is shown with that answer. */
  lemma {:induction false} LoneAnswerIsShown(later: seq<Entry>, id: string, k: nat)
    requires k < |later| && ResultMessage(later[k]).Some? && ResultMessage(later[k]).value.toolCallId == id
    requires forall j :: 0 <= j < |later| && j != k && ResultMessage(later[j]).Some?
               ==> ResultMessage(later[j]).value.toolCallId != id
    requires forall j :: 0 <= j < |later| && ShownMessage(later[j]).Some?
               ==> !Calls(CallingBlocks(ShownMessage(later[j]).value), id)
    ensures var m := ResultMessage(later[k]).value;
            Answer(later, id) == Some(Outcome(m.content, m.details, m.isError))
  {
    if k > 0 {
      LoneAnswerIsShown(later[1..], id, k - 1);
    } else {
      NoAnswer(later[1..], id);
    }
  }

  lemma {:induction false} NoAnswer(later: seq<Entry>, id: string)
    requires forall j :: 0 <= j < |later| && ResultMessage(later[j]).Some?
               ==> ResultMessage(later[j]).value.toolCallId != id
    ensures Answer(later, id) == None
  {
    if later != [] {
      NoAnswer(later[1..], id);
    }
  }
}
