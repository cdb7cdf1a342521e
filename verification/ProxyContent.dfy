/** Rebuilding the content of an assistant message from its proxy events. */
module ProxyContent {
  import opened Common

  type Index = nat
  type Arguments = string

  datatype ToolCall = ToolCall(id: string, name: string, arguments: Arguments)

  /** partialJson is present while a tool call is being streamed. */
  datatype Block =
    | TextBlock(text: string, textSignature: Option<string>)
    | ThinkingBlock(thinking: string, thinkingSignature: Option<string>)
    | ToolCallBlock(call: ToolCall, partialJson: Option<string>)

  datatype BlockEvent =
    | TextStart
    | TextDelta(delta: string)
    | TextEnd(signature: Option<string>)
    | ThinkingStart
    | ThinkingDelta(delta: string)
    | ThinkingEnd(signature: Option<string>)
    | ToolCallStart(id: string, name: string)
    | ToolCallDelta(delta: string)
    | ToolCallEnd(call: ToolCall)

  datatype ProxyEvent = Start | At(index: Index, event: BlockEvent) | Done(reason: string) | Failed(reason: string)

  type Content = map<Index, Block>
  type Parse = string -> Arguments

  /** What an event makes of the block at its index; None when the event does not fit the block. */
  function ApplyToBlock(b: Option<Block>, e: BlockEvent, parse: Parse): Option<Option<Block>> {
    match e
    case TextStart => Some(Some(TextBlock("", None)))
    case ThinkingStart => Some(Some(ThinkingBlock("", None)))
    case ToolCallStart(id, name) => Some(Some(ToolCallBlock(ToolCall(id, name, "{}"), Some(""))))
    case TextDelta(delta) =>
      if b.Some? && b.value.TextBlock? then Some(Some(b.value.(text := b.value.text + delta))) else None
    case TextEnd(signature) =>
      if b.Some? && b.value.TextBlock? then Some(Some(b.value.(textSignature := signature))) else None
    case ThinkingDelta(delta) =>
      if b.Some? && b.value.ThinkingBlock? then Some(Some(b.value.(thinking := b.value.thinking + delta))) else None
    case ThinkingEnd(signature) =>
      if b.Some? && b.value.ThinkingBlock? then Some(Some(b.value.(thinkingSignature := signature))) else None
    case ToolCallDelta(delta) =>
      if b.Some? && b.value.ToolCallBlock? then
        var json := (if b.value.partialJson.Some? then b.value.partialJson.value else "undefined") + delta;
        Some(Some(ToolCallBlock(b.value.call.(arguments := parse(json)), Some(json))))
      else None
    case ToolCallEnd(call) =>
      if b.Some? && b.value.ToolCallBlock? then Some(Some(ToolCallBlock(call, None))) else Some(b)
  }

  function BlockAt(c: Content, i: Index): Option<Block> {
    if i in c then Some(c[i]) else None
  }

  function PutBlock(c: Content, i: Index, b: Option<Block>): Content {
    if b.Some? then c[i := b.value] else c
  }

  /** One event; None when it is rejected. */
  function ApplyEvent(c: Content, e: ProxyEvent, parse: Parse): Option<Content> {
    if !e.At? then Some(c)
    else
      match ApplyToBlock(BlockAt(c, e.index), e.event, parse)
      case None => None
      case Some(b) => Some(PutBlock(c, e.index, b))
  }

  function ApplyAll(c: Content, es: seq<ProxyEvent>, parse: Parse): Option<Content> {
    if es == [] then Some(c)
    else
      match ApplyAll(c, es[..|es| - 1], parse)
      case None => None
      case Some(d) => ApplyEvent(d, es[|es| - 1], parse)
  }

  function ApplyAllToBlock(b: Option<Block>, es: seq<BlockEvent>, parse: Parse): Option<Option<Block>> {
    if es == [] then Some(b)
    else
      match ApplyAllToBlock(b, es[..|es| - 1], parse)
      case None => None
      case Some(d) => ApplyToBlock(d, es[|es| - 1], parse)
  }

  /** The events of one index. */
  function EventsAt(es: seq<ProxyEvent>, i: Index): seq<BlockEvent> {
    if es == [] then []
    else
      var last := es[|es| - 1];
      EventsAt(es[..|es| - 1], i) + if last.At? && last.index == i then [last.event] else []
  }

  /** Blocks are built independently: the content at an index depends only on the events of that index. */
  lemma {:induction false} BlocksAreIndependent(c: Content, es: seq<ProxyEvent>, parse: Parse)
    ensures match ApplyAll(c, es, parse)
            case Some(d) => forall i: Index ::
              ApplyAllToBlock(BlockAt(c, i), EventsAt(es, i), parse) == Some(BlockAt(d, i))
            case None => exists i: Index :: ApplyAllToBlock(BlockAt(c, i), EventsAt(es, i), parse).None?
  {
    if es != [] {
      var init := es[..|es| - 1];
      var e := es[|es| - 1];
      hide ApplyToBlock, ApplyAllToBlock, EventsAt, ApplyEvent;
      BlocksAreIndependent(c, init, parse);
      match ApplyAll(c, init, parse)
      case None =>
        var i: Index :| ApplyAllToBlock(BlockAt(c, i), EventsAt(init, i), parse).None?;
        StepOfBlock(c, es, i, parse);
      case Some(d) =>
        if ApplyEvent(d, e, parse).None? {
          EventOfBlock(d, e, if e.At? then e.index else 0, parse);
          StepOfBlock(c, es, e.index, parse);
        } else {
          var d' := ApplyEvent(d, e, parse).value;
          forall i: Index ensures ApplyAllToBlock(BlockAt(c, i), EventsAt(es, i), parse) == Some(BlockAt(d', i)) {
            StepOfBlock(c, es, i, parse);
            EventOfBlock(d, e, i, parse);
            assert ApplyAllToBlock(BlockAt(c, i), EventsAt(init, i), parse) == Some(BlockAt(d, i));
          }
        }
    }
  }

  lemma EventOfBlock(d: Content, e: ProxyEvent, i: Index, parse: Parse)
    ensures ApplyEvent(d, e, parse).None? ==> e.At? && ApplyToBlock(BlockAt(d, e.index), e.event, parse).None?
    ensures ApplyEvent(d, e, parse).Some? ==>
              Some(BlockAt(ApplyEvent(d, e, parse).value, i)) ==
              if e.At? && e.index == i then ApplyToBlock(BlockAt(d, i), e.event, parse) else Some(BlockAt(d, i))
  {
  }

  /** The last event of a sequence is a step of its own block and of no other. */
  ghost predicate StepAt(c: Content, es: seq<ProxyEvent>, i: Index, parse: Parse)
    requires es != []
  {
    var (init, e) := (es[..|es| - 1], es[|es| - 1]);
    var before := ApplyAllToBlock(BlockAt(c, i), EventsAt(init, i), parse);
    ApplyAllToBlock(BlockAt(c, i), EventsAt(es, i), parse) ==
      if before.None? then None
      else if e.At? && e.index == i then ApplyToBlock(before.value, e.event, parse)
      else before
  }

  lemma StepOfBlock(c: Content, es: seq<ProxyEvent>, i: Index, parse: Parse)
    requires es != []
    ensures StepAt(c, es, i, parse)
  {
    var (init, e) := (es[..|es| - 1], es[|es| - 1]);
    if e.At? && e.index == i {
      assert EventsAt(es, i)[..|EventsAt(es, i)| - 1] == EventsAt(init, i);
    } else {
      assert EventsAt(es, i) == EventsAt(init, i);
    }
  }

  /** Every cutting of a block into the events a server sends for it. */
  function BlockEvents(b: Block, deltas: seq<string>): seq<BlockEvent> {
    match b
    case TextBlock(_, signature) => [TextStart] + TextDeltas(deltas) + [TextEnd(signature)]
    case ThinkingBlock(_, signature) => [ThinkingStart] + ThinkingDeltas(deltas) + [ThinkingEnd(signature)]
    case ToolCallBlock(call, _) => [ToolCallStart(call.id, call.name)] + ToolCallDeltas(deltas) + [ToolCallEnd(call)]
  }

  function TextDeltas(deltas: seq<string>): seq<BlockEvent> {
    seq(|deltas|, i requires 0 <= i < |deltas| => TextDelta(deltas[i]))
  }

  function ThinkingDeltas(deltas: seq<string>): seq<BlockEvent> {
    seq(|deltas|, i requires 0 <= i < |deltas| => ThinkingDelta(deltas[i]))
  }

  function ToolCallDeltas(deltas: seq<string>): seq<BlockEvent> {
    seq(|deltas|, i requires 0 <= i < |deltas| => ToolCallDelta(deltas[i]))
  }

  /** The deltas make up the block; a finished tool call is sent whole at its end. */
  predicate CutsUp(b: Block, deltas: seq<string>) {
    match b
    case TextBlock(text, _) => Flatten(deltas) == text
    case ThinkingBlock(thinking, _) => Flatten(deltas) == thinking
    case ToolCallBlock(_, partialJson) => partialJson.None?
  }

  lemma AppendBlockEvent(b: Option<Block>, es: seq<BlockEvent>, e: BlockEvent, parse: Parse)
    ensures ApplyAllToBlock(b, es + [e], parse) ==
            match ApplyAllToBlock(b, es, parse) case None => None case Some(d) => ApplyToBlock(d, e, parse)
  {
    assert (es + [e])[..|es|] == es;
  }

  lemma {:induction false} DeltasAddUp(deltas: seq<string>, parse: Parse)
    ensures ApplyAllToBlock(None, [TextStart] + TextDeltas(deltas), parse)
            == Some(Some(TextBlock(Flatten(deltas), None)))
    ensures ApplyAllToBlock(None, [ThinkingStart] + ThinkingDeltas(deltas), parse)
            == Some(Some(ThinkingBlock(Flatten(deltas), None)))
  {
    var none: seq<BlockEvent> := [];
    if deltas == [] {
      AppendBlockEvent(None, none, TextStart, parse);
      AppendBlockEvent(None, none, ThinkingStart, parse);
      assert none + [TextStart] == [TextStart] + TextDeltas(deltas);
      assert none + [ThinkingStart] == [ThinkingStart] + ThinkingDeltas(deltas);
    } else {
      var n := |deltas| - 1;
      DeltasAddUp(deltas[..n], parse);
      AppendBlockEvent(None, [TextStart] + TextDeltas(deltas[..n]), TextDelta(deltas[n]), parse);
      AppendBlockEvent(None, [ThinkingStart] + ThinkingDeltas(deltas[..n]), ThinkingDelta(deltas[n]), parse);
      assert [TextStart] + TextDeltas(deltas) == [TextStart] + TextDeltas(deltas[..n]) + [TextDelta(deltas[n])];
      assert [ThinkingStart] + ThinkingDeltas(deltas)
        == [ThinkingStart] + ThinkingDeltas(deltas[..n]) + [ThinkingDelta(deltas[n])];
      assert deltas == deltas[..n] + [deltas[n]];
      FlattenAppend(deltas[..n], [deltas[n]]);
      assert Flatten([deltas[n]]) == deltas[n];
    }
  }

  lemma {:induction false} ToolCallStaysOpen(call: ToolCall, deltas: seq<string>, parse: Parse)
    ensures var b := ApplyAllToBlock(None, [ToolCallStart(call.id, call.name)] + ToolCallDeltas(deltas), parse);
            b.Some? && b.value.Some? && b.value.value.ToolCallBlock?
                && b.value.value.partialJson == Some(Flatten(deltas))
            && b.value.value.call.id == call.id && b.value.value.call.name == call.name
  {
    var start := ToolCallStart(call.id, call.name);
    var none: seq<BlockEvent> := [];
    if deltas == [] {
      AppendBlockEvent(None, none, start, parse);
      assert none + [start] == [start] + ToolCallDeltas(deltas);
    } else {
      var n := |deltas| - 1;
      ToolCallStaysOpen(call, deltas[..n], parse);
      AppendBlockEvent(None, [start] + ToolCallDeltas(deltas[..n]), ToolCallDelta(deltas[n]), parse);
      assert [start] + ToolCallDeltas(deltas) == [start] + ToolCallDeltas(deltas[..n]) + [ToolCallDelta(deltas[n])];
      assert deltas == deltas[..n] + [deltas[n]];
      FlattenAppend(deltas[..n], [deltas[n]]);
      assert Flatten([deltas[n]]) == deltas[n];
    }
  }

  lemma BlockIsRebuilt(b: Block, deltas: seq<string>, parse: Parse)
    requires CutsUp(b, deltas)
    ensures ApplyAllToBlock(None, BlockEvents(b, deltas), parse) == Some(Some(b))
  {
    match b
    case TextBlock(_, signature) =>
      DeltasAddUp(deltas, parse);
      AppendBlockEvent(None, [TextStart] + TextDeltas(deltas), TextEnd(signature), parse);
    case ThinkingBlock(_, signature) =>
      DeltasAddUp(deltas, parse);
      AppendBlockEvent(None, [ThinkingStart] + ThinkingDeltas(deltas), ThinkingEnd(signature), parse);
    case ToolCallBlock(call, _) =>
      ToolCallStaysOpen(call, deltas, parse);
      AppendBlockEvent(None, [ToolCallStart(call.id, call.name)] + ToolCallDeltas(deltas), ToolCallEnd(call), parse);
  }

  /** At every index the events are those of the block there, cut up somehow; the indices may interleave. */
  ghost predicate Describes(es: seq<ProxyEvent>, content: Content, cuts: map<Index, seq<string>>) {
    forall i: Index ::
      if i in content then i in cuts && CutsUp(content[i], cuts[i])
          && EventsAt(es, i) == BlockEvents(content[i], cuts[i])
      else EventsAt(es, i) == []
  }

  /** Whatever the cutting and the interleaving, the events rebuild the content. */
  lemma ContentIsRebuilt(es: seq<ProxyEvent>, content: Content, cuts: map<Index, seq<string>>, parse: Parse)
    requires Describes(es, content, cuts)
    ensures ApplyAll(map[], es, parse) == Some(content)
  {
    hide ApplyAllToBlock, ApplyAll, BlockEvents, EventsAt;
    BlocksAreIndependent(map[], es, parse);
    forall i: Index ensures ApplyAllToBlock(BlockAt(map[], i), EventsAt(es, i), parse) == Some(BlockAt(content, i)) {
      if i in content {
        BlockIsRebuilt(content[i], cuts[i], parse);
      } else {
        NoEvents(parse);
      }
    }
    var d := ApplyAll(map[], es, parse).value;
    forall i: Index ensures BlockAt(d, i) == BlockAt(content, i) {
      assert ApplyAllToBlock(BlockAt(map[], i), EventsAt(es, i), parse) == Some(BlockAt(d, i));
    }
    SameBlocks(d, content);
  }

  lemma NoEvents(parse: Parse)
    ensures ApplyAllToBlock(None, [], parse) == Some(None)
  {
  }

  lemma SameBlocks(c: Content, d: Content)
    requires forall i: Index :: BlockAt(c, i) == BlockAt(d, i)
    ensures c == d
  {
    forall i: Index ensures (i in c <==> i in d) && (i in c ==> c[i] == d[i]) {
      assert BlockAt(c, i) == BlockAt(d, i);
    }
  }

  /** The message under construction. */
  /** An event is rejected exactly if it continues or ends a block of another kind, or one that has not started. */
  lemma RejectsExactly(b: Option<Block>, e: BlockEvent, parse: Parse)
    ensures ApplyToBlock(b, e, parse).None? <==>
              || ((e.TextDelta? || e.TextEnd?) && !(b.Some? && b.value.TextBlock?))
              || ((e.ThinkingDelta? || e.ThinkingEnd?) && !(b.Some? && b.value.ThinkingBlock?))
              || (e.ToolCallDelta? && !(b.Some? && b.value.ToolCallBlock?))
    ensures e.ToolCallEnd? && !(b.Some? && b.value.ToolCallBlock?) ==> ApplyToBlock(b, e, parse) == Some(b)
  {
  }

  class PartialMessage {
    var content: Content
    var stopReason: string
    const parse: Parse

    constructor (parse: Parse)
      ensures content == map[] && this.parse == parse && stopReason == "pending"
    {
      content, stopReason, this.parse := map[], "pending", parse;
    }

    /** False stands for the error thrown when an event does not fit the block at its index. */
    method ProcessProxyEvent(e: ProxyEvent) returns (accepted: bool)
      modifies this
      ensures accepted <==> ApplyEvent(old(content), e, parse).Some?
      ensures content == if accepted then ApplyEvent(old(content), e, parse).value else old(content)
      ensures stopReason == if e.Done? || e.Failed? then e.reason else old(stopReason)
    {
      match e {
        case Start => return true;
        case Done(reason) =>
          stopReason := reason;
          return true;
        case Failed(reason) =>
          stopReason := reason;
          return true;
        case At(i, event) =>
          match event {
            case TextStart => content := content[i := TextBlock("", None)];
            case ThinkingStart => content := content[i := ThinkingBlock("", None)];
            case ToolCallStart(id, name) => content := content[i := ToolCallBlock(ToolCall(id, name, "{}"), Some(""))];
            case TextDelta(delta) =>
              if i !in content || !content[i].TextBlock? {
                return false;
              }
              content := content[i := content[i].(text := content[i].text + delta)];
            case TextEnd(signature) =>
              if i !in content || !content[i].TextBlock? {
                return false;
              }
              content := content[i := content[i].(textSignature := signature)];
            case ThinkingDelta(delta) =>
              if i !in content || !content[i].ThinkingBlock? {
                return false;
              }
              content := content[i := content[i].(thinking := content[i].thinking + delta)];
            case ThinkingEnd(signature) =>
              if i !in content || !content[i].ThinkingBlock? {
                return false;
              }
              content := content[i := content[i].(thinkingSignature := signature)];
            case ToolCallDelta(delta) =>
              if i !in content || !content[i].ToolCallBlock? {
                return false;
              }
              var before := content[i].partialJson;
              var json := (if before.Some? then before.value else "undefined") + delta;
              content := content[i := ToolCallBlock(content[i].call.(arguments := parse(json)), Some(json))];
            case ToolCallEnd(call) =>
              if i in content && content[i].ToolCallBlock? {
                content := content[i := ToolCallBlock(call, None)];
              }
          }
          return true;
      }
    }
  }
}
