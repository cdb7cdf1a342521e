/** The read loop of the proxy: chunks of text in, the content of the message out. */
module ProxyStream {
  import opened Common
  import opened ProxyLines
  import opened ProxyContent

  /** JSON.parse of one data line; None where it throws. */
  type Decode = string -> Option<ProxyEvent>

  function HandleOne(c: Option<Content>, data: string, decode: Decode, parse: Parse): Option<Content> {
    if c.None? || decode(data).None? then None else ApplyEvent(c.value, decode(data).value, parse)
  }

  /** The content after all data lines, or None when one of them is rejected. */
  function HandleAll(data: seq<string>, decode: Decode, parse: Parse): Option<Content> {
    if data == [] then Some(map[])
    else HandleOne(HandleAll(data[..|data| - 1], decode, parse), data[|data| - 1], decode, parse)
  }

  lemma HandleMore(data: seq<string>, more: string, decode: Decode, parse: Parse)
    ensures HandleAll(data + [more], decode, parse) == HandleOne(HandleAll(data, decode, parse), more, decode, parse)
  {
    assert (data + [more])[..|data|] == data;
  }

  lemma {:induction false} RejectionIsFinal(data: seq<string>, more: seq<string>, decode: Decode, parse: Parse)
    requires HandleAll(data, decode, parse).None?
    ensures HandleAll(data + more, decode, parse).None?
  {
    if more == [] {
      assert data + more == data;
    } else {
      var n := |more| - 1;
      RejectionIsFinal(data, more[..n], decode, parse);
      HandleMore(data + more[..n], more[n], decode, parse);
      assert data + more == data + more[..n] + [more[n]];
    }
  }

  /** Handles data lines until one is rejected. */
  method HandleLines(message: PartialMessage, data: seq<string>, decode: Decode, ghost before: seq<string>)
    returns (ok: bool)
    requires HandleAll(before, decode, message.parse) == Some(message.content)
    modifies message
    ensures ok <==> HandleAll(before + data, decode, message.parse).Some?
    ensures ok ==> HandleAll(before + data, decode, message.parse) == Some(message.content)
  {
    hide ApplyEvent, HandleAll;
    assert before + data[..0] == before;
    for i := 0 to |data|
      invariant HandleAll(before + data[..i], decode, message.parse) == Some(message.content)
    {
      HandleMore(before + data[..i], data[i], decode, message.parse);
      assert before + data[..i + 1] == before + data[..i] + [data[i]];
      assert before + data == before + data[..i + 1] + data[i + 1..];
      var event := decode(data[i]);
      if event.None? {
        RejectionIsFinal(before + data[..i + 1], data[i + 1..], decode, message.parse);
        return false;
      }
      var accepted := message.ProcessProxyEvent(event.value);
      if !accepted {
        RejectionIsFinal(before + data[..i + 1], data[i + 1..], decode, message.parse);
        return false;
      }
    }
    assert data[..|data|] == data;
    return true;
  }

  /** The whole stream. The result depends on the text alone, not on how it was cut into chunks. */
  method ReadMessage(chunks: seq<string>, decode: Decode, parse: Parse) returns (ok: bool, message: PartialMessage)
    ensures fresh(message) && message.parse == parse
    ensures ok <==> HandleAll(DataOfText(Flatten(chunks)), decode, parse).Some?
    ensures ok ==> HandleAll(DataOfText(Flatten(chunks)), decode, parse) == Some(message.content)
  {
    hide DataOfText, HandleAll, Split, Remainder, Lines;
    message := new PartialMessage(parse);
    var reader := new LineReader();
    NothingYet(decode, parse);
    assert Flatten(chunks[..0]) == "";
    for i := 0 to |chunks|
      invariant fresh(reader) && fresh(message) && message.parse == parse
      invariant reader.Valid() && reader.received == Flatten(chunks[..i])
      invariant HandleAll(reader.handed, decode, parse) == Some(message.content)
    {
      ghost var before := reader.handed;
      var data := reader.Receive(chunks[i]);
      assert chunks[..i + 1] == chunks[..i] + [chunks[i]];
      FlattenAppend(chunks[..i], [chunks[i]]);
      assert Flatten([chunks[i]]) == chunks[i];
      ok := HandleLines(message, data, decode, before);
      if !ok {
        RestIsRejected(chunks, i + 1, decode, parse);
        return;
      }
    }
    assert chunks[..|chunks|] == chunks;
    ok := true;
  }

  lemma NothingYet(decode: Decode, parse: Parse)
    ensures HandleAll(DataOfText(""), decode, parse) == Some(map[])
  {
    SplitStep("");
  }

  lemma RestIsRejected(chunks: seq<string>, n: nat, decode: Decode, parse: Parse)
    requires n <= |chunks| && HandleAll(DataOfText(Flatten(chunks[..n])), decode, parse).None?
    ensures HandleAll(DataOfText(Flatten(chunks)), decode, parse).None?
  {
    hide DataOfText, HandleAll, DataLines, Lines, Split, Remainder;
    assert chunks == chunks[..n] + chunks[n..];
    FlattenAppend(chunks[..n], chunks[n..]);
    var text := Flatten(chunks[..n]);
    MoreText(text, Flatten(chunks[n..]));
    RejectionIsFinal(DataOfText(text), DataLines(Lines(Remainder(text) + Flatten(chunks[n..]))), decode, parse);
  }

  /** Data lines that decode to the given events. */
  predicate Spells(data: seq<string>, es: seq<ProxyEvent>, decode: Decode) {
    |data| == |es| && forall i :: 0 <= i < |es| ==> decode(data[i]) == Some(es[i])
  }

  lemma {:induction false} HandleAllIsApplyAll(data: seq<string>, es: seq<ProxyEvent>, decode: Decode, parse: Parse)
    requires Spells(data, es, decode)
    ensures HandleAll(data, decode, parse) == ApplyAll(map[], es, parse)
  {
    if data != [] {
      HandleAllIsApplyAll(data[..|data| - 1], es[..|es| - 1], decode, parse);
    }
  }

  /** A message written as data lines is rebuilt, however its blocks are cut up and its indices interleave. */
  lemma WrittenMessageIsRebuilt(data: seq<string>, es: seq<ProxyEvent>, content: Content, cuts: map<Index, seq<string>>,
                                decode: Decode, parse: Parse)
    requires Spells(data, es, decode) && Describes(es, content, cuts) && forall d <- data :: Writable(d)
    ensures HandleAll(DataOfText(EncodeLines(data)), decode, parse) == Some(content)
  {
    hide DataOfText, EncodeLines, HandleAll, ApplyAll, Describes;
    WrittenLinesAreRead(data);
    HandleAllIsApplyAll(data, es, decode, parse);
    ContentIsRebuilt(es, content, cuts, parse);
  }

  /** Every line must decode: one that does not fails the whole message. */
  lemma {:induction false} EachLineDecodes(data: seq<string>, decode: Decode, parse: Parse)
    requires HandleAll(data, decode, parse).Some?
    ensures forall d <- data :: decode(d).Some?
  {
    if data != [] {
      var n := |data| - 1;
      EachLineDecodes(data[..n], decode, parse);
      assert forall d <- data :: d in data[..n] || d == data[n];
    }
  }
}
