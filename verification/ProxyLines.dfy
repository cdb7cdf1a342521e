/**
 * The data lines of a response body that arrives as text chunks: those of the event stream format in
 * section 9.2.6 of the WHATWG HTML Standard that begin with "data: " and end with a line feed.
 */
module ProxyLines {
  import opened Common

  /** Where the first line feed is, or the length of the text. */
  function LineEnd(text: string): (n: nat)
    ensures n <= |text| && (n < |text| ==> text[n] == '\n') && forall i :: 0 <= i < n ==> text[i] != '\n'
  {
    if text == "" || text[0] == '\n' then 0 else 1 + LineEnd(text[1..])
  }

  /** The pieces between line feeds; the last one is not a complete line. */
  function Split(text: string): (pieces: seq<string>)
    ensures pieces != []
    decreases |text|
  {
    var n := LineEnd(text);
    if n == |text| then [text] else [text[..n]] + Split(text[n + 1..])
  }

  /** The complete lines of a text, and what follows the last of them. */
  function Lines(text: string): seq<string> {
    Split(text)[..|Split(text)| - 1]
  }

  function Remainder(text: string): string {
    Split(text)[|Split(text)| - 1]
  }

  /** Splitting and joining are inverse: nothing of the text is lost. */
  function Join(pieces: seq<string>): string
    requires pieces != []
  {
    if |pieces| == 1 then pieces[0] else pieces[0] + "\n" + Join(pieces[1..])
  }

  lemma {:induction false} JoinSplit(text: string)
    ensures Join(Split(text)) == text && forall p <- Split(text) :: '\n' !in p
    decreases |text|
  {
    var n := LineEnd(text);
    if n < |text| {
      JoinSplit(text[n + 1..]);
      assert Split(text)[1..] == Split(text[n + 1..]);
      assert text[..n] + "\n" + text[n + 1..] == text;
    }
  }

  /** One complete line comes off the front of a text that has one. */
  lemma SplitStep(text: string)
    ensures var n := LineEnd(text);
            if n == |text| then Split(text) == [text] && Lines(text) == [] && Remainder(text) == text
            else
              var rest := text[n + 1..];
              && Split(text) == [text[..n]] + Split(rest)
              && Lines(text) == [text[..n]] + Lines(rest) && Remainder(text) == Remainder(rest)
  {
    var n := LineEnd(text);
    if n < |text| {
      var tail := Split(text[n + 1..]);
      assert ([text[..n]] + tail)[..|tail|] == [text[..n]] + tail[..|tail| - 1];
    }
  }

  /** More text leaves the complete lines alone and continues the remainder. */
  lemma {:induction false} SplitMore(text: string, more: string)
    ensures Split(text + more) == Lines(text) + Split(Remainder(text) + more)
    decreases |text|
  {
    hide Split, Lines, Remainder, LineEnd;
    var n := LineEnd(text);
    SplitStep(text);
    if n < |text| {
      var rest := text[n + 1..];
      SplitMore(rest, more);
      LineEndMore(text, more);
      SplitStep(text + more);
      assert (text + more)[..n] == text[..n] && (text + more)[n + 1..] == rest + more;
      assert [text[..n]] + (Lines(rest) + Split(Remainder(rest) + more))
        == [text[..n]] + Lines(rest) + Split(Remainder(rest) + more);
    } else {
      assert [] + Split(text + more) == Split(text + more);
    }
  }

  lemma {:induction false} LineEndMore(text: string, more: string)
    requires LineEnd(text) < |text|
    ensures LineEnd(text + more) == LineEnd(text)
  {
    if text[0] != '\n' {
      assert (text + more)[1..] == text[1..] + more;
      LineEndMore(text[1..], more);
    }
  }

  /** White space as trim() understands it. */
  predicate IsSpace(c: char) {
    || '\U{9}' <= c <= '\U{D}' || c == ' ' || c == '\U{A0}' || c == '\U{1680}' || '\U{2000}' <= c <= '\U{200A}'
    || c == '\U{2028}' || c == '\U{2029}' || c == '\U{202F}' || c == '\U{205F}' || c == '\U{3000}' || c == '\U{FEFF}'
  }

  function TrimStart(s: string): string {
    if s != "" && IsSpace(s[0]) then TrimStart(s[1..]) else s
  }

  function TrimEnd(s: string): string {
    if s != "" && IsSpace(s[|s| - 1]) then TrimEnd(s[..|s| - 1]) else s
  }

  const PREFIX := "data: "

  /** The data of a line, if it has any. */
  function DataOf(line: string): Option<string> {
    if PREFIX <= line then
      var data := TrimEnd(TrimStart(line[|PREFIX|..]));
      if data == "" then None else Some(data)
    else None
  }

  /** The data of the lines that have any, in order. */
  function DataLines(lines: seq<string>): seq<string> {
    if lines == [] then []
    else
      var n := |lines| - 1;
      DataLines(lines[..n]) + match DataOf(lines[n]) case Some(data) => [data] case None => []
  }

  lemma {:induction false} DataLinesAppend(a: seq<string>, b: seq<string>)
    ensures DataLines(a + b) == DataLines(a) + DataLines(b)
  {
    if b == [] {
      assert a + b == a;
    } else {
      var n := |b| - 1;
      assert (a + b)[..|a + b| - 1] == a + b[..n];
      DataLinesAppend(a, b[..n]);
    }
  }

  /** Everything a reader may hand on after the given text. */
  function DataOfText(text: string): seq<string> {
    DataLines(Lines(text))
  }

  lemma MoreText(text: string, more: string)
    ensures Lines(text + more) == Lines(text) + Lines(Remainder(text) + more)
    ensures Remainder(text + more) == Remainder(Remainder(text) + more)
    ensures DataOfText(text + more) == DataOfText(text) + DataLines(Lines(Remainder(text) + more))
  {
    SplitMore(text, more);
    var tail := Split(Remainder(text) + more);
    assert (Lines(text) + tail)[..|Lines(text) + tail| - 1] == Lines(text) + tail[..|tail| - 1];
    DataLinesAppend(Lines(text), Lines(Remainder(text) + more));
  }

  /** One data line as a server writes it. */
  function EncodeLine(payload: string): string {
    PREFIX + payload + "\n"
  }

  function EncodeLines(payloads: seq<string>): string {
    if payloads == [] then "" else EncodeLines(payloads[..|payloads| - 1]) + EncodeLine(payloads[|payloads| - 1])
  }

  /** A payload that survives: one line, with no white space around it. */
  predicate Writable(payload: string) {
    payload != "" && '\n' !in payload && !IsSpace(payload[0]) && !IsSpace(payload[|payload| - 1])
  }

  lemma {:induction false} LineEndIs(text: string, n: nat)
    requires n < |text| && text[n] == '\n' && forall i :: 0 <= i < n ==> text[i] != '\n'
    ensures LineEnd(text) == n
  {
    if n > 0 {
      LineEndIs(text[1..], n - 1);
    }
  }

  lemma OneLine(payload: string)
    requires Writable(payload)
    ensures Lines(EncodeLine(payload)) == [PREFIX + payload] && Remainder(EncodeLine(payload)) == ""
    ensures DataLines([PREFIX + payload]) == [payload]
  {
    var (line, text) := (PREFIX + payload, EncodeLine(payload));
    LineEndIs(text, |line|);
    assert text[..|line|] == line && text[|line| + 1..] == "";
    assert Split(text) == [line] + Split("");
    assert line[|PREFIX|..] == payload && PREFIX <= line;
    assert DataOf(line) == Some(payload);
    assert [line][..0] == [];
  }

  /** What is written as data lines is read back, with nothing left over. */
  lemma {:induction false} WrittenLinesAreRead(payloads: seq<string>)
    requires forall p <- payloads :: Writable(p)
    ensures DataOfText(EncodeLines(payloads)) == payloads && Remainder(EncodeLines(payloads)) == ""
  {
    hide Split, Lines, Remainder, EncodeLine, DataLines, DataOf;
    if payloads == [] {
      SplitStep("");
      NoData();
    } else {
      var n := |payloads| - 1;
      WrittenLinesAreRead(payloads[..n]);
      MoreText(EncodeLines(payloads[..n]), EncodeLine(payloads[n]));
      assert "" + EncodeLine(payloads[n]) == EncodeLine(payloads[n]);
      OneLine(payloads[n]);
      assert payloads == payloads[..n] + [payloads[n]];
    }
  }

  lemma NoData()
    ensures DataLines([]) == []
  {
  }

  /** The read loop's buffer. received is all text that has arrived, handed all data handed on. */
  class LineReader {
    var buffer: string
    ghost var received: string
    ghost var handed: seq<string>

    ghost predicate Valid()
      reads this
    {
      buffer == Remainder(received) && handed == DataOfText(received)
    }

    constructor ()
      ensures Valid() && received == ""
    {
      buffer, received, handed := "", "", [];
    }

    /** One chunk: the lines it completes are handed on, in order. */
    method Receive(chunk: string) returns (data: seq<string>)
      requires Valid()
      modifies this
      ensures Valid() && received == old(received) + chunk && handed == old(handed) + data
    {
      MoreText(received, chunk);
      buffer := buffer + chunk;
      var lines := Split(buffer);
      buffer := lines[|lines| - 1];
      data := CollectData(lines[..|lines| - 1]);
      received, handed := received + chunk, handed + data;
    }

    static method CollectData(lines: seq<string>) returns (data: seq<string>)
      ensures data == DataLines(lines)
    {
      data := [];
      for i := 0 to |lines|
        invariant data == DataLines(lines[..i])
      {
        assert lines[..i + 1][..i] == lines[..i];
        var line := lines[i];
        if PREFIX <= line {
          var d := TrimEnd(TrimStart(line[|PREFIX|..]));
          if d != "" {
            data := data + [d];
          }
        }
      }
      assert lines[..|lines|] == lines;
    }
  }

  /** However the text is cut into chunks, the data handed on is that of the complete lines of the text. */
  method ReadAll(chunks: seq<string>) returns (data: seq<string>)
    ensures data == DataOfText(Flatten(chunks))
  {
    var reader := new LineReader();
    data := [];
    assert Flatten(chunks[..0]) == "";
    for i := 0 to |chunks|
      invariant reader.Valid() && reader.received == Flatten(chunks[..i]) && reader.handed == data && fresh(reader)
    {
      var more := reader.Receive(chunks[i]);
      data := data + more;
      assert chunks[..i + 1] == chunks[..i] + [chunks[i]];
      FlattenAppend(chunks[..i], [chunks[i]]);
      assert Flatten([chunks[i]]) == chunks[i];
    }
    assert chunks[..|chunks|] == chunks;
  }

  /** A line has data exactly if it begins with the prefix and more than white space follows. */
  lemma DataExactly(line: string)
    ensures DataOf(line).Some? <==>
              PREFIX <= line && exists i :: |PREFIX| <= i < |line| && !IsSpace(line[i])
  {
    if PREFIX <= line {
      var rest := line[|PREFIX|..];
      assert forall i :: 0 <= i < |rest| ==> rest[i] == line[|PREFIX| + i];
      TrimsAwayExactly(rest);
      if i :| |PREFIX| <= i < |line| && !IsSpace(line[i]) {
        assert !IsSpace(rest[i - |PREFIX|]);
      }
    }
  }

  lemma {:induction false} TrimsAwayExactly(s: string)
    ensures TrimEnd(TrimStart(s)) == "" <==> forall i :: 0 <= i < |s| ==> IsSpace(s[i])
    decreases |s|
  {
    if s == "" {
    } else if IsSpace(s[0]) {
      TrimsAwayExactly(s[1..]);
      assert forall i :: 0 < i < |s| ==> s[i] == s[1..][i - 1];
    } else {
      KeepsNonSpace(s, 0);
    }
  }

  lemma {:induction false} KeepsNonSpace(s: string, i: nat)
    requires i < |s| && !IsSpace(s[i])
    ensures TrimEnd(s) != ""
    decreases |s|
  {
    if IsSpace(s[|s| - 1]) {
      KeepsNonSpace(s[..|s| - 1], i);
    }
  }
}
