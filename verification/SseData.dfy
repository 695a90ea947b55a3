/** Server-sent event framing and data fields (internal/sse/data.go, internal/sse/reader.go).
    A line ends only at LF; one CR before it belongs to the line ending. */
module SseData {
  import opened Wrappers

  type Byte = b: int | 0 <= b < 256
  type Bytes = seq<Byte>

  const LF: Byte := 10
  const CR: Byte := 13
  const SP: Byte := 32

  function DataPrefix(): Bytes { [100, 97, 116, 97, 58] }

  function EventPrefix(): Bytes { [101, 118, 101, 110, 116, 58] }

  predicate Spells(bytes: Bytes, text: string) {
    |bytes| == |text| && forall i :: 0 <= i < |bytes| ==> bytes[i] == text[i] as int
  }

  /** The prefixes of the two fields, in ASCII. */
  lemma FieldNames()
    ensures Spells(DataPrefix(), "data:") && Spells(EventPrefix(), "event:") && Spells([LF, CR, SP], "\n\r ")
  {}

  // ------------------------------------------------------------------------ lines

  predicate Terminated(line: Bytes) { line != [] && line[|line| - 1] == LF }

  predicate NoLF(bytes: Bytes) { forall i :: 0 <= i < |bytes| ==> bytes[i] != LF }

  /** One line with its ending: no LF except perhaps the last byte. */
  predicate IsLine(line: Bytes) { line != [] && NoLF(line[..|line| - 1]) }

  /** Lines of one text: only the last may lack its LF. */
  predicate WellLined(lines: seq<Bytes>) {
    forall i :: 0 <= i < |lines| ==> IsLine(lines[i]) && (i < |lines| - 1 ==> Terminated(lines[i]))
  }

  function LineEnd(raw: Bytes): (end: nat)
    requires raw != []
    ensures 0 < end <= |raw| && IsLine(raw[..end]) && (end < |raw| ==> Terminated(raw[..end]))
  {
    if raw[0] == LF || |raw| == 1 then 1
    else
      var end := 1 + LineEnd(raw[1..]);
      assert raw[..end][..end - 1] == [raw[0]] + raw[1..][..end - 1][..end - 2];
      end
  }

  function Lines(raw: Bytes): seq<Bytes>
    decreases |raw|
  {
    if raw == [] then [] else [raw[..LineEnd(raw)]] + Lines(raw[LineEnd(raw)..])
  }

  function Concat(lines: seq<Bytes>): Bytes {
    if lines == [] then [] else lines[0] + Concat(lines[1..])
  }

  lemma {:induction false} LinesWell(raw: Bytes)
    ensures WellLined(Lines(raw)) && Concat(Lines(raw)) == raw
    decreases |raw|
  {
    if raw != [] {
      var end := LineEnd(raw);
      LinesWell(raw[end..]);
      hide LineEnd, IsLine, Terminated;
      var rest := Lines(raw[end..]);
      assert Lines(raw) == [raw[..end]] + rest;
      assert Lines(raw)[1..] == rest;
      assert raw == raw[..end] + raw[end..];
      assert rest == [] ==> raw[end..] == [];
    }
  }

  lemma LineEndOf(line: Bytes, rest: Bytes)
    requires IsLine(line) && (rest == [] || Terminated(line))
    ensures LineEnd(line + rest) == |line|
  {
    var raw := line + rest;
    var end := LineEnd(raw);
    assert raw[..|line|] == line;
    if end != |line| { InnerLF(raw, if end < |line| then end else |line|, if end < |line| then |line| else end); }
  }

  lemma InnerLF(raw: Bytes, a: nat, b: nat)
    requires 0 < a < b <= |raw| && IsLine(raw[..b])
    ensures !Terminated(raw[..a])
  {
    assert raw[..b][..b - 1][a - 1] == raw[a - 1];
  }

  lemma {:induction false} LinesOf(lines: seq<Bytes>)
    requires WellLined(lines)
    ensures Lines(Concat(lines)) == lines
  {
    if lines != [] {
      var line, rest := lines[0], Concat(lines[1..]);
      assert IsLine(line);
      LinesOf(lines[1..]);
      if |lines| == 1 { assert lines[1..] == []; }
      LineEndOf(line, rest);
      assert (line + rest)[..|line|] == line && (line + rest)[|line|..] == rest;
    }
  }

  lemma {:induction false} ConcatPlus(a: seq<Bytes>, b: seq<Bytes>)
    ensures Concat(a + b) == Concat(a) + Concat(b)
  {
    if a == [] {
      assert a + b == b;
    } else {
      assert (a + b)[1..] == a[1..] + b;
      ConcatPlus(a[1..], b);
    }
  }

  // ----------------------------------------------------------- the parts of a line

  function Ending(line: Bytes): (ending: Bytes)
    ensures |ending| <= |line| && line[|line| - |ending|..] == ending
  {
    if Terminated(line) then
      if |line| > 1 && line[|line| - 2] == CR then [CR, LF] else [LF]
    else if line != [] && line[|line| - 1] == CR then [CR]
    else []
  }

  function Content(line: Bytes): Bytes { line[..|line| - |Ending(line)|] }

  predicate IsData(line: Bytes) { DataPrefix() <= Content(line) }

  function PrefixLength(line: Bytes): nat {
    if 5 < |Content(line)| && Content(line)[5] == SP then 6 else 5
  }

  function Prefix(line: Bytes): Bytes
    requires IsData(line)
  {
    Content(line)[..PrefixLength(line)]
  }

  function Value(line: Bytes): Bytes
    requires IsData(line)
  {
    Content(line)[PrefixLength(line)..]
  }

  predicate IsPrefix(prefix: Bytes) { prefix == DataPrefix() || prefix == DataPrefix() + [SP] }

  predicate IsEnding(ending: Bytes) { ending == [LF] || ending == [CR, LF] || ending == [CR] || ending == [] }

  lemma Parts(line: Bytes)
    requires IsData(line)
    ensures line == Prefix(line) + Value(line) + Ending(line)
    ensures IsPrefix(Prefix(line)) && IsEnding(Ending(line))
    ensures IsLine(line) ==> NoLF(Value(line))
    ensures Faithful(Prefix(line), Value(line), Ending(line))
  {
    hide Ending, Content, PrefixLength, Prefix, Value, IsLine, NoLF, Terminated, Faithful, IsEnding, IsPrefix, IsData;
    PartsJoin(line);
    PartsKind(line);
    if IsLine(line) { ValueNoLF(line); }
    PartsFaithful(line);
  }

  /** A data line is its prefix, its value and its ending. */
  lemma PartsJoin(line: Bytes)
    requires IsData(line)
    ensures PrefixLength(line) <= |Content(line)| && line == Prefix(line) + Value(line) + Ending(line)
  {
    hide Ending;
    var content := Content(line);
    assert content[..5] == DataPrefix();
    assert line == content + Ending(line);
    assert content == Prefix(line) + Value(line);
  }

  lemma PartsKind(line: Bytes)
    requires IsData(line)
    ensures IsPrefix(Prefix(line)) && IsEnding(Ending(line))
  {
    EndingKind(line);
    hide Ending, IsEnding;
    var content := Content(line);
    assert content[..5] == DataPrefix();
    assert PrefixLength(line) == 6 ==> content[..6] == content[..5] + [content[5]];
  }

  lemma EndingKind(line: Bytes)
    ensures IsEnding(Ending(line))
  {}

  /** Content ends before an ending begins, so no LF of the line is in it. */
  lemma ValueNoLF(line: Bytes)
    requires IsLine(line) && IsData(line)
    ensures NoLF(Value(line))
  {
    hide Ending, Content, IsData, PrefixLength;
    ContentNoLF(line);
    PrefixFits(line);
  }

  lemma PrefixFits(line: Bytes)
    requires IsData(line)
    ensures PrefixLength(line) <= |Content(line)| && Value(line) == Content(line)[PrefixLength(line)..]
  {
    hide Content;
  }

  lemma ContentNoLF(line: Bytes)
    requires IsLine(line)
    ensures NoLF(Content(line))
  {
    var content := Content(line);
    forall i | 0 <= i < |content| ensures content[i] != LF {
      if i < |line| - 1 { assert line[..|line| - 1][i] != LF; }
    }
  }

  lemma PartsFaithful(line: Bytes)
    requires IsData(line)
    ensures Faithful(Prefix(line), Value(line), Ending(line))
  {
    hide Ending;
    var content := Content(line);
    assert content[..5] == DataPrefix();
    PrefixFits(line);
    ContentLast(line);
  }

  /** Content that ends in a CR is followed by an ending that has its own CR, or by CR LF. */
  lemma ContentLast(line: Bytes)
    ensures Content(line) != [] && Content(line)[|Content(line)| - 1] == CR ==> Ending(line) != [LF] && Ending(line) != []
  {}

  /** A value placed after a prefix and before an ending is read back as it is: it does not begin
      with the optional space, nor end in a CR that would join the ending. */
  predicate Faithful(prefix: Bytes, value: Bytes, ending: Bytes) {
    && !(prefix == DataPrefix() && value != [] && value[0] == SP)
    && !(value != [] && value[|value| - 1] == CR && (ending == [LF] || ending == []))
  }

  function Place(prefix: Bytes, value: Bytes, ending: Bytes): Bytes { prefix + value + ending }

  /** Reading a placed value back, exactly. */
  lemma PlacedValue(prefix: Bytes, value: Bytes, ending: Bytes)
    requires IsPrefix(prefix) && IsEnding(ending) && NoLF(value)
    ensures var line := Place(prefix, value, ending);
      IsLine(line) && IsData(line) && (Terminated(line) <==> Terminated(ending))
      && (Value(line) == value <==> Faithful(prefix, value, ending))
    ensures NoLF(Value(Place(prefix, value, ending)))
  {
    var line := Place(prefix, value, ending);
    PlacedLine(prefix, value, ending);
    PlacedContent(prefix, value, ending);
    Parts(line);
    hide IsLine, NoLF, Ending;
    var content := prefix + value;
    assert content[..5] == DataPrefix();
    if PrefixLength(line) == 5 { assert Prefix(line) == DataPrefix(); }
    if Faithful(prefix, value, ending) {
      assert Content(line) == content;
      if prefix == DataPrefix() {
        assert value != [] ==> content[5] == value[0];
      }
    } else if prefix == DataPrefix() && value != [] && value[0] == SP {
      assert content[5] == SP;
    }
  }

  lemma PlacedLine(prefix: Bytes, value: Bytes, ending: Bytes)
    requires IsPrefix(prefix) && IsEnding(ending) && NoLF(value)
    ensures var line := Place(prefix, value, ending); IsLine(line) && (Terminated(line) <==> Terminated(ending))
  {
    var line := Place(prefix, value, ending);
    forall i | 0 <= i < |line| - 1 ensures line[i] != LF {}
  }

  predicate EndsInCR(bytes: Bytes) { bytes != [] && bytes[|bytes| - 1] == CR }

  lemma ContentOf(body: Bytes, ending: Bytes)
    requires IsEnding(ending) && NoLF(body)
    ensures Content(body + ending) ==
      if EndsInCR(body) && (ending == [LF] || ending == []) then body[..|body| - 1] else body
  {
    var line := body + ending;
    if ending == [LF] {
      assert Terminated(line);
    } else if ending == [CR, LF] {
      assert Terminated(line) && line[|line| - 2] == CR;
    } else if ending == [CR] {
      assert !Terminated(line) && line[|line| - 1] == CR;
    } else {
      assert line == body;
    }
  }

  lemma PlacedContent(prefix: Bytes, value: Bytes, ending: Bytes)
    requires IsPrefix(prefix) && IsEnding(ending) && NoLF(value)
    ensures var line := Place(prefix, value, ending);
      if EndsInCR(value) && (ending == [LF] || ending == []) then Content(line) == prefix + value[..|value| - 1]
      else Content(line) == prefix + value
  {
    var body := prefix + value;
    assert EndsInCR(body) <==> EndsInCR(value);
    assert EndsInCR(value) ==> body[..|body| - 1] == prefix + value[..|value| - 1];
    hide Content;
    ContentOf(body, ending);
  }

  // ------------------------------------------------------- payloads and their lines

  /** Values joined by LF. */
  function Join(values: seq<Bytes>): Bytes {
    if values == [] then []
    else if |values| == 1 then values[0]
    else values[0] + [LF] + Join(values[1..])
  }

  /** bytes.Split on LF. */
  function Split(payload: Bytes): (lines: seq<Bytes>)
    ensures lines != []
  {
    if payload == [] then [[]]
    else
      var rest := Split(payload[1..]);
      if payload[0] == LF then [[]] + rest else [[payload[0]] + rest[0]] + rest[1..]
  }

  predicate NoLFs(values: seq<Bytes>) { forall v <- values :: NoLF(v) }

  lemma {:induction false} SplitJoin(payload: Bytes)
    ensures NoLFs(Split(payload)) && Join(Split(payload)) == payload
    decreases |payload|
  {
    if payload != [] {
      var first := payload[0];
      SplitJoin(payload[1..]);
      var rest := Split(payload[1..]);
      SplitFirst(first, payload[1..]);
      hide Split, Join;
      assert payload == [first] + payload[1..];
      if first == LF {
        JoinFirst([], rest);
      } else {
        assert rest == [rest[0]] + rest[1..];
        FirstGrows(first, rest);
        var longer := [first] + rest[0];
        JoinFirst(longer, rest[1..]);
        assert longer[0] == first && longer[1..] == rest[0];
      }
    }
  }

  lemma FirstGrows(b: Byte, lines: seq<Bytes>)
    requires lines != [] && NoLFs(lines) && b != LF
    ensures NoLFs([[b] + lines[0]] + lines[1..])
  {
    assert lines[0] in lines && NoLF([b] + lines[0]);
    assert forall v <- lines[1..] :: v in lines;
  }

  lemma {:induction false} JoinSplit(values: seq<Bytes>)
    requires values != [] && NoLFs(values)
    ensures Split(Join(values)) == values
    decreases |values|, |values[0]|
  {
    var first, rest := values[0], values[1..];
    assert first in values && forall v <- rest :: v in values;
    hide Join, Split;
    if first != [] {
      var shorter := [first[1..]] + rest;
      assert first[0] != LF && NoLF(first[1..]);
      JoinSplit(shorter);
      JoinFirst(first, rest);
      SplitFirst(first[0], Join(shorter));
      assert values == [first] + rest && first == [first[0]] + first[1..];
    } else {
      assert values == [[]] + rest;
      if rest != [] {
        JoinSplit(rest);
        JoinFirst([], rest);
        SplitFirst(LF, Join(rest));
      } else {
        EmptyJoin();
      }
    }
  }

  lemma JoinFirst(first: Bytes, rest: seq<Bytes>)
    ensures first != [] ==> Join([first] + rest) == [first[0]] + Join([first[1..]] + rest)
    ensures first == [] && rest != [] ==> Join([first] + rest) == [LF] + Join(rest)
  {
    assert ([first] + rest)[1..] == rest;
    if first != [] { assert ([first[1..]] + rest)[1..] == rest; }
  }

  lemma SplitFirst(b: Byte, payload: Bytes)
    ensures var rest := Split(payload);
      Split([b] + payload) == if b == LF then [[]] + rest else [[b] + rest[0]] + rest[1..]
  {
    assert ([b] + payload)[1..] == payload;
  }

  lemma EmptyJoin()
    ensures Split(Join([[]])) == [[]]
  {}

  // ------------------------------------------------------------------ data fields

  function Values(lines: seq<Bytes>): seq<Bytes> {
    if lines == [] then []
    else (if IsData(lines[0]) then [Value(lines[0])] else []) + Values(lines[1..])
  }

  /** Frame.Data: the joined values, or nothing without data fields. */
  function Data(raw: Bytes): Option<Bytes> {
    var values := Values(Lines(raw));
    if values == [] then None else Some(Join(values))
  }

  function Placed(prefix: Bytes, values: seq<Bytes>, ending: Bytes): seq<Bytes> {
    if values == [] then [] else [Place(prefix, values[0], ending)] + Placed(prefix, values[1..], ending)
  }

  /** The lines that several values make at the last field; without an LF they stay one line. */
  function Spread(prefix: Bytes, values: seq<Bytes>, ending: Bytes): seq<Bytes> {
    if Terminated(ending) then Placed(prefix, values, ending) else [Concat(Placed(prefix, values, ending))]
  }

  function Head(values: seq<Bytes>): Bytes { if values == [] then [] else values[0] }

  function Tail(values: seq<Bytes>): seq<Bytes> { if values == [] then [] else values[1..] }

  /** The lines after replacement: other lines and all prefixes and endings stay, fields take the
      payload's lines in order, surplus fields become empty, extra lines repeat the last field. */
  function Rewrite(lines: seq<Bytes>, values: seq<Bytes>): seq<Bytes> {
    if lines == [] then []
    else if !IsData(lines[0]) then [lines[0]] + Rewrite(lines[1..], values)
    else
      var prefix, ending := Prefix(lines[0]), Ending(lines[0]);
      if Values(lines[1..]) == [] && |values| > 1 then Spread(prefix, values, ending) + lines[1..]
      else [Place(prefix, Head(values), ending)] + Rewrite(lines[1..], Tail(values))
  }

  /** Expansion is impossible when the last field has no ending to repeat. */
  function LastEnding(lines: seq<Bytes>): Bytes {
    if lines == [] then []
    else if IsData(lines[0]) && Values(lines[1..]) == [] then Ending(lines[0])
    else LastEnding(lines[1..])
  }

  lemma EndingTerminated(line: Bytes)
    ensures Terminated(line) <==> Terminated(Ending(line))
  {}

  predicate CanExpand(lines: seq<Bytes>, values: seq<Bytes>) {
    |values| > |Values(lines)| ==> LastEnding(lines) != []
  }

  // ------------------------------------------------------------- lines stay lines

  /** What one value after another makes in one field: the expanded replacement. */
  function Glue(prefix: Bytes, values: seq<Bytes>, ending: Bytes): Bytes
    requires values != []
  {
    if |values| == 1 then values[0] else values[0] + ending + prefix + Glue(prefix, values[1..], ending)
  }

  lemma {:induction false} GlueIs(prefix: Bytes, values: seq<Bytes>, ending: Bytes)
    requires values != []
    ensures Concat(Placed(prefix, values, ending)) == Place(prefix, Glue(prefix, values, ending), ending)
  {
    var placed := Placed(prefix, values, ending);
    var first := Place(prefix, values[0], ending);
    assert placed[1..] == Placed(prefix, values[1..], ending);
    if |values| == 1 {
      assert Concat(placed) == first;
    } else {
      GlueIs(prefix, values[1..], ending);
      var glue := Glue(prefix, values[1..], ending);
      assert first + Place(prefix, glue, ending) == prefix + (values[0] + ending + prefix + glue) + ending;
    }
  }

  lemma {:induction false} GlueNoLF(prefix: Bytes, values: seq<Bytes>, ending: Bytes)
    requires values != [] && NoLFs(values) && NoLF(prefix) && NoLF(ending)
    ensures NoLF(Glue(prefix, values, ending))
  {
    assert NoLF(values[0]);
    if |values| > 1 {
      assert forall v <- values[1..] :: v in values;
      GlueNoLF(prefix, values[1..], ending);
      NoLFPlus(values[0], ending);
      NoLFPlus(values[0] + ending, prefix);
      NoLFPlus(values[0] + ending + prefix, Glue(prefix, values[1..], ending));
    }
  }

  lemma NoLFPlus(a: Bytes, b: Bytes)
    requires NoLF(a) && NoLF(b)
    ensures NoLF(a + b)
  {}

  /** Lines that all end in LF. */
  predicate AllTerminated(lines: seq<Bytes>) { forall i :: 0 <= i < |lines| ==> IsLine(lines[i]) && Terminated(lines[i]) }

  lemma {:induction false} PlacedLines(prefix: Bytes, values: seq<Bytes>, ending: Bytes)
    requires IsPrefix(prefix) && IsEnding(ending) && Terminated(ending) && NoLFs(values)
    ensures AllTerminated(Placed(prefix, values, ending)) && |Placed(prefix, values, ending)| == |values|
    ensures |Values(Placed(prefix, values, ending))| == |values| && NoLFs(Values(Placed(prefix, values, ending)))
    ensures Values(Placed(prefix, values, ending)) == values <==> forall v <- values :: Faithful(prefix, v, ending)
  {
    hide IsLine, NoLF, Terminated, Faithful, IsPrefix, IsEnding, Place, Content, IsData, Value;
    if values != [] {
      var rest := values[1..];
      assert forall v <- rest :: v in values;
      assert values == [values[0]] + rest;
      PlacedValue(prefix, values[0], ending);
      PlacedLines(prefix, rest, ending);
      var placed := Placed(prefix, values, ending);
      assert placed[1..] == Placed(prefix, rest, ending);
      assert Values(placed) == [Value(placed[0])] + Values(placed[1..]);
      ConsEqual(Value(placed[0]), Values(placed[1..]), values[0], rest);
    }
  }

  lemma ConsEqual(a: Bytes, more: seq<Bytes>, b: Bytes, others: seq<Bytes>)
    ensures [a] + more == [b] + others <==> a == b && more == others
  {
    assert ([a] + more)[1..] == more && ([b] + others)[1..] == others && ([a] + more)[0] == a && ([b] + others)[0] == b;
  }

  lemma {:induction false} ValuesPlus(a: seq<Bytes>, b: seq<Bytes>)
    ensures Values(a + b) == Values(a) + Values(b)
  {
    hide IsData, Value, Values;
    if a == [] {
      NoValues(b);
    } else {
      var own := if IsData(a[0]) then [Value(a[0])] else [];
      FirstPlus(a, b);
      ValuesUnfold(a);
      ValuesUnfold(a + b);
      ValuesPlus(a[1..], b);
      Assoc(own, Values(a[1..]), Values(b));
    }
  }

  lemma NoValues(lines: seq<Bytes>)
    ensures Values([]) == [] && [] + lines == lines && Values([]) + Values(lines) == Values(lines)
  {}

  lemma FirstPlus(a: seq<Bytes>, b: seq<Bytes>)
    requires a != []
    ensures (a + b)[0] == a[0] && (a + b)[1..] == a[1..] + b
  {}

  lemma ValuesUnfold(lines: seq<Bytes>)
    requires lines != []
    ensures Values(lines) == (if IsData(lines[0]) then [Value(lines[0])] else []) + Values(lines[1..])
  {
    hide IsData, Value;
  }

  /** The last line's ending decides whether the text ends in LF. */
  predicate EndsInLF(lines: seq<Bytes>) { lines != [] && Terminated(lines[|lines| - 1]) }

  lemma WellPlus(a: seq<Bytes>, b: seq<Bytes>)
    requires WellLined(a) && WellLined(b) && (a != [] && b != [] ==> EndsInLF(a))
    ensures WellLined(a + b)
    ensures EndsInLF(a + b) <==> if b == [] then EndsInLF(a) else EndsInLF(b)
  {
    hide IsLine, Terminated;
  }

  lemma WellSplit(lines: seq<Bytes>)
    requires WellLined(lines) && lines != []
    ensures WellLined([lines[0]]) && WellLined(lines[1..]) && [lines[0]] + lines[1..] == lines
    ensures lines[1..] != [] ==> EndsInLF([lines[0]]) && (EndsInLF(lines) <==> EndsInLF(lines[1..]))
    ensures lines[1..] == [] ==> [lines[0]] == lines
  {
    hide IsLine;
  }

  lemma PlacedKind(line: Bytes, value: Bytes)
    requires IsLine(line) && IsData(line) && NoLF(value)
    ensures var placed := Place(Prefix(line), value, Ending(line));
      IsLine(placed) && IsData(placed) && (Terminated(placed) <==> Terminated(line)) && WellLined([placed])
  {
    hide IsLine, NoLF, Ending, Content, IsData, Terminated;
    Parts(line);
    PlacedValue(Prefix(line), value, Ending(line));
    EndingTerminated(line);
  }

  lemma SpreadKind(line: Bytes, values: seq<Bytes>)
    requires IsLine(line) && IsData(line) && NoLFs(values) && |values| > 1 && Ending(line) != []
    ensures var spread := Spread(Prefix(line), values, Ending(line));
      && spread != [] && WellLined(spread) && (EndsInLF(spread) <==> Terminated(line))
      && (if Terminated(line) then
            |Values(spread)| == |values| && NoLFs(Values(spread))
            && (Values(spread) == values <==> forall v <- values :: Faithful(Prefix(line), v, Ending(line)))
          else |Values(spread)| == 1 && NoLFs(Values(spread)))
  {
    hide IsLine, NoLF, Content, IsData, PrefixLength, Value, Faithful, Prefix, Glue;
    var prefix, ending := Prefix(line), Ending(line);
    Parts(line);
    EndingTerminated(line);
    if Terminated(line) {
      PlacedLines(prefix, values, ending);
    } else {
      assert NoLF(prefix) by { PrefixNoLF(prefix); }
      assert NoLF(ending) by { CRNoLF(ending); }
      GlueNoLF(prefix, values, ending);
      GlueIs(prefix, values, ending);
      PlacedValue(prefix, Glue(prefix, values, ending), ending);
      var spread := Spread(prefix, values, ending);
      assert Values(spread) == [Value(spread[0])] + Values(spread[1..]);
    }
  }

  lemma PrefixNoLF(prefix: Bytes)
    requires IsPrefix(prefix)
    ensures NoLF(prefix)
  {}

  lemma CRNoLF(ending: Bytes)
    requires IsEnding(ending) && !Terminated(ending)
    ensures NoLF(ending)
  {}

  lemma {:induction false} RewriteLines(lines: seq<Bytes>, values: seq<Bytes>)
    requires WellLined(lines) && NoLFs(values) && CanExpand(lines, values)
    ensures var out := Rewrite(lines, values);
      WellLined(out) && (out == [] <==> lines == []) && (EndsInLF(out) <==> EndsInLF(lines))
  {
    hide IsLine, NoLF, Content, Terminated, IsData, Prefix, Ending, WellLined, EndsInLF, Spread, Place, NoLFs;
    if lines != [] {
      WellSplit(lines);
      var line, rest := lines[0], lines[1..];
      SingleLine(line);
      if !IsData(line) {
        RewriteLines(rest, values);
        WellPlus([line], Rewrite(rest, values));
      } else if Values(rest) == [] && |values| > 1 {
        SpreadKind(line, values);
        WellPlus(Spread(Prefix(line), values, Ending(line)), rest);
      } else {
        TailNoLFs(values);
        ExpandTail(lines, values);
        RewriteLines(rest, Tail(values));
        PlacedKind(line, Head(values));
        SingleLine(Place(Prefix(line), Head(values), Ending(line)));
        WellPlus([Place(Prefix(line), Head(values), Ending(line))], Rewrite(rest, Tail(values)));
      }
    }
  }

  lemma SingleLine(line: Bytes)
    ensures WellLined([line]) <==> IsLine(line)
    ensures EndsInLF([line]) <==> Terminated(line)
  {
    assert [line][0] == line;
  }

  lemma TailNoLFs(values: seq<Bytes>)
    requires NoLFs(values)
    ensures NoLFs(Tail(values)) && NoLF(Head(values))
  {
    if values != [] {
      assert values[0] in values && forall v <- values[1..] :: v in values;
    }
  }

  lemma ExpandTail(lines: seq<Bytes>, values: seq<Bytes>)
    requires lines != [] && IsData(lines[0]) && CanExpand(lines, values)
    requires Values(lines[1..]) != [] || |values| <= 1
    ensures CanExpand(lines[1..], Tail(values))
  {
    hide IsData, Ending;
  }

  // -------------------------------------------------------------------- round trip

  /** Every payload line is placed faithfully, and an expansion repeats a real line ending. */
  predicate FaithfulAll(lines: seq<Bytes>, values: seq<Bytes>) {
    if lines == [] then true
    else if !IsData(lines[0]) then FaithfulAll(lines[1..], values)
    else
      var prefix, ending := Prefix(lines[0]), Ending(lines[0]);
      if Values(lines[1..]) == [] && |values| > 1 then
        Terminated(ending) && forall v <- values :: Faithful(prefix, v, ending)
      else Faithful(prefix, Head(values), ending) && FaithfulAll(lines[1..], Tail(values))
  }

  function Blanks(n: nat): seq<Bytes> { seq(n, i => []) }

  /** The payload's lines, then an empty one for every surplus field. */
  function Pad(values: seq<Bytes>, fields: nat): seq<Bytes> {
    if |values| >= fields then values else values + Blanks(fields - |values|)
  }

  lemma PadStep(values: seq<Bytes>, fields: nat)
    requires fields > 0 && (fields == 1 ==> |values| <= 1)
    ensures Pad(values, fields) == [Head(values)] + Pad(Tail(values), fields - 1)
  {
    if values == [] {
      assert Blanks(fields) == [[]] + Blanks(fields - 1);
    } else {
      assert values == [values[0]] + values[1..];
    }
  }

  /** Reading a rewrite back gives the padded payload exactly when the placing is faithful. */
  lemma {:induction false} RewriteValues(lines: seq<Bytes>, values: seq<Bytes>)
    requires WellLined(lines) && NoLFs(values) && CanExpand(lines, values) && (Values(lines) == [] ==> values == [])
    ensures var read := Values(Rewrite(lines, values));
      NoLFs(read) && (read == [] <==> Values(lines) == [])
      && (read == Pad(values, |Values(lines)|) <==> FaithfulAll(lines, values))
  {
    hide IsLine, NoLF, Content, Terminated, IsData, Prefix, Ending, WellLined, EndsInLF, Spread, Place, NoLFs, Pad, Value, Faithful,
      Values, Rewrite, FaithfulAll, CanExpand;
    FieldCases(lines, values);
    if lines == [] {
      PadNone();
    } else {
      WellSplit(lines);
      var line, rest := lines[0], lines[1..];
      SingleLine(line);
      if !IsData(line) {
        SkipLine(lines, values);
        RewriteValues(rest, values);
      } else if Values(rest) == [] && |values| > 1 {
        SpreadValues(lines, values);
      } else {
        PlaceValues(lines, values);
        TailNoLFs(values);
        ExpandTail(lines, values);
        RewriteValues(rest, Tail(values));
        PadStep(values, |Values(lines)|);
        ConsEqual(Value(Place(Prefix(line), Head(values), Ending(line))), Values(Rewrite(rest, Tail(values))),
                  Head(values), Pad(Tail(values), |Values(rest)|));
      }
    }
  }

  lemma SkipLine(lines: seq<Bytes>, values: seq<Bytes>)
    requires lines != [] && !IsData(lines[0])
    ensures Values(lines) == Values(lines[1..]) && Values(Rewrite(lines, values)) == Values(Rewrite(lines[1..], values))
    ensures FaithfulAll(lines, values) == FaithfulAll(lines[1..], values)
    ensures CanExpand(lines, values) ==> CanExpand(lines[1..], values)
  {
    hide IsData, Prefix, Ending, Value, Faithful, Place, Spread;
    assert Rewrite(lines, values)[1..] == Rewrite(lines[1..], values);
  }

  lemma FieldCases(lines: seq<Bytes>, values: seq<Bytes>)
    ensures lines == [] ==> Values(lines) == [] && Rewrite(lines, values) == [] && Values([]) == [] && FaithfulAll(lines, values)
    ensures lines != [] && IsData(lines[0]) ==> |Values(lines)| == |Values(lines[1..])| + 1
    ensures lines != [] && IsData(lines[0]) && !(Values(lines[1..]) == [] && |values| > 1) ==>
      (FaithfulAll(lines, values) <==>
        Faithful(Prefix(lines[0]), Head(values), Ending(lines[0])) && FaithfulAll(lines[1..], Tail(values)))
  {
    hide IsData, Prefix, Ending, Value, Faithful, Place, Spread, Head, Tail;
  }

  lemma PadNone()
    ensures Pad([], 0) == [] && NoLFs([])
  {}

  lemma SpreadValues(lines: seq<Bytes>, values: seq<Bytes>)
    requires lines != [] && WellLined(lines) && IsData(lines[0]) && Values(lines[1..]) == [] && |values| > 1
    requires NoLFs(values) && CanExpand(lines, values)
    ensures var read := Values(Rewrite(lines, values));
      NoLFs(read) && read != [] && (read == Pad(values, |Values(lines)|) <==> FaithfulAll(lines, values))
  {
    hide IsLine, NoLF, Content, IsData, Prefix, Ending, EndsInLF, Spread, Place, Value, Faithful, Terminated, NoLFs;
    var line, rest := lines[0], lines[1..];
    assert IsLine(line);
    SpreadKind(line, values);
    EndingTerminated(line);
    ValuesPlus(Spread(Prefix(line), values, Ending(line)), rest);
    assert Values(Rewrite(lines, values)) == Values(Spread(Prefix(line), values, Ending(line)));
  }

  lemma PlaceValues(lines: seq<Bytes>, values: seq<Bytes>)
    requires lines != [] && IsLine(lines[0]) && IsData(lines[0]) && NoLFs(values)
    requires Values(lines[1..]) != [] || |values| <= 1
    ensures var placed := Place(Prefix(lines[0]), Head(values), Ending(lines[0]));
      IsData(placed) && Values(Rewrite(lines, values)) == [Value(placed)] + Values(Rewrite(lines[1..], Tail(values)))
      && (Value(placed) == Head(values) <==> Faithful(Prefix(lines[0]), Head(values), Ending(lines[0])))
      && (NoLFs(Values(Rewrite(lines[1..], Tail(values)))) ==> NoLFs(Values(Rewrite(lines, values))))
  {
    hide IsLine, NoLF, Content, IsData, Prefix, Ending, Place, Value, Faithful, Terminated;
    TailNoLFs(values);
    PlacedKind(lines[0], Head(values));
    Parts(lines[0]);
    PlacedValue(Prefix(lines[0]), Head(values), Ending(lines[0]));
    var placed := Place(Prefix(lines[0]), Head(values), Ending(lines[0]));
    var out := Rewrite(lines, values);
    assert out[0] == placed && out[1..] == Rewrite(lines[1..], Tail(values));
  }

  /** Frame.WithData. */
  function WithData(raw: Bytes, payload: Bytes): Option<Bytes> {
    var lines, values := Lines(raw), Split(payload);
    if Values(lines) == [] then None
    else if Join(Values(lines)) == payload then Some(raw)
    else if |values| > |Values(lines)| && LastEnding(lines) == [] then None
    else Some(Concat(Rewrite(lines, values)))
  }

  lemma {:induction false} RewriteSame(lines: seq<Bytes>)
    requires WellLined(lines)
    ensures Rewrite(lines, Values(lines)) == lines && NoLFs(Values(lines))
  {
    hide IsLine, Content, IsData, Prefix, Ending, Terminated, Value, Faithful, WellLined, NoLF, EndsInLF;
    if lines != [] {
      WellSplit(lines);
      SingleLine(lines[0]);
      RewriteSame(lines[1..]);
      if IsData(lines[0]) {
        Parts(lines[0]);
        assert Tail(Values(lines)) == Values(lines[1..]);
      } else {
        assert Values(lines) == Values(lines[1..]);
      }
    }
  }

  /** The rewritten frame's lines are the rewritten lines. */
  lemma RewrittenLines(raw: Bytes, payload: Bytes)
    requires WithData(raw, payload).Some?
    ensures Lines(WithData(raw, payload).value) == Rewrite(Lines(raw), Split(payload))
    ensures WellLined(Lines(raw)) && NoLFs(Split(payload)) && CanExpand(Lines(raw), Split(payload))
  {
    hide IsLine, Content, IsData, Prefix, Ending, Terminated, Value, WellLined, NoLF, EndsInLF, Rewrite, Lines, Concat, NoLFs, Split, Join;
    var lines := Lines(raw);
    LinesWell(raw);
    SplitJoin(payload);
    if Join(Values(lines)) == payload {
      RewriteSame(lines);
      JoinSplit(Values(lines));
    } else {
      RewriteLines(lines, Split(payload));
      LinesOf(Rewrite(lines, Split(payload)));
    }
  }

  /** Data after WithData is the payload, with one LF for every surplus field, exactly when the
      payload's lines are placed faithfully. */
  lemma RoundTrip(raw: Bytes, payload: Bytes)
    requires WithData(raw, payload).Some?
    ensures var surplus := |Values(Lines(raw))| - |Split(payload)|;
      Data(WithData(raw, payload).value) == Some(payload + LFs(if surplus > 0 then surplus else 0))
      <==> FaithfulAll(Lines(raw), Split(payload))
  {
    hide IsLine, Content, IsData, Prefix, Ending, Terminated, Value, WellLined, NoLF, EndsInLF, Rewrite, Lines, Concat, NoLFs, Split,
      Join, FaithfulAll, Values, WithData;
    var lines, values := Lines(raw), Split(payload);
    RewrittenLines(raw, payload);
    HasFields(raw, payload);
    RewriteValues(lines, values);
    SplitJoin(payload);
    var n := |Values(lines)|;
    JoinPad(values, n);
    var read := Values(Rewrite(lines, values));
    JoinSplit(read);
    JoinSplit(Pad(values, n));
  }

  lemma HasFields(raw: Bytes, payload: Bytes)
    requires WithData(raw, payload).Some?
    ensures Values(Lines(raw)) != []
  {}

  function LFs(n: nat): Bytes { seq(n, i => LF) }

  lemma {:induction false} JoinPad(values: seq<Bytes>, fields: nat)
    requires values != [] && NoLFs(values)
    ensures Pad(values, fields) != [] && NoLFs(Pad(values, fields))
    ensures Join(Pad(values, fields)) == Join(values) + LFs(if fields > |values| then fields - |values| else 0)
  {
    if fields > |values| {
      JoinBlanks(values, fields - |values|);
    } else {
      assert Join(values) + LFs(0) == Join(values);
    }
  }

  lemma {:induction false} JoinBlanks(values: seq<Bytes>, n: nat)
    requires values != []
    ensures Join(values + Blanks(n)) == Join(values) + LFs(n)
    decreases |values|, n
  {
    hide Join, Blanks, LFs;
    if |values| > 1 {
      var first, rest := values[0], values[1..];
      JoinBlanks(rest, n);
      assert values == [first] + rest && values + Blanks(n) == [first] + (rest + Blanks(n));
      JoinCons(first, rest);
      JoinCons(first, rest + Blanks(n));
      Assoc(first + [LF], Join(rest), LFs(n));
    } else if n > 0 {
      JoinBlanks([[]], n - 1);
      OneBlank(n);
      assert values + Blanks(n) == [values[0]] + ([[]] + Blanks(n - 1));
      JoinCons(values[0], [[]] + Blanks(n - 1));
      Assoc(values[0], [LF], LFs(n - 1));
      JoinOne(values[0]);
      JoinOne([]);
      assert values == [values[0]];
    } else {
      NoBlanks(values, Join(values));
    }
  }

  lemma JoinCons(first: Bytes, rest: seq<Bytes>)
    requires rest != []
    ensures Join([first] + rest) == first + [LF] + Join(rest)
  {
    assert ([first] + rest)[1..] == rest;
  }

  lemma JoinOne(value: Bytes)
    ensures Join([value]) == value
  {}

  lemma OneBlank(n: nat)
    requires n > 0
    ensures Blanks(n) == [[]] + Blanks(n - 1) && LFs(n) == [LF] + LFs(n - 1)
  {}

  lemma NoBlanks(values: seq<Bytes>, joined: Bytes)
    ensures values + Blanks(0) == values && joined + LFs(0) == joined
  {}

  /** A frame of LF-ended lines takes any payload whose lines neither begin with a space nor end
      in a CR. */
  lemma {:induction false} PlainPayloads(lines: seq<Bytes>, values: seq<Bytes>)
    requires AllTerminated(lines)
    requires forall v <- values :: v != [] ==> v[0] != SP && v[|v| - 1] != CR
    ensures FaithfulAll(lines, values)
  {
    hide IsLine, Content, IsData, Prefix, NoLF, Ending, Terminated;
    if lines != [] {
      EndingTerminated(lines[0]);
      assert Terminated(lines[0]);
      PlainPayloads(lines[1..], values);
      PlainPayloads(lines[1..], Tail(values));
    }
  }

  // ---------------------------------------------------------- what a rewrite keeps

  /** The lines that are not data fields. */
  function Others(lines: seq<Bytes>): seq<Bytes> {
    if lines == [] then [] else (if IsData(lines[0]) then [] else [lines[0]]) + Others(lines[1..])
  }

  lemma {:induction false} OthersPlus(a: seq<Bytes>, b: seq<Bytes>)
    ensures Others(a + b) == Others(a) + Others(b)
  {
    hide IsData;
    if a == [] {
      assert a + b == b;
    } else {
      assert (a + b)[1..] == a[1..] + b;
      OthersPlus(a[1..], b);
    }
  }

  lemma {:induction false} PlacedAreData(prefix: Bytes, values: seq<Bytes>, ending: Bytes)
    requires IsPrefix(prefix) && IsEnding(ending) && NoLFs(values)
    ensures forall line <- Placed(prefix, values, ending) :: IsData(line)
  {
    hide IsLine, NoLF, Terminated, Faithful, IsPrefix, IsEnding, Place, Content, IsData, Value;
    if values != [] {
      assert forall v <- values[1..] :: v in values;
      PlacedValue(prefix, values[0], ending);
      PlacedAreData(prefix, values[1..], ending);
    }
  }

  lemma SpreadAreData(line: Bytes, values: seq<Bytes>)
    requires IsLine(line) && IsData(line) && NoLFs(values) && values != []
    ensures forall l <- Spread(Prefix(line), values, Ending(line)) :: IsData(l)
  {
    hide IsLine, NoLF, Content, IsData, PrefixLength, Value, Faithful, Prefix, Glue;
    var prefix, ending := Prefix(line), Ending(line);
    Parts(line);
    if Terminated(ending) {
      PlacedAreData(prefix, values, ending);
    } else {
      PrefixNoLF(prefix);
      CRNoLF(ending);
      GlueNoLF(prefix, values, ending);
      GlueIs(prefix, values, ending);
      PlacedValue(prefix, Glue(prefix, values, ending), ending);
    }
  }

  lemma {:induction false} NoOthers(lines: seq<Bytes>)
    requires forall line <- lines :: IsData(line)
    ensures Others(lines) == []
  {
    hide IsData;
    if lines != [] { NoOthers(lines[1..]); }
  }

  /** A rewrite puts data lines in place of a data line, and then rewrites the rest unless the
      payload ran out in an expansion. */
  lemma RewriteHead(lines: seq<Bytes>, values: seq<Bytes>) returns (head: seq<Bytes>, left: Option<seq<Bytes>>)
    requires lines != [] && WellLined(lines) && NoLFs(values)
    ensures Rewrite(lines, values) == head + (if left.Some? then Rewrite(lines[1..], left.value) else lines[1..])
    ensures left.Some? ==> NoLFs(left.value)
    ensures head != [] && if IsData(lines[0]) then forall l <- head :: IsData(l) else head == [lines[0]] && left == Some(values)
  {
    hide IsLine, NoLF, Content, IsData, Prefix, Ending, Spread, Place, Terminated;
    var line := lines[0];
    assert IsLine(line);
    if !IsData(line) {
      head, left := [line], Some(values);
    } else if Values(lines[1..]) == [] && |values| > 1 {
      head, left := Spread(Prefix(line), values, Ending(line)), None;
      SpreadAreData(line, values);
      SpreadSome(Prefix(line), values, Ending(line));
    } else {
      head, left := [Place(Prefix(line), Head(values), Ending(line))], Some(Tail(values));
      TailNoLFs(values);
      PlacedKind(line, Head(values));
    }
  }

  lemma SpreadSome(prefix: Bytes, values: seq<Bytes>, ending: Bytes)
    requires values != []
    ensures Spread(prefix, values, ending) != []
  {}

  /** Every line that is not a data field survives a rewrite, in order. */
  lemma {:induction false} OthersKept(lines: seq<Bytes>, values: seq<Bytes>)
    requires WellLined(lines) && NoLFs(values)
    ensures Others(Rewrite(lines, values)) == Others(lines)
  {
    hide IsLine, NoLF, Content, IsData, Prefix, Ending, Spread, Place, Terminated, NoLFs, WellLined, Rewrite;
    if lines == [] {
      FieldCases(lines, values);
    } else {
      WellSplit(lines);
      var head, left := RewriteHead(lines, values);
      if left.Some? {
        OthersKept(lines[1..], left.value);
      }
      OthersPlus(head, if left.Some? then Rewrite(lines[1..], left.value) else lines[1..]);
      if IsData(lines[0]) {
        NoOthers(head);
      } else {
        OthersOne(lines[0]);
      }
    }
  }

  lemma OthersOne(line: Bytes)
    ensures !IsData(line) ==> Others([line]) == [line]
  {
    hide IsData;
  }

  /** Where each line of a frame ends up in its rewrite. */
  predicate LineKept(lines: seq<Bytes>, values: seq<Bytes>, k: nat)
    requires k < |lines|
  {
    var out, after := Rewrite(lines, values), |lines| - k - 1;
    && |out| >= |lines|
    && if Values(lines[k..]) == [] then out[|out| - 1 - after] == lines[k]
       else if !IsData(lines[k]) then out[k] == lines[k]
       else if Values(lines[k + 1..]) == [] && |values| > |Values(lines[..k])| + 1 then
         out[k..|out| - after] == Spread(Prefix(lines[k]), values[|Values(lines[..k])|..], Ending(lines[k]))
       else out[k] == Place(Prefix(lines[k]), Nth(values, |Values(lines[..k])|), Ending(lines[k]))
  }

  function Nth(values: seq<Bytes>, i: nat): Bytes { if i < |values| then values[i] else [] }

  /** Lines that are not data fields, and the fields before the last, keep their places; an expansion
      spreads out in the place of the last field, and what follows it moves down. */
  lemma {:induction false} LinesKept(lines: seq<Bytes>, values: seq<Bytes>, k: nat)
    requires k < |lines|
    ensures LineKept(lines, values, k)
    decreases lines
  {
    hide *;
    if Values(lines[1..]) == [] && |values| > 1 && IsData(lines[0]) {
      LastLineKept(lines, values, k);
    } else if k == 0 {
      FirstLineKept(lines, values);
    } else {
      var left := if IsData(lines[0]) then Tail(values) else values;
      LinesKept(lines[1..], left, k - 1);
      LaterLineKept(lines, values, left, k);
    }
  }

  lemma LastLineKept(lines: seq<Bytes>, values: seq<Bytes>, k: nat)
    requires k < |lines| && IsData(lines[0]) && Values(lines[1..]) == [] && |values| > 1
    ensures LineKept(lines, values, k)
  {
    hide Content, IsData, Prefix, Ending, Spread, Place, Value;
    SpreadSome(Prefix(lines[0]), values, Ending(lines[0]));
    if k > 0 {
      NoValuesAfter(lines[1..], k - 1);
      assert lines[1..][k - 1..] == lines[k..];
    } else {
      assert lines[0..] == lines && values[0..] == values;
    }
  }

  lemma FirstLineKept(lines: seq<Bytes>, values: seq<Bytes>)
    requires lines != [] && !(IsData(lines[0]) && Values(lines[1..]) == [] && |values| > 1)
    ensures LineKept(lines, values, 0)
  {
    hide Content, IsData, Prefix, Ending, Spread, Place, Value;
    assert lines[0..] == lines && lines[..0] == [];
    RewriteLength(lines, values);
    if Values(lines) == [] { RewriteNothing(lines, values); }
  }

  lemma LaterLineKept(lines: seq<Bytes>, values: seq<Bytes>, left: seq<Bytes>, k: nat)
    requires 0 < k < |lines| && !(IsData(lines[0]) && Values(lines[1..]) == [] && |values| > 1)
    requires left == if IsData(lines[0]) then Tail(values) else values
    requires LineKept(lines[1..], left, k - 1)
    ensures LineKept(lines, values, k)
  {
    hide Content, IsData, Prefix, Ending, Spread, Place, Value, Rewrite, Values;
    var rest := lines[1..];
    assert rest[k - 1] == lines[k] && rest[k - 1..] == lines[k..] && rest[k..] == lines[k + 1..];
    OneLine(lines, values, left);
    assert lines[..k][0] == lines[0] && lines[..k][1..] == rest[..k - 1];
    OneLineValues(lines[..k]);
    var out, next, n := Rewrite(lines, values), Rewrite(rest, left), |Values(rest[..k - 1])|;
    assert out[1..] == next && forall i :: 0 < i < |out| ==> out[i] == next[i - 1];
    var after := |lines| - k - 1;
    assert out[k..|out| - after] == next[k - 1..|next| - after];
    if IsData(lines[0]) {
      assert Nth(values, n + 1) == Nth(left, n);
      assert |values| > n + 1 ==> values[n + 1..] == left[n..];
    }
  }

  lemma OneLine(lines: seq<Bytes>, values: seq<Bytes>, left: seq<Bytes>)
    requires lines != [] && !(IsData(lines[0]) && Values(lines[1..]) == [] && |values| > 1)
    requires left == if IsData(lines[0]) then Tail(values) else values
    ensures Rewrite(lines, values) != [] && Rewrite(lines, values)[1..] == Rewrite(lines[1..], left)
  {
    hide Content, IsData, Prefix, Ending, Spread, Place, Value;
  }

  lemma OneLineValues(lines: seq<Bytes>)
    requires lines != []
    ensures |Values(lines)| == |Values(lines[1..])| + if IsData(lines[0]) then 1 else 0
  {
    hide Content, IsData, Value;
  }

  lemma {:induction false} RewriteLength(lines: seq<Bytes>, values: seq<Bytes>)
    ensures |Rewrite(lines, values)| >= |lines|
  {
    hide Content, IsData, Prefix, Ending, Spread, Place, Value;
    if lines != [] {
      if values != [] && IsData(lines[0]) { SpreadSome(Prefix(lines[0]), values, Ending(lines[0])); }
      RewriteLength(lines[1..], if IsData(lines[0]) then Tail(values) else values);
    }
  }

  lemma {:induction false} NoValuesAfter(lines: seq<Bytes>, k: nat)
    requires Values(lines) == [] && k <= |lines|
    ensures Values(lines[k..]) == []
  {
    hide IsData, Value;
    if k > 0 {
      NoValuesAfter(lines[1..], k - 1);
      assert lines[1..][k - 1..] == lines[k..];
    }
  }

  // ---------------------------------------------------------------- frames, events

  predicate Blank(line: Bytes) { line == [LF] || line == [CR, LF] }

  /** The lines of one frame: the only blank line is the last. */
  predicate FrameLines(lines: seq<Bytes>) {
    lines != [] && if |lines| == 1 then Blank(lines[0]) else !Blank(lines[0]) && FrameLines(lines[1..])
  }

  /** One complete frame, as Reader.Read returns it. */
  predicate IsFrame(raw: Bytes) { FrameLines(Lines(raw)) && EndsInLF(Lines(raw)) }

  predicate IsEvent(line: Bytes) { EventPrefix() <= Content(line) }

  function EventName(line: Bytes): Bytes
    requires IsEvent(line)
  {
    if 6 < |Content(line)| && Content(line)[6] == SP then Content(line)[7..] else Content(line)[6..]
  }

  /** The last event field's value. */
  function EventOf(lines: seq<Bytes>, current: Bytes): Bytes {
    if lines == [] then current else EventOf(lines[1..], if IsEvent(lines[0]) then EventName(lines[0]) else current)
  }

  lemma DataIsPlain(line: Bytes)
    requires IsData(line)
    ensures !Blank(line) && !IsEvent(line)
  {
    assert Content(line)[0] == DataPrefix()[0];
  }

  lemma {:induction false} EventSkips(head: seq<Bytes>, rest: seq<Bytes>, current: Bytes)
    requires forall line <- head :: IsData(line)
    ensures EventOf(head + rest, current) == EventOf(rest, current)
    ensures rest != [] && FrameLines(rest) ==> FrameLines(head + rest)
  {
    hide IsData, IsEvent, EventName, Blank;
    if head == [] {
      assert head + rest == rest;
    } else {
      DataIsPlain(head[0]);
      assert (head + rest)[1..] == head[1..] + rest;
      EventSkips(head[1..], rest, current);
    }
  }

  /** A rewritten frame is still one frame with the same event. */
  lemma {:induction false} RewriteFrame(lines: seq<Bytes>, values: seq<Bytes>, current: Bytes)
    requires WellLined(lines) && NoLFs(values)
    ensures EventOf(Rewrite(lines, values), current) == EventOf(lines, current)
    ensures FrameLines(lines) ==> FrameLines(Rewrite(lines, values))
    decreases lines
  {
    hide IsLine, NoLF, Content, IsData, Prefix, Ending, Spread, Place, Terminated, NoLFs, WellLined, Rewrite, IsEvent, EventName, Blank;
    if lines == [] {
      FieldCases(lines, values);
    } else {
      WellSplit(lines);
      var head, left := RewriteHead(lines, values);
      var rest := if left.Some? then Rewrite(lines[1..], left.value) else lines[1..];
      if left.Some? {
        RewriteFrame(lines[1..], left.value, if IsEvent(lines[0]) then EventName(lines[0]) else current);
      }
      if IsData(lines[0]) {
        DataIsPlain(lines[0]);
        EventSkips(head, rest, current);
      } else {
        if lines[1..] == [] { FieldCases([], values); }
        assert (head + rest)[1..] == rest;
      }
    }
  }

  /** Rewriting a frame's payload leaves one frame with the same event value. */
  lemma RereadsAsOne(raw: Bytes, payload: Bytes)
    requires IsFrame(raw) && WithData(raw, payload).Some?
    ensures var out := WithData(raw, payload).value;
      IsFrame(out) && EventOf(Lines(out), []) == EventOf(Lines(raw), [])
  {
    hide IsLine, NoLF, Terminated, NoLFs, WellLined, Rewrite, FrameLines, EndsInLF, WithData, Lines, EventOf, Split, CanExpand;
    RewrittenLines(raw, payload);
    RewriteFrame(Lines(raw), Split(payload), []);
    RewriteLines(Lines(raw), Split(payload));
  }

  // --------------------------------------------------------------------- the code

  datatype Field = Field(lineStart: nat, valueStart: nat, valueEnd: nat, lineEnd: nat)

  /** Where the data fields of consecutive lines lie, the first line starting at the offset. */
  function Fields(lines: seq<Bytes>, offset: nat): seq<Field> {
    if lines == [] then []
    else
      var line := lines[0];
      (if IsData(line) then
         [Field(offset, offset + PrefixLength(line), offset + |Content(line)|, offset + |line|)]
       else [])
      + Fields(lines[1..], offset + |line|)
  }

  lemma {:induction false} JoinSnoc(values: seq<Bytes>, v: Bytes)
    ensures Join(values + [v]) == Join(values) + (if values == [] then v else [LF] + v)
  {
    if |values| > 1 {
      assert (values + [v])[1..] == values[1..] + [v];
      JoinSnoc(values[1..], v);
    } else if |values| == 1 {
      assert (values + [v])[1..] == [v];
    }
  }

  lemma FieldsCons(line: Bytes, rest: seq<Bytes>, offset: nat)
    ensures Fields([line] + rest, offset) == Fields([line], offset) + Fields(rest, offset + |line|)
    ensures Values([line] + rest) == Values([line]) + Values(rest)
  {
    hide Content, IsData, PrefixLength, Value;
    ValuesPlus([line], rest);
    assert ([line] + rest)[1..] == rest && [line][1..] == [];
  }

  lemma NextLine(raw: Bytes, at: nat)
    requires at < |raw|
    ensures var end := at + LineEnd(raw[at..]);
      at < end <= |raw| && IsLine(raw[at..end]) && Lines(raw[at..]) == [raw[at..end]] + Lines(raw[end..])
  {
    hide IsLine;
    var end := at + LineEnd(raw[at..]);
    assert raw[at..][..end - at] == raw[at..end] && raw[at..][end - at..] == raw[end..];
  }

  /** Fields and values found so far, and those of the lines still to come. */
  ghost predicate Parsed(raw: Bytes, at: nat, fields: seq<Field>, values: seq<Bytes>) {
    && at <= |raw| && |values| == |fields|
    && fields + Fields(Lines(raw[at..]), at) == Fields(Lines(raw), 0)
    && values + Values(Lines(raw[at..])) == Values(Lines(raw))
  }

  lemma ParsedStart(raw: Bytes)
    ensures Parsed(raw, 0, [], []) && Join([]) == []
  {
    hide Lines, Values, Fields;
    assert raw[0..] == raw;
  }

  lemma Assoc<T>(a: seq<T>, b: seq<T>, c: seq<T>)
    ensures a + (b + c) == a + b + c && a + ([] + c) == a + c
  {}

  lemma ParsedStep(raw: Bytes, at: nat, fields: seq<Field>, values: seq<Bytes>)
    requires Parsed(raw, at, fields, values) && at < |raw|
    ensures var end := at + LineEnd(raw[at..]); var line := raw[at..end];
      at < end <= |raw|
      && if IsData(line) then
           Parsed(raw, end, fields + [Field(at, at + PrefixLength(line), at + |Content(line)|, end)], values + [Value(line)])
         else Parsed(raw, end, fields, values)
  {
    hide IsLine, Lines, Values, Fields, Content, IsData, PrefixLength, Value, LineEnd;
    NextLine(raw, at);
    var end := at + LineEnd(raw[at..]);
    var line, rest := raw[at..end], Lines(raw[end..]);
    FieldsCons(line, rest, at);
    FieldOf(line, at);
    Assoc(fields, Fields([line], at), Fields(rest, end));
    Assoc(values, Values([line]), Values(rest));
  }

  lemma ParsedEnd(raw: Bytes, fields: seq<Field>, values: seq<Bytes>)
    requires Parsed(raw, |raw|, fields, values)
    ensures fields == Fields(Lines(raw), 0) && values == Values(Lines(raw)) && |fields| == |values|
  {
    assert Lines(raw[|raw|..]) == [];
    hide Lines;
  }

  /** parseData. */
  method ParseData(raw: Bytes) returns (payload: Bytes, fields: seq<Field>)
    ensures payload == Join(Values(Lines(raw))) && fields == Fields(Lines(raw), 0)
    ensures |fields| == |Values(Lines(raw))|
  {
    hide Lines, Values, Fields, Parsed, Join, Content, IsData, IsLine, NoLF, Terminated, Value, PrefixLength, LineEnd, Ending;
    payload, fields := [], [];
    var lineStart := 0;
    ghost var values: seq<Bytes> := [];
    ParsedStart(raw);
    while lineStart < |raw|
      invariant Parsed(raw, lineStart, fields, values) && lineStart <= |raw|
      invariant payload == Join(values) && (|fields| == 0 <==> values == [])
      decreases |raw| - lineStart
    {
      ParsedStep(raw, lineStart, fields, values);
      var lineEnd := lineStart + LineEnd(raw[lineStart..]);
      var contentEnd := lineEnd;
      if contentEnd > lineStart && raw[contentEnd - 1] == LF {
        contentEnd := contentEnd - 1;
      }
      if contentEnd > lineStart && raw[contentEnd - 1] == CR {
        contentEnd := contentEnd - 1;
      }
      ContentEnds(raw, lineStart, lineEnd, contentEnd);
      FieldOf(raw[lineStart..lineEnd], lineStart);
      var line := raw[lineStart..contentEnd];
      if DataPrefix() <= line {
        var valueStart := lineStart + 5;
        if valueStart < contentEnd && raw[valueStart] == SP {
          valueStart := valueStart + 1;
        }
        ValueSlice(raw, lineStart, lineEnd, contentEnd, valueStart);
        JoinSnoc(values, raw[valueStart..contentEnd]);
        if |fields| > 0 {
          payload := payload + [LF];
        }
        payload := payload + raw[valueStart..contentEnd];
        fields := fields + [Field(lineStart, valueStart, contentEnd, lineEnd)];
        values := values + [raw[valueStart..contentEnd]];
      }
      lineStart := lineEnd;
    }
    ParsedEnd(raw, fields, values);
  }

  lemma ContentEnds(raw: Bytes, start: nat, end: nat, contentEnd: nat)
    requires start < end <= |raw|
    requires var first := if raw[end - 1] == LF then end - 1 else end;
      contentEnd == if first > start && raw[first - 1] == CR then first - 1 else first
    ensures start <= contentEnd <= end && Content(raw[start..end]) == raw[start..contentEnd]
  {
    hide Ending, Content;
    var line := raw[start..end];
    EndingLength(line);
    LastTwo(raw, start, end);
    ContentIs(line);
    HeadOfSlice(raw, start, end, contentEnd - start);
  }

  /** How long an ending is, by a line's last two bytes. */
  lemma EndingLength(line: Bytes)
    requires line != []
    ensures var n := |line|;
      |Ending(line)| ==
        if line[n - 1] == LF then if n > 1 && line[n - 2] == CR then 2 else 1
        else if line[n - 1] == CR then 1 else 0
  {}

  lemma LastTwo(raw: Bytes, start: nat, end: nat)
    requires start < end <= |raw|
    ensures var line := raw[start..end];
      |line| == end - start && line[|line| - 1] == raw[end - 1] && (|line| > 1 ==> line[|line| - 2] == raw[end - 2])
  {}

  lemma ContentIs(line: Bytes)
    ensures Content(line) == line[..|line| - |Ending(line)|]
  {
    hide Ending;
  }

  lemma HeadOfSlice(raw: Bytes, start: nat, end: nat, n: nat)
    requires start <= end <= |raw| && n <= end - start
    ensures raw[start..end][..n] == raw[start..start + n]
  {}

  lemma FieldOf(line: Bytes, offset: nat)
    ensures IsData(line) <==> DataPrefix() <= Content(line)
    ensures Fields([line], offset) == if IsData(line) then
      [Field(offset, offset + PrefixLength(line), offset + |Content(line)|, offset + |line|)] else []
    ensures Values([line]) == if IsData(line) then [Value(line)] else []
  {
    hide Content, Value, PrefixLength;
  }

  lemma ValueSlice(raw: Bytes, start: nat, end: nat, contentEnd: nat, valueStart: nat)
    requires start < end <= |raw| && start <= contentEnd <= end && Content(raw[start..end]) == raw[start..contentEnd]
    requires IsData(raw[start..end])
    requires valueStart == if start + 5 < contentEnd && raw[start + 5] == SP then start + 6 else start + 5
    ensures valueStart <= contentEnd && valueStart == start + PrefixLength(raw[start..end])
    ensures Value(raw[start..end]) == raw[valueStart..contentEnd]
  {
    hide Content;
  }

  /** Fields in order, each inside the text and after the last value. */
  predicate Fit(raw: Bytes, fields: seq<Field>, previous: nat) {
    if fields == [] then previous <= |raw|
    else
      var f := fields[0];
      previous <= f.lineStart <= f.valueStart <= f.valueEnd <= f.lineEnd <= |raw| && Fit(raw, fields[1..], f.valueEnd)
  }

  function Splice(raw: Bytes, fields: seq<Field>, values: seq<Bytes>, previous: nat): Bytes
    requires Fit(raw, fields, previous) && |values| == |fields|
  {
    if fields == [] then raw[previous..]
    else raw[previous..fields[0].valueStart] + values[0] + Splice(raw, fields[1..], values[1..], fields[0].valueEnd)
  }

  function Replacements(raw: Bytes, fields: seq<Field>, previous: nat, values: seq<Bytes>): (r: seq<Bytes>)
    requires Fit(raw, fields, previous)
    ensures |r| == |fields|
  {
    if fields == [] then []
    else
      var f := fields[0];
      (if |fields| == 1 && |values| > 1 then [Glue(raw[f.lineStart..f.valueStart], values, raw[f.valueEnd..f.lineEnd])]
       else [Head(values)])
      + Replacements(raw, fields[1..], f.valueEnd, Tail(values))
  }

  lemma {:induction false} FieldCount(lines: seq<Bytes>, offset: nat)
    ensures |Fields(lines, offset)| == |Values(lines)|
  {
    hide Fields, Values;
    if lines == [] {
      CountNothing(offset);
    } else {
      CountOne(lines, offset);
      FieldCount(lines[1..], offset + |lines[0]|);
    }
  }

  lemma CountNothing(offset: nat)
    ensures Fields([], offset) == [] && Values([]) == []
  {}

  lemma CountOne(lines: seq<Bytes>, offset: nat)
    requires lines != []
    ensures var n := if IsData(lines[0]) then 1 else 0;
      |Fields(lines, offset)| == n + |Fields(lines[1..], offset + |lines[0]|)| && |Values(lines)| == n + |Values(lines[1..])|
  {
    hide IsData, Content, Value, PrefixLength;
  }

  lemma {:induction false} RewriteNothing(lines: seq<Bytes>, values: seq<Bytes>)
    requires Values(lines) == []
    ensures Rewrite(lines, values) == lines
  {
    hide IsData, Content, Value, Prefix, Ending;
    if lines != [] {
      RewriteNothing(lines[1..], values);
      assert lines == [lines[0]] + lines[1..];
    }
  }

  lemma ConcatOne(line: Bytes, rest: seq<Bytes>)
    ensures Concat([line] + rest) == line + Concat(rest)
  {
    assert ([line] + rest)[1..] == rest;
  }

  lemma LineParts(line: Bytes)
    requires IsData(line)
    ensures PrefixLength(line) <= |Content(line)| <= |line|
    ensures line[..PrefixLength(line)] == Prefix(line) && line[|Content(line)|..] == Ending(line)
  {
    hide IsLine;
    assert Content(line)[..5] == DataPrefix();
  }

  /** Where a data line's parts lie in the text. */
  lemma FieldParts(raw: Bytes, line: Bytes, at: nat)
    requires at + |line| <= |raw| && raw[at..at + |line|] == line && IsData(line)
    ensures var vs, ve, le := at + PrefixLength(line), at + |Content(line)|, at + |line|;
      at <= vs <= ve <= le && raw[at..vs] == Prefix(line) && raw[ve..le] == Ending(line)
  {
    LineParts(line);
    hide Content, PrefixLength, Prefix, Ending, IsData;
    var whole := raw[at..at + |line|];
    var ps, cs, all := PrefixLength(line), |Content(line)|, |line|;
    assert whole[..ps] == raw[at..at + ps];
    assert whole[cs..] == raw[at + cs..at + all];
  }

  /** The first of the lines ahead, and the text after it. */
  lemma TextAhead(raw: Bytes, lines: seq<Bytes>, at: nat)
    requires at <= |raw| && raw[at..] == Concat(lines) && lines != []
    ensures var end := at + |lines[0]|;
      end <= |raw| && raw[at..end] == lines[0] && raw[end..] == Concat(lines[1..])
  {
    var line, rest := lines[0], Concat(lines[1..]);
    assert raw[at..] == line + rest;
    hide Concat;
    assert raw[at..][..|line|] == line && raw[at..][|line|..] == rest;
  }

  /** Splicing the replacements into the text gives the rewritten lines. */
  lemma {:induction false} SpliceIsRewrite(raw: Bytes, lines: seq<Bytes>, at: nat, previous: nat, values: seq<Bytes>)
    requires previous <= at <= |raw| && raw[at..] == Concat(lines)
    ensures var fields := Fields(lines, at);
      Fit(raw, fields, previous)
      && Splice(raw, fields, Replacements(raw, fields, previous, values), previous)
         == raw[previous..at] + Concat(Rewrite(lines, values))
    decreases |lines|
  {
    hide IsData, Content, Value, PrefixLength, Prefix, Ending, Glue, Spread, Place, Fields, Splice, Replacements, Rewrite, Fit, Concat;
    if lines == [] {
      SpliceEnd(raw, at, previous, values);
    } else {
      var line, rest := lines[0], lines[1..];
      var end := at + |line|;
      TextAhead(raw, lines, at);
      if IsData(line) {
        SpliceField(raw, lines, at, previous, values);
      } else {
        SpliceIsRewrite(raw, rest, end, previous, values);
        SkipField(lines, at, values);
        assert raw[previous..end] == raw[previous..at] + line;
      }
    }
  }

  lemma SpliceEnd(raw: Bytes, at: nat, previous: nat, values: seq<Bytes>)
    requires previous <= at <= |raw| && raw[at..] == Concat([])
    ensures Fields([], at) == [] && Fit(raw, [], previous) && Rewrite([], values) == [] && Concat([]) == []
    ensures Splice(raw, [], Replacements(raw, [], previous, values), previous) == raw[previous..at] + []
  {
    assert raw[previous..at] == raw[previous..];
  }

  lemma SkipField(lines: seq<Bytes>, at: nat, values: seq<Bytes>)
    requires lines != [] && !IsData(lines[0])
    ensures Fields(lines, at) == Fields(lines[1..], at + |lines[0]|)
    ensures Concat(Rewrite(lines, values)) == lines[0] + Concat(Rewrite(lines[1..], values))
  {
    hide IsData;
    ConcatOne(lines[0], Rewrite(lines[1..], values));
  }

  lemma {:induction false} SpliceField(raw: Bytes, lines: seq<Bytes>, at: nat, previous: nat, values: seq<Bytes>)
    requires lines != [] && IsData(lines[0]) && previous <= at && at + |lines[0]| <= |raw|
    requires raw[at..at + |lines[0]|] == lines[0] && raw[at + |lines[0]|..] == Concat(lines[1..])
    ensures var fields := Fields(lines, at);
      Fit(raw, fields, previous)
      && Splice(raw, fields, Replacements(raw, fields, previous, values), previous)
         == raw[previous..at] + Concat(Rewrite(lines, values))
    decreases |lines|, 0
  {
    hide *;
    var line, rest := lines[0], lines[1..];
    var vs, ve, end := at + PrefixLength(line), at + |Content(line)|, at + |line|;
    FieldParts(raw, line, at);
    var left := if Values(rest) == [] && |values| > 1 then [] else Tail(values);
    SpliceIsRewrite(raw, rest, end, ve, left);
    SpliceUnfold(raw, lines, at, previous, values);
    RewriteUnfold(lines, values);
    var more := Fields(rest, end);
    Assembled(raw, previous, at, vs, Prefix(line), Replacement(lines, values), Ending(line), Concat(Rewrite(rest, left)));
    assert Splice(raw, more, Replacements(raw, more, ve, left), ve) == Ending(line) + Concat(Rewrite(rest, left));
  }

  lemma Assembled(raw: Bytes, previous: nat, at: nat, vs: nat, prefix: Bytes, own: Bytes, ending: Bytes, more: Bytes)
    requires previous <= at <= vs <= |raw| && raw[at..vs] == prefix
    ensures raw[previous..vs] + own + (ending + more) == raw[previous..at] + (Place(prefix, own, ending) + more)
  {
    hide Place;
    Shuffle(raw[previous..at], prefix, own, ending, more);
    Adjacent(raw, previous, at, vs);
  }

  lemma Adjacent(raw: Bytes, a: nat, b: nat, c: nat)
    requires a <= b <= c <= |raw|
    ensures raw[a..c] == raw[a..b] + raw[b..c]
  {}

  lemma Shuffle(a: Bytes, b: Bytes, c: Bytes, d: Bytes, e: Bytes)
    ensures (a + b) + c + (d + e) == a + (Place(b, c, d) + e)
  {}

  /** What the first data line of these receives. */
  function Replacement(lines: seq<Bytes>, values: seq<Bytes>): Bytes
    requires lines != [] && IsData(lines[0])
  {
    if Values(lines[1..]) == [] && |values| > 1 then Glue(Prefix(lines[0]), values, Ending(lines[0])) else Head(values)
  }

  lemma RewriteUnfold(lines: seq<Bytes>, values: seq<Bytes>)
    requires lines != [] && IsData(lines[0])
    ensures var left := if Values(lines[1..]) == [] && |values| > 1 then [] else Tail(values);
      Concat(Rewrite(lines, values)) ==
      Place(Prefix(lines[0]), Replacement(lines, values), Ending(lines[0])) + Concat(Rewrite(lines[1..], left))
  {
    hide IsData, Content, Value, PrefixLength, Prefix, Ending, Glue, Place;
    var line, rest := lines[0], lines[1..];
    if Values(rest) == [] && |values| > 1 {
      var spread := Spread(Prefix(line), values, Ending(line));
      RewriteNothing(rest, []);
      GlueIs(Prefix(line), values, Ending(line));
      ConcatPlus(spread, rest);
    } else {
      ConcatOne(Place(Prefix(line), Head(values), Ending(line)), Rewrite(rest, Tail(values)));
    }
  }

  lemma SpliceUnfold(raw: Bytes, lines: seq<Bytes>, at: nat, previous: nat, values: seq<Bytes>)
    requires lines != [] && IsData(lines[0]) && previous <= at && at + |lines[0]| <= |raw|
    requires raw[at..at + |lines[0]|] == lines[0]
    requires Fit(raw, Fields(lines[1..], at + |lines[0]|), at + |Content(lines[0])|)
    ensures var fields := Fields(lines, at); var rest := Fields(lines[1..], at + |lines[0]|);
      var vs, ve := at + PrefixLength(lines[0]), at + |Content(lines[0])|;
      var left := if Values(lines[1..]) == [] && |values| > 1 then [] else Tail(values);
      vs <= ve <= |raw| && Fit(raw, fields, previous)
      && Splice(raw, fields, Replacements(raw, fields, previous, values), previous) ==
         raw[previous..vs] + Replacement(lines, values) + Splice(raw, rest, Replacements(raw, rest, ve, left), ve)
  {
    hide IsData, Content, Value, PrefixLength, Prefix, Ending, Glue, Values, Fields, Splice, Replacements, Fit;
    FieldParts(raw, lines[0], at);
    FieldsUnfold(lines, at);
    var rest := Fields(lines[1..], at + |lines[0]|);
    FieldCount(lines[1..], at + |lines[0]|);
    var f := Field(at, at + PrefixLength(lines[0]), at + |Content(lines[0])|, at + |lines[0]|);
    SpliceCons(raw, f, rest, previous, values);
    NoReplacements(raw, rest, f.valueEnd, Tail(values));
  }

  lemma NoReplacements(raw: Bytes, fields: seq<Field>, previous: nat, values: seq<Bytes>)
    requires Fit(raw, fields, previous)
    ensures fields == [] ==> Replacements(raw, fields, previous, values) == [] == Replacements(raw, fields, previous, [])
  {}

  lemma SpliceCons(raw: Bytes, f: Field, rest: seq<Field>, previous: nat, values: seq<Bytes>)
    requires previous <= f.lineStart <= f.valueStart <= f.valueEnd <= f.lineEnd <= |raw| && Fit(raw, rest, f.valueEnd)
    ensures var fields := [f] + rest;
      Fit(raw, fields, previous)
      && Splice(raw, fields, Replacements(raw, fields, previous, values), previous) ==
         raw[previous..f.valueStart]
         + (if rest == [] && |values| > 1 then Glue(raw[f.lineStart..f.valueStart], values, raw[f.valueEnd..f.lineEnd]) else Head(values))
         + Splice(raw, rest, Replacements(raw, rest, f.valueEnd, Tail(values)), f.valueEnd)
  {
    hide Glue;
    var fields := [f] + rest;
    assert fields[1..] == rest;
    var reps := Replacements(raw, fields, previous, values);
    assert reps[1..] == Replacements(raw, rest, f.valueEnd, Tail(values));
  }

  lemma {:induction false} ReplacementAt(raw: Bytes, fields: seq<Field>, previous: nat, values: seq<Bytes>, i: nat)
    requires Fit(raw, fields, previous) && i < |fields|
    ensures var n := |fields|; var f := fields[i];
      f.lineStart <= f.valueStart <= f.valueEnd <= f.lineEnd <= |raw|
      && Replacements(raw, fields, previous, values)[i] ==
         if i == n - 1 && |values| > n then Glue(raw[f.lineStart..f.valueStart], values[n - 1..], raw[f.valueEnd..f.lineEnd])
         else if i < |values| then values[i] else []
  {
    hide Glue;
    if i > 0 {
      ReplacementAt(raw, fields[1..], fields[0].valueEnd, Tail(values), i - 1);
      assert fields[1..][i - 1] == fields[i];
      assert |values| > |fields| ==> Tail(values)[|fields| - 2..] == values[|fields| - 1..];
    } else {
      assert values[0..] == values;
    }
  }

  lemma {:induction false} GlueSnoc(prefix: Bytes, values: seq<Bytes>, v: Bytes, ending: Bytes)
    requires values != []
    ensures Glue(prefix, values + [v], ending) == Glue(prefix, values, ending) + ending + prefix + v
  {
    if |values| > 1 {
      GlueSnoc(prefix, values[1..], v, ending);
      assert (values + [v])[1..] == values[1..] + [v];
      var g := Glue(prefix, values[1..], ending);
      assert values[0] + ending + prefix + (g + ending + prefix + v) == (values[0] + ending + prefix + g) + ending + prefix + v;
    } else {
      assert (values + [v])[1..] == [v];
    }
  }

  lemma {:induction false} LastField(raw: Bytes, lines: seq<Bytes>, at: nat)
    requires at <= |raw| && raw[at..] == Concat(lines) && Values(lines) != []
    ensures var fields := Fields(lines, at);
      fields != [] && var f := fields[|fields| - 1];
      f.valueEnd <= f.lineEnd <= |raw| && raw[f.valueEnd..f.lineEnd] == LastEnding(lines)
    decreases |lines|
  {
    hide IsData, Content, Value, PrefixLength, Prefix, Ending, Concat, Fields, Values, LastEnding;
    NoValues(lines);
    var line, rest := lines[0], lines[1..];
    var end := at + |line|;
    TextAhead(raw, lines, at);
    FieldCount(rest, end);
    FieldsUnfold(lines, at);
    OneLineValues(lines);
    EndingUnfold(lines);
    if IsData(line) { FieldParts(raw, line, at); }
    if Values(rest) != [] { LastField(raw, rest, end); }
  }

  lemma FieldsUnfold(lines: seq<Bytes>, at: nat)
    requires lines != []
    ensures var line := lines[0];
      Fields(lines, at) ==
        (if IsData(line) then [Field(at, at + PrefixLength(line), at + |Content(line)|, at + |line|)] else [])
        + Fields(lines[1..], at + |line|)
  {
    hide IsData, Content, PrefixLength;
  }

  lemma EndingUnfold(lines: seq<Bytes>)
    requires lines != []
    ensures LastEnding(lines) == if IsData(lines[0]) && Values(lines[1..]) == [] then Ending(lines[0]) else LastEnding(lines[1..])
  {
    hide IsData, Ending, Values;
  }

  /** replaceData. */
  method ReplaceData(raw: Bytes, fields: seq<Field>, payload: Bytes) returns (out: Option<Bytes>)
    requires fields != [] && fields == Fields(Lines(raw), 0)
    ensures out == if |Split(payload)| > |fields| && LastEnding(Lines(raw)) == [] then None
                   else Some(Concat(Rewrite(Lines(raw), Split(payload))))
  {
    hide *;
    TheFields(raw, fields, Split(payload));
    var logicalLines := Split(payload);
    var n := |fields|;
    var replacements: seq<Bytes> := seq(n, i => []);
    for i := 0 to if |logicalLines| < n then |logicalLines| else n
      invariant |replacements| == n
      invariant forall k :: 0 <= k < n ==> replacements[k] == if k < i then logicalLines[k] else []
    {
      replacements := replacements[i := logicalLines[i]];
    }
    if |logicalLines| > n {
      var last := fields[n - 1];
      FieldSpan(raw, fields, 0, n - 1);
      var lineEnding := raw[last.valueEnd..last.lineEnd];
      if |lineEnding| == 0 {
        return None;
      }
      var expanded := Expand(raw[last.lineStart..last.valueStart], lineEnding, logicalLines[n - 1..]);
      replacements := replacements[n - 1 := expanded];
    }
    TheReplacements(raw, fields, logicalLines, replacements);
    var reframed := SpliceFields(raw, fields, replacements);
    out := Some(reframed);
  }

  /** The expansion buffer: every further logical line after the ending and the prefix. */
  method Expand(prefix: Bytes, ending: Bytes, values: seq<Bytes>) returns (expanded: Bytes)
    requires values != []
    ensures expanded == Glue(prefix, values, ending)
  {
    expanded := values[0];
    for i := 1 to |values|
      invariant expanded == Glue(prefix, values[..i], ending)
    {
      GlueSnoc(prefix, values[..i], values[i], ending);
      assert values[..i] + [values[i]] == values[..i + 1];
      expanded := expanded + ending + prefix + values[i];
    }
    assert values[..|values|] == values;
  }

  /** The splicing loop. */
  method SpliceFields(raw: Bytes, fields: seq<Field>, replacements: seq<Bytes>) returns (reframed: Bytes)
    requires Fit(raw, fields, 0) && |replacements| == |fields|
    ensures reframed == Splice(raw, fields, replacements, 0)
  {
    hide Fit, Splice;
    reframed := [];
    var previous: nat := 0;
    assert fields[0..] == fields && replacements[0..] == replacements;
    for i := 0 to |fields|
      invariant Fit(raw, fields[i..], previous)
      invariant reframed + Splice(raw, fields[i..], replacements[i..], previous) == Splice(raw, fields, replacements, 0)
    {
      SpliceStep(raw, fields[i..], replacements[i..], previous, reframed);
      assert fields[i..][1..] == fields[i + 1..] && replacements[i..][1..] == replacements[i + 1..];
      var field := fields[i];
      reframed := reframed + raw[previous..field.valueStart] + replacements[i];
      previous := field.valueEnd;
    }
    assert fields[|fields|..] == [] && replacements[|fields|..] == [];
    FitBound(raw, [], previous);
    reframed := reframed + raw[previous..];
  }

  lemma SpliceStep(raw: Bytes, fields: seq<Field>, values: seq<Bytes>, previous: nat, done: Bytes)
    requires Fit(raw, fields, previous) && |values| == |fields| > 0
    ensures var f := fields[0];
      previous <= f.valueStart <= |raw| && Fit(raw, fields[1..], f.valueEnd)
      && done + Splice(raw, fields, values, previous)
         == done + raw[previous..f.valueStart] + values[0] + Splice(raw, fields[1..], values[1..], f.valueEnd)
  {}

  lemma FitBound(raw: Bytes, fields: seq<Field>, previous: nat)
    requires Fit(raw, fields, previous) && fields == []
    ensures previous <= |raw| && Splice(raw, fields, [], previous) == raw[previous..]
  {}

  lemma {:induction false} FieldSpan(raw: Bytes, fields: seq<Field>, previous: nat, i: nat)
    requires Fit(raw, fields, previous) && i < |fields|
    ensures fields[i].lineStart <= fields[i].valueStart <= fields[i].valueEnd <= fields[i].lineEnd <= |raw|
  {
    if i > 0 { FieldSpan(raw, fields[1..], fields[0].valueEnd, i - 1); }
  }

  lemma TheFields(raw: Bytes, fields: seq<Field>, values: seq<Bytes>)
    requires fields == Fields(Lines(raw), 0) && fields != []
    ensures Fit(raw, fields, 0)
    ensures Splice(raw, fields, Replacements(raw, fields, 0, values), 0) == Concat(Rewrite(Lines(raw), values))
    ensures var f := fields[|fields| - 1];
      f.valueEnd <= f.lineEnd <= |raw| && raw[f.valueEnd..f.lineEnd] == LastEnding(Lines(raw))
  {
    LinesWell(raw);
    hide Lines, WellLined, Fields, Rewrite, Splice, Replacements, Values, Fit, LastEnding, Concat;
    assert raw[0..] == raw;
    SpliceIsRewrite(raw, Lines(raw), 0, 0, values);
    FieldCount(Lines(raw), 0);
    LastField(raw, Lines(raw), 0);
    assert raw[0..0] == [];
  }

  lemma TheReplacements(raw: Bytes, fields: seq<Field>, values: seq<Bytes>, replacements: seq<Bytes>)
    requires Fit(raw, fields, 0) && |replacements| == |fields| > 0
    requires forall k :: 0 <= k < |fields| && !(k == |fields| - 1 && |values| > |fields|) ==>
      replacements[k] == if k < |values| then values[k] else []
    requires |values| > |fields| ==> var f := fields[|fields| - 1];
      f.lineStart <= f.valueStart <= f.valueEnd <= f.lineEnd <= |raw| &&
      replacements[|fields| - 1] == Glue(raw[f.lineStart..f.valueStart], values[|fields| - 1..], raw[f.valueEnd..f.lineEnd])
    ensures replacements == Replacements(raw, fields, 0, values)
  {
    hide Glue, Fit, Replacements;
    var all := Replacements(raw, fields, 0, values);
    forall k | 0 <= k < |fields| ensures replacements[k] == all[k] {
      ReplacementAt(raw, fields, 0, values, k);
    }
  }

  /** Frame.WithData. */
  method FrameWithData(raw: Bytes, payload: Bytes) returns (out: Bytes, ok: bool)
    ensures ok <==> WithData(raw, payload).Some?
    ensures out == if ok then WithData(raw, payload).value else raw
  {
    hide Lines, Rewrite, Concat, Split, Values, Join, LastEnding, Fields;
    var current, fields := ParseData(raw);
    NoFields(raw);
    if |fields| == 0 {
      return raw, false;
    }
    if current == payload {
      return raw, true;
    }
    var reframed := ReplaceData(raw, fields, payload);
    if reframed.None? {
      return raw, false;
    }
    return reframed.value, true;
  }

  /** Nothing but data values changes, byte for byte: the rewritten text is the original text with
      each field's value replaced, by its payload line, by nothing when it is surplus, and the last
      one, in an expansion, by the lines left with its own ending and prefix between them. */
  lemma OnlyValuesChange(raw: Bytes, payload: Bytes) returns (values: seq<Bytes>)
    requires WithData(raw, payload).Some?
    ensures var fields, lines := Fields(Lines(raw), 0), Split(payload); var n := |fields|;
      && n > 0 && |values| == n && Fit(raw, fields, 0)
      && WithData(raw, payload).value == Splice(raw, fields, values, 0)
      && forall i :: 0 <= i < n ==> Inside(raw, fields[i]) && values[i] == Written(raw, fields[i], lines, i, i == n - 1)
  {
    hide *;
    var fields, lines := Fields(Lines(raw), 0), Split(payload);
    HasFields(raw, payload);
    FieldCount(Lines(raw), 0);
    TheFields(raw, fields, lines);
    RewrittenLines(raw, payload);
    LinesWell(WithData(raw, payload).value);
    values := Replacements(raw, fields, 0, lines);
    forall i | 0 <= i < |fields|
      ensures Inside(raw, fields[i]) && values[i] == Written(raw, fields[i], lines, i, i == |fields| - 1)
    {
      ReplacementAt(raw, fields, 0, lines, i);
      InsideIs(raw, fields[i]);
      WrittenIs(raw, fields, lines, i);
    }
  }

  predicate Inside(raw: Bytes, f: Field) { f.lineStart <= f.valueStart <= f.valueEnd <= f.lineEnd <= |raw| }

  /** What the i-th field receives of the payload's lines. */
  function Written(raw: Bytes, f: Field, lines: seq<Bytes>, i: nat, last: bool): Bytes
    requires Inside(raw, f)
  {
    if last && |lines| > i + 1 then Glue(raw[f.lineStart..f.valueStart], lines[i..], raw[f.valueEnd..f.lineEnd])
    else Nth(lines, i)
  }

  lemma WrittenIs(raw: Bytes, fields: seq<Field>, lines: seq<Bytes>, i: nat)
    requires i < |fields| && Inside(raw, fields[i])
    ensures var n := |fields|; var f := fields[i];
      Written(raw, f, lines, i, i == n - 1) ==
        if i == n - 1 && |lines| > n then Glue(raw[f.lineStart..f.valueStart], lines[n - 1..], raw[f.valueEnd..f.lineEnd])
        else if i < |lines| then lines[i] else []
  {
    hide Glue;
  }

  lemma InsideIs(raw: Bytes, f: Field)
    ensures Inside(raw, f) <==> f.lineStart <= f.valueStart <= f.valueEnd <= f.lineEnd <= |raw|
  {}

  lemma NoFields(raw: Bytes)
    ensures Fields(Lines(raw), 0) == [] <==> Values(Lines(raw)) == []
  {
    FieldCount(Lines(raw), 0);
  }

  /** eventType. */
  method EventType(raw: Bytes) returns (name: Bytes)
    ensures name == EventOf(Lines(raw), [])
  {
    hide *;
    SixBytes();
    name := [];
    var at := 0;
    assert raw[0..] == raw;
    while at < |raw|
      invariant at <= |raw| && EventOf(Lines(raw[at..]), name) == EventOf(Lines(raw), [])
      decreases |raw| - at
    {
      NextLine(raw, at);
      var end := at + LineEnd(raw[at..]);
      var contentEnd := if raw[end - 1] == LF then end - 1 else end;
      if contentEnd > at && raw[contentEnd - 1] == CR {
        contentEnd := contentEnd - 1;
      }
      ContentEnds(raw, at, end, contentEnd);
      EventUnfold(raw[at..end], Lines(raw[end..]), name);
      var line := raw[at..contentEnd];
      if EventPrefix() <= line {
        name := line[6..];
        if |name| > 0 && name[0] == SP {
          name := name[1..];
        }
        EventValue(raw[at..end], line, name);
      } else {
        NotEvent(raw[at..end], line);
      }
      at := end;
    }
    NoEvents(raw[at..], name);
  }

  lemma SixBytes()
    ensures |EventPrefix()| == 6
  {}

  lemma EventUnfold(line: Bytes, rest: seq<Bytes>, current: Bytes)
    ensures EventOf([line] + rest, current) == EventOf(rest, if IsEvent(line) then EventName(line) else current)
  {
    assert ([line] + rest)[1..] == rest;
  }

  lemma EventValue(line: Bytes, content: Bytes, name: Bytes)
    requires content == Content(line) && EventPrefix() <= content
    requires name == if |content[6..]| > 0 && content[6..][0] == SP then content[6..][1..] else content[6..]
    ensures IsEvent(line) && name == EventName(line)
  {
    hide Content;
    assert 6 < |content| ==> content[6..][0] == content[6] && content[6..][1..] == content[7..];
  }

  lemma NotEvent(line: Bytes, content: Bytes)
    requires content == Content(line) && !(EventPrefix() <= content)
    ensures !IsEvent(line)
  {}

  lemma NoEvents(raw: Bytes, name: Bytes)
    requires raw == []
    ensures EventOf(Lines(raw), name) == name
  {}

  // ------------------------------------------------------------------------ reader

  datatype FrameRead = FrameRead(name: Bytes, raw: Bytes)

  function DefaultName(): Bytes { [109, 101, 115, 115, 97, 103, 101] }

  /** Reader over a finite byte source.  jsonType stands for reading the "type" member of a JSON
      payload. */
  class Reader {
    const jsonType: Bytes -> Bytes
    var rest: Bytes
    var fallbacks: nat

    /** The "type" member of the payload, empty without data fields. */
    function FallbackName(raw: Bytes): Bytes { if Data(raw).Some? then jsonType(Data(raw).value) else [] }

    constructor (source: Bytes, jsonType: Bytes -> Bytes)
      ensures rest == source && fallbacks == 0 && this.jsonType == jsonType
    {
      this.jsonType, rest, fallbacks := jsonType, source, 0;
    }

    /** Read: the shortest complete frame ahead, byte for byte; nothing when no blank line is left. */
    method Read() returns (frame: Option<FrameRead>)
      modifies this
      ensures frame.Some? ==> IsFrame(frame.value.raw) && old(rest) == frame.value.raw + rest
      ensures frame.Some? ==> var event := EventOf(Lines(frame.value.raw), []);
        if event != [] then frame.value.name == event && fallbacks == old(fallbacks)
        else
          var fallback := FallbackName(frame.value.raw);
          frame.value.name == (if fallback == [] then DefaultName() else fallback) && fallbacks == old(fallbacks) + 1
      ensures frame.None? ==> rest == [] && fallbacks == old(fallbacks) && forall line <- Lines(old(rest)) :: !Blank(line)
    {
      hide Lines, IsFrame, EventOf, Blank, Values, Join, Fields;
      var raw := ReadRaw();
      if raw.None? {
        return None;
      }
      var name := EventType(raw.value);
      if name == [] {
        fallbacks := fallbacks + 1;
        var payload, fields := ParseData(raw.value);
        NoFields(raw.value);
        name := if |fields| == 0 then [] else jsonType(payload);
        if name == [] {
          name := DefaultName();
        }
      }
      return Some(FrameRead(name, raw.value));
    }

    /** The line loop of Read. */
    method ReadRaw() returns (frame: Option<Bytes>)
      modifies this`rest
      ensures frame.Some? ==> IsFrame(frame.value) && old(rest) == frame.value + rest
      ensures frame.None? ==> rest == [] && forall line <- Lines(old(rest)) :: !Blank(line)
    {
      hide Lines, IsLine, Blank, OpenFrame, IsFrame, Terminated, LineEnd;
      var raw: Bytes := [];
      ghost var lines: seq<Bytes> := [];
      OpenNothing(rest);
      while true
        invariant raw + rest == old(rest)
        invariant OpenFrame(raw, lines) && lines + Lines(rest) == Lines(old(rest))
        decreases |rest|
      {
        if rest == [] {
          OpenOnly(raw, lines);
          return None;
        }
        LineAhead(rest, raw, lines);
        var end := LineEnd(rest);
        var line := rest[..end];
        rest := rest[end..];
        if line[|line| - 1] != LF {
          Unfinished(line, rest);
          OpenOnly(raw, lines);
          return None;
        }
        if line == [LF] || line == [CR, LF] {
          Complete(raw, lines, line);
          return Some(raw + line);
        }
        OpenMore(raw, lines, line);
        raw := raw + line;
        lines := lines + [line];
      }
    }
  }

  lemma LineAhead(rest: Bytes, raw: Bytes, lines: seq<Bytes>)
    requires rest != []
    ensures var end := LineEnd(rest); var line := rest[..end];
      0 < end <= |rest| && IsLine(line) && line != [] && (end < |rest| ==> Terminated(line))
      && lines + Lines(rest) == lines + [line] + Lines(rest[end..]) && raw + rest == raw + line + rest[end..]
  {
    hide Lines, IsLine, Terminated, LineEnd;
    LinesFirst(rest);
    Assoc(lines, [rest[..LineEnd(rest)]], Lines(rest[LineEnd(rest)..]));
    BytesAhead(rest, raw, LineEnd(rest));
  }

  lemma BytesAhead(rest: Bytes, raw: Bytes, end: nat)
    requires end <= |rest|
    ensures raw + rest == raw + rest[..end] + rest[end..]
  {}

  lemma LinesFirst(rest: Bytes)
    requires rest != []
    ensures Lines(rest) == [rest[..LineEnd(rest)]] + Lines(rest[LineEnd(rest)..])
  {}

  /** Complete lines read so far, none of them blank. */
  ghost predicate OpenFrame(raw: Bytes, lines: seq<Bytes>) {
    AllTerminated(lines) && (forall line <- lines :: !Blank(line)) && raw == Concat(lines)
  }

  lemma OpenNothing(rest: Bytes)
    ensures OpenFrame([], []) && [] + Lines(rest) == Lines(rest) && [] + rest == rest
  {
    hide Lines;
    Assoc([], [], Lines(rest));
  }

  lemma OpenOnly(raw: Bytes, lines: seq<Bytes>)
    requires OpenFrame(raw, lines)
    ensures (forall line <- lines :: !Blank(line)) && Lines([]) == [] && lines + [] == lines
  {}

  lemma OpenMore(raw: Bytes, lines: seq<Bytes>, line: Bytes)
    requires OpenFrame(raw, lines) && IsLine(line) && line[|line| - 1] == LF && line != [LF] && line != [CR, LF]
    ensures OpenFrame(raw + line, lines + [line])
  {
    ConcatPlus(lines, [line]);
    assert Concat([line]) == line + [] == line;
    hide IsLine, Concat;
    var longer := lines + [line];
    forall i | 0 <= i < |longer| ensures IsLine(longer[i]) && Terminated(longer[i]) && !Blank(longer[i]) {
      if i < |lines| { assert longer[i] == lines[i] && lines[i] in lines; }
    }
  }

  lemma {:induction false} OpenThenBlank(lines: seq<Bytes>, line: Bytes)
    requires (forall l <- lines :: !Blank(l)) && Blank(line)
    ensures FrameLines(lines + [line])
  {
    hide Blank;
    if lines != [] {
      assert (lines + [line])[1..] == lines[1..] + [line];
      OpenThenBlank(lines[1..], line);
    }
  }

  /** A blank line completes the frame. */
  lemma Complete(raw: Bytes, lines: seq<Bytes>, line: Bytes)
    requires OpenFrame(raw, lines) && IsLine(line) && (line == [LF] || line == [CR, LF])
    ensures IsFrame(raw + line)
  {
    hide IsLine;
    ConcatPlus(lines, [line]);
    assert Concat([line]) == line + [] == line;
    OpenThenBlank(lines, line);
    hide Blank, FrameLines;
    LinesOf(lines + [line]);
  }

  lemma Unfinished(line: Bytes, rest: Bytes)
    requires line != [] && line[|line| - 1] != LF && (rest != [] ==> Terminated(line))
    ensures rest == [] && Lines(rest) == [] && !Blank(line)
  {}

  // ------------------------------------------------------- one frame after another

  lemma {:induction false} FrameCut(a: seq<Bytes>, x: seq<Bytes>, b: seq<Bytes>, y: seq<Bytes>)
    requires FrameLines(a) && FrameLines(b) && a + x == b + y
    ensures a == b
  {
    hide Blank;
    assert a[0] == (a + x)[0] == (b + y)[0] == b[0];
    if |a| > 1 && |b| > 1 {
      assert a[1..] + x == (a + x)[1..] && b[1..] + y == (b + y)[1..];
      FrameCut(a[1..], x, b[1..], y);
      assert a == [a[0]] + a[1..] && b == [b[0]] + b[1..];
    }
  }

  lemma LinesThen(raw: Bytes, more: Bytes)
    requires EndsInLF(Lines(raw))
    ensures Lines(raw + more) == Lines(raw) + Lines(more)
  {
    hide Lines, WellLined, EndsInLF, Concat;
    LinesWell(raw);
    LinesWell(more);
    WellPlus(Lines(raw), Lines(more));
    ConcatPlus(Lines(raw), Lines(more));
    LinesOf(Lines(raw) + Lines(more));
  }

  /** A source determines its first frame, whatever follows: reading a rewritten frame back
      yields exactly that frame. */
  lemma FrameUnique(a: Bytes, x: Bytes, b: Bytes, y: Bytes)
    requires IsFrame(a) && IsFrame(b) && a + x == b + y
    ensures a == b && x == y
  {
    hide Lines, FrameLines, EndsInLF;
    LinesThen(a, x);
    LinesThen(b, y);
    FrameCut(Lines(a), Lines(x), Lines(b), Lines(y));
    LinesWell(a);
    LinesWell(b);
    assert (a + x)[|a|..] == x && (b + y)[|b|..] == y;
  }
}
