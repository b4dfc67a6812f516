// The incremental server-sent-events parser of apps/web/src/lib/authed-stream.ts
// (framing of section 9.2 of the WHATWG HTML Living Standard, LF and CRLF line ends only).
//
// `Run` is the reference: it reads one character at a time. `EventStream` is the source's own form, which
// buffers whatever chunk the network delivers and cuts lines out of the buffer.
module EventStreams {

  // Longer than this without a line feed, the stream is dropped.
  const RUNAWAY: nat := 64_000

  datatype Event = Event(name: string, data: string)

  datatype Parser = Parser(buffer: string, event: string, data: seq<string>, events: seq<Event>)

  datatype Outcome = Outcome(parser: Parser, runaway: bool)

  const START := Parser("", "message", [], [])

  predicate NoNewline(s: string) {
    '\n' !in s
  }

  // Characters that String.prototype.trim removes.
  predicate IsSpace(c: char) {
    c in "\t\n\r " || c in "\U{000B}\U{000C}\U{00A0}\U{1680}\U{2028}\U{2029}\U{202F}\U{205F}\U{3000}\U{FEFF}"
    || '\U{2000}' <= c <= '\U{200A}'
  }

  predicate Trimmed(s: string) {
    s == "" || (!IsSpace(s[0]) && !IsSpace(s[|s| - 1]))
  }

  function Trim(s: string): (r: string)
    ensures Trimmed(r)
    ensures Trimmed(s) ==> r == s
    ensures NoNewline(s) ==> NoNewline(r)
    decreases |s|
  {
    if s == "" then s
    else if IsSpace(s[0]) then Trim(s[1..])
    else if IsSpace(s[|s| - 1]) then Trim(s[..|s| - 1])
    else s
  }

  function DropCr(line: string): (r: string)
    ensures r == line || line == r + "\r"
  {
    if line != "" && line[|line| - 1] == '\r' then line[..|line| - 1] else line
  }

  function DropSpace(s: string): string {
    if s != "" && s[0] == ' ' then s[1..] else s
  }

  function Join(lines: seq<string>): string
    requires lines != []
  {
    if |lines| == 1 then lines[0] else lines[0] + "\n" + Join(lines[1..])
  }

  // One complete line, already without its line end.
  function TakeLine(p: Parser, line: string): Parser {
    if line == "" then
      Parser(p.buffer, "message", [], if p.data == [] then p.events else p.events + [Event(p.event, Join(p.data))])
    else if "event:" <= line then p.(event := Trim(line[6..]))
    else if "data:" <= line then p.(data := p.data + [DropSpace(line[5..])])
    else p
  }

  function Step(p: Parser, c: char): Parser {
    if c == '\n' then TakeLine(p.(buffer := ""), DropCr(p.buffer)) else p.(buffer := p.buffer + [c])
  }

  function Run(p: Parser, text: string): Parser
    decreases |text|
  {
    if text == "" then p else Run(Step(p, text[0]), text[1..])
  }

  // What the reader loop does with the chunks it is given.
  function RunChunks(p: Parser, chunks: seq<string>): Outcome
    decreases |chunks|
  {
    if chunks == [] then Outcome(p, false)
    else
      var q := Run(p, chunks[0]);
      if |q.buffer| > RUNAWAY then Outcome(q, true) else RunChunks(q, chunks[1..])
  }

  function Concat(chunks: seq<string>): string {
    if chunks == [] then "" else chunks[0] + Concat(chunks[1..])
  }

  lemma {:induction false} RunAppend(p: Parser, a: string, b: string)
    ensures Run(p, a + b) == Run(Run(p, a), b)
    decreases |a|
  {
    if a == "" {
      assert a + b == b;
    } else {
      assert (a + b)[1..] == a[1..] + b;
      RunAppend(Step(p, a[0]), a[1..], b);
    }
  }

  lemma {:induction false} RunWithinLine(p: Parser, part: string)
    requires NoNewline(part)
    ensures Run(p, part) == p.(buffer := p.buffer + part)
    decreases |part|
  {
    if part == "" {
      assert p.buffer + part == p.buffer;
    } else {
      RunWithinLine(Step(p, part[0]), part[1..]);
      assert p.buffer + [part[0]] + part[1..] == p.buffer + part;
    }
  }

  lemma RunLine(p: Parser, line: string)
    requires p.buffer == "" && NoNewline(line)
    ensures Run(p, line + "\n") == TakeLine(p, DropCr(line))
  {
    RunAppend(p, line, "\n");
    RunWithinLine(p, line);
    assert p.buffer + line == line;
    var q := p.(buffer := line);
    assert "\n"[1..] == "";
    assert Run(q, "\n") == Step(q, '\n');
  }

  /* ---- what each line does ---- */

  ghost predicate AllSpace(s: string) {
    forall k | 0 <= k < |s| :: IsSpace(s[k])
  }

  // Trimming takes spaces off both ends and nothing else.
  lemma {:induction false} TrimTakesSpacesOff(s: string) returns (before: string, after: string)
    ensures s == before + Trim(s) + after && AllSpace(before) && AllSpace(after)
    decreases |s|
  {
    hide IsSpace;
    before, after := "", "";
    if s == "" {
    } else if IsSpace(s[0]) {
      before, after := TrimTakesSpacesOff(s[1..]);
      var core := Trim(s);
      hide Trim;
      assert s == [s[0]] + (before + core + after);
      before := [s[0]] + before;
      assert s == before + core + after;
    } else if IsSpace(s[|s| - 1]) {
      var last := s[|s| - 1];
      before, after := TrimTakesSpacesOff(s[..|s| - 1]);
      var core := Trim(s);
      hide Trim;
      assert s == (before + core + after) + [last];
      after := after + [last];
      assert s == before + core + after;
    }
  }

  // Neither a line feed in it nor a carriage return at its end.
  predicate Plain(line: string) {
    NoNewline(line) && (line == "" || line[|line| - 1] != '\r')
  }

  lemma RunPlainLine(p: Parser, line: string, crlf: bool)
    requires p.buffer == "" && Plain(line)
    ensures Run(p, line + (if crlf then "\r\n" else "\n")) == TakeLine(p, line)
  {
    if crlf {
      assert line + "\r\n" == (line + "\r") + "\n";
      RunLine(p, line + "\r");
      assert (line + "\r")[..|line|] == line;
    } else {
      RunLine(p, line);
    }
  }

  // Comments, `id:`, `retry:` and every other line that names neither field change nothing.
  lemma OtherLinesAreIgnored(p: Parser, line: string, crlf: bool)
    requires p.buffer == "" && Plain(line) && line != ""
    requires !("event:" <= line) && !("data:" <= line)
    ensures Run(p, line + (if crlf then "\r\n" else "\n")) == p
  {
    RunPlainLine(p, line, crlf);
  }

  lemma CommentsAndIdsAreOther(rest: string)
    ensures !("event:" <= ":" + rest) && !("data:" <= ":" + rest)
    ensures !("event:" <= "id:" + rest) && !("data:" <= "id:" + rest)
    ensures !("event:" <= "retry:" + rest) && !("data:" <= "retry:" + rest)
  {
    assert (":" + rest)[0] == ':' && ("id:" + rest)[0] == 'i' && ("retry:" + rest)[0] == 'r';
    assert "event:"[0] == 'e' && "data:"[0] == 'd';
  }

  // A data line adds its value, less one space after the colon if there is one.
  lemma DataLineAdds(p: Parser, value: string, spaced: bool, crlf: bool)
    requires p.buffer == "" && Plain(value) && (spaced || value == "" || value[0] != ' ')
    ensures Run(p, "data:" + (if spaced then " " else "") + value + (if crlf then "\r\n" else "\n"))
            == p.(data := p.data + [value])
  {
    hide Run;
    var field := (if spaced then " " else "") + value;
    DataLine(field, value);
    assert "data:" + (if spaced then " " else "") + value == "data:" + field;
    RunPlainLine(p, "data:" + field, crlf);
  }

  lemma DataLine(field: string, value: string)
    requires Plain(value)
    requires field == " " + value || (field == value && (value == "" || value[0] != ' '))
    ensures Plain("data:" + field) && DropSpace(field) == value
    ensures var line := "data:" + field;
            line != "" && !("event:" <= line) && "data:" <= line && line[5..] == field
  {
    var line := "data:" + field;
    assert line[0] == 'd' && line[..5] == "data:" && line[5..] == field;
    assert value != "" ==> line[|line| - 1] == value[|value| - 1];
  }

  // An event line sets the name, trimmed.
  lemma EventLineNames(p: Parser, name: string, crlf: bool)
    requires p.buffer == "" && Plain(name)
    ensures Run(p, "event:" + name + (if crlf then "\r\n" else "\n")) == p.(event := Trim(name))
  {
    var line := "event:" + name;
    assert line[..6] == "event:" && line[6..] == name;
    assert name != "" ==> line[|line| - 1] == name[|name| - 1];
    RunPlainLine(p, line, crlf);
  }

  // A blank line delivers the data lines gathered, joined by line feeds, under the name set, if there are any, and
  // starts over with the default name.
  lemma BlankLineDelivers(p: Parser, crlf: bool)
    requires p.buffer == ""
    ensures Run(p, if crlf then "\r\n" else "\n") ==
            Parser("", "message", [], if p.data == [] then p.events else p.events + [Event(p.event, Join(p.data))])
  {
    assert "" + (if crlf then "\r\n" else "\n") == if crlf then "\r\n" else "\n";
    RunPlainLine(p, "", crlf);
  }

  /* ---- chunking ---- */

  // Every stretch of the text without a line feed is short enough to be held.
  ghost predicate NoRunawayLine(text: string) {
    forall i, j | 0 <= i <= j <= |text| :: NoNewline(text[i..j]) ==> j - i <= RUNAWAY
  }

  lemma RunPastNewline(p: Parser, a: string, b: string)
    requires NoNewline(b)
    ensures Run(p, a + "\n" + b).buffer == b
  {
    RunAppend(p, a + "\n", b);
    RunAppend(p, a, "\n");
    var q := Run(p, a);
    assert "\n"[1..] == "";
    assert Run(q, "\n") == Step(q, '\n');
    RunWithinLine(Step(q, '\n'), b);
    assert "" + b == b;
  }

  // The buffer is always the text since the last line feed, and no more.
  lemma BufferIsOpenLine(p: Parser, text: string) returns (i: nat)
    requires NoNewline(p.buffer)
    ensures i <= |text| && NoNewline(text[i..])
    ensures Run(p, text).buffer == if i == 0 then p.buffer + text else text[i..]
    ensures NoNewline(text) ==> i == 0
  {
    hide Run;
    if NoNewline(text) {
      i := 0;
      RunWithinLine(p, text);
      assert text[0..] == text;
    } else {
      var k := LastNewline(text);
      hide NoNewline;
      i := k + 1;
      RunPastNewline(p, text[..k], text[i..]);
      assert text == text[..k] + "\n" + text[i..];
    }
  }

  lemma {:induction false} LastNewline(text: string) returns (k: nat)
    requires !NoNewline(text)
    ensures k < |text| && text[k] == '\n' && NoNewline(text[k + 1..])
    decreases |text|
  {
    var n := |text| - 1;
    if text[n] == '\n' {
      k := n;
      assert text[n + 1..] == "";
    } else {
      var front, last := text[..n], [text[n]];
      assert text == front + last;
      k := LastNewline(front);
      assert text[k + 1..] == front[k + 1..] + last;
    }
  }

  // However the text is cut, the parser ends in the same state, having delivered the same events.
  lemma {:induction false} ChunksDoNotMatter(before: string, chunks: seq<string>)
    requires NoRunawayLine(before + Concat(chunks))
    ensures RunChunks(Run(START, before), chunks) == Outcome(Run(START, before + Concat(chunks)), false)
    decreases |chunks|
  {
    if chunks == [] {
      assert before + Concat(chunks) == before;
    } else {
      var c := chunks[0];
      RunAppend(START, before, c);
      assert before + Concat(chunks) == (before + c) + Concat(chunks[1..]);
      var i := BufferIsOpenLine(START, before + c);
      assert (before + Concat(chunks))[i..|before + c|] == (before + c)[i..];
      assert (before + c)[0..] == before + c == "" + (before + c);
      assert |Run(START, before + c).buffer| <= RUNAWAY;
      ChunksDoNotMatter(before + c, chunks[1..]);
    }
  }

  // The limit never cuts a stream off, whatever the chunks, exactly when no line of it is over the limit.
  lemma NeverCutOffExactlyWhen(text: string)
    ensures NoRunawayLine(text) <==>
            (forall chunks: seq<string> | Concat(chunks) == text :: !RunChunks(START, chunks).runaway)
  {
    if NoRunawayLine(text) {
      forall chunks: seq<string> | Concat(chunks) == text
        ensures !RunChunks(START, chunks).runaway
      {
        assert "" + Concat(chunks) == text;
        ChunksDoNotMatter("", chunks);
      }
    } else {
      var i, j :| 0 <= i <= j <= |text| && NoNewline(text[i..j]) && j - i > RUNAWAY;
      var chunks := [text[..j], text[j..]];
      assert chunks[1..] == [text[j..]] && chunks[1..][1..] == [];
      assert Concat([text[j..]]) == text[j..] + Concat([]);
      assert Concat(chunks) == text;
      assert text[..j] == text[..i] + text[i..j];
      RunAppend(START, text[..i], text[i..j]);
      RunWithinLine(Run(START, text[..i]), text[i..j]);
      assert RunChunks(START, chunks).runaway;
    }
  }

  /* ---- round trip ---- */

  ghost predicate AreLines(lines: seq<string>) {
    forall k | 0 <= k < |lines| :: NoNewline(lines[k])
  }

  function Split(s: string): (lines: seq<string>)
    ensures lines != [] && AreLines(lines)
    ensures Join(lines) == s
    decreases |s|
  {
    if NoNewline(s) then [s]
    else
      var k := FirstNewline(s);
      assert s == s[..k] + "\n" + s[k + 1..];
      var rest := Split(s[k + 1..]);
      assert ([s[..k]] + rest)[1..] == rest;
      [s[..k]] + rest
  }

  function FirstNewline(s: string): (k: nat)
    requires !NoNewline(s)
    ensures k < |s| && s[k] == '\n' && NoNewline(s[..k])
  {
    if s[0] == '\n' then 0
    else
      var k := FirstNewline(s[1..]);
      assert s[..k + 1] == [s[0]] + s[1..][..k];
      k + 1
  }

  function LineEnd(crlf: bool): string {
    if crlf then "\r\n" else "\n"
  }

  function PrintLine(field: string, value: string, crlf: bool): string {
    field + value + LineEnd(crlf)
  }

  function PrintData(lines: seq<string>, crlf: bool): string {
    if lines == [] then "" else PrintLine("data: ", lines[0], crlf) + PrintData(lines[1..], crlf)
  }

  function Print(e: Event, crlf: bool): string {
    PrintLine("event: ", e.name, crlf) + PrintData(Split(e.data), crlf) + LineEnd(crlf)
  }

  function PrintAll(events: seq<Event>, crlf: bool): string {
    if events == [] then "" else Print(events[0], crlf) + PrintAll(events[1..], crlf)
  }

  // A name that one `event:` line can carry.
  predicate CarriableName(name: string) {
    NoNewline(name) && Trimmed(name)
  }

  // A line feed alone cannot protect a carriage return at the end of a data line; CRLF can.
  function CarriedLine(line: string, crlf: bool): (r: string)
    ensures NoNewline(line) ==> NoNewline(r)
  {
    if crlf then line else DropCr(line)
  }

  function CarriedLines(lines: seq<string>, crlf: bool): (r: seq<string>)
    ensures |r| == |lines| && forall k | 0 <= k < |r| :: r[k] == CarriedLine(lines[k], crlf)
  {
    seq(|lines|, k requires 0 <= k < |lines| => CarriedLine(lines[k], crlf))
  }

  function Carried(e: Event, crlf: bool): Event {
    e.(data := Join(CarriedLines(Split(e.data), crlf)))
  }

  function CarriedAll(events: seq<Event>, crlf: bool): (r: seq<Event>)
    ensures |r| == |events| && forall k | 0 <= k < |r| :: r[k] == Carried(events[k], crlf)
  {
    seq(|events|, k requires 0 <= k < |events| => Carried(events[k], crlf))
  }

  lemma RunPrintedLine(p: Parser, line: string, crlf: bool)
    requires p.buffer == "" && NoNewline(line)
    ensures Run(p, line + LineEnd(crlf)) == TakeLine(p, CarriedLine(line, crlf))
  {
    if crlf {
      assert line + "\r\n" == (line + "\r") + "\n";
      RunLine(p, line + "\r");
      assert (line + "\r")[..|line|] == line;
    } else {
      RunLine(p, line);
    }
  }

  lemma RunPrintedDataLine(p: Parser, d: string, crlf: bool)
    requires p.buffer == "" && NoNewline(d)
    ensures Run(p, PrintLine("data: ", d, crlf)) == p.(data := p.data + [CarriedLine(d, crlf)])
  {
    hide Run, Trim;
    var line, carried := "data: " + d, "data: " + CarriedLine(d, crlf);
    assert NoNewline("data: ") && NoNewline(line);
    RunPrintedLine(p, line, crlf);
    assert CarriedLine(line, crlf) == carried;
    assert "data:" <= carried && carried[0] != "event:"[0];
    assert carried[5..] == " " + CarriedLine(d, crlf);
    assert (" " + CarriedLine(d, crlf))[1..] == CarriedLine(d, crlf);
  }

  lemma PushAll<T>(a: seq<T>, x: T, b: seq<T>)
    ensures a + [x] + b == a + ([x] + b)
  {
  }

  lemma {:induction false} RunPrintedData(p: Parser, lines: seq<string>, crlf: bool)
    requires p.buffer == "" && AreLines(lines)
    ensures Run(p, PrintData(lines, crlf)) == p.(data := p.data + CarriedLines(lines, crlf))
    decreases |lines|
  {
    hide PrintLine, NoNewline, CarriedLine;
    if lines == [] {
      assert p.data + [] == p.data;
    } else {
      hide Run;
      RunAppend(p, PrintLine("data: ", lines[0], crlf), PrintData(lines[1..], crlf));
      RunPrintedDataLine(p, lines[0], crlf);
      RunPrintedData(p.(data := p.data + [CarriedLine(lines[0], crlf)]), lines[1..], crlf);
      assert CarriedLines(lines, crlf) == [CarriedLine(lines[0], crlf)] + CarriedLines(lines[1..], crlf);
      PushAll(p.data, CarriedLine(lines[0], crlf), CarriedLines(lines[1..], crlf));
    }
  }

  lemma RunPrintedName(p: Parser, name: string, crlf: bool)
    requires p.buffer == "" && CarriableName(name)
    ensures Run(p, PrintLine("event: ", name, crlf)) == p.(event := name)
  {
    var line := "event: " + name;
    assert NoNewline("event: ") && NoNewline(line);
    RunPrintedLine(p, line, crlf);
    assert line[|line| - 1] == if name == "" then ' ' else name[|name| - 1];
    assert CarriedLine(line, crlf) == line;
    assert "event:" <= line && line[6..] == " " + name;
    assert (" " + name)[1..] == name;
    assert Trim(line[6..]) == name;
  }

  lemma RunPrinted(p: Parser, e: Event, crlf: bool)
    requires p.buffer == "" && p.event == "message" && p.data == [] && CarriableName(e.name)
    ensures Run(p, Print(e, crlf)) == p.(events := p.events + [Carried(e, crlf)])
  {
    var head, body, end := PrintLine("event: ", e.name, crlf), PrintData(Split(e.data), crlf), LineEnd(crlf);
    assert Print(e, crlf) == head + body + end;
    RunAppend(p, head + body, end);
    RunAppend(p, head, body);
    RunPrintedName(p, e.name, crlf);
    RunPrintedData(p.(event := e.name), Split(e.data), crlf);
    var lines := CarriedLines(Split(e.data), crlf);
    assert [] + lines == lines;
    var q := p.(event := e.name, data := lines);
    RunPrintedLine(q, "", crlf);
    assert "" + end == end;
  }

  // What a printed list of events comes back as: itself, but for carriage returns that LF framing loses.
  lemma {:induction false} PrintedComesBack(p: Parser, events: seq<Event>, crlf: bool)
    requires p.buffer == "" && p.event == "message" && p.data == []
    requires forall k | 0 <= k < |events| :: CarriableName(events[k].name)
    ensures Run(p, PrintAll(events, crlf)) == p.(events := p.events + CarriedAll(events, crlf))
    decreases |events|
  {
    hide Print, CarriableName, Carried;
    if events == [] {
      assert p.events + [] == p.events;
    } else {
      hide Run;
      RunAppend(p, Print(events[0], crlf), PrintAll(events[1..], crlf));
      RunPrinted(p, events[0], crlf);
      PrintedComesBack(p.(events := p.events + [Carried(events[0], crlf)]), events[1..], crlf);
      assert CarriedAll(events, crlf) == [Carried(events[0], crlf)] + CarriedAll(events[1..], crlf);
      PushAll(p.events, Carried(events[0], crlf), CarriedAll(events[1..], crlf));
    }
  }

  lemma {:induction false} FirstNewlineIs(s: string, k: nat)
    requires k < |s| && s[k] == '\n' && NoNewline(s[..k])
    ensures FirstNewline(s) == k
    decreases k
  {
    if k > 0 {
      assert s[0] == s[..k][0];
      assert s[1..][..k - 1] == s[..k][1..];
      FirstNewlineIs(s[1..], k - 1);
    }
  }

  lemma HasNewline(s: string, k: nat)
    requires k < |s| && s[k] == '\n'
    ensures !NoNewline(s)
  {
  }

  lemma {:induction false} SplitJoined(lines: seq<string>)
    requires lines != [] && AreLines(lines)
    ensures Split(Join(lines)) == lines
    decreases |lines|
  {
    hide NoNewline, FirstNewline;
    if |lines| == 1 {
      assert lines == [lines[0]];
    } else {
      var s := Join(lines);
      assert s == lines[0] + "\n" + Join(lines[1..]);
      assert s[|lines[0]|] == '\n' && s[..|lines[0]|] == lines[0];
      HasNewline(s, |lines[0]|);
      FirstNewlineIs(s, |lines[0]|);
      assert s[|lines[0]| + 1..] == Join(lines[1..]);
      SplitJoined(lines[1..]);
      assert lines == [lines[0]] + lines[1..];
    }
  }

  predicate Survives(line: string, crlf: bool)
    ensures Survives(line, crlf) <==> CarriedLine(line, crlf) == line
  {
    crlf || line == "" || line[|line| - 1] != '\r'
  }

  // The data of an event survives exactly when CRLF is used or no line of it ends in a carriage return.
  predicate CarriableData(data: string, crlf: bool) {
    var lines := Split(data);
    forall k | 0 <= k < |lines| :: Survives(lines[k], crlf)
  }

  lemma CarriedExactlyWhen(e: Event, crlf: bool)
    ensures Carried(e, crlf) == e <==> CarriableData(e.data, crlf)
  {
    hide Split, Join, CarriedLines, NoNewline, CarriedLine, Survives;
    var lines := Split(e.data);
    var carried := CarriedLines(lines, crlf);
    assert AreLines(carried);
    SplitJoined(carried);
    assert CarriableData(e.data, crlf) <==> carried == lines;
  }

  ghost predicate DeliversCarriableNames(events: seq<Event>) {
    forall k | 0 <= k < |events| :: CarriableName(events[k].name)
  }

  // Whatever the text, only names that fit on a line are ever delivered.
  lemma {:induction false} DeliveredNamesAreCarriable(p: Parser, text: string)
    requires NoNewline(p.buffer) && CarriableName(p.event) && DeliversCarriableNames(p.events)
    ensures DeliversCarriableNames(Run(p, text).events)
    decreases |text|
  {
    if text != "" {
      var line := DropCr(p.buffer);
      assert NoNewline(line);
      assert CarriableName("message");
      assert NoNewline(Step(p, text[0]).buffer);
      DeliveredNamesAreCarriable(Step(p, text[0]), text[1..]);
    }
  }

  // Printing a list of events and parsing it in any chunks gives the list back exactly when every name fits
  // on its line and every data line survives its line end.
  lemma RoundTrip(events: seq<Event>, crlf: bool, chunks: seq<string>)
    requires Concat(chunks) == PrintAll(events, crlf) && NoRunawayLine(Concat(chunks))
    ensures RunChunks(START, chunks).parser.events == events <==>
            forall k | 0 <= k < |events| :: CarriableName(events[k].name) && CarriableData(events[k].data, crlf)
  {
    hide Run, RunChunks, NoRunawayLine, PrintAll, CarriableData, Carried, Concat;
    assert "" + Concat(chunks) == Concat(chunks);
    assert Run(START, "") == START by { RunWithinLine(START, ""); }
    ChunksDoNotMatter("", chunks);
    DeliveredNamesAreCarriable(START, Concat(chunks));
    hide CarriableName, NoNewline;
    if DeliversCarriableNames(events) {
      PrintedComesBack(START, events, crlf);
      var back := CarriedAll(events, crlf);
      hide CarriedAll;
      assert [] + back == back;
      forall k | 0 <= k < |events| ensures back[k] == events[k] <==> CarriableData(events[k].data, crlf) {
        CarriedExactlyWhen(events[k], crlf);
      }
    }
  }

  /* ---- the source's own form ---- */

  class EventStream {
    var buffer: string
    var event: string
    var data: seq<string>
    // What the handler has been called with, in order.
    var delivered: seq<Event>

    ghost function View(): Parser
      reads this
    {
      Parser(buffer, event, data, delivered)
    }

    constructor ()
      ensures View() == START
    {
      buffer, event, data, delivered := "", "message", [], [];
    }

    // One complete line out of the buffer.
    method HandleLine(line: string)
      modifies this`event, this`data, this`delivered
      ensures View() == TakeLine(old(View()), line)
    {
      if line == "" {
        if |data| > 0 {
          delivered := delivered + [Event(event, Join(data))];
        }
        event := "message";
        data := [];
      } else if "event:" <= line {
        event := Trim(line[6..]);
      } else if "data:" <= line {
        data := data + [DropSpace(line[5..])];
      }
    }

    // One chunk: append it and cut every complete line off the front of the buffer.
    method Receive(value: string) returns (runaway: bool)
      requires NoNewline(buffer)
      modifies this
      ensures View() == Run(old(View()), value) && NoNewline(buffer)
      ensures runaway <==> |buffer| > RUNAWAY
    {
      hide Run, DropCr, DropSpace, Trim, Join;
      RunWithinLine(View().(buffer := ""), buffer);
      RunAppend(View().(buffer := ""), buffer, value);
      assert "" + buffer == buffer;
      buffer := buffer + value;
      while '\n' in buffer
        invariant Run(View().(buffer := ""), buffer) == Run(old(View()), value)
        decreases |buffer|
      {
        var nl := FirstNewline(buffer);
        var line := DropCr(buffer[..nl]);
        ghost var was := View().(buffer := "");
        assert buffer == buffer[..nl] + "\n" + buffer[nl + 1..];
        RunAppend(was, buffer[..nl] + "\n", buffer[nl + 1..]);
        RunLine(was, buffer[..nl]);
        assert Run(was, buffer) == Run(TakeLine(was, line), buffer[nl + 1..]);
        buffer := buffer[nl + 1..];
        HandleLine(line);
        assert View().(buffer := "") == TakeLine(was, line);
      }
      RunWithinLine(View().(buffer := ""), buffer);
      assert "" + buffer == buffer;
      runaway := |buffer| > RUNAWAY;
    }

    // The reader loop over everything the response body delivers.
    method ReadAll(chunks: seq<string>) returns (runaway: bool)
      requires NoNewline(buffer)
      modifies this
      ensures Outcome(View(), runaway) == RunChunks(old(View()), chunks)
    {
      runaway := false;
      var k := 0;
      while k < |chunks|
        invariant 0 <= k <= |chunks| && !runaway && NoNewline(buffer)
        invariant RunChunks(old(View()), chunks) == RunChunks(View(), chunks[k..])
      {
        runaway := Receive(chunks[k]);
        if runaway {
          return;
        }
        assert chunks[k..][1..] == chunks[k + 1..];
        k := k + 1;
      }
    }
  }
}
