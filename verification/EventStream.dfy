/** Server-sent events on the wire: what the service writes (sse.py:48-49) and how a client
    reads it (HTML Living Standard, sections 9.2.5 and 9.2.6). */
module EventStream {
  datatype Event = Event(name: string, data: string)

  /** format_event. */
  function Format(e: Event): string {
    "event: " + e.name + "\n" + "data: " + e.data + "\n" + "\n"
  }

  /** The frame, character by character. */
  lemma FormatText(e: Event)
    ensures Format(e) == "event: " + e.name + "\ndata: " + e.data + "\n\n"
  {
    var head, name, data := "event: ", e.name, e.data;
    assert "\n" + "data: " == "\ndata: " && "\n" + "\n" == "\n\n";
    assert head + name + "\n" + "data: " == head + name + ("\n" + "data: ");
    assert head + name + "\ndata: " + data + "\n" + "\n" == head + name + "\ndata: " + data + ("\n" + "\n");
  }

  function FormatAll(events: seq<Event>): string {
    if events == [] then "" else Format(events[0]) + FormatAll(events[1..])
  }

  predicate IsEol(c: char) { c == '\n' || c == '\r' }

  predicate OneLine(s: string) { forall i :: 0 <= i < |s| ==> !IsEol(s[i]) }

  /** Event names are non-empty and payloads (json.dumps text) non-empty; neither has line breaks. */
  predicate Sendable(e: Event) {
    e.name != "" && e.data != "" && OneLine(e.name) && OneLine(e.data)
  }

  function LineEnd(s: string): (i: nat)
    ensures i <= |s| && OneLine(s[..i]) && (i < |s| ==> IsEol(s[i]))
  {
    if s == "" || IsEol(s[0]) then 0
    else
      var i := LineEnd(s[1..]);
      assert s[..i + 1] == [s[0]] + s[1..][..i];
      i + 1
  }

  /** Drops the line break at position i: CR, LF or CR LF. */
  function AfterEol(s: string, i: nat): string
    requires i < |s|
  {
    if s[i] == '\r' && i + 1 < |s| && s[i + 1] == '\n' then s[i + 2..] else s[i + 1..]
  }

  function ColonAt(line: string): (i: nat)
    ensures i <= |line|
  {
    if line == "" || line[0] == ':' then 0 else 1 + ColonAt(line[1..])
  }

  /** The two buffers of the parser that decide what is dispatched. */
  datatype Buffers = Buffers(name: string, data: string)

  const Blank := Buffers("", "")

  /** A field: "event" sets the type, "data" appends a line; anything else dispatches nothing. */
  function Field(b: Buffers, field: string, value: string): Buffers {
    if field == "event" then b.(name := value)
    else if field == "data" then b.(data := b.data + value + "\n")
    else b
  }

  /** A non-blank line: a comment, a field with a value after a colon and one optional
      space, or a field without a value. */
  function Line(b: Buffers, line: string): Buffers {
    var c := ColonAt(line);
    if c == |line| then Field(b, line, "")
    else if c == 0 then b
    else
      var value := line[c + 1..];
      Field(b, line[..c], if value != "" && value[0] == ' ' then value[1..] else value)
  }

  /** A blank line: dispatch the event, unless no data arrived. */
  function Dispatch(b: Buffers): seq<Event> {
    if b.data == "" then []
    else [Event(if b.name == "" then "message" else b.name, b.data[..|b.data| - 1])]
  }

  /** The events a client dispatches while reading s; an unfinished last line gives nothing. */
  function Decode(s: string, b: Buffers): seq<Event>
    decreases |s|
  {
    var i := LineEnd(s);
    if i == |s| then []
    else if i == 0 then Dispatch(b) + Decode(AfterEol(s, 0), Blank)
    else Decode(AfterEol(s, i), Line(b, s[..i]))
  }

  // ---------- round trip ----------

  lemma {:induction false} LineEndIs(line: string, rest: string)
    requires OneLine(line)
    ensures LineEnd(line + "\n" + rest) == |line|
  {
    var s := line + "\n" + rest;
    if line != "" {
      assert s[1..] == line[1..] + "\n" + rest;
      assert s[0] == line[0] && !IsEol(line[0]);
      forall k | 0 <= k < |line| - 1
        ensures !IsEol(line[1..][k])
      {
        assert line[1..][k] == line[k + 1];
      }
      LineEndIs(line[1..], rest);
    }
  }

  /** Reading one line written with a line feed. */
  lemma ReadLine(line: string, rest: string, s: string, b: Buffers)
    requires OneLine(line) && s == line + "\n" + rest
    ensures Decode(s, b) ==
            if line == "" then Dispatch(b) + Decode(rest, Blank) else Decode(rest, Line(b, line))
  {
    LineEndIs(line, rest);
    assert s[|line|] == '\n';
    assert s[..|line|] == line && s[|line| + 1..] == rest;
  }

  lemma FieldLine(field: string, value: string, b: Buffers)
    requires field in {"event", "data"}
    ensures Line(b, field + ": " + value) == Field(b, field, value)
  {
    var line := field + ": " + value;
    assert ColonAt(line) == |field| by { ColonAfter(field, " " + value, line); }
    assert line[..|field|] == field;
    assert line[|field| + 1..] == " " + value;
    assert (" " + value)[1..] == value;
  }

  lemma {:induction false} ColonAfter(field: string, rest: string, line: string)
    requires line == field + ":" + rest && ':' !in field
    ensures ColonAt(line) == |field|
  {
    if field != "" {
      assert line[0] == field[0];
      assert line[1..] == field[1..] + ":" + rest;
      ColonAfter(field[1..], rest, line[1..]);
    }
  }

  lemma OneLineConcat(a: string, b: string)
    requires OneLine(a) && OneLine(b)
    ensures OneLine(a + b)
  {
  }

  /** The three lines of a formatted event. */
  lemma FormatLines(e: Event, rest: string)
    ensures Format(e) + rest ==
            ("event" + ": " + e.name) + "\n" + (("data" + ": " + e.data) + "\n" + ("" + "\n" + rest))
  {
    assert "event: " == "event" + ": " && "data: " == "data" + ": ";
  }

  /** One formatted event reads back as itself, whatever follows. */
  lemma DecodeFormat(e: Event, rest: string, s: string)
    requires Sendable(e) && s == Format(e) + rest
    ensures Decode(s, Blank) == [e] + Decode(rest, Blank)
  {
    FormatLines(e, rest);
    var r2 := "" + "\n" + rest;
    var r1 := ("data" + ": " + e.data) + "\n" + r2;
    OneLineConcat("event" + ": ", e.name);
    OneLineConcat("data" + ": ", e.data);
    ReadLine("event" + ": " + e.name, r1, s, Blank);
    FieldLine("event", e.name, Blank);
    ReadLine("data" + ": " + e.data, r2, r1, Buffers(e.name, ""));
    FieldLine("data", e.data, Buffers(e.name, ""));
    DispatchOne(e, Buffers(e.name, "" + e.data + "\n"));
    ReadLine("", rest, r2, Buffers(e.name, "" + e.data + "\n"));
  }

  lemma DispatchOne(e: Event, b: Buffers)
    requires e.name != "" && b == Buffers(e.name, "" + e.data + "\n")
    ensures Dispatch(b) == [e]
  {
    assert b.data[..|b.data| - 1] == e.data;
  }

  predicate AllSendable(events: seq<Event>) {
    forall i :: 0 <= i < |events| ==> Sendable(events[i])
  }

  /** A client reads exactly the events that were written, in order. */
  lemma {:induction false} DecodeFormatAll(events: seq<Event>)
    requires AllSendable(events)
    ensures Decode(FormatAll(events), Blank) == events
  {
    if events == [] {
      assert Decode("", Blank) == [];
    } else {
      DecodeFormatAll(events[1..]);
      DecodeFormat(events[0], FormatAll(events[1..]), FormatAll(events));
      assert events == [events[0]] + events[1..];
    }
  }

  /** Writing one more event appends its bytes. */
  lemma {:induction false} FormatAllAppend(events: seq<Event>, e: Event)
    ensures FormatAll(events + [e]) == FormatAll(events) + Format(e)
  {
    if events == [] {
      assert [e][1..] == [];
    } else {
      assert (events + [e])[1..] == events[1..] + [e];
      FormatAllAppend(events[1..], e);
    }
  }
}
