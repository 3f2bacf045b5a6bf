/** JSON-RPC messages as far as the transports look at them. */
module JsonRpc {
  import opened Json

  /** A decoded response id: encoding/json turns every number into a float64. */
  datatype RpcId = Number(value: real) | NotANumber

  /** `good` tells whether its caller takes it for a success: no error, and a result that decodes. */
  datatype Response = Response(id: RpcId, body: Json, good: bool)
}

/** mcp/sse.go and mcp/streamable.go: framing of event streams, given as split lines. */
module SseFraming {
  import opened Options
  import opened Text
  import opened JsonRpc

  const EVENT := "event:"
  const DATA := "data:"

  /** What readLoop has accumulated when it meets a blank line. */
  datatype Event = Event(typ: string, lines: seq<string>)

  const NOTHING := Event("", [])

  /** The effect of a non-blank line on readLoop's variables. */
  function Accumulate(e: Event, line: string): Event {
    if EVENT <= line then e.(typ := TrimSpace(line[|EVENT|..]))
    else if DATA <= line then e.(lines := e.lines + [TrimSpace(line[|DATA|..])])
    else e
  }

  /** The events readLoop frames from its current accumulation on. */
  function ReadFrom(e: Event, lines: seq<string>): seq<Event>
    decreases lines
  {
    if lines == [] then []
    else if lines[0] == "" then [e] + ReadFrom(NOTHING, lines[1..])
    else ReadFrom(Accumulate(e, lines[0]), lines[1..])
  }

  function Read(lines: seq<string>): seq<Event> {
    ReadFrom(NOTHING, lines)
  }

  /** The data handed to handleEvent. */
  function Data(e: Event): string {
    Join(e.lines, "\n")
  }

  // ----- the loop -----

  /** What a connection's events have done to it so far. */
  datatype Effects = Effects(endpoint: Option<string>, dispatched: seq<Response>)

  /** handleEvent: only the first endpoint counts; undecodable and foreign events are dropped. */
  function Handle(x: Effects, e: Event, resolve: string -> string, decode: string -> Option<Response>): Effects {
    if e.typ == "endpoint" then
      if x.endpoint.None? then x.(endpoint := Some(resolve(TrimSpace(Data(e))))) else x
    else if e.typ == "" || e.typ == "message" then
      match decode(Data(e))
      case Some(resp) => x.(dispatched := x.dispatched + [resp])
      case None => x
    else x
  }

  function HandleAll(x: Effects, es: seq<Event>, resolve: string -> string, decode: string -> Option<Response>): Effects
    decreases es
  {
    if es == [] then x else HandleAll(Handle(x, es[0], resolve, decode), es[1..], resolve, decode)
  }

  /** The reading half of an SSE connection. */
  class StreamReader {
    var endpoint: Option<string>
    var dispatched: seq<Response>
    var cancelled: bool

    constructor ()
      ensures State() == Effects(None, []) && !cancelled
    {
      endpoint, dispatched, cancelled := None, [], false;
    }

    ghost function State(): Effects
      reads this
    {
      Effects(endpoint, dispatched)
    }

    method HandleEvent(eventType: string, data: string, resolve: string -> string, decode: string -> Option<Response>,
        ghost e: Event)
      requires e.typ == eventType && Data(e) == data
      modifies this`endpoint, this`dispatched
      ensures State() == Handle(old(State()), e, resolve, decode)
    {
      if eventType == "endpoint" {
        if endpoint.None? { endpoint := Some(resolve(TrimSpace(data))); }
      } else if eventType == "" || eventType == "message" {
        var resp := decode(data);
        if resp.Some? { dispatched := dispatched + [resp.value]; }
      }
    }

    /** When the stream ends, whoever ended it, the connection is cancelled. */
    method ReadLoop(lines: seq<string>, resolve: string -> string, decode: string -> Option<Response>)
      modifies this
      ensures State() == HandleAll(old(State()), Read(lines), resolve, decode)
      ensures cancelled
    {
      var eventType := "";
      var dataLines: seq<string> := [];
      for i := 0 to |lines|
        invariant HandleAll(State(), ReadFrom(Event(eventType, dataLines), lines[i..]), resolve, decode)
               == HandleAll(old(State()), Read(lines), resolve, decode)
      {
        var line := lines[i];
        assert lines[i..][0] == line && lines[i..][1..] == lines[i + 1..];
        if line == "" {
          HandleEvent(eventType, Join(dataLines, "\n"), resolve, decode, Event(eventType, dataLines));
          eventType := "";
          dataLines := [];
        } else if EVENT <= line {
          eventType := TrimSpace(line[|EVENT|..]);
        } else if DATA <= line {
          dataLines := dataLines + [TrimSpace(line[|DATA|..])];
        }
      }
      cancelled := true;
    }
  }

  /** The endpoint a connection ends up with is the one of its first endpoint event. */
  lemma {:induction false} FirstEndpointWins(x: Effects, es: seq<Event>, i: nat, resolve: string -> string,
      decode: string -> Option<Response>)
    requires x.endpoint.None? && i < |es| && es[i].typ == "endpoint"
    requires forall j :: 0 <= j < i ==> es[j].typ != "endpoint"
    ensures HandleAll(x, es, resolve, decode).endpoint == Some(resolve(TrimSpace(Data(es[i]))))
    decreases es
  {
    if i == 0 {
      EndpointStays(Handle(x, es[0], resolve, decode), es[1..], resolve, decode);
    } else {
      FirstEndpointWins(Handle(x, es[0], resolve, decode), es[1..], i - 1, resolve, decode);
    }
  }

  lemma {:induction false} EndpointStays(x: Effects, es: seq<Event>, resolve: string -> string,
      decode: string -> Option<Response>)
    requires x.endpoint.Some?
    ensures HandleAll(x, es, resolve, decode).endpoint == x.endpoint
    decreases es
  {
    if es != [] { EndpointStays(Handle(x, es[0], resolve, decode), es[1..], resolve, decode); }
  }

  /** The events that carry a response which decodes. */
  predicate Carries(e: Event, decode: string -> Option<Response>) {
    (e.typ == "" || e.typ == "message") && decode(Data(e)).Some?
  }

  lemma {:induction false} HandleLast(x: Effects, es: seq<Event>, resolve: string -> string,
      decode: string -> Option<Response>)
    requires es != []
    ensures HandleAll(x, es, resolve, decode)
      == Handle(HandleAll(x, es[..|es| - 1], resolve, decode), es[|es| - 1], resolve, decode)
    decreases es
  {
    hide Handle;
    var n := |es| - 1;
    if n > 0 {
      HandleLast(Handle(x, es[0], resolve, decode), es[1..], resolve, decode);
      assert es[1..][..n - 1] == es[..n][1..];
    } else {
      assert es[..0] == [] && es[1..] == [];
    }
  }

  /** What is dispatched are the responses of exactly those events, in the order of the stream. */
  lemma {:induction false} DispatchedExactly(x: Effects, es: seq<Event>, resolve: string -> string,
      decode: string -> Option<Response>) returns (at: seq<nat>)
    ensures forall i, j :: 0 <= i < j < |at| ==> at[i] < at[j]
    ensures forall p: nat :: p in at <==> p < |es| && Carries(es[p], decode)
    ensures var after := HandleAll(x, es, resolve, decode).dispatched;
      && |after| == |x.dispatched| + |at| && x.dispatched <= after
      && forall i :: 0 <= i < |at| ==> at[i] < |es| && decode(Data(es[at[i]])) == Some(after[|x.dispatched| + i])
  {
    at := [];
    if es != [] {
      var n := |es| - 1;
      var before := DispatchedExactly(x, es[..n], resolve, decode);
      HandleLast(x, es, resolve, decode);
      hide HandleAll, Data;
      at := before + (if Carries(es[n], decode) then [n] else []);
      assert forall i :: 0 <= i < |before| ==> before[i] in before;
      assert forall p: nat :: p < n ==> es[..n][p] == es[p];
      if Carries(es[n], decode) { assert at[|before|] == n; }
    }
  }

  // ----- composition -----

  /** Reading is compositional at blank lines. */
  lemma {:induction false} ReadSplitsAtBlank(e: Event, a: seq<string>, b: seq<string>)
    ensures ReadFrom(e, a + [""] + b) == ReadFrom(e, a + [""]) + Read(b)
    decreases a
  {
    var whole, left := a + [""] + b, a + [""];
    if a == [] {
      assert whole[1..] == b && left[1..] == [];
    } else {
      assert whole[1..] == a[1..] + [""] + b && left[1..] == a[1..] + [""];
      if a[0] == "" {
        ReadSplitsAtBlank(NOTHING, a[1..], b);
      } else {
        ReadSplitsAtBlank(Accumulate(e, a[0]), a[1..], b);
      }
    }
  }

  /** An event that no blank line ends is never seen. */
  lemma {:induction false} UnterminatedTailReadsNothing(e: Event, tail: seq<string>)
    requires "" !in tail
    ensures ReadFrom(e, tail) == []
    decreases tail
  {
    if tail != [] {
      assert tail[0] in tail;
      UnterminatedTailReadsNothing(Accumulate(e, tail[0]), tail[1..]);
    }
  }

  lemma TailIsDropped(a: seq<string>, tail: seq<string>)
    requires "" !in tail
    ensures Read(a + [""] + tail) == Read(a + [""])
  {
    ReadSplitsAtBlank(NOTHING, a, tail);
    UnterminatedTailReadsNothing(NOTHING, tail);
  }

  // ----- printing -----

  function DataLine(s: string): string {
    DATA + " " + s
  }

  function TypeLine(s: string): string {
    EVENT + " " + s
  }

  function PrintData(lines: seq<string>, rest: seq<string>): seq<string> {
    if lines == [] then rest else [DataLine(lines[0])] + PrintData(lines[1..], rest)
  }

  /** An event, its closing blank line, and what follows. */
  function Print(e: Event, rest: seq<string>): seq<string> {
    var data := PrintData(e.lines, [""] + rest);
    if e.typ == "" then data else [TypeLine(e.typ)] + data
  }

  function PrintAll(es: seq<Event>): seq<string> {
    if es == [] then [] else Print(es[0], PrintAll(es[1..]))
  }

  predicate PlainLine(s: string) {
    Trimmed(s) && '\n' !in s
  }

  predicate Printable(e: Event) {
    PlainLine(e.typ) && forall l :: l in e.lines ==> PlainLine(l)
  }

  lemma AccumulatePrinted(e: Event, s: string)
    requires Trimmed(s)
    ensures DataLine(s) != "" && Accumulate(e, DataLine(s)) == e.(lines := e.lines + [s])
    ensures TypeLine(s) != "" && Accumulate(e, TypeLine(s)) == e.(typ := s)
  {
    var data, typ := DataLine(s), TypeLine(s);
    assert data[|DATA|..] == " " + s && typ[|EVENT|..] == " " + s;
    assert data[0] == 'd' && EVENT[0] == 'e';
    TrimmedIsFixed(s);
  }

  lemma ReadCons(e: Event, line: string, rest: seq<string>)
    ensures ReadFrom(e, [line] + rest) == if line == "" then [e] + Read(rest) else ReadFrom(Accumulate(e, line), rest)
  {
    assert ([line] + rest)[1..] == rest;
  }

  lemma {:induction false} ReadPrintedData(e: Event, lines: seq<string>, tail: seq<string>)
    requires forall l :: l in lines ==> Trimmed(l)
    ensures ReadFrom(e, PrintData(lines, tail)) == ReadFrom(e.(lines := e.lines + lines), tail)
    decreases lines
  {
    if lines == [] {
      assert e.lines + lines == e.lines;
    } else {
      assert lines[0] in lines;
      AccumulatePrinted(e, lines[0]);
      hide Accumulate, ReadFrom, Trimmed, DataLine, TypeLine;
      ReadCons(e, DataLine(lines[0]), PrintData(lines[1..], tail));
      ReadPrintedData(e.(lines := e.lines + [lines[0]]), lines[1..], tail);
      AppendHead(e.lines, lines);
    }
  }

  lemma AppendHead(a: seq<string>, b: seq<string>)
    requires b != []
    ensures a + [b[0]] + b[1..] == a + b
  {
  }

  lemma ReadPrintedOne(e: Event, rest: seq<string>)
    requires Printable(e)
    ensures Read(Print(e, rest)) == [e] + Read(rest)
  {
    var blank := [""] + rest;
    AccumulatePrinted(NOTHING, e.typ);
    ReadPrintedData(Event(e.typ, []), e.lines, blank);
    assert [] + e.lines == e.lines;
    hide Accumulate, ReadFrom, PrintData, PlainLine, Trimmed, TypeLine, DataLine;
    ReadCons(e, "", rest);
    if e.typ != "" { ReadCons(NOTHING, TypeLine(e.typ), PrintData(e.lines, blank)); }
  }

  /** Printing events and reading them back gives the same events. */
  lemma {:induction false} ReadPrinted(es: seq<Event>)
    requires forall e :: e in es ==> Printable(e)
    ensures Read(PrintAll(es)) == es
  {
    if es != [] {
      assert es[0] in es;
      ReadPrinted(es[1..]);
      ReadPrintedOne(es[0], PrintAll(es[1..]));
      assert es == [es[0]] + es[1..];
    }
  }

  /** Nor is anything lost in handing the lines over as one string: with at least one line,
      and none containing a line feed, splitting the data recovers them. */
  lemma DataDeterminesLines(e: Event)
    requires Printable(e) && e.lines != []
    ensures Split(Data(e), '\n') == e.lines
  {
    assert forall i :: 0 <= i < |e.lines| ==> e.lines[i] in e.lines;
    SplitJoin(e.lines, '\n');
  }

  // ----- section 9.2.6 of the WHATWG HTML Standard -----

  datatype Message = Message(typ: string, data: string)

  /** The standard's data buffer and event type buffer. */
  datatype Buffers = Buffers(data: string, typ: string)

  const EMPTY := Buffers("", "")

  /** Field name and value of a non-blank line; a comment has the empty name. */
  function StandardField(line: string): (string, string) {
    var colon := Index(line, ":");
    if colon == 0 then ("", "")
    else if colon > 0 then
      var value := line[colon + 1..];
      (line[..colon], if " " <= value then value[1..] else value)
    else (line, "")
  }

  function ProcessField(b: Buffers, field: (string, string)): Buffers {
    if field.0 == "event" then b.(typ := field.1)
    else if field.0 == "data" then b.(data := b.data + field.1 + "\n")
    else b
  }

  function MessageType(typ: string): string {
    if typ == "" then "message" else typ
  }

  /** The messages a user agent dispatches. The final line feed of the data is dropped. */
  function Interpret(b: Buffers, lines: seq<string>): seq<Message>
    decreases lines
  {
    if lines == [] then []
    else if lines[0] == "" then
      (if b.data == "" then []
       else [Message(MessageType(b.typ), b.data[..|b.data| - 1])])
      + Interpret(EMPTY, lines[1..])
    else Interpret(ProcessField(b, StandardField(lines[0])), lines[1..])
  }

  /** The same message, as readLoop's events give it: events without data dispatch nothing. */
  function Messages(es: seq<Event>): seq<Message> {
    if es == [] then []
    else
      (if es[0].lines == [] then []
       else [Message(MessageType(es[0].typ), Data(es[0]))])
      + Messages(es[1..])
  }

  /** A line on which readLoop and the standard take the same field and value. */
  predicate Agrees(line: string) {
    if EVENT <= line || DATA <= line then
      var value := line[if EVENT <= line then |EVENT| else |DATA|..];
      TrimSpace(value) == if " " <= value then value[1..] else value
    else line != "event" && line != "data"
  }

  lemma NoColonIn(s: string, rest: string)
    requires ':' !in s
    ensures Index(s + ":" + rest, ":") == |s|
  {
    var t := s + ":" + rest;
    assert OccursAt(t, ":", |s|);
    forall i | 0 <= i < |s| ensures !OccursAt(t, ":", i) {
      assert t[i] == s[i] && s[i] in s;
    }
  }

  lemma FieldOfPrefixed(name: string, line: string)
    requires ':' !in name && name != "" && name + ":" <= line
    ensures var value := line[|name| + 1..];
      StandardField(line) == (name, if " " <= value then value[1..] else value)
  {
    assert line == name + ":" + line[|name| + 1..];
    NoColonIn(name, line[|name| + 1..]);
    assert line[..|name|] == name;
  }

  lemma NoColon(line: string)
    requires ':' !in line
    ensures StandardField(line) == (line, "")
  {
    forall j | 0 <= j < |line| ensures !OccursAt(line, ":", j) {
      assert line[j..j + 1] == [line[j]] && line[j] in line;
    }
  }

  /** A line without the prefix can only be a field of that name when it is the bare name. */
  lemma FieldOfOther(name: string, line: string)
    requires ':' !in name && name != "" && !(name + ":" <= line)
    ensures StandardField(line).0 == name <==> line == name
  {
    if ':' !in line {
      NoColon(line);
    } else {
      var i :| 0 <= i < |line| && line[i] == ':';
      assert OccursAt(line, ":", i);
      var colon := Index(line, ":");
      assert line[colon..colon + 1] == ":";
      assert line == line[..colon] + ":" + line[colon + 1..];
    }
  }

  /** The standard's buffers for what readLoop holds. */
  function BuffersOf(e: Event): Buffers {
    Buffers(Terminated(e.lines), e.typ)
  }

  function Terminated(lines: seq<string>): string {
    if lines == [] then "" else Terminated(lines[..|lines| - 1]) + lines[|lines| - 1] + "\n"
  }

  lemma {:induction false} TerminatedIsJoin(lines: seq<string>)
    requires lines != []
    ensures Terminated(lines) == Join(lines, "\n") + "\n"
  {
    if |lines| == 1 {
      assert Terminated(lines[..0]) == "";
    } else {
      TerminatedCons(lines);
      TerminatedIsJoin(lines[1..]);
    }
  }

  lemma {:induction false} TerminatedCons(lines: seq<string>)
    requires lines != []
    ensures Terminated(lines) == lines[0] + "\n" + Terminated(lines[1..])
  {
    var n := |lines| - 1;
    if n == 0 {
      assert Terminated(lines[..0]) == "" == Terminated(lines[1..]);
    } else {
      TerminatedCons(lines[..n]);
      assert lines[..n][1..] == lines[1..][..n - 1];
      assert lines[0] + "\n" + Terminated(lines[1..][..n - 1]) + lines[n] + "\n"
        == lines[0] + "\n" + Terminated(lines[1..]);
    }
  }

  lemma AgreeingStep(e: Event, line: string)
    requires Agrees(line)
    ensures ProcessField(BuffersOf(e), StandardField(line)) == BuffersOf(Accumulate(e, line))
  {
    assert "event" + ":" == EVENT && "data" + ":" == DATA;
    if EVENT <= line {
      FieldOfPrefixed("event", line);
    } else if DATA <= line {
      FieldOfPrefixed("data", line);
      var value := TrimSpace(line[|DATA|..]);
      var lines := e.lines + [value];
      assert lines[..|lines| - 1] == e.lines;
    } else {
      FieldOfOther("event", line);
      FieldOfOther("data", line);
    }
  }

  /** On streams whose lines agree, readLoop's data-bearing events are the standard's messages. */
  lemma {:induction false} ReadMeetsStandard(e: Event, lines: seq<string>)
    requires forall l :: l in lines && l != "" ==> Agrees(l)
    ensures Interpret(BuffersOf(e), lines) == Messages(ReadFrom(e, lines))
    decreases lines
  {
    if lines != [] {
      assert lines[0] in lines;
      if lines[0] == "" {
        ReadMeetsStandard(NOTHING, lines[1..]);
        assert BuffersOf(NOTHING) == EMPTY;
        if e.lines != [] { TerminatedIsJoin(e.lines); }
        var es := ReadFrom(e, lines);
        assert es[0] == e && es[1..] == Read(lines[1..]);
      } else {
        AgreeingStep(e, lines[0]);
        ReadMeetsStandard(Accumulate(e, lines[0]), lines[1..]);
      }
    }
  }

  /** Agreement is needed line by line: any other line tells the two apart in some stream
      in which all the remaining lines agree. */
  lemma DisagreementShows(line: string) returns (stream: seq<string>)
    requires line != "" && !Agrees(line)
    ensures forall l :: l in stream && l != "" && l != line ==> Agrees(l)
    ensures Interpret(EMPTY, stream) != Messages(Read(stream))
  {
    if DATA <= line || line == "data" {
      stream := [line, ""];
      DataLineDiffers(line);
    } else {
      stream := [EVENT + " a", line, DATA, ""];
      TrimmedIsFixed("a");
      TrimmedIsFixed("");
      assert (EVENT + " a")[|EVENT|..] == " a" && DATA[|DATA|..] == "";
      assert DATA[0] == 'd' && EVENT[0] == 'e';
      assert Agrees(EVENT + " a") && Agrees(DATA);
      EventLineDiffers(line);
    }
  }

  lemma InterpretData(b: Buffers, line: string, value: string)
    requires line != "" && b.data == "" && StandardField(line) == ("data", value)
    ensures Interpret(b, [line, ""]) == [Message(MessageType(b.typ), value)]
  {
    hide StandardField;
    assert [line, ""][1..] == [""] && [""][1..] == [];
    assert "" + value + "\n" == value + "\n" && (value + "\n")[..|value|] == value;
  }

  lemma ReadOne(e: Event, line: string, e': Event)
    requires line != "" && Accumulate(e, line) == e'
    ensures ReadFrom(e, [line, ""]) == [e']
    ensures Messages(ReadFrom(e, [line, ""])) == if e'.lines == [] then [] else [Message(MessageType(e'.typ), Data(e'))]
  {
    hide Accumulate;
    assert [line, ""][1..] == [""] && [""][1..] == [];
  }

  lemma DataLineDiffers(line: string)
    requires !Agrees(line) && (DATA <= line || line == "data")
    ensures Interpret(EMPTY, [line, ""]) != Messages(Read([line, ""]))
  {
    assert "data" + ":" == DATA && line[0] == 'd' && EVENT[0] == 'e';
    ReadOne(NOTHING, line, Accumulate(NOTHING, line));
    if DATA <= line { FieldOfPrefixed("data", line); } else { NoColon(line); }
    hide StandardField, TrimSpace, Index, Interpret, Messages, Read;
    InterpretData(EMPTY, line, StandardField(line).1);
  }

  lemma EventLineDiffers(line: string)
    requires line != "" && !Agrees(line) && !(DATA <= line) && line != "data"
    ensures var stream := [EVENT + " a", line, DATA, ""];
      Interpret(EMPTY, stream) != Messages(Read(stream))
  {
    EventTypesDiffer(line);
    TypedPrelude(line, Accumulate(Event("a", []), line).typ, StandardField(line).1);
  }

  /** After a typed prelude, an event line decides the type of an event with one empty data line. */
  lemma TypedPrelude(line: string, mine: string, std: string)
    requires line != "" && StandardField(line) == ("event", std)
    requires Accumulate(Event("a", []), line) == Event(mine, [])
    ensures var stream := [EVENT + " a", line, DATA, ""];
      && Interpret(EMPTY, stream) == [Message(MessageType(std), "")]
      && Messages(Read(stream)) == [Message(MessageType(mine), "")]
  {
    var typed := EVENT + " a";
    var stream := [typed, line, DATA, ""];
    TypedLine(typed);
    BareData(Event(mine, []));
    hide StandardField, Accumulate, Messages;
    assert stream[1..] == [line, DATA, ""] && [line, DATA, ""][1..] == [DATA, ""];
    assert Read(stream) == ReadFrom(Event("a", []), [line, DATA, ""]) == ReadFrom(Event(mine, []), [DATA, ""]);
    assert Interpret(EMPTY, stream) == Interpret(Buffers("", "a"), [line, DATA, ""])
      == Interpret(Buffers("", std), [DATA, ""]);
    ReadOne(Event(mine, []), DATA, Event(mine, [""]));
    InterpretData(Buffers("", std), DATA, "");
  }

  lemma TypedLine(typed: string)
    requires typed == EVENT + " a"
    ensures StandardField(typed) == ("event", "a") && Accumulate(NOTHING, typed) == Event("a", [])
  {
    assert typed[|EVENT|..] == " a";
    TrimmedIsFixed("a");
    assert "event" + ":" == EVENT;
    FieldOfPrefixed("event", typed);
  }

  lemma BareData(e: Event)
    requires e.lines == []
    ensures StandardField(DATA) == ("data", "") && Accumulate(e, DATA) == Event(e.typ, [""])
  {
    assert DATA[|DATA|..] == "" && DATA[0] == 'd' && EVENT[0] == 'e';
    TrimmedIsFixed("");
    assert "data" + ":" == DATA;
    FieldOfPrefixed("data", DATA);
  }

  /** An event line that the two read differently gives two different message types. */
  lemma EventTypesDiffer(line: string)
    requires !Agrees(line) && !(DATA <= line) && line != "data"
    ensures StandardField(line).0 == "event" && Accumulate(Event("a", []), line).lines == []
    ensures MessageType(Accumulate(Event("a", []), line).typ) != MessageType(StandardField(line).1)
  {
    if EVENT <= line {
      assert "event" + ":" == EVENT;
      FieldOfPrefixed("event", line);
      ValuesDiffer(line[|EVENT|..]);
    } else {
      NoColon(line);
    }
  }

  lemma ValuesDiffer(value: string)
    requires TrimSpace(value) != if " " <= value then value[1..] else value
    ensures MessageType(TrimSpace(value)) != MessageType(if " " <= value then value[1..] else value)
  {
    var std := if " " <= value then value[1..] else value;
    assert value == std || value == " " + std;
    if Trimmed(std) {
      TrimmedIsFixed(std);
    } else {
      assert Trimmed("message") && Trimmed("");
    }
  }

  // ----- the effects of a stream -----

  /** The same effects for a message of the standard. */
  function HandleMessage(x: Effects, m: Message, resolve: string -> string,
      decode: string -> Option<Response>): Effects {
    if m.typ == "endpoint" then
      if x.endpoint.None? then x.(endpoint := Some(resolve(TrimSpace(m.data)))) else x
    else if m.typ == "message" then
      match decode(m.data)
      case Some(resp) => x.(dispatched := x.dispatched + [resp])
      case None => x
    else x
  }

  function HandleMessages(x: Effects, ms: seq<Message>, resolve: string -> string,
      decode: string -> Option<Response>): Effects
    decreases ms
  {
    if ms == [] then x else HandleMessages(HandleMessage(x, ms[0], resolve, decode), ms[1..], resolve, decode)
  }

  function IsEndpoint(e: Event): bool {
    e.typ == "endpoint"
  }

  /** The address of the first endpoint event, with or without data. */
  function FirstAddress(es: seq<Event>, resolve: string -> string): Option<string> {
    if es == [] then None
    else if IsEndpoint(es[0]) then Some(resolve(TrimSpace(Data(es[0]))))
    else FirstAddress(es[1..], resolve)
  }

  /** The address of the first endpoint event that has data. */
  function FirstDataAddress(es: seq<Event>, resolve: string -> string): Option<string> {
    if es == [] then None
    else if IsEndpoint(es[0]) && es[0].lines != [] then Some(resolve(TrimSpace(Data(es[0]))))
    else FirstDataAddress(es[1..], resolve)
  }

  function Else(a: Option<string>, b: Option<string>): Option<string> {
    if a.Some? then a else b
  }

  lemma HandleMatches(x: Effects, e: Event, resolve: string -> string, decode: string -> Option<Response>)
    requires e.lines != []
    ensures HandleMessage(x, Message(MessageType(e.typ), Data(e)), resolve, decode) == Handle(x, e, resolve, decode)
  {
  }

  lemma {:induction false} EffectsOfEvents(x: Effects, y: Effects, es: seq<Event>, resolve: string -> string,
      decode: string -> Option<Response>)
    requires decode("").None? && x.dispatched == y.dispatched
    ensures HandleAll(x, es, resolve, decode).dispatched == HandleMessages(y, Messages(es), resolve, decode).dispatched
    ensures HandleAll(x, es, resolve, decode).endpoint == Else(x.endpoint, FirstAddress(es, resolve))
    ensures HandleMessages(y, Messages(es), resolve, decode).endpoint == Else(y.endpoint, FirstDataAddress(es, resolve))
    decreases es
  {
    if es != [] {
      var e := es[0];
      if e.lines == [] {
        assert Data(e) == "";
        EffectsOfEvents(Handle(x, e, resolve, decode), y, es[1..], resolve, decode);
        assert Messages(es) == Messages(es[1..]);
      } else {
        var m := Message(MessageType(e.typ), Data(e));
        HandleMatches(y, e, resolve, decode);
        EffectsOfEvents(Handle(x, e, resolve, decode), HandleMessage(y, m, resolve, decode), es[1..], resolve, decode);
        assert Messages(es) == [m] + Messages(es[1..]);
        assert Messages(es)[1..] == Messages(es[1..]);
      }
    }
  }

  /** On a stream whose lines agree, where empty data is no message: the responses dispatched are those
      of the standard's messages, and the whole effect is theirs exactly when the connection had its
      endpoint before, or the first endpoint event leads to the same address as the first one with data. */
  lemma EffectsMeetStandard(x: Effects, lines: seq<string>, resolve: string -> string,
      decode: string -> Option<Response>)
    requires decode("").None? && forall l :: l in lines && l != "" ==> Agrees(l)
    ensures var mine := HandleAll(x, Read(lines), resolve, decode);
      var std := HandleMessages(x, Interpret(EMPTY, lines), resolve, decode);
      && mine.dispatched == std.dispatched
      && (mine == std <==>
        x.endpoint.Some? || FirstAddress(Read(lines), resolve) == FirstDataAddress(Read(lines), resolve))
  {
    ReadMeetsStandard(NOTHING, lines);
    assert BuffersOf(NOTHING) == EMPTY;
    EffectsOfEvents(x, x, Read(lines), resolve, decode);
  }

  /** They differ on an endpoint event without data, which the standard discards. */
  lemma EmptyEndpointIsTaken(resolve: string -> string, decode: string -> Option<Response>)
    ensures var stream := [EVENT + " endpoint", ""];
      && Interpret(EMPTY, stream) == []
      && HandleAll(Effects(None, []), Read(stream), resolve, decode).endpoint == Some(resolve(""))
  {
    var line := EVENT + " endpoint";
    assert line[|EVENT|..] == " endpoint";
    TrimmedIsFixed("endpoint");
    TrimmedIsFixed("");
    ReadOne(NOTHING, line, Event("endpoint", []));
    assert Agrees(line);
    ReadMeetsStandard(NOTHING, [line, ""]);
    assert BuffersOf(NOTHING) == EMPTY;
  }

  // ----- decodeSSEResponse -----

  /** The payload decodeSSEResponse decodes: that of the first data line. */
  function FirstPayload(lines: seq<string>): Option<string> {
    if lines == [] then None
    else if DATA <= lines[0] then Some(TrimSpace(lines[0][|DATA|..]))
    else FirstPayload(lines[1..])
  }

  method DecodeSseResponse(lines: seq<string>) returns (payload: Option<string>)
    ensures payload == FirstPayload(lines)
  {
    for i := 0 to |lines|
      invariant FirstPayload(lines[i..]) == FirstPayload(lines)
    {
      if DATA <= lines[i] { return Some(TrimSpace(lines[i][|DATA|..])); }
    }
    return None;
  }

  /** The data of the first data-bearing event that readLoop frames. */
  function FirstFramed(es: seq<Event>): Option<string> {
    if es == [] then None
    else if es[0].lines != [] then Some(Data(es[0]))
    else FirstFramed(es[1..])
  }

  /** The data lines of the first data-bearing event, and whether a blank line ends it. */
  function FirstBlock(e: Event, lines: seq<string>): (seq<string>, bool)
    decreases lines
  {
    if lines == [] then (e.lines, false)
    else if lines[0] == "" then if e.lines != [] then (e.lines, true) else FirstBlock(NOTHING, lines[1..])
    else FirstBlock(Accumulate(e, lines[0]), lines[1..])
  }

  lemma {:induction false} FramedIsBlock(e: Event, lines: seq<string>)
    ensures var (block, ended) := FirstBlock(e, lines);
      && FirstFramed(ReadFrom(e, lines)) == (if ended then Some(Join(block, "\n")) else None)
      && (if e.lines != [] then Some(e.lines[0]) else FirstPayload(lines))
        == (if block != [] then Some(block[0]) else None)
      && (ended ==> block != [])
    decreases lines
  {
    if lines != [] {
      if lines[0] == "" {
        FramedIsBlock(NOTHING, lines[1..]);
        var es := ReadFrom(e, lines);
        assert es[0] == e && es[1..] == Read(lines[1..]);
      } else {
        assert DATA <= lines[0] ==> !(EVENT <= lines[0]) by { assert DATA[0] == 'd' && EVENT[0] == 'e'; }
        FramedIsBlock(Accumulate(e, lines[0]), lines[1..]);
      }
    }
  }

  /** The two decoders see the same first payload exactly when there is none at all, or when the
      first data-bearing event is ended by a blank line and has a single data line. */
  lemma DecodersAgreeExactly(lines: seq<string>)
    ensures var (block, ended) := FirstBlock(NOTHING, lines);
      FirstPayload(lines) == FirstFramed(Read(lines)) <==> block == [] || (ended && |block| == 1)
  {
    FramedIsBlock(NOTHING, lines);
    var (block, ended) := FirstBlock(NOTHING, lines);
    if |block| > 1 {
      assert |Join(block, "\n")| > |block[0]|;
    }
  }
}
