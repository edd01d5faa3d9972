/**
 * The SSE line parser. `recv` is called once per delivered payload and keeps only the cursor
 * between calls; the theorems say that this loses nothing against parsing the stream in one
 * pass, that printing and parsing are inverse, and what exactly a broken connection can lose.
 */
module SseSpec {
  import opened Prelude

  // ---------------------------------------------------------------- lines

  // The part of a line before its first colon, and the part after it.
  function Field(line: string): string {
    if line == "" || line[0] == ':' then "" else [line[0]] + Field(line[1..])
  }

  function AfterColon(line: string): string {
    if line == "" then "" else if line[0] == ':' then line[1..] else AfterColon(line[1..])
  }

  function Value(line: string): string {
    var v := AfterColon(line);
    if v != "" && v[0] == ' ' then v[1..] else v
  }

  predicate Comment(line: string) {
    line != "" && line[0] == ':'
  }

  function Join(parts: seq<string>): string {
    if parts == [] then ""
    else if |parts| == 1 then parts[0]
    else Join(parts[..|parts| - 1]) + "\n" + parts[|parts| - 1]
  }

  // ---------------------------------------------------------------- the parser

  // The event under construction and the resume cursor.
  datatype Parse = Parse(eventType: string, parts: seq<string>, cursor: Option<string>)

  function Fresh(cursor: Option<string>): Parse {
    Parse("message", [], cursor)
  }

  // One line: the new state, and the payload if the line dispatches one.
  function Feed(p: Parse, line: string): (Parse, Option<string>) {
    if line == "" then
      var payload := Join(p.parts);
      (Fresh(p.cursor), if payload != "" && p.eventType == "message" then Some(payload) else None)
    else if Comment(line) then (p, None)
    else if Field(line) == "event" then (p.(eventType := Value(line)), None)
    else if Field(line) == "data" then (p.(parts := p.parts + [Value(line)]), None)
    else if Field(line) == "id" then (p.(cursor := Some(Value(line))), None)
    else (p, None)
  }

  datatype Received = Payload(data: string, rest: seq<string>, cursor: Option<string>) | Ended(cursor: Option<string>)

  // One call of `recv`, starting in state `p`.
  function Scan(p: Parse, lines: seq<string>): Received
    decreases |lines|
  {
    if lines == [] then Ended(p.cursor)
    else
      var (p', out) := Feed(p, lines[0]);
      if out.Some? then Payload(out.value, lines[1..], p'.cursor) else Scan(p', lines[1..])
  }

  lemma {:induction false} ScanConsumes(p: Parse, lines: seq<string>)
    ensures Scan(p, lines).Payload? ==> |Scan(p, lines).rest| < |lines|
    decreases |lines|
  {
    if lines != [] {
      ScanConsumes(Feed(p, lines[0]).0, lines[1..]);
    }
  }

  // Calling `recv` until the stream ends: the payloads and the final cursor.
  function RecvAll(cursor: Option<string>, lines: seq<string>): (seq<string>, Option<string>)
    decreases |lines|
  {
    ScanConsumes(Fresh(cursor), lines);
    match Scan(Fresh(cursor), lines)
    case Ended(c) => ([], c)
    case Payload(data, rest, c) =>
      var (more, last) := RecvAll(c, rest);
      ([data] + more, last)
  }

  function Emit(out: Option<string>, more: seq<string>): seq<string> {
    if out.Some? then [out.value] + more else more
  }

  // Parsing the whole stream in one pass.
  function FeedAll(p: Parse, lines: seq<string>): (Parse, seq<string>)
    decreases |lines|
  {
    if lines == [] then (p, [])
    else
      var (p', out) := Feed(p, lines[0]);
      var (last, more) := FeedAll(p', lines[1..]);
      (last, Emit(out, more))
  }

  lemma {:induction false} ScanIsOnePassPrefix(p: Parse, lines: seq<string>)
    ensures match Scan(p, lines)
            case Ended(c) => FeedAll(p, lines).1 == [] && FeedAll(p, lines).0.cursor == c
            case Payload(data, rest, c) =>
              FeedAll(p, lines) == (FeedAll(Fresh(c), rest).0, [data] + FeedAll(Fresh(c), rest).1)
    decreases |lines|
  {
    hide Join, Field, Value, Comment;
    if lines != [] {
      ScanIsOnePassPrefix(Feed(p, lines[0]).0, lines[1..]);
    }
  }

  // Call-by-call parsing and one-pass parsing give the same payloads and the same cursor.
  lemma {:induction false} CallByCallIsOnePass(cursor: Option<string>, lines: seq<string>)
    ensures RecvAll(cursor, lines) == (FeedAll(Fresh(cursor), lines).1, FeedAll(Fresh(cursor), lines).0.cursor)
    decreases |lines|
  {
    ScanConsumes(Fresh(cursor), lines);
    ScanIsOnePassPrefix(Fresh(cursor), lines);
    hide Scan, FeedAll;
    match Scan(Fresh(cursor), lines)
    case Ended(_) =>
    case Payload(_, rest, c) => CallByCallIsOnePass(c, rest);
  }

  // ---------------------------------------------------------------- the cursor

  predicate IdLine(line: string) {
    line != "" && !Comment(line) && Field(line) == "id"
  }

  // The value of the last id line, or the cursor the stream started with.
  function LastId(cursor: Option<string>, lines: seq<string>): Option<string> {
    if lines == [] then cursor
    else
      var n := |lines| - 1;
      if IdLine(lines[n]) then Some(Value(lines[n])) else LastId(cursor, lines[..n])
  }

  lemma {:induction false} LastIdAppend(cursor: Option<string>, a: seq<string>, b: seq<string>)
    ensures LastId(cursor, a + b) == LastId(LastId(cursor, a), b)
    decreases |b|
  {
    if b == [] {
      assert a + b == a;
    } else {
      var n := |b| - 1;
      assert (a + b)[..|a + b| - 1] == a + b[..n];
      LastIdAppend(cursor, a, b[..n]);
    }
  }

  // The parser's cursor is the value of the last id line it consumed.
  lemma {:induction false} CursorIsLastId(p: Parse, lines: seq<string>)
    ensures FeedAll(p, lines).0.cursor == LastId(p.cursor, lines)
    decreases |lines|
  {
    if lines != [] {
      var p' := Feed(p, lines[0]).0;
      CursorIsLastId(p', lines[1..]);
      LastIdAppend(p.cursor, [lines[0]], lines[1..]);
      assert [lines[0]] + lines[1..] == lines;
      assert [lines[0]][..0] == [];
      assert LastId(p.cursor, [lines[0]]) == p'.cursor by {
        hide FeedAll;
      }
    }
  }

  // ---------------------------------------------------------------- printing

  // An event without a payload prints no data line: a keepalive, or an id or a type on its own.
  datatype Event = Event(comments: seq<string>, id: Option<string>, kind: Option<string>, payload: Option<string>)

  function Split(s: string): (parts: seq<string>)
    ensures parts != []
  {
    if s == "" then [""]
    else
      var before := Split(s[..|s| - 1]);
      var last := s[|s| - 1];
      if last == '\n' then before + [""]
      else before[|before| - 1 := before[|before| - 1] + [last]]
  }

  function Line(name: string, value: string): string {
    name + ": " + value
  }

  function CommentLines(comments: seq<string>): seq<string> {
    seq(|comments|, i requires 0 <= i < |comments| => ":" + comments[i])
  }

  function DataLines(parts: seq<string>): seq<string> {
    seq(|parts|, i requires 0 <= i < |parts| => Line("data", parts[i]))
  }

  function Optional(name: string, value: Option<string>): seq<string> {
    if value.None? then [] else [Line(name, value.value)]
  }

  function DataParts(e: Event): seq<string> {
    if e.payload.None? then [] else Split(e.payload.value)
  }

  function Print(e: Event): seq<string> {
    CommentLines(e.comments) + (Optional("id", e.id) + (Optional("event", e.kind)
      + (DataLines(DataParts(e)) + [""])))
  }

  function PrintAll(es: seq<Event>): seq<string> {
    if es == [] then [] else Print(es[0]) + PrintAll(es[1..])
  }

  predicate Delivers(e: Event) {
    (e.kind.None? || e.kind.value == "message") && e.payload.Some? && e.payload.value != ""
  }

  function PayloadOf(e: Event): seq<string> {
    if Delivers(e) then [e.payload.value] else []
  }

  function Payloads(es: seq<Event>): seq<string> {
    if es == [] then []
    else PayloadOf(es[0]) + Payloads(es[1..])
  }

  function CursorAfter(cursor: Option<string>, e: Event): Option<string> {
    if e.id.Some? then e.id else cursor
  }

  function CursorAfterAll(cursor: Option<string>, es: seq<Event>): Option<string>
    decreases |es|
  {
    if es == [] then cursor else CursorAfterAll(CursorAfter(cursor, es[0]), es[1..])
  }

  // ---------------------------------------------------------------- parsing what was printed

  lemma {:induction false} FeedAllAppend(p: Parse, a: seq<string>, b: seq<string>)
    ensures var (mid, first) := FeedAll(p, a);
            FeedAll(p, a + b) == (FeedAll(mid, b).0, first + FeedAll(mid, b).1)
    decreases |a|
  {
    hide Feed;
    if a == [] {
      assert a + b == b;
      assert [] + FeedAll(p, b).1 == FeedAll(p, b).1;
    } else {
      assert (a + b)[1..] == a[1..] + b;
      FeedAllAppend(Feed(p, a[0]).0, a[1..], b);
      EmitAppend(Feed(p, a[0]).1, FeedAll(Feed(p, a[0]).0, a[1..]).1, FeedAll(FeedAll(p, a).0, b).1);
    }
  }

  lemma QuietPrefix(p: Parse, a: seq<string>, mid: Parse, b: seq<string>)
    requires FeedAll(p, a) == (mid, [])
    ensures FeedAll(p, a + b) == FeedAll(mid, b)
  {
    hide FeedAll;
    FeedAllAppend(p, a, b);
    assert [] + FeedAll(mid, b).1 == FeedAll(mid, b).1;
  }

  lemma EmitAppend(out: Option<string>, a: seq<string>, b: seq<string>)
    ensures Emit(out, a) + b == Emit(out, a + b)
  {
  }

  lemma {:induction false} FieldOfLine(name: string, value: string)
    requires ':' !in name
    ensures Field(Line(name, value)) == name && AfterColon(Line(name, value)) == " " + value
    decreases |name|
  {
    if name == "" {
      assert Line(name, value) == ": " + value;
    } else {
      FieldOfLine(name[1..], value);
      assert Line(name, value)[1..] == Line(name[1..], value);
      assert name == [name[0]] + name[1..];
    }
  }

  lemma LineIsField(name: string, value: string)
    requires name != "" && ':' !in name
    ensures Field(Line(name, value)) == name && Value(Line(name, value)) == value
    ensures Line(name, value) != "" && !Comment(Line(name, value))
  {
    FieldOfLine(name, value);
    assert Line(name, value)[0] == name[0];
  }

  lemma {:induction false} JoinSplit(s: string)
    ensures Join(Split(s)) == s
    decreases |s|
  {
    if s != "" {
      var n := |s| - 1;
      JoinSplit(s[..n]);
      var before := Split(s[..n]);
      var m := |before| - 1;
      assert s == s[..n] + [s[n]];
      if s[n] == '\n' {
        assert (before + [""])[..|before|] == before;
      } else {
        var after := before[m := before[m] + [s[n]]];
        assert after[..m] == before[..m];
      }
    }
  }

  lemma {:induction false} FeedComments(p: Parse, comments: seq<string>)
    ensures FeedAll(p, CommentLines(comments)) == (p, [])
    decreases |comments|
  {
    if comments != [] {
      assert CommentLines(comments)[1..] == CommentLines(comments[1..]);
      assert Feed(p, ":" + comments[0]) == (p, None);
      FeedComments(p, comments[1..]);
    }
  }

  lemma {:induction false} FeedData(p: Parse, parts: seq<string>)
    ensures FeedAll(p, DataLines(parts)) == (p.(parts := p.parts + parts), [])
    decreases |parts|
  {
    if parts == [] {
      assert p.parts + parts == p.parts;
    } else {
      assert DataLines(parts)[1..] == DataLines(parts[1..]);
      LineIsField("data", parts[0]);
      var p' := p.(parts := p.parts + [parts[0]]);
      assert Feed(p, DataLines(parts)[0]) == (p', None) by {
        hide FeedAll;
      }
      FeedData(p', parts[1..]);
      assert p.parts + [parts[0]] + parts[1..] == p.parts + parts;
      hide Feed;
    }
  }

  lemma FeedOne(p: Parse, line: string)
    ensures FeedAll(p, [line]) == (Feed(p, line).0, Emit(Feed(p, line).1, []))
  {
    hide Feed;
    assert [line][1..] == [];
  }

  lemma FeedOptional(p: Parse, value: Option<string>)
    ensures FeedAll(p, Optional("id", value)) == (if value.None? then p else p.(cursor := value), [])
    ensures FeedAll(p, Optional("event", value))
         == (if value.None? then p else p.(eventType := value.value), [])
  {
    if value.Some? {
      LineIsField("id", value.value);
      LineIsField("event", value.value);
      FeedOne(p, Line("id", value.value));
      FeedOne(p, Line("event", value.value));
      hide FeedAll, Line, Field, Value, Comment;
    }
  }

  // A printed event parses to its payload, if it is a non-empty message, and moves the cursor to
  // its id; the parser is then as good as new.
  lemma PrintedEventParses(cursor: Option<string>, e: Event)
    ensures FeedAll(Fresh(cursor), Print(e))
         == (Fresh(CursorAfter(cursor, e)), PayloadOf(e))
  {
    hide FeedAll, CommentLines, DataLines, Optional, Feed;
    var p0 := Fresh(cursor);
    var p1 := p0.(cursor := CursorAfter(cursor, e));
    var p2 := if e.kind.None? then p1 else p1.(eventType := e.kind.value);
    var p3 := p2.(parts := p2.parts + DataParts(e));
    var l1, l2, l3 := Optional("id", e.id), Optional("event", e.kind), DataLines(DataParts(e));
    FeedComments(p0, e.comments);
    FeedOptional(p0, e.id);
    FeedOptional(p1, e.kind);
    FeedData(p2, DataParts(e));
    FeedOne(p3, "");
    DispatchPrinted(p3, e);
    assert e.payload.Some? ==> [e.payload.value] + [] == [e.payload.value];
    QuietPrefix(p2, l3, p3, [""]);
    QuietPrefix(p1, l2, p2, l3 + [""]);
    QuietPrefix(p0, l1, p1, l2 + (l3 + [""]));
    QuietPrefix(p0, CommentLines(e.comments), p0, l1 + (l2 + (l3 + [""])));
  }

  lemma DispatchPrinted(p: Parse, e: Event)
    requires p.parts == [] + DataParts(e)
    ensures Feed(p, "") == (Fresh(p.cursor),
                            if e.payload.Some? && e.payload.value != "" && p.eventType == "message"
                            then e.payload else None)
  {
    assert p.parts == DataParts(e);
    if e.payload.Some? {
      JoinSplit(e.payload.value);
    }
  }

  lemma {:induction false} PrintedEventsParse(cursor: Option<string>, es: seq<Event>)
    ensures FeedAll(Fresh(cursor), PrintAll(es)) == (Fresh(CursorAfterAll(cursor, es)), Payloads(es))
    decreases |es|
  {
    hide FeedAll, Print, Delivers;
    if es == [] {
      NothingToFeed(Fresh(cursor));
    } else {
      PrintedEventParses(cursor, es[0]);
      PrintedEventsParse(CursorAfter(cursor, es[0]), es[1..]);
      FeedAllAppend(Fresh(cursor), Print(es[0]), PrintAll(es[1..]));
    }
  }

  lemma NothingToFeed(p: Parse)
    ensures FeedAll(p, []) == (p, [])
  {
  }

  // Repeated `recv` on any printed stream returns exactly the non-empty message payloads, in
  // order, whatever comments and other events surround them.
  lemma RoundTrip(cursor: Option<string>, es: seq<Event>)
    ensures RecvAll(cursor, PrintAll(es)) == (Payloads(es), CursorAfterAll(cursor, es))
  {
    hide RecvAll, FeedAll, PrintAll;
    CallByCallIsOnePass(cursor, PrintAll(es));
    PrintedEventsParse(cursor, es);
  }

  lemma {:induction false} PayloadsAreNotEmpty(p: Parse, lines: seq<string>)
    ensures forall d | d in FeedAll(p, lines).1 :: d != ""
    decreases |lines|
  {
    hide Join, Field, Value, Comment;
    if lines != [] {
      PayloadsAreNotEmpty(Feed(p, lines[0]).0, lines[1..]);
    }
  }

  // Whatever the lines are, no call of `recv` returns an empty payload.
  lemma RecvNeverReturnsEmpty(cursor: Option<string>, lines: seq<string>)
    ensures forall d | d in RecvAll(cursor, lines).0 :: d != ""
    ensures Scan(Fresh(cursor), lines).Payload? ==> Scan(Fresh(cursor), lines).data != ""
  {
    CallByCallIsOnePass(cursor, lines);
    PayloadsAreNotEmpty(Fresh(cursor), lines);
    ScanIsOnePassPrefix(Fresh(cursor), lines);
    hide FeedAll, Scan;
    if Scan(Fresh(cursor), lines).Payload? {
      assert Scan(Fresh(cursor), lines).data in FeedAll(Fresh(cursor), lines).1;
    }
  }

  // A keepalive block delivers nothing and leaves the parser and the cursor as they were.
  lemma KeepaliveIsConsumed(cursor: Option<string>, text: string)
    ensures FeedAll(Fresh(cursor), [":" + text, ""]) == (Fresh(cursor), [])
  {
    var e := Event([text], None, None, None);
    PrintedEventParses(cursor, e);
    assert CommentLines([text]) == [":" + text];
    assert DataLines([]) == [];
    assert Print(e) == [":" + text, ""];
  }

  // ---------------------------------------------------------------- every form of line

  // A field as a server may write it: with or without the space after the colon, or as a bare
  // name; a comment; or a field of another name.
  datatype FieldLine =
    | DataLine(value: string, spaced: bool)
    | IdField(value: string, spaced: bool)
    | KindField(value: string, spaced: bool)
    | CommentLine(text: string)
    | OtherField(name: string, value: string, spaced: bool)
    | Bare(name: string)

  predicate Writable(f: FieldLine) {
    match f
    case CommentLine(_) => true
    case Bare(name) => name != "" && ':' !in name
    case OtherField(name, value, spaced) =>
      name != "" && ':' !in name && name != "data" && name != "id" && name != "event"
      && (spaced || value == "" || value[0] != ' ')
    case _ => f.spaced || f.value == "" || f.value[0] != ' '
  }

  function Colon(name: string, value: string, spaced: bool): string {
    name + (if spaced then ": " else ":") + value
  }

  function Text(f: FieldLine): string {
    match f
    case DataLine(value, spaced) => Colon("data", value, spaced)
    case IdField(value, spaced) => Colon("id", value, spaced)
    case KindField(value, spaced) => Colon("event", value, spaced)
    case CommentLine(text) => ":" + text
    case OtherField(name, value, spaced) => Colon(name, value, spaced)
    case Bare(name) => name
  }

  function Texts(fields: seq<FieldLine>): seq<string> {
    seq(|fields|, i requires 0 <= i < |fields| => Text(fields[i]))
  }

  // What a block of fields means: the data values in order, the last id and the last type. A bare
  // name counts as that field with an empty value.
  function DataValues(fields: seq<FieldLine>): seq<string> {
    if fields == [] then []
    else
      var n := |fields| - 1;
      DataValues(fields[..n]) + match fields[n]
                                case DataLine(value, _) => [value]
                                case Bare(name) => if name == "data" then [""] else []
                                case _ => []
  }

  function IdAfter(cursor: Option<string>, fields: seq<FieldLine>): Option<string> {
    if fields == [] then cursor
    else
      var n := |fields| - 1;
      match fields[n]
      case IdField(value, _) => Some(value)
      case Bare(name) => if name == "id" then Some("") else IdAfter(cursor, fields[..n])
      case _ => IdAfter(cursor, fields[..n])
  }

  function KindAfter(fields: seq<FieldLine>): string {
    if fields == [] then "message"
    else
      var n := |fields| - 1;
      match fields[n]
      case KindField(value, _) => value
      case Bare(name) => if name == "event" then "" else KindAfter(fields[..n])
      case _ => KindAfter(fields[..n])
  }

  lemma {:induction false} FieldOfColon(name: string, value: string, spaced: bool)
    requires ':' !in name
    ensures var line := Colon(name, value, spaced);
            Field(line) == name && AfterColon(line) == (if spaced then " " else "") + value
    decreases |name|
  {
    var line := Colon(name, value, spaced);
    if name == "" {
      assert line[0] == ':' && line[1..] == (if spaced then " " else "") + value;
    } else {
      FieldOfColon(name[1..], value, spaced);
      assert line[1..] == Colon(name[1..], value, spaced) && line[0] == name[0];
      assert name == [name[0]] + name[1..];
    }
  }

  lemma {:induction false} FieldOfBare(name: string)
    requires ':' !in name
    ensures Field(name) == name && AfterColon(name) == ""
    decreases |name|
  {
    if name != "" {
      FieldOfBare(name[1..]);
      assert name == [name[0]] + name[1..];
    }
  }

  lemma ColonIsField(name: string, value: string, spaced: bool)
    requires name != "" && ':' !in name && (spaced || value == "" || value[0] != ' ')
    ensures var line := Colon(name, value, spaced);
            line != "" && !Comment(line) && Field(line) == name && Value(line) == value
  {
    FieldOfColon(name, value, spaced);
    assert Colon(name, value, spaced)[0] == name[0];
    if spaced {
      assert (" " + value)[1..] == value;
    } else {
      assert "" + value == value;
    }
  }

  // One line: it adds its data value, or sets the id or the type, or changes nothing.
  lemma FeedField(p: Parse, f: FieldLine)
    requires Writable(f)
    ensures Feed(p, Text(f)) ==
            (match f
             case DataLine(value, _) => p.(parts := p.parts + [value])
             case IdField(value, _) => p.(cursor := Some(value))
             case KindField(value, _) => p.(eventType := value)
             case Bare(name) =>
               if name == "data" then p.(parts := p.parts + [""])
               else if name == "id" then p.(cursor := Some(""))
               else if name == "event" then p.(eventType := "")
               else p
             case _ => p, None)
  {
    match f
    case DataLine(value, spaced) => ColonIsField("data", value, spaced);
    case IdField(value, spaced) => ColonIsField("id", value, spaced);
    case KindField(value, spaced) => ColonIsField("event", value, spaced);
    case CommentLine(text) => assert (":" + text)[0] == ':';
    case OtherField(name, value, spaced) => ColonIsField(name, value, spaced);
    case Bare(name) => FieldOfBare(name);
  }

  ghost predicate AllWritable(fields: seq<FieldLine>) {
    forall i | 0 <= i < |fields| :: Writable(fields[i])
  }

  lemma {:induction false} FeedFields(cursor: Option<string>, fields: seq<FieldLine>)
    requires AllWritable(fields)
    ensures FeedAll(Fresh(cursor), Texts(fields))
         == (Parse(KindAfter(fields), DataValues(fields), IdAfter(cursor, fields)), [])
    decreases |fields|
  {
    if fields == [] {
      assert Texts(fields) == [];
    } else {
      var n := |fields| - 1;
      var mid := Parse(KindAfter(fields[..n]), DataValues(fields[..n]), IdAfter(cursor, fields[..n]));
      FeedFields(cursor, fields[..n]);
      TextsSnoc(fields);
      FieldsSnoc(mid, cursor, fields);
      hide FeedAll, Feed, Texts, Text, KindAfter, DataValues, IdAfter;
      QuietPrefix(Fresh(cursor), Texts(fields[..n]), mid, [Text(fields[n])]);
    }
  }

  lemma TextsSnoc(fields: seq<FieldLine>)
    requires fields != []
    ensures Texts(fields) == Texts(fields[..|fields| - 1]) + [Text(fields[|fields| - 1])]
  {
    hide Text;
  }

  // The last field of a block, read where the fields before it have led.
  lemma FieldsSnoc(mid: Parse, cursor: Option<string>, fields: seq<FieldLine>)
    requires AllWritable(fields) && fields != []
    requires var early := fields[..|fields| - 1];
             mid == Parse(KindAfter(early), DataValues(early), IdAfter(cursor, early))
    ensures FeedAll(mid, [Text(fields[|fields| - 1])])
         == (Parse(KindAfter(fields), DataValues(fields), IdAfter(cursor, fields)), [])
  {
    var last := fields[|fields| - 1];
    FeedField(mid, last);
    FeedOne(mid, Text(last));
    hide FeedAll, Feed, Texts, Text;
    assert mid.parts + [] == mid.parts;
  }

  // A block of fields in any order and form, ended by a blank line, delivers its data values joined
  // by newlines if they make a non-empty message, moves the cursor to its last id, and leaves a
  // fresh parser.
  lemma BlockParses(cursor: Option<string>, fields: seq<FieldLine>)
    requires AllWritable(fields)
    ensures var payload := Join(DataValues(fields));
            FeedAll(Fresh(cursor), Texts(fields) + [""])
            == (Fresh(IdAfter(cursor, fields)),
                if payload != "" && KindAfter(fields) == "message" then [payload] else [])
  {
    var mid := Parse(KindAfter(fields), DataValues(fields), IdAfter(cursor, fields));
    var payload := Join(DataValues(fields));
    FeedFields(cursor, fields);
    FeedOne(mid, "");
    assert Feed(mid, "") == (Fresh(mid.cursor), if payload != "" && mid.eventType == "message"
                                                then Some(payload) else None);
    assert [payload] + [] == [payload];
    hide FeedAll, Feed, Texts, Join, DataValues, IdAfter, KindAfter;
    QuietPrefix(Fresh(cursor), Texts(fields), mid, [""]);
  }

  // Joining is the inverse of splitting, on parts without newlines.
  lemma {:induction false} SplitJoin(parts: seq<string>)
    requires parts != [] && forall i | 0 <= i < |parts| :: '\n' !in parts[i]
    ensures Split(Join(parts)) == parts
    decreases |parts|
  {
    var n := |parts| - 1;
    if n == 0 {
      SplitOneLine(parts[0]);
    } else {
      SplitJoin(parts[..n]);
      SplitAppend(Join(parts[..n]), parts[n]);
      assert parts == parts[..n] + [parts[n]];
    }
  }

  lemma {:induction false} SplitOneLine(s: string)
    requires '\n' !in s
    ensures Split(s) == [s]
    decreases |s|
  {
    if s != "" {
      var n := |s| - 1;
      SplitOneLine(s[..n]);
      assert s == s[..n] + [s[n]];
    }
  }

  lemma {:induction false} SplitAppend(s: string, t: string)
    requires '\n' !in t
    ensures Split(s + "\n" + t) == Split(s) + [t]
    decreases |t|
  {
    var whole := s + "\n" + t;
    if t == "" {
      assert whole == s + "\n" && whole[..|whole| - 1] == s;
    } else {
      var n := |t| - 1;
      SplitAppend(s, t[..n]);
      assert whole[..|whole| - 1] == s + "\n" + t[..n] && whole[|whole| - 1] == t[n];
      assert t == t[..n] + [t[n]];
    }
  }

  // ---------------------------------------------------------------- resuming after a break

  // No two events carry the same id. Events without an id are allowed.
  ghost predicate DistinctIds(es: seq<Event>) {
    forall i, j | 0 <= i < j < |es| && es[i].id.Some? :: es[i].id != es[j].id
  }

  // What a resuming server still has to send after `cursor`: everything after the event with that
  // id, and everything if no cursor is presented.
  function Remaining(es: seq<Event>, cursor: Option<string>): seq<Event> {
    if es == [] || cursor.None? then es
    else if es[0].id == cursor then es[1..]
    else Remaining(es[1..], cursor)
  }

  lemma {:induction false} RemainingAfter(es: seq<Event>, k: nat)
    requires DistinctIds(es) && k < |es| && es[k].id.Some?
    ensures Remaining(es, es[k].id) == es[k + 1..]
    decreases |es|
  {
    if k > 0 {
      RemainingAfter(es[1..], k - 1);
      assert es[1..][k - 1] == es[k] && es[1..][k..] == es[k + 1..];
    }
  }

  lemma Regroup(a: seq<string>, b: seq<string>, c: seq<string>)
    ensures a + (b + c) == (a + b) + c
  {
  }

  lemma {:induction false} PrintAllAppend(a: seq<Event>, b: seq<Event>)
    ensures PrintAll(a + b) == PrintAll(a) + PrintAll(b)
    ensures Payloads(a + b) == Payloads(a) + Payloads(b)
    decreases |a|
  {
    hide Print, PayloadOf;
    if a == [] {
      assert a + b == b;
    } else {
      assert (a + b)[1..] == a[1..] + b && (a + b)[0] == a[0];
      PrintAllAppend(a[1..], b);
      Regroup(Print(a[0]), PrintAll(a[1..]), PrintAll(b));
      Regroup(PayloadOf(a[0]), Payloads(a[1..]), Payloads(b));
    }
  }

  // The position after the last event of `es[..n]` that carries an id.
  function Resumes(es: seq<Event>, n: nat): (r: nat)
    requires n <= |es|
    ensures r <= n
  {
    if n == 0 then 0 else if es[n - 1].id.Some? then n else Resumes(es, n - 1)
  }

  lemma {:induction false} CursorAfterPrefix(es: seq<Event>, n: nat)
    requires n <= |es|
    ensures var r := Resumes(es, n);
            && (r > 0 ==> es[r - 1].id.Some?)
            && CursorAfterAll(None, es[..n]) == if r == 0 then None else es[r - 1].id
  {
    if n > 0 {
      CursorAfterPrefix(es, n - 1);
      assert es[..n] == es[..n - 1] + [es[n - 1]];
      CursorAfterLast(None, es[..n - 1], es[n - 1]);
    }
  }

  lemma {:induction false} CursorAfterLast(cursor: Option<string>, es: seq<Event>, e: Event)
    ensures CursorAfterAll(cursor, es + [e]) == CursorAfter(CursorAfterAll(cursor, es), e)
    decreases |es|
  {
    if es == [] {
      assert (es + [e])[1..] == [];
    } else {
      assert (es + [e])[1..] == es[1..] + [e];
      CursorAfterLast(CursorAfter(cursor, es[0]), es[1..], e);
    }
  }

  // The first epoch reads events `..i` whole and `m` lines of event `i`; the second resumes from
  // the first one's cursor and reads to the end.
  function FirstEpoch(es: seq<Event>, i: nat, m: nat): (seq<string>, Option<string>)
    requires i < |es| && m <= |Print(es[i])|
  {
    RecvAll(None, PrintAll(es[..i]) + Print(es[i])[..m])
  }

  function BothEpochs(es: seq<Event>, i: nat, m: nat): seq<string>
    requires i < |es| && m <= |Print(es[i])|
  {
    var (first, cursor) := FirstEpoch(es, i, m);
    first + RecvAll(cursor, PrintAll(Remaining(es, cursor))).0
  }

  // The lines of an event that come before its id line, if it has one.
  function Preamble(e: Event): nat {
    |e.comments|
  }

  // The shape of a printed event: comments, then its id line, if any, then the rest, the only
  // blank line being the last.
  lemma PrintedLine(e: Event, k: nat)
    requires k < |Print(e)|
    ensures IdLine(Print(e)[k]) <==> e.id.Some? && k == Preamble(e)
    ensures e.id.Some? && k == Preamble(e) ==> Value(Print(e)[k]) == e.id.value
    ensures k < |Print(e)| - 1 ==> Print(e)[k] != ""
  {
    if k < Preamble(e) {
      assert Print(e)[k] == ":" + e.comments[k];
    } else if k == Preamble(e) && e.id.Some? {
      assert Print(e)[k] == Line("id", e.id.value);
      LineIsField("id", e.id.value);
    } else {
      BodyLine(e, k);
    }
  }

  lemma BodyLine(e: Event, k: nat)
    requires Preamble(e) + |Optional("id", e.id)| <= k < |Print(e)|
    ensures !IdLine(Print(e)[k]) && (k < |Print(e)| - 1 ==> Print(e)[k] != "")
  {
    var parts := DataParts(e);
    var body := Optional("event", e.kind) + (DataLines(parts) + [""]);
    var at := k - Preamble(e) - |Optional("id", e.id)|;
    assert Print(e) == CommentLines(e.comments) + (Optional("id", e.id) + body);
    assert Print(e)[k] == body[at];
    hide Print, DataParts;
    if e.kind.Some? && at == 0 {
      assert body[at] == Line("event", e.kind.value);
      LineIsField("event", e.kind.value);
    } else {
      var d := at - if e.kind.Some? then 1 else 0;
      if d < |parts| {
        assert body[at] == DataLines(parts)[d] == Line("data", parts[d]);
        LineIsField("data", parts[d]);
      } else {
        assert body[at] == "";
      }
    }
  }

  // Before its blank line an event delivers nothing, and it moves the cursor exactly when its id
  // line has been read.
  lemma CutEvent(cursor: Option<string>, e: Event, m: nat)
    requires m < |Print(e)|
    ensures FeedAll(Fresh(cursor), Print(e)[..m]).1 == []
    ensures FeedAll(Fresh(cursor), Print(e)[..m]).0.cursor == if Identified(e, m) then e.id else cursor
  {
    hide FeedAll, Print, IdLine, Value, Preamble, LastId;
    var lines := Print(e)[..m];
    var at := if e.id.Some? then Preamble(e) else m;
    forall k: nat | k < m
      ensures lines[k] != "" && (IdLine(lines[k]) <==> k == at)
      ensures k == at ==> Value(lines[k]) == e.id.value
    {
      PrintedLine(e, k);
    }
    NoBlankNoPayload(Fresh(cursor), lines);
    CursorIsLastId(Fresh(cursor), lines);
    OneIdLine(cursor, lines, at);
  }

  // The first `m` lines of the event include an id line.
  predicate Identified(e: Event, m: nat) {
    e.id.Some? && m > Preamble(e)
  }

  lemma {:induction false} OneIdLine(cursor: Option<string>, lines: seq<string>, n: nat)
    requires forall k | 0 <= k < |lines| :: IdLine(lines[k]) <==> k == n
    ensures LastId(cursor, lines) == if n < |lines| then Some(Value(lines[n])) else cursor
    decreases |lines|
  {
    hide IdLine, Value;
    if lines != [] {
      OneIdLine(cursor, lines[..|lines| - 1], n);
    }
  }

  lemma {:induction false} NoBlankNoPayload(p: Parse, lines: seq<string>)
    requires forall k | 0 <= k < |lines| :: lines[k] != ""
    ensures FeedAll(p, lines).1 == []
    decreases |lines|
  {
    if lines != [] {
      hide Field, Value, Comment;
      NoBlankNoPayload(Feed(p, lines[0]).0, lines[1..]);
    }
  }

  lemma FirstEpochIs(es: seq<Event>, i: nat, m: nat)
    requires i < |es| && m < |Print(es[i])|
    ensures FirstEpoch(es, i, m)
         == (Payloads(es[..i]), if Identified(es[i], m) then es[i].id else CursorAfterAll(None, es[..i]))
  {
    hide RecvAll, FeedAll, PrintAll, Print, Payloads, Identified;
    var a, b := PrintAll(es[..i]), Print(es[i])[..m];
    CallByCallIsOnePass(None, a + b);
    PrintedEventsParse(None, es[..i]);
    FeedAllAppend(Fresh(None), a, b);
    CutEvent(CursorAfterAll(None, es[..i]), es[i], m);
    assert Payloads(es[..i]) + [] == Payloads(es[..i]);
  }

  // The position from which the second epoch is served.
  function ResumesAt(es: seq<Event>, i: nat, m: nat): nat
    requires i < |es|
  {
    if Identified(es[i], m) then i + 1 else Resumes(es, i)
  }

  lemma RemainingAfterCut(es: seq<Event>, i: nat, m: nat)
    requires DistinctIds(es) && i < |es|
    ensures ResumesAt(es, i, m) <= |es|
    ensures Remaining(es, if Identified(es[i], m) then es[i].id else CursorAfterAll(None, es[..i]))
         == es[ResumesAt(es, i, m)..]
  {
    if Identified(es[i], m) {
      RemainingAfter(es, i);
    } else {
      CursorAfterPrefix(es, i);
      var r := Resumes(es, i);
      if r > 0 {
        RemainingAfter(es, r - 1);
      }
    }
  }

  // The break loses the payload of event `i`: its id was read and its blank line was not.
  predicate Loses(es: seq<Event>, i: nat, m: nat)
    requires i < |es|
  {
    Identified(es[i], m) && Delivers(es[i])
  }

  // The break makes a payload come twice: it was delivered after the last id.
  predicate Repeats(es: seq<Event>, i: nat, m: nat)
    requires i < |es|
  {
    !Identified(es[i], m) && exists k | Resumes(es, i) <= k < i :: Delivers(es[k])
  }

  // A break after `m` lines of event `i` and a resume from the cursor: the consumer gets the
  // events before `i` and then everything from where the server resumes. Every payload comes
  // exactly once, in order, if and only if the break did not fall between the id line and the
  // blank line of an event that delivers, which loses that event's payload, nor after a delivery
  // with no id since, which repeats it.
  lemma ResumeLosesOnlyAnIdentifiedEvent(es: seq<Event>, i: nat, m: nat)
    requires DistinctIds(es) && i < |es| && m < |Print(es[i])|
    ensures ResumesAt(es, i, m) <= |es|
    ensures BothEpochs(es, i, m) == Payloads(es[..i]) + Payloads(es[ResumesAt(es, i, m)..])
    ensures BothEpochs(es, i, m) == Payloads(es) <==> !Loses(es, i, m) && !Repeats(es, i, m)
  {
    hide RecvAll, FeedAll, PrintAll, Print, Preamble, Remaining, FirstEpoch, Payloads, Delivers;
    FirstEpochIs(es, i, m);
    RemainingAfterCut(es, i, m);
    hide DistinctIds, Identified;
    var cursor := FirstEpoch(es, i, m).1;
    RoundTrip(cursor, Remaining(es, cursor));
    PayloadsAround(es, i);
    if !Identified(es[i], m) {
      PayloadsBetween(es, Resumes(es, i), i);
    }
  }

  // One event with an id: after its id line the break loses it.
  lemma BreakAfterIdLosesTheEvent()
    ensures var e := Event([], Some("1"), None, Some("x"));
            Print(e) == ["id: 1", "data: x", ""] && BothEpochs([e], 0, 1) == [] && Payloads([e]) == ["x"]
  {
    var e := Event([], Some("1"), None, Some("x"));
    assert "x"[..0] == "" && "" + ['x'] == "x" && Split("") == [""];
    assert Split("x") == ["x"];
    assert Line("id", "1") == "id: 1" && Line("data", "x") == "data: x";
    assert CommentLines([]) == [] && DataLines(["x"]) == ["data: x"];
    assert Print(e) == ["id: 1", "data: x", ""];
    hide BothEpochs;
    ResumeLosesOnlyAnIdentifiedEvent([e], 0, 1);
    assert [e][..0] == [] && [e][1..] == [];
  }

  lemma PayloadsBetween(es: seq<Event>, r: nat, i: nat)
    requires r <= i <= |es|
    ensures Payloads(es[..i]) + Payloads(es[r..]) == Payloads(es) <==> forall k | r <= k < i :: !Delivers(es[k])
  {
    hide Delivers, Print, Payloads;
    var before, between, after := es[..i], es[r..i], es[i..];
    assert es == before + after && es[r..] == between + after;
    PrintAllAppend(before, after);
    PrintAllAppend(between, after);
    NoPayloads(between);
    SameEvents(es, r, i);
    WithoutMiddle(Payloads(before), Payloads(between), Payloads(after));
  }

  lemma WithoutMiddle(a: seq<string>, b: seq<string>, c: seq<string>)
    ensures a + (b + c) == a + c <==> b == []
  {
    if b == [] {
      assert b + c == c;
    } else {
      assert |a + (b + c)| != |a + c|;
    }
  }

  lemma SameEvents(es: seq<Event>, r: nat, i: nat)
    requires r <= i <= |es|
    ensures (forall k | 0 <= k < |es[r..i]| :: !Delivers(es[r..i][k])) <==> forall k | r <= k < i :: !Delivers(es[k])
  {
    hide Delivers;
    if forall k | 0 <= k < |es[r..i]| :: !Delivers(es[r..i][k]) {
      forall k | r <= k < i ensures !Delivers(es[k]) {
        assert !Delivers(es[r..i][k - r]);
      }
    }
  }

  lemma {:induction false} NoPayloads(es: seq<Event>)
    ensures Payloads(es) == [] <==> forall k | 0 <= k < |es| :: !Delivers(es[k])
    decreases |es|
  {
    hide Delivers;
    if es != [] {
      NoPayloads(es[1..]);
      if forall k | 0 <= k < |es[1..]| :: !Delivers(es[1..][k]) {
        assert forall k | 1 <= k < |es| :: es[1..][k - 1] == es[k];
      }
    }
  }

  lemma PayloadsHead(es: seq<Event>)
    requires es != []
    ensures Payloads(es) == PayloadOf(es[0]) + Payloads(es[1..])
  {
  }

  lemma PayloadsAround(es: seq<Event>, i: nat)
    requires i < |es|
    ensures Payloads(es[..i]) + Payloads(es[i + 1..]) == Payloads(es) <==> !Delivers(es[i])
  {
    assert es[i..][1..] == es[i + 1..] && es[i..][0] == es[i] && es == es[..i] + es[i..];
    PayloadsHead(es[i..]);
    PrintAllAppend(es[..i], es[i..]);
    assert |PayloadOf(es[i])| == if Delivers(es[i]) then 1 else 0;
    hide Payloads, Delivers, Print, PayloadOf;
    WithoutHead(Payloads(es[..i]), Payloads(es[i..]), Payloads(es[i + 1..]), Delivers(es[i]));
  }

  lemma WithoutHead(a: seq<string>, b: seq<string>, c: seq<string>, head: bool)
    requires if head then |b| == |c| + 1 else b == [] + c
    ensures a + c == a + b <==> !head
  {
    if head {
      assert |a + c| != |a + b|;
    } else {
      assert b == c;
    }
  }
}

/** The transport's receiving side as the object the client holds. */
module SseObject {
  import opened Prelude
  import opened SseSpec

  datatype RecvResult = Frame(payload: string) | StreamEnded | NotOpen

  class SseTransport {
    // The lines still to come, once opened.
    var lines: Option<seq<string>>
    var lastEventId: Option<string>

    constructor (lastEventId: Option<string>)
      ensures lines == None && this.lastEventId == lastEventId
    {
      this.lines, this.lastEventId := None, lastEventId;
    }

    method Open(body: seq<string>)
      modifies this`lines
      ensures lines == Some(body)
    {
      lines := Some(body);
    }

    method Recv() returns (r: RecvResult)
      modifies this
      ensures old(lines).None? ==> r == NotOpen && lines == old(lines) && lastEventId == old(lastEventId)
      ensures old(lines).Some? ==>
                match Scan(Fresh(old(lastEventId)), old(lines).value)
                case Ended(c) => r == StreamEnded && lines == Some([]) && lastEventId == c
                case Payload(data, rest, c) => r == Frame(data) && lines == Some(rest) && lastEventId == c
    {
      if lines.None? {
        return NotOpen;
      }
      var all := lines.value;
      var eventType, parts := "message", [];
      var i := 0;
      while i < |all|
        invariant 0 <= i <= |all|
        invariant lines == old(lines)
        invariant Scan(Fresh(old(lastEventId)), all) == Scan(Parse(eventType, parts, lastEventId), all[i..])
      {
        var line := all[i];
        ghost var p := Parse(eventType, parts, lastEventId);
        i := i + 1;
        assert all[i - 1..][0] == line && all[i - 1..][1..] == all[i..];
        if line == "" {
          var payload := Join(parts);
          var isMessage := eventType == "message";
          eventType, parts := "message", [];
          if payload != "" && isMessage {
            lines := Some(all[i..]);
            return Frame(payload);
          }
        } else if Comment(line) {
        } else {
          var field, value := Field(line), Value(line);
          if field == "event" {
            eventType := value;
          } else if field == "data" {
            parts := parts + [value];
          } else if field == "id" {
            lastEventId := Some(value);
          }
        }
        assert Feed(p, line) == (Parse(eventType, parts, lastEventId), None);
      }
      assert all[i..] == [];
      lines := Some([]);
      r := StreamEnded;
    }
  }
}
