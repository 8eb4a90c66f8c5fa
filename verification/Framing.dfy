/** The byte framing of `channel.jsonl`: one JSON record per line, each ended by a newline. */
module Framing {
  import opened Prelude

  newtype Byte = b: int | 0 <= b < 256
  type Bytes = seq<Byte>

  const NEWLINE: Byte := 10

  /** How records are written as lines and read back; the JSON codec is one. */
  datatype Codec<!E> = Codec(encode: E -> Bytes, decode: Bytes -> Option<E>, id: E -> string)

  predicate IsBlankByte(b: Byte) {
    b == 32 || 9 <= b <= 13
  }

  predicate BlankLine(line: Bytes) {
    forall i :: 0 <= i < |line| ==> IsBlankByte(line[i])
  }

  /** What compact JSON guarantees: section 7 of RFC 8259 requires control characters to be
      escaped, so an encoded record has no raw newline, and it starts with a brace. */
  ghost predicate Lawful<E(!new)>(codec: Codec<E>) {
    forall e :: var line := codec.encode(e);
      NEWLINE !in line && !BlankLine(line) && codec.decode(line) == Some(e)
  }

  // ---- Splitting -------------------------------------------------------------------------

  function ExtendLast(lines: seq<Bytes>, b: Byte): (r: seq<Bytes>)
    requires lines != []
    ensures r != []
  {
    lines[..|lines| - 1] + [lines[|lines| - 1] + [b]]
  }

  /** The pieces of `content` between newlines, at least one. */
  function Split(content: Bytes): (lines: seq<Bytes>)
    ensures lines != []
  {
    if content == [] then [[]]
    else
      var init := Split(content[..|content| - 1]);
      if content[|content| - 1] == NEWLINE then init + [[]] else ExtendLast(init, content[|content| - 1])
  }

  lemma SplitSnoc(content: Bytes, b: Byte)
    ensures Split(content + [b]) == if b == NEWLINE then Split(content) + [[]] else ExtendLast(Split(content), b)
  {
    assert (content + [b])[..|content|] == content;
  }

  lemma ExtendLastOfSnoc(lines: seq<Bytes>, line: Bytes, b: Byte)
    ensures ExtendLast(lines + [line], b) == lines + [line + [b]]
  {
    assert (lines + [line])[..|lines|] == lines;
  }

  function Frame(lines: seq<Bytes>): Bytes {
    if lines == [] then [] else Frame(lines[..|lines| - 1]) + lines[|lines| - 1] + [NEWLINE]
  }

  lemma {:induction false} SplitPlain(line: Bytes)
    requires NEWLINE !in line
    ensures Split(line) == [line]
  {
    if line != [] {
      SplitPlain(line[..|line| - 1]);
      ExtendLastOfSnoc([], line[..|line| - 1], line[|line| - 1]);
      assert line == line[..|line| - 1] + [line[|line| - 1]];
      assert [] + [line[..|line| - 1]] == [line[..|line| - 1]];
    }
  }

  lemma {:induction false} SplitNoNewline(prefix: Bytes, line: Bytes)
    requires NEWLINE !in line
    ensures Split(prefix + [NEWLINE] + line) == Split(prefix) + [line]
  {
    if line == [] {
      SplitSnoc(prefix, NEWLINE);
      assert prefix + [NEWLINE] + [] == prefix + [NEWLINE];
    } else {
      var shorter, b := line[..|line| - 1], line[|line| - 1];
      SplitNoNewline(prefix, shorter);
      assert prefix + [NEWLINE] + line == (prefix + [NEWLINE] + shorter) + [b];
      SplitSnoc(prefix + [NEWLINE] + shorter, b);
      ExtendLastOfSnoc(Split(prefix), shorter, b);
      assert line == shorter + [b];
    }
  }

  /** Framing and then splitting a non-empty list of newline-free lines returns the list. */
  lemma {:induction false} SplitFrame(lines: seq<Bytes>)
    requires lines != []
    requires forall line :: line in lines ==> NEWLINE !in line
    ensures var content := Frame(lines);
            content != [] && content[|content| - 1] == NEWLINE
            && Split(content[..|content| - 1]) == lines
  {
    var init, line := lines[..|lines| - 1], lines[|lines| - 1];
    var content := Frame(lines);
    assert lines == init + [line];
    assert content == Frame(init) + line + [NEWLINE];
    if init == [] {
      SplitPlain(line);
      assert Frame(init) + line == line;
    } else {
      SplitFrame(init);
      var head := Frame(init)[..|Frame(init)| - 1];
      SplitNoNewline(head, line);
      assert Frame(init) == head + [NEWLINE];
    }
    assert content[..|content| - 1] == Frame(init) + line;
  }

  // ---- Reading ---------------------------------------------------------------------------

  predicate SeenId<E>(codec: Codec<E>, events: seq<E>, id: string) {
    exists i :: 0 <= i < |events| && codec.id(events[i]) == id
  }

  function DecodeLines<E>(codec: Codec<E>, lines: seq<Bytes>): Result<seq<E>> {
    if lines == [] then Ok([])
    else
      match DecodeLines(codec, lines[..|lines| - 1])
      case Err(error) => Err(error)
      case Ok(events) =>
        var line := lines[|lines| - 1];
        if BlankLine(line) then Err(Invalid("blank"))
        else
          match codec.decode(line)
          case None => Err(Invalid("json"))
          case Some(e) =>
            if SeenId(codec, events, codec.id(e)) then Err(DuplicateEventId) else Ok(events + [e])
  }

  /** The specification of reading a log file. */
  function ReadLog<E>(codec: Codec<E>, content: Bytes): Result<seq<E>> {
    if content == [] then Ok([])
    else if content[|content| - 1] != NEWLINE then Err(Invalid("final newline"))
    else DecodeLines(codec, Split(content[..|content| - 1]))
  }

  lemma {:induction false} DecodeLinesFailsEarly<E>(codec: Codec<E>, lines: seq<Bytes>, n: nat)
    requires n <= |lines| && DecodeLines(codec, lines[..n]).Err?
    ensures DecodeLines(codec, lines) == DecodeLines(codec, lines[..n])
    decreases |lines|
  {
    if n < |lines| {
      assert lines[..|lines| - 1][..n] == lines[..n];
      DecodeLinesFailsEarly(codec, lines[..|lines| - 1], n);
    } else {
      assert lines[..n] == lines;
    }
  }

  lemma DecodeSnoc<E>(codec: Codec<E>, lines: seq<Bytes>, line: Bytes)
    requires DecodeLines(codec, lines).Ok? && !BlankLine(line) && codec.decode(line).Some?
    requires !SeenId(codec, DecodeLines(codec, lines).value, codec.id(codec.decode(line).value))
    ensures DecodeLines(codec, lines + [line])
            == Ok(DecodeLines(codec, lines).value + [codec.decode(line).value])
  {
    assert (lines + [line])[..|lines|] == lines;
  }

  method SplitLines(content: Bytes) returns (lines: seq<Bytes>)
    ensures lines == Split(content)
  {
    lines := [[]];
    for i := 0 to |content|
      invariant lines == Split(content[..i])
    {
      assert content[..i + 1][..i] == content[..i];
      if content[i] == NEWLINE {
        lines := lines + [[]];
      } else {
        lines := ExtendLast(lines, content[i]);
      }
    }
    assert content[..|content|] == content;
  }

  /** Builds the event index of a log file line by line. */
  method ReadLogIndex<E>(codec: Codec<E>, content: Bytes) returns (r: Result<seq<E>>)
    ensures r == ReadLog(codec, content)
  {
    if content == [] {
      return Ok([]);
    }
    if content[|content| - 1] != NEWLINE {
      return Err(Invalid("final newline"));
    }
    var lines := SplitLines(content[..|content| - 1]);
    var events: seq<E>, ids: set<string> := [], {};
    for i := 0 to |lines|
      invariant DecodeLines(codec, lines[..i]) == Ok(events)
      invariant forall id :: id in ids <==> SeenId(codec, events, id)
    {
      assert lines[..i + 1][..i] == lines[..i];
      if DecodeLines(codec, lines[..i + 1]).Err? {
        DecodeLinesFailsEarly(codec, lines, i + 1);
      }
      if BlankLine(lines[i]) {
        return Err(Invalid("blank"));
      }
      var decoded := codec.decode(lines[i]);
      if decoded == None {
        return Err(Invalid("json"));
      }
      var e := decoded.value;
      if codec.id(e) in ids {
        return Err(DuplicateEventId);
      }
      ghost var before := events;
      events, ids := events + [e], ids + {codec.id(e)};
      forall id ensures id in ids <==> SeenId(codec, events, id) {
        if SeenId(codec, before, id) {
          var k :| 0 <= k < |before| && codec.id(before[k]) == id;
          assert events[k] == before[k];
        }
        assert events[|before|] == e;
      }
    }
    assert lines[..|lines|] == lines;
    return Ok(events);
  }

  // ---- Appending -------------------------------------------------------------------------

  /** The bytes after one append. */
  function Appended<E>(codec: Codec<E>, content: Bytes, e: E): Bytes {
    content + codec.encode(e) + [NEWLINE]
  }

  class LogFile<E(!new)> {
    const codec: Codec<E>
    var content: Bytes

    constructor (codec: Codec<E>)
      ensures this.codec == codec && content == []
    {
      this.codec := codec;
      content := [];
    }

    /** A single O_APPEND write of the encoded record and its newline. */
    method Append(e: E)
      modifies this
      ensures content == Appended(codec, old(content), e)
    {
      var line := codec.encode(e);
      content := content + line + [NEWLINE];
    }
  }

  /** A readable log stays readable under an append and gains exactly the appended record. */
  lemma ReadAppended<E(!new)>(codec: Codec<E>, content: Bytes, e: E)
    requires Lawful(codec)
    requires ReadLog(codec, content).Ok?
    requires !SeenId(codec, ReadLog(codec, content).value, codec.id(e))
    ensures ReadLog(codec, Appended(codec, content, e)) == Ok(ReadLog(codec, content).value + [e])
  {
    var line := codec.encode(e);
    var next := Appended(codec, content, e);
    if content == [] {
      SplitPlain(line);
      assert next[..|next| - 1] == line;
      DecodeSnoc(codec, [], line);
      assert [] + [line] == [line];
    } else {
      var head := content[..|content| - 1];
      SplitNoNewline(head, line);
      assert next[..|next| - 1] == head + [NEWLINE] + line;
      DecodeSnoc(codec, Split(head), line);
    }
  }

  function EncodeAll<E>(codec: Codec<E>, events: seq<E>): Bytes {
    if events == [] then []
    else Appended(codec, EncodeAll(codec, events[..|events| - 1]), events[|events| - 1])
  }

  ghost predicate DistinctIds<E>(codec: Codec<E>, events: seq<E>) {
    forall i, j :: 0 <= i < j < |events| ==> codec.id(events[i]) != codec.id(events[j])
  }

  /** Whatever is appended, one record at a time and under fresh ids, is what is read back. */
  lemma {:induction false} ReadEncodeAll<E(!new)>(codec: Codec<E>, events: seq<E>)
    requires Lawful(codec) && DistinctIds(codec, events)
    ensures ReadLog(codec, EncodeAll(codec, events)) == Ok(events)
  {
    if events != [] {
      var init := events[..|events| - 1];
      ReadEncodeAll(codec, init);
      ReadAppended(codec, EncodeAll(codec, init), events[|events| - 1]);
      assert events == init + [events[|events| - 1]];
    }
  }

  /** A torn append is never misread: a prefix of the new file that still extends the old one
      reads as the old log, is the whole new file, or is rejected. */
  lemma TornAppend<E(!new)>(codec: Codec<E>, content: Bytes, e: E, torn: Bytes)
    requires Lawful(codec)
    requires content <= torn <= Appended(codec, content, e)
    ensures torn == content || torn == Appended(codec, content, e) || ReadLog(codec, torn).Err?
  {
    var next, line := Appended(codec, content, e), codec.encode(e);
    if |content| < |torn| < |next| {
      assert torn[|torn| - 1] == next[|torn| - 1] == line[|torn| - 1 - |content|];
      assert torn[|torn| - 1] != NEWLINE;
    }
  }

  /** Across a crash in the middle of any run of appends, the surviving bytes hold a log that is
      some prefix of the appended records, or they are rejected. */
  lemma {:induction false} CrashConsistent<E(!new)>(codec: Codec<E>, events: seq<E>, torn: Bytes)
    requires Lawful(codec) && DistinctIds(codec, events)
    requires torn <= EncodeAll(codec, events)
    ensures ReadLog(codec, torn).Err?
            || exists n :: 0 <= n <= |events| && ReadLog(codec, torn) == Ok(events[..n])
  {
    if events == [] {
      assert events[..0] == [];
    } else {
      var init, last := events[..|events| - 1], events[|events| - 1];
      var before := EncodeAll(codec, init);
      if |torn| <= |before| {
        assert torn <= before;
        CrashConsistent(codec, init, torn);
        if !ReadLog(codec, torn).Err? {
          var n :| 0 <= n <= |init| && ReadLog(codec, torn) == Ok(init[..n]);
          assert init[..n] == events[..n];
        }
      } else {
        assert before <= torn;
        TornAppend(codec, before, last, torn);
        ReadEncodeAll(codec, events);
        assert events[..|events|] == events;
      }
    }
  }
}
