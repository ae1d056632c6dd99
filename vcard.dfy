/**
 * The export file written by the `/saved` handler (bot.py:64-73): one vCard
 * block per stored record, in list order, each block five lines long with bare
 * line-feed endings. This is the subset of vCard 3.0 (RFC 2426) made of the
 * BEGIN/END markers, VERSION (section 3.6.9), FN (section 3.1.1) and TEL
 * (section 3.3.1); it uses LF where section 5.8.1 of RFC 2425 asks for CRLF,
 * and it escapes nothing.
 *
 * Render states what the file is; WriteCards is the loop the handler runs.
 * ReadCards reads such a file back line by line and is the partner of
 * Render: the two round-trip exactly for the lists of records whose values
 * hold no line feed, which include every list the collection handler builds.
 */
module VCard {
  import opened Wrappers
  import opened ContactLine

  /** One line of the file: the text and its terminating line feed. */
  function Line(s: string): string {
    s + "\n"
  }

  const BeginLine: string := "BEGIN:VCARD"
  const VersionLine: string := "VERSION:3.0"
  const NameField: string := "FN:"
  const TelField: string := "TEL:"
  const EndLine: string := "END:VCARD"

  /** The block written for one record. */
  function Block(r: Record): string {
    Line(BeginLine) + Line(VersionLine) + Line(NameField + r.name) + Line(TelField + r.number) + Line(EndLine)
  }

  /** The whole file: the records' blocks, concatenated in list order. */
  function Render(rs: seq<Record>): string {
    if rs == [] then "" else Block(rs[0]) + Render(rs[1..])
  }

  /** Writing one more block extends the file by that block. */
  lemma {:induction false} RenderAppend(rs: seq<Record>, r: Record)
    ensures Render(rs + [r]) == Render(rs) + Block(r)
  {
    if rs == [] {
      assert [r][1..] == [];
    } else {
      assert (rs + [r])[1..] == rs[1..] + [r];
      RenderAppend(rs[1..], r);
    }
  }

  /** The save loop (bot.py:66-73): writes the blocks one record at a time and
      ends with exactly the rendered file. */
  method WriteCards(rs: seq<Record>) returns (content: string)
    ensures content == Render(rs)
  {
    content := "";
    for i := 0 to |rs|
      invariant content == Render(rs[..i])
    {
      assert rs[..i + 1] == rs[..i] + [rs[i]];
      RenderAppend(rs[..i], rs[i]);
      content := content + Block(rs[i]);
    }
    assert rs[..|rs|] == rs;
  }

  // ---------------------------------------------------------------------------
  // Line structure

  function CountNewlines(s: string): nat {
    if s == [] then 0 else (if s[0] == '\n' then 1 else 0) + CountNewlines(s[1..])
  }

  lemma {:induction false} CountNewlinesConcat(a: string, b: string)
    ensures CountNewlines(a + b) == CountNewlines(a) + CountNewlines(b)
  {
    if a == [] {
      assert a + b == b;
    } else {
      assert (a + b)[1..] == a[1..] + b;
      CountNewlinesConcat(a[1..], b);
    }
  }

  /** A text without line feeds, ended by one, is exactly one line. */
  lemma {:induction false} OneLine(s: string)
    requires '\n' !in s
    ensures CountNewlines(Line(s)) == 1
  {
    if s == [] {
      assert Line(s) == "\n";
    } else {
      assert Line(s)[1..] == Line(s[1..]);
      assert s[0] in s;
      assert forall c :: c in s[1..] ==> c in s;
      OneLine(s[1..]);
    }
  }

  /** A record whose name and number fit on one line each. */
  predicate LineSafe(r: Record) {
    '\n' !in r.name && '\n' !in r.number
  }

  /** Every record the parser builds is line safe. */
  lemma {:induction false} WellFormedIsLineSafe(r: Record)
    requires WellFormed(r)
    ensures LineSafe(r)
  {
    forall i | 0 <= i < |r.name| ensures r.name[i] != '\n' {
      if i < |Tag| {
        assert r.name[i] == r.name[..|Tag|][i];
      }
    }
    forall i | 0 <= i < |r.number| ensures r.number[i] != '\n' {
      NumberHasNoSpace(r.number, i);
    }
  }

  /** A block is five lines. */
  lemma {:induction false} BlockNewlines(r: Record)
    requires LineSafe(r)
    ensures CountNewlines(Block(r)) == 5
  {
    var l1, l2, l3 := Line(BeginLine), Line(VersionLine), Line(NameField + r.name);
    var l4, l5 := Line(TelField + r.number), Line(EndLine);
    OneLine(BeginLine);
    OneLine(VersionLine);
    OneLine(NameField + r.name);
    OneLine(TelField + r.number);
    OneLine(EndLine);
    CountNewlinesConcat(l1 + l2 + l3 + l4, l5);
    CountNewlinesConcat(l1 + l2 + l3, l4);
    CountNewlinesConcat(l1 + l2, l3);
    CountNewlinesConcat(l1, l2);
  }

  /** N records give a file of exactly 5·N lines. */
  lemma {:induction false} RenderNewlines(rs: seq<Record>)
    requires forall i :: 0 <= i < |rs| ==> LineSafe(rs[i])
    ensures CountNewlines(Render(rs)) == 5 * |rs|
  {
    if rs != [] {
      BlockNewlines(rs[0]);
      RenderNewlines(rs[1..]);
      CountNewlinesConcat(Block(rs[0]), Render(rs[1..]));
    }
  }

  // ---------------------------------------------------------------------------
  // Reading a file back

  predicate StartsWith(s: string, prefix: string) {
    |prefix| <= |s| && s[..|prefix|] == prefix
  }

  /** Splits off the first line: the text before the first line feed and the
      text after it. */
  function ReadLine(s: string): (r: Option<(string, string)>)
    ensures r.Some? ==> '\n' !in r.value.0 && s == Line(r.value.0) + r.value.1
    ensures r.None? ==> '\n' !in s
  {
    if s == [] then None
    else if s[0] == '\n' then Some(([], s[1..]))
    else match ReadLine(s[1..])
      case None => None
      case Some((line, rest)) => Some(([s[0]] + line, rest))
  }

  /** Reading a line back gives the line and what follows it. */
  lemma {:induction false} ReadLineOf(line: string, rest: string)
    requires '\n' !in line
    ensures ReadLine(Line(line) + rest) == Some((line, rest))
  {
    var s := Line(line) + rest;
    if line == [] {
      assert s[1..] == rest;
    } else {
      assert line[0] in line;
      assert s[1..] == Line(line[1..]) + rest;
      assert forall c :: c in line[1..] ==> c in line;
      ReadLineOf(line[1..], rest);
      assert [s[0]] + line[1..] == line;
    }
  }

  /** Reads the line that must be exactly `expected`, returning what follows. */
  function ReadFixed(s: string, expected: string): (r: Option<string>)
    ensures r.Some? ==> |r.value| < |s|
  {
    match ReadLine(s)
    case Some((line, rest)) => if line == expected then Some(rest) else None
    case None => None
  }

  /** Reads the line that must start with `field`, returning the value after
      the field name and what follows the line. */
  function ReadField(s: string, field: string): (r: Option<(string, string)>)
    ensures r.Some? ==> '\n' !in r.value.0 && |r.value.1| < |s|
  {
    match ReadLine(s)
    case Some((line, rest)) =>
      if StartsWith(line, field) then
        assert forall c :: c in line[|field|..] ==> c in line;
        Some((line[|field|..], rest))
      else None
    case None => None
  }

  /** Reads one five-line block: the record it holds and the text after it. */
  function ReadBlock(s: string): (r: Option<(Record, string)>)
    ensures r.Some? ==> LineSafe(r.value.0) && |r.value.1| < |s|
  {
    match ReadFixed(s, BeginLine)
    case None => None
    case Some(s1) =>
      match ReadFixed(s1, VersionLine)
      case None => None
      case Some(s2) =>
        match ReadField(s2, NameField)
        case None => None
        case Some((name, s3)) =>
          match ReadField(s3, TelField)
          case None => None
          case Some((number, s4)) =>
            match ReadFixed(s4, EndLine)
            case None => None
            case Some(s5) => Some((Record(name, number), s5))
  }

  /** Reads a file of blocks back into records; None when the text is not a
      sequence of five-line blocks of the rendered shape. */
  function ReadCards(s: string): (r: Option<seq<Record>>)
    ensures r.Some? ==> forall i :: 0 <= i < |r.value| ==> LineSafe(r.value[i])
    decreases |s|
  {
    if s == [] then Some([])
    else
      var block := ReadBlock(s);
      if block.None? then None
      else
        var more := ReadCards(block.value.1);
        if more.None? then None else Some([block.value.0] + more.value)
  }

  /** A fixed line read back is recognised, leaving what follows it. */
  lemma {:induction false} ReadFixedOf(line: string, rest: string)
    requires '\n' !in line
    ensures ReadFixed(Line(line) + rest, line) == Some(rest)
  {
    ReadLineOf(line, rest);
  }

  /** A field line read back gives the value written after the field name. */
  lemma {:induction false} ReadFieldOf(field: string, value: string, rest: string)
    requires '\n' !in field && '\n' !in value
    ensures ReadField(Line(field + value) + rest, field) == Some((value, rest))
  {
    ReadLineOf(field + value, rest);
    assert (field + value)[..|field|] == field;
    assert (field + value)[|field|..] == value;
  }

  /** A block followed by more text, regrouped line by line. */
  lemma {:induction false} BlockLines(r: Record, tail: string)
    ensures Block(r) + tail ==
              Line(BeginLine) + (Line(VersionLine) + (Line(NameField + r.name) + (Line(TelField + r.number) + (Line(EndLine) + tail))))
  {
  }

  /** A rendered block is read back as its record, leaving what follows it. */
  lemma {:induction false} ReadBlockOf(r: Record, tail: string)
    requires LineSafe(r)
    ensures ReadBlock(Block(r) + tail) == Some((r, tail))
  {
    var s4 := Line(EndLine) + tail;
    var s3 := Line(TelField + r.number) + s4;
    var s2 := Line(NameField + r.name) + s3;
    var s1 := Line(VersionLine) + s2;
    BlockLines(r, tail);
    ReadFixedOf(BeginLine, s1);
    ReadFixedOf(VersionLine, s2);
    ReadFieldOf(NameField, r.name, s3);
    ReadFieldOf(TelField, r.number, s4);
    ReadFixedOf(EndLine, tail);
  }

  /** A text that starts with the block of a line-safe record reads as that
      record followed by whatever the rest of the text reads as. */
  lemma {:induction false} ReadCardsBlock(r: Record, tail: string)
    requires LineSafe(r)
    ensures ReadCards(tail).Some? ==> ReadCards(Block(r) + tail) == Some([r] + ReadCards(tail).value)
    ensures ReadCards(tail).None? ==> ReadCards(Block(r) + tail).None?
  {
    ReadBlockOf(r, tail);
    assert Block(r) + tail != [] by {
      assert |Block(r)| > 0;
    }
  }

  lemma {:induction false} TailLineSafe(rs: seq<Record>)
    requires rs != [] && forall i :: 0 <= i < |rs| ==> LineSafe(rs[i])
    ensures forall i :: 0 <= i < |rs[1..]| ==> LineSafe(rs[1..][i])
  {
    forall i | 0 <= i < |rs[1..]| ensures LineSafe(rs[1..][i]) {
      assert rs[1..][i] == rs[i + 1];
    }
  }

  lemma {:induction false} HeadTail(rs: seq<Record>)
    requires rs != []
    ensures [rs[0]] + rs[1..] == rs
  {
  }

  /** Round trip: reading the rendered file gives back the records, all of
      them and in order, so the file holds exactly one block per record. */
  lemma {:induction false} ReadRender(rs: seq<Record>)
    requires forall i :: 0 <= i < |rs| ==> LineSafe(rs[i])
    ensures ReadCards(Render(rs)) == Some(rs)
  {
    if rs != [] {
      var tail := Render(rs[1..]);
      assert Render(rs) == Block(rs[0]) + tail;
      ReadCardsBlock(rs[0], tail);
      TailLineSafe(rs);
      ReadRender(rs[1..]);
      HeadTail(rs);
    }
  }

  /** Values are not escaped, so the round trip holds exactly for line-safe
      records: a name or number holding a line feed is never read back. */
  lemma {:induction false} ReadRenderIff(rs: seq<Record>)
    ensures ReadCards(Render(rs)) == Some(rs) <==> forall i :: 0 <= i < |rs| ==> LineSafe(rs[i])
  {
    if forall i :: 0 <= i < |rs| ==> LineSafe(rs[i]) {
      ReadRender(rs);
    }
  }
}
