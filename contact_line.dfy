/**
 * The contact-line parser of the bulk-collection handler (bot.py:37-45).
 *
 * The handler strips the message text and matches it against the regular
 * expression `^(.+)\s(\+?\d+)$`. Here that expression is stated twice: once
 * declaratively, as "some split of the stripped text into name, one whitespace
 * character and number" (Matches), and once as the function the handler
 * computes, which splits at the LAST whitespace character (MatchLine). The two
 * are proved to agree in both directions.
 *
 * Characters are ASCII: whitespace is what Python's `str.isspace` (and hence
 * `strip` and `\s`) accepts below 128, digits are '0'..'9', and upper-casing
 * maps only 'a'..'z'.
 */
module ContactLine {
  import opened Wrappers

  /** A stored contact: the tagged, upper-cased display name and the number as typed. */
  datatype Record = Record(name: string, number: string)

  /** The two capture groups of the contact-line expression. */
  datatype Groups = Groups(name: string, number: string)

  /** The fixed tag put in front of every stored display name. */
  const Tag: string := "RT "

  // ---------------------------------------------------------------------------
  // Character classes

  /** ASCII whitespace as Python sees it: tab, LF, VT, FF, CR, the four
      separators 0x1C..0x1F, and space. */
  predicate IsSpace(c: char) {
    c == ' ' || ('\t' <= c <= '\r') || ('\U{1C}' <= c <= '\U{1F}')
  }

  predicate IsDigit(c: char) {
    '0' <= c <= '9'
  }

  predicate IsLower(c: char) {
    'a' <= c <= 'z'
  }

  function UpperChar(c: char): char {
    if IsLower(c) then (c as int - 32) as char else c
  }

  /** `str.upper` restricted to ASCII letters. */
  function Upper(s: string): (u: string)
    ensures |u| == |s|
    ensures forall i :: 0 <= i < |s| ==> u[i] == UpperChar(s[i])
  {
    if s == [] then [] else [UpperChar(s[0])] + Upper(s[1..])
  }

  /** Every character of `s` from index `lo` up to `hi` is whitespace. */
  predicate SpaceBetween(s: string, lo: int, hi: int) {
    forall i :: lo <= i < hi && 0 <= i < |s| ==> IsSpace(s[i])
  }

  /** The token `\+?\d+`: an optional plus sign followed by one or more digits. */
  predicate IsNumber(s: string) {
    var digits := if |s| > 0 && s[0] == '+' then s[1..] else s;
    |digits| > 0 && forall i :: 0 <= i < |digits| ==> IsDigit(digits[i])
  }

  // ---------------------------------------------------------------------------
  // str.strip()

  /** The number of whitespace characters `s` starts with. */
  function LeadingSpaces(s: string): (n: nat)
    ensures n <= |s|
  {
    if s != [] && IsSpace(s[0]) then 1 + LeadingSpaces(s[1..]) else 0
  }

  /** The number of whitespace characters `s` ends with. */
  function TrailingSpaces(s: string): (n: nat)
    ensures n <= |s|
  {
    if s != [] && IsSpace(s[|s| - 1]) then 1 + TrailingSpaces(s[..|s| - 1]) else 0
  }

  /** `str.strip()`: the leading whitespace is cut, then the trailing
      whitespace of what is left; StripSlice says what this keeps. */
  function Strip(s: string): string {
    var t := s[LeadingSpaces(s)..];
    t[..|t| - TrailingSpaces(t)]
  }

  /** LeadingSpaces counts whitespace, and stops at a character that is not. */
  lemma {:induction false} LeadingSpacesAreSpace(s: string)
    ensures SpaceBetween(s, 0, LeadingSpaces(s))
    ensures LeadingSpaces(s) == |s| || !IsSpace(s[LeadingSpaces(s)])
  {
    if s != [] && IsSpace(s[0]) {
      var n := LeadingSpaces(s[1..]);
      LeadingSpacesAreSpace(s[1..]);
      SpaceInSuffix(s, 1, 0, n);
      if n < |s| - 1 {
        assert s[1 + n] == s[1..][n];
      }
    }
  }

  /** TrailingSpaces counts whitespace, and stops at a character that is not. */
  lemma {:induction false} TrailingSpacesAreSpace(s: string)
    ensures SpaceBetween(s, |s| - TrailingSpaces(s), |s|)
    ensures TrailingSpaces(s) == |s| || !IsSpace(s[|s| - 1 - TrailingSpaces(s)])
  {
    if s != [] && IsSpace(s[|s| - 1]) {
      var p := s[..|s| - 1];
      var n := TrailingSpaces(p);
      TrailingSpacesAreSpace(p);
      forall i | |s| - 1 - n <= i < |s| ensures IsSpace(s[i]) {
        if i < |s| - 1 {
          assert s[i] == p[i];
        }
      }
      if n < |p| {
        assert s[|p| - 1 - n] == p[|p| - 1 - n];
      }
    }
  }

  /** What `strip` keeps is one slice `s[a..b]` of the input with only
      whitespace around it, and it neither starts nor ends with whitespace. */
  lemma {:induction false} StripSlice(s: string)
    ensures var a := LeadingSpaces(s);
            var b := a + |Strip(s)|;
            && b <= |s|
            && Strip(s) == s[a..b]
            && SpaceBetween(s, 0, a)
            && SpaceBetween(s, b, |s|)
    ensures Strip(s) == [] || (!IsSpace(Strip(s)[0]) && !IsSpace(Strip(s)[|Strip(s)| - 1]))
  {
    var a := LeadingSpaces(s);
    var t := s[a..];
    var m := |t| - TrailingSpaces(t);
    LeadingSpacesAreSpace(s);
    TrailingSpacesAreSpace(t);
    SliceOfSuffix(s, a, m);
    SpaceInSuffix(s, a, m, |t|);
    if m > 0 {
      assert Strip(s)[0] == s[a];
      assert Strip(s)[m - 1] == t[m - 1];
    }
  }

  lemma {:induction false} SliceOfSuffix(s: string, a: nat, n: nat)
    requires a + n <= |s|
    ensures s[a..][..n] == s[a..a + n]
  {
  }

  /** Whitespace found in a suffix of `s` is whitespace of `s`, shifted. */
  lemma {:induction false} SpaceInSuffix(s: string, a: nat, lo: int, hi: int)
    requires a <= |s| && 0 <= lo && SpaceBetween(s[a..], lo, hi)
    ensures SpaceBetween(s, a + lo, a + hi)
  {
    forall i | a + lo <= i < a + hi && 0 <= i < |s| ensures IsSpace(s[i]) {
      assert s[i] == s[a..][i - a];
    }
  }

  // ---------------------------------------------------------------------------
  // The regular expression ^(.+)\s(\+?\d+)$

  /** The stripped text `t` matches the expression with these two groups: `t` is
      `name`, one whitespace character, then `number`; the name is non-empty
      and, since `.` does not match a line feed, has none; the number is
      `\+?\d+`. */
  predicate Matches(t: string, name: string, number: string) {
    && |t| == |name| + 1 + |number|
    && t[..|name|] == name
    && IsSpace(t[|name|])
    && t[|name| + 1..] == number
    && |name| > 0
    && '\n' !in name
    && IsNumber(number)
  }

  /** The index of the last whitespace character of `t`, if there is one. */
  function LastSpace(t: string): (r: Option<nat>)
    ensures r.Some? ==> r.value < |t| && IsSpace(t[r.value])
    ensures r.Some? ==> forall j :: r.value < j < |t| ==> !IsSpace(t[j])
    ensures r.None? ==> forall j :: 0 <= j < |t| ==> !IsSpace(t[j])
  {
    if |t| == 0 then None
    else if IsSpace(t[|t| - 1]) then Some(|t| - 1)
    else LastSpace(t[..|t| - 1])
  }

  /** `re.match(r"^(.+)\s(\+?\d+)$", text.strip())`: the groups it returns are a
      match of the stripped text. */
  function MatchLine(text: string): (r: Option<Groups>)
    ensures r.Some? ==> Matches(Strip(text), r.value.name, r.value.number)
  {
    var t := Strip(text);
    match LastSpace(t)
    case None => None
    case Some(k) =>
      var name := t[..k];
      var number := t[k + 1..];
      if |name| > 0 && '\n' !in name && IsNumber(number) then Some(Groups(name, number)) else None
  }

  /** A number token contains no whitespace. */
  lemma {:induction false} NumberHasNoSpace(number: string, j: int)
    requires IsNumber(number) && 0 <= j < |number|
    ensures !IsSpace(number[j])
  {
    var digits := if number[0] == '+' then number[1..] else number;
    if number[0] == '+' {
      if j > 0 {
        assert number[j] == digits[j - 1];
        assert IsDigit(digits[j - 1]);
      }
    } else {
      assert IsDigit(digits[j]);
    }
  }

  /** Completeness: whenever the stripped text matches the expression, MatchLine
      finds that very match. With MatchLine's own soundness this says the
      expression has at most one match, split at the last whitespace. */
  lemma {:induction false} MatchLineComplete(text: string, name: string, number: string)
    requires Matches(Strip(text), name, number)
    ensures MatchLine(text) == Some(Groups(name, number))
  {
    LastSpaceOfMatch(Strip(text), name, number);
  }

  /** In a match, the separator is the last whitespace character. */
  lemma {:induction false} LastSpaceOfMatch(t: string, name: string, number: string)
    requires Matches(t, name, number)
    ensures LastSpace(t) == Some(|name|)
  {
    var k := |name|;
    forall j | k < j < |t| ensures !IsSpace(t[j]) {
      assert t[j] == number[j - k - 1];
      NumberHasNoSpace(number, j - k - 1);
    }
  }

  /** The expression fails exactly when no split of the stripped text matches. */
  lemma {:induction false} MatchLineNone(text: string)
    ensures MatchLine(text).None? <==>
            forall k :: 0 <= k < |Strip(text)| ==> !Matches(Strip(text), Strip(text)[..k], Strip(text)[k + 1..])
  {
    var t := Strip(text);
    if MatchLine(text).None? {
      forall k | 0 <= k < |t| ensures !Matches(t, t[..k], t[k + 1..]) {
        if Matches(t, t[..k], t[k + 1..]) {
          MatchLineComplete(text, t[..k], t[k + 1..]);
        }
      }
    } else {
      var g := MatchLine(text).value;
      assert t[..|g.name|] == g.name;
      assert Matches(t, t[..|g.name|], t[|g.name| + 1..]);
    }
  }

  // ---------------------------------------------------------------------------
  // Building the record

  /** A record as the collection handler stores it: the tag, then a non-empty
      upper-cased name without line feeds; and a `\+?\d+` number. */
  predicate WellFormed(r: Record) {
    && |r.name| > |Tag|
    && r.name[..|Tag|] == Tag
    && (forall i :: |Tag| <= i < |r.name| ==> !IsLower(r.name[i]) && r.name[i] != '\n')
    && IsNumber(r.number)
  }

  /** The record stored for a successful match (bot.py:45). */
  function ToRecord(g: Groups): Record {
    Record(Tag + Upper(g.name), g.number)
  }

  /** Upper-casing leaves no lower-case letter and makes no line feed. */
  lemma {:induction false} UpperCharFacts(c: char)
    ensures !IsLower(UpperChar(c))
    ensures UpperChar(c) == '\n' ==> c == '\n'
  {
  }

  /** The record built from a match is well formed. */
  lemma {:induction false} ToRecordWellFormed(g: Groups)
    requires |g.name| > 0 && '\n' !in g.name && IsNumber(g.number)
    ensures WellFormed(ToRecord(g))
  {
    var r := ToRecord(g);
    var u := Upper(g.name);
    UpperIsSafe(g.name);
    assert r.name[..|Tag|] == Tag;
    forall i | |Tag| <= i < |r.name| ensures !IsLower(r.name[i]) && r.name[i] != '\n' {
      assert r.name[i] == u[i - |Tag|];
    }
  }

  /** An upper-cased name without line feeds has no lower-case letter and no
      line feed. */
  lemma {:induction false} UpperIsSafe(name: string)
    requires '\n' !in name
    ensures forall j :: 0 <= j < |Upper(name)| ==> !IsLower(Upper(name)[j]) && Upper(name)[j] != '\n'
  {
    forall j | 0 <= j < |name| ensures !IsLower(Upper(name)[j]) && Upper(name)[j] != '\n' {
      assert name[j] != '\n' by {
        assert name[j] in name;
      }
      UpperCharFacts(name[j]);
    }
  }

  /** The line's record, or None when the line is not `Name +Number`. Every
      record it yields is well formed. */
  function Parse(text: string): (r: Option<Record>)
    ensures r.Some? <==> MatchLine(text).Some?
    ensures r.Some? ==> WellFormed(r.value)
  {
    match MatchLine(text)
    case None => None
    case Some(g) =>
      ToRecordWellFormed(g);
      Some(ToRecord(g))
  }

  /** Parsing a line that matches with groups `name` and `number` stores
      "RT " + upper(name), with the name untrimmed, and the number verbatim. */
  lemma {:induction false} ParseMatch(text: string, name: string, number: string)
    requires Matches(Strip(text), name, number)
    ensures Parse(text) == Some(Record(Tag + Upper(name), number))
  {
    MatchLineComplete(text, name, number);
  }

  /** Conversely, every parsed record comes from a match of the stripped text. */
  lemma {:induction false} ParseSound(text: string)
    requires Parse(text).Some?
    ensures exists k :: 0 <= k < |Strip(text)| && Matches(Strip(text), Strip(text)[..k], Strip(text)[k + 1..])
              && Parse(text).value == Record(Tag + Upper(Strip(text)[..k]), Strip(text)[k + 1..])
  {
    var t := Strip(text);
    var g := MatchLine(text).value;
    var k := |g.name|;
    assert t[..k] == g.name && t[k + 1..] == g.number;
  }

  /** A line with no whitespace at either end is its own stripped form. */
  lemma {:induction false} StripUnchanged(t: string)
    requires t != [] && !IsSpace(t[0]) && !IsSpace(t[|t| - 1])
    ensures Strip(t) == t
  {
  }

  /** A name, one space and a number match the expression and are already stripped. */
  lemma {:induction false} SpaceSeparatedMatches(name: string, number: string)
    requires |name| > 0 && '\n' !in name && IsNumber(number)
    ensures Matches(name + " " + number, name, number)
  {
    var t := name + " " + number;
    assert t[..|name|] == name;
    assert t[|name|] == ' ';
    assert t[|name| + 1..] == number;
  }

  /** A name that does not start with whitespace, one space and a number: the
      line parses to the tagged, upper-cased name and the number. */
  lemma {:induction false} ParseSpaceSeparated(name: string, number: string)
    requires |name| > 0 && !IsSpace(name[0]) && '\n' !in name && IsNumber(number)
    ensures Parse(name + " " + number) == Some(Record(Tag + Upper(name), number))
  {
    var t := name + " " + number;
    SpaceSeparatedMatches(name, number);
    NumberHasNoSpace(number, |number| - 1);
    assert t[0] == name[0] && t[|t| - 1] == number[|number| - 1];
    StripUnchanged(t);
    ParseMatch(t, name, number);
  }

  /** The first line of the usual session: the plus sign is kept. */
  lemma {:induction false} ParseAlice(text: string)
    requires text == "Alice +15551234"
    ensures Parse(text) == Some(Record("RT ALICE", "+15551234"))
  {
    var name, number := "Alice", "+15551234";
    assert name + " " + number == text;
    assert Tag + Upper(name) == "RT ALICE";
    assert IsNumber(number) by {
      var digits := number[1..];
      assert digits == "15551234";
      assert forall i :: 0 <= i < |digits| ==> IsDigit(digits[i]);
    }
    ParseSpaceSeparated(name, number);
  }

  /** The second line of the usual session: a number without a plus sign. */
  lemma {:induction false} ParseBob(text: string)
    requires text == "bob 15559999"
    ensures Parse(text) == Some(Record("RT BOB", "15559999"))
  {
    var name, number := "bob", "15559999";
    assert name + " " + number == text;
    assert Tag + Upper(name) == "RT BOB";
    assert IsNumber(number) by {
      assert forall i :: 0 <= i < |number| ==> IsDigit(number[i]);
    }
    ParseSpaceSeparated(name, number);
  }

  /** The name is not trimmed: a second space before the number stays in it. */
  lemma {:induction false} ParseKeepsInnerSpace(text: string)
    requires text == "Alice  123"
    ensures Parse(text) == Some(Record("RT ALICE ", "123"))
  {
    var name, number := "Alice ", "123";
    assert name + " " + number == text;
    assert Tag + Upper(name) == "RT ALICE ";
    assert IsNumber(number) by {
      assert forall i :: 0 <= i < |number| ==> IsDigit(number[i]);
    }
    ParseSpaceSeparated(name, number);
  }
}
