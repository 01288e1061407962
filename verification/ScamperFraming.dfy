/**
 The line protocol of the scamper daemon as its client reads it (libs/scamper-client/client.go).

 A reply is a line; a DATA line is followed by exactly as many bytes of payload as it announces, which
 may hold anything, newlines and text that looks like a reply included. A char stands for a byte.
 */
module ScamperFraming {
  import opened Options
  import opened Sequences
  import opened Text

  /** `Ok` without an id has the empty one. */
  datatype Frame = Err(text: string) | More(text: string) | Ok(id: string) | Data(id: string, payload: string)

  // ------------------------------------------------------------------ reading

  predicate IsSpace(c: char) {
    c == ' ' || c == '\t' || c == '\r' || c as int == 11 || c as int == 12
  }

  function LineEnd(s: string): (end: nat)
    ensures end <= |s|
    ensures '\n' !in s[..end]
    ensures end < |s| ==> s[end] == '\n'
  {
    if s == "" || s[0] == '\n' then 0
    else
      var end := 1 + LineEnd(s[1..]);
      assert s[..end] == [s[0]] + s[1..][..end - 1];
      end
  }

  /** The format's space: at least one in the input. */
  function SkipSpaces(s: string): Option<string> {
    var n := Span(IsSpace, s);
    if n == 0 then None else Some(s[n..])
  }

  /** %s: everything up to the next space, and not nothing. */
  function Token(s: string): Option<string> {
    var n := Span(c => !IsSpace(c), s);
    if n == 0 then None else Some(s[..n])
  }

  datatype Number = Number(value: int, rest: string)

  /** %d: an optional sign and decimal digits, within 64 bits. */
  function ScanNumber(s: string): Option<Number> {
    var signed := s != "" && (s[0] == '+' || s[0] == '-');
    var digits := if signed then s[1..] else s;
    var n := Span(IsDigit, digits);
    if n == 0 then None
    else
      assert forall i :: 0 <= i < n ==> digits[..n][i] == digits[i];
      var magnitude := DigitsValue(digits[..n]);
      var value: int := if signed && s[0] == '-' then 0 - magnitude else magnitude;
      if -0x8000_0000_0000_0000 <= value < 0x8000_0000_0000_0000 then Some(Number(value, digits[n..])) else None
  }

  /** The id of an OK line, empty if there is none. */
  function OkId(line: string): string
    requires |line| >= 2
  {
    var rest := SkipSpaces(line[2..]);
    if rest.None? then ""
    else
      match Token(rest.value)
      case None => ""
      case Some(id) => id
  }

  datatype Header = Header(length: int, id: string)

  function DataHeader(line: string): Option<Header>
    requires |line| >= 4
  {
    var afterTag := SkipSpaces(line[4..]);
    if afterTag.None? then None
    else
      var number := ScanNumber(afterTag.value);
      if number.None? then None
      else
        var afterLength := SkipSpaces(number.value.rest);
        if afterLength.None? then None
        else
          match Token(afterLength.value)
          case None => None
          case Some(id) => Some(Header(number.value.value, id))
  }

  datatype Read = End | Skipped(rest: string) | Got(frame: Frame, rest: string)

  /** One turn of the reader. Input ends with an incomplete line or payload, and with a negative length.
      A malformed DATA line is skipped as a line; its payload, if any, is then read as lines. */
  function ReadFrame(s: string): (r: Read)
    ensures !r.End? ==> |r.rest| < |s|
  {
    var end := LineEnd(s);
    if end == |s| then End
    else
      var line, rest := s[..end], s[end + 1..];
      if "ERR" <= line then Got(Err(line[3..]), rest)
      else if "MORE" <= line then Got(More(line[4..]), rest)
      else if "OK" <= line then Got(Ok(OkId(line)), rest)
      else if "DATA" <= line then
        (match DataHeader(line)
         case None => Skipped(rest)
         case Some(Header(length, id)) =>
           if 0 <= length <= |rest| then Got(Data(id, rest[..length]), rest[length..]) else End)
      else Skipped(rest)
  }

  /** The frames a client gets out of a byte stream. */
  function Parse(s: string): seq<Frame>
    decreases |s|
  {
    match ReadFrame(s)
    case End => []
    case Skipped(rest) => Parse(rest)
    case Got(f, rest) => [f] + Parse(rest)
  }

  // ----------------------------------------------------------------- printing

  function Print(f: Frame): string {
    match f
    case Err(text) => "ERR" + text + "\n"
    case More(text) => "MORE" + text + "\n"
    case Ok(id) => (if id == "" then "OK" else "OK " + id) + "\n"
    case Data(id, payload) => "DATA " + Decimal(|payload|) + " " + id + "\n" + payload
  }

  function PrintAll(fs: seq<Frame>): string {
    if fs == [] then "" else Print(fs[0]) + PrintAll(fs[1..])
  }

  predicate IsId(id: string) {
    forall i :: 0 <= i < |id| ==> !IsSpace(id[i]) && id[i] != '\n'
  }

  /** What the daemon can say: texts are one line, ids are one word, DATA has one. */
  predicate Sayable(f: Frame) {
    match f
    case Err(text) => '\n' !in text
    case More(text) => '\n' !in text
    case Ok(id) => IsId(id)
    case Data(id, payload) => id != "" && IsId(id) && |payload| < 0x8000_0000_0000_0000
  }

  // --------------------------------------------------------------- round trip

  lemma {:induction false} LineEndOf(line: string, rest: string)
    requires '\n' !in line
    ensures LineEnd(line + "\n" + rest) == |line|
  {
    var s := line + "\n" + rest;
    if line != "" {
      assert s[1..] == line[1..] + "\n" + rest;
      LineEndOf(line[1..], rest);
    }
  }

  lemma OneSpace(a: string)
    requires a != "" && !IsSpace(a[0])
    ensures SkipSpaces(" " + a) == Some(a)
  {
    SpanOf(IsSpace, " ", a);
    assert (" " + a)[1..] == a;
  }

  lemma TokenOf(id: string)
    requires IsId(id) && id != ""
    ensures Token(id) == Some(id)
  {
    SpanOf(c => !IsSpace(c), id, "");
    assert id + "" == id && id[..|id|] == id;
  }

  lemma NumberOf(n: nat, rest: string)
    requires n < 0x8000_0000_0000_0000 && rest != "" && !IsDigit(rest[0])
    ensures ScanNumber(Decimal(n) + rest) == Some(Number(n, rest))
  {
    var d := Decimal(n);
    SpanOf(IsDigit, d, rest);
    assert (d + rest)[0] == d[0];
    assert (d + rest)[..|d|] == d && (d + rest)[|d|..] == rest;
  }

  lemma OkIdOf(id: string)
    requires IsId(id)
    ensures OkId(if id == "" then "OK" else "OK " + id) == id
  {
    if id == "" {
      assert "OK"[2..] == "";
    } else {
      assert ("OK " + id)[2..] == " " + id;
      OneSpace(id);
      TokenOf(id);
    }
  }

  lemma AfterTag(number: string, id: string)
    requires number != "" && IsDigit(number[0])
    ensures ("DATA " + number + " " + id)[4..] == " " + (number + (" " + id))
    ensures !IsSpace((number + (" " + id))[0])
    ensures !IsDigit((" " + id)[0])
  {
    assert (number + (" " + id))[0] == number[0];
  }

  lemma WordStarts(id: string)
    requires id != "" && IsId(id)
    ensures !IsSpace(id[0])
  {
  }

  lemma HeaderOf(id: string, n: nat)
    requires id != "" && IsId(id) && n < 0x8000_0000_0000_0000
    ensures DataHeader("DATA " + Decimal(n) + " " + id) == Some(Header(n, id))
  {
    hide Decimal, DigitsValue, ScanNumber, SkipSpaces, Token, IsId;
    var afterLength := " " + id;
    var afterTag := Decimal(n) + afterLength;
    AfterTag(Decimal(n), id);
    WordStarts(id);
    OneSpace(afterTag);
    NumberOf(n, afterLength);
    OneSpace(id);
    TokenOf(id);
  }

  /** The line a frame starts with. */
  function HeadLine(f: Frame): string {
    match f
    case Err(text) => "ERR" + text
    case More(text) => "MORE" + text
    case Ok(id) => if id == "" then "OK" else "OK " + id
    case Data(id, payload) => "DATA " + Decimal(|payload|) + " " + id
  }

  function Body(f: Frame): string {
    if f.Data? then f.payload else ""
  }

  lemma PrintIsHeadAndBody(f: Frame, tail: string)
    ensures Print(f) + tail == HeadLine(f) + "\n" + (Body(f) + tail)
  {
  }

  lemma HeadIsOneLine(f: Frame)
    requires Sayable(f)
    ensures '\n' !in HeadLine(f)
  {
    if f.Data? {
      var d := Decimal(|f.payload|);
      assert forall i :: 0 <= i < |d| ==> d[i] != '\n';
    }
  }

  lemma FirstLine(line: string, rest: string)
    requires '\n' !in line
    ensures var s := line + "\n" + rest;
      LineEnd(s) == |line| < |s| && s[..|line|] == line && s[|line| + 1..] == rest
  {
    hide LineEnd;
    LineEndOf(line, rest);
  }

  lemma ErrReadsBack(text: string, tail: string)
    requires Sayable(Err(text))
    ensures ReadFrame(HeadLine(Err(text)) + "\n" + tail) == Got(Err(text), tail)
  {
    hide LineEnd, OkId, DataHeader;
    var line := HeadLine(Err(text));
    FirstLine(line, tail);
    assert "ERR" <= line && line[3..] == text;
  }

  lemma MoreReadsBack(text: string, tail: string)
    requires Sayable(More(text))
    ensures ReadFrame(HeadLine(More(text)) + "\n" + tail) == Got(More(text), tail)
  {
    hide LineEnd, OkId, DataHeader;
    var line := HeadLine(More(text));
    FirstLine(line, tail);
    assert line[0] == 'M' && "MORE" <= line && line[4..] == text;
  }

  lemma OkReadsBack(id: string, tail: string)
    requires Sayable(Ok(id))
    ensures ReadFrame(HeadLine(Ok(id)) + "\n" + tail) == Got(Ok(id), tail)
  {
    hide LineEnd, OkId, DataHeader;
    var line := HeadLine(Ok(id));
    HeadIsOneLine(Ok(id));
    FirstLine(line, tail);
    assert line[0] == 'O' && "OK" <= line;
    OkIdOf(id);
  }

  lemma DataHead(id: string, payload: string)
    requires Sayable(Data(id, payload))
    ensures var line := HeadLine(Data(id, payload));
      && line[..1] == "D" && "DATA" <= line && '\n' !in line
      && DataHeader(line) == Some(Header(|payload|, id))
  {
    hide DataHeader;
    HeadIsOneLine(Data(id, payload));
    HeaderOf(id, |payload|);
  }

  lemma DataReadsBack(id: string, payload: string, tail: string)
    requires Sayable(Data(id, payload))
    ensures ReadFrame(HeadLine(Data(id, payload)) + "\n" + (payload + tail)) == Got(Data(id, payload), tail)
  {
    hide LineEnd, OkId, DataHeader, HeadLine, Sayable;
    var line := HeadLine(Data(id, payload));
    DataHead(id, payload);
    FirstLine(line, payload + tail);
    assert line[0] == 'D';
    assert (payload + tail)[..|payload|] == payload && (payload + tail)[|payload|..] == tail;
  }

  /** One frame in front of any bytes at all is read back, and reading goes on behind it. */
  lemma FrameReadsBack(f: Frame, tail: string)
    requires Sayable(f)
    ensures Parse(Print(f) + tail) == [f] + Parse(tail)
  {
    hide HeadLine, Sayable, ReadFrame, Print;
    PrintIsHeadAndBody(f, tail);
    match f {
      case Err(text) =>
        assert "" + tail == tail;
        ErrReadsBack(text, tail);
      case More(text) =>
        assert "" + tail == tail;
        MoreReadsBack(text, tail);
      case Ok(id) =>
        assert "" + tail == tail;
        OkReadsBack(id, tail);
      case Data(id, payload) => DataReadsBack(id, payload, tail);
    }
  }

  /** Whatever the daemon says is read back exactly, whatever bytes the payloads hold. */
  lemma {:induction false} FramingRoundTrip(fs: seq<Frame>, tail: string)
    requires forall i :: 0 <= i < |fs| ==> Sayable(fs[i])
    ensures Parse(PrintAll(fs) + tail) == fs + Parse(tail)
    decreases |fs|
  {
    hide Parse, ReadFrame, Print, Sayable;
    if fs == [] {
      assert PrintAll(fs) + tail == tail;
    } else {
      var f, more := fs[0], fs[1..];
      Regroup(Print(f), PrintAll(more), tail);
      FrameReadsBack(f, PrintAll(more) + tail);
      FramingRoundTrip(more, tail);
      Regroup([f], more, Parse(tail));
      assert fs == [f] + more;
    }
  }

  lemma CutFrame(id: string, payload: string, n: nat)
    requires Sayable(Data(id, payload)) && n < |payload|
    ensures Parse(HeadLine(Data(id, payload)) + "\n" + payload[..n]) == []
  {
    hide HeadLine, Sayable, DataHeader, LineEnd, OkId;
    var line, rest := HeadLine(Data(id, payload)), payload[..n];
    DataHead(id, payload);
    FirstLine(line, rest);
    assert line[0] == 'D';
  }

  /** A stream cut off inside a payload yields the frames before it and nothing of the cut one. */
  lemma CutPayloadIsDropped(fs: seq<Frame>, id: string, payload: string, n: nat)
    requires forall i :: 0 <= i < |fs| ==> Sayable(fs[i])
    requires Sayable(Data(id, payload)) && n < |payload|
    ensures Parse(PrintAll(fs) + (HeadLine(Data(id, payload)) + "\n" + payload[..n])) == fs
  {
    hide Parse, PrintAll, HeadLine, Sayable;
    var s := HeadLine(Data(id, payload)) + "\n" + payload[..n];
    FramingRoundTrip(fs, s);
    CutFrame(id, payload, n);
    assert fs + [] == fs;
  }

  // --------------------------------------------------------- any line at all

  predicate Blank(s: string) {
    s != "" && forall i :: 0 <= i < |s| ==> IsSpace(s[i])
  }

  predicate IsWord(s: string) {
    s != "" && forall i :: 0 <= i < |s| ==> !IsSpace(s[i])
  }

  predicate AllDigits(s: string) {
    s != "" && forall i :: 0 <= i < |s| ==> IsDigit(s[i])
  }

  /** What follows a word: nothing, or a space and then anything. */
  predicate Ends(s: string) {
    s == "" || IsSpace(s[0])
  }

  lemma SkipsBlank(gap: string, rest: string)
    requires Blank(gap) && (rest == "" || !IsSpace(rest[0]))
    ensures SkipSpaces(gap + rest) == Some(rest)
  {
    SpanOf(IsSpace, gap, rest);
    assert (gap + rest)[|gap|..] == rest;
  }

  lemma TakesWord(word: string, rest: string)
    requires IsWord(word) && Ends(rest)
    ensures Token(word + rest) == Some(word)
  {
    SpanOf(c => !IsSpace(c), word, rest);
    assert (word + rest)[..|word|] == word;
  }

  /** An OK line names the first word behind its spaces, and nothing if there are no spaces. */
  lemma OkNames(gap: string, id: string, rest: string)
    requires Blank(gap) && IsWord(id) && Ends(rest)
    ensures OkId("OK" + gap + id + rest) == id
  {
    hide SkipSpaces, Token;
    assert ("OK" + gap + id + rest)[2..] == gap + (id + rest);
    assert (id + rest)[0] == id[0];
    SkipsBlank(gap, id + rest);
    TakesWord(id, rest);
  }

  lemma OkNamesNothing(line: string)
    requires |line| >= 2 && (line[2..] == "" || !IsSpace(line[2]))
    ensures OkId(line) == ""
  {
    assert line[2..] != "" ==> line[2..][0] == line[2];
  }

  function SignedValue(sign: string, digits: string): int
    requires AllDigits(digits)
  {
    if sign == "-" then 0 - DigitsValue(digits) else DigitsValue(digits)
  }

  predicate Fits(n: int) {
    -0x8000_0000_0000_0000 <= n < 0x8000_0000_0000_0000
  }

  lemma DigitsApart(digits: string, rest: string)
    requires AllDigits(digits) && (rest == "" || !IsDigit(rest[0]))
    ensures
      var s := digits + rest;
      Span(IsDigit, s) == |digits| && s[..|digits|] == digits && s[|digits|..] == rest && s[0] == digits[0]
  {
    SpanOf(IsDigit, digits, rest);
  }

  lemma ScansUnsigned(digits: string, rest: string)
    requires AllDigits(digits) && (rest == "" || !IsDigit(rest[0]))
    ensures ScanNumber(digits + rest) ==
      if Fits(DigitsValue(digits)) then Some(Number(DigitsValue(digits), rest)) else None
  {
    hide DigitsValue;
    DigitsApart(digits, rest);
  }

  lemma ScansSigned(sign: string, digits: string, rest: string)
    requires sign in {"+", "-"} && AllDigits(digits) && (rest == "" || !IsDigit(rest[0]))
    ensures ScanNumber(sign + (digits + rest)) ==
      if Fits(SignedValue(sign, digits)) then Some(Number(SignedValue(sign, digits), rest)) else None
  {
    hide DigitsValue;
    DigitsApart(digits, rest);
    var s := sign + (digits + rest);
    assert s[0] == sign[0] && s[1..] == digits + rest;
  }

  lemma ScansNumber(sign: string, digits: string, rest: string)
    requires sign in {"", "+", "-"} && AllDigits(digits) && (rest == "" || !IsDigit(rest[0]))
    ensures ScanNumber(sign + digits + rest) ==
      if Fits(SignedValue(sign, digits)) then Some(Number(SignedValue(sign, digits), rest)) else None
  {
    hide DigitsValue, ScanNumber, AllDigits;
    if sign == "" {
      assert sign + digits == digits;
      ScansUnsigned(digits, rest);
    } else {
      Regroup(sign, digits, rest);
      ScansSigned(sign, digits, rest);
    }
  }

  lemma SevenParts(a: string, b: string, c: string, d: string, e: string, f: string, g: string)
    ensures a + (b + (c + d + (e + (f + g)))) == a + b + c + d + e + f + g
  {
    Regroup(a + b + c + d, e, f + g);
    Regroup(a + b + c + d + e, f, g);
    Regroup(a + b, c + d, e + (f + g));
    Regroup(a + b, c, d);
    Regroup(a, b, c + d + (e + (f + g)));
  }

  /** The parts of a well-formed DATA line. */
  datatype Parts = Parts(gap: string, sign: string, digits: string, gap2: string, id: string, rest: string)

  predicate Spells(p: Parts, line: string) {
    && line == "DATA" + p.gap + p.sign + p.digits + p.gap2 + p.id + p.rest
    && Blank(p.gap) && p.sign in {"", "+", "-"} && AllDigits(p.digits)
    && Blank(p.gap2) && IsWord(p.id) && Ends(p.rest)
    && Fits(SignedValue(p.sign, p.digits))
  }

  lemma BehindTag(rest: string)
    ensures var line := "DATA" + rest; "DATA" <= line && line[4..] == rest
  {
  }

  lemma NumberStarts(sign: string, digits: string, rest: string)
    requires sign in {"", "+", "-"} && AllDigits(digits)
    ensures var s := sign + digits + rest; s != "" && !IsSpace(s[0])
  {
    assert (sign + digits + rest)[0] == if sign == "" then digits[0] else sign[0];
  }

  lemma WellFormedIsRead(p: Parts, line: string)
    requires Spells(p, line)
    ensures |line| >= 4 && "DATA" <= line
    ensures DataHeader(line) == Some(Header(SignedValue(p.sign, p.digits), p.id))
  {
    hide SkipSpaces, Token, ScanNumber, DigitsValue, SignedValue;
    var named := p.id + p.rest;
    var afterLength := p.gap2 + named;
    var afterTag := p.sign + p.digits + afterLength;
    SevenParts("DATA", p.gap, p.sign, p.digits, p.gap2, p.id, p.rest);
    BehindTag(p.gap + afterTag);
    assert afterLength[0] == p.gap2[0] && named[0] == p.id[0];
    NumberStarts(p.sign, p.digits, afterLength);
    SkipsBlank(p.gap, afterTag);
    ScansNumber(p.sign, p.digits, afterLength);
    SkipsBlank(p.gap2, named);
    TakesWord(p.id, p.rest);
  }

  lemma SkippedIsBlank(s: string, rest: string) returns (gap: string)
    requires SkipSpaces(s) == Some(rest)
    ensures Blank(gap) && s == gap + rest
  {
    gap := s[..Span(IsSpace, s)];
  }

  lemma TokenIsWord(s: string, word: string) returns (rest: string)
    requires Token(s) == Some(word)
    ensures IsWord(word) && Ends(rest) && s == word + rest
  {
    rest := s[Span(c => !IsSpace(c), s)..];
  }

  function SignOf(s: string): string {
    if s != "" && (s[0] == '+' || s[0] == '-') then [s[0]] else ""
  }

  lemma SignApart(s: string)
    ensures SignOf(s) in {"", "+", "-"} && |SignOf(s)| <= |s| && s == SignOf(s) + s[|SignOf(s)|..]
  {
  }

  lemma NumberHasDigits(s: string)
    requires ScanNumber(s).Some?
    ensures Span(IsDigit, s[|SignOf(s)|..]) > 0
  {
    hide DigitsValue;
    assert SignOf(s) == "" ==> s[0..] == s;
  }

  lemma ScannedIsNumber(s: string, number: Number) returns (sign: string, digits: string)
    requires ScanNumber(s) == Some(number)
    ensures sign in {"", "+", "-"} && AllDigits(digits) && s == sign + digits + number.rest
    ensures number.value == SignedValue(sign, digits) && Fits(number.value)
  {
    hide DigitsValue, ScanNumber, SignedValue, SignOf;
    sign := SignOf(s);
    SignApart(s);
    NumberHasDigits(s);
    var scanned := s[|sign|..];
    var n := Span(IsDigit, scanned);
    digits := scanned[..n];
    var rest := scanned[n..];
    assert scanned == digits + rest;
    Regroup(sign, digits, rest);
    ScansNumber(sign, digits, rest);
  }

  lemma ReadIsWellFormed(line: string, h: Header) returns (p: Parts)
    requires |line| >= 4 && "DATA" <= line && DataHeader(line) == Some(h)
    ensures Spells(p, line) && h == Header(SignedValue(p.sign, p.digits), p.id)
  {
    hide SkipSpaces, Token, ScanNumber, DigitsValue, SignedValue, Blank, IsWord, AllDigits, Ends, Fits;
    var afterTag := SkipSpaces(line[4..]).value;
    var number := ScanNumber(afterTag).value;
    var afterLength := SkipSpaces(number.rest).value;
    var gap := SkippedIsBlank(line[4..], afterTag);
    var sign, digits := ScannedIsNumber(afterTag, number);
    var gap2 := SkippedIsBlank(number.rest, afterLength);
    var rest := TokenIsWord(afterLength, h.id);
    p := Parts(gap, sign, digits, gap2, h.id, rest);
    assert line == "DATA" + line[4..];
    SevenParts("DATA", gap, sign, digits, gap2, h.id, rest);
  }

  /** A DATA line is read exactly if it has a length that fits 64 bits and a word, with spaces between. */
  lemma HeaderIff(line: string, h: Header)
    requires |line| >= 4 && "DATA" <= line
    ensures DataHeader(line) == Some(h) <==>
      exists p :: Spells(p, line) && h == Header(SignedValue(p.sign, p.digits), p.id)
  {
    hide DataHeader, SignedValue, AllDigits, Blank, IsWord, Ends, Fits;
    if p :| Spells(p, line) && h == Header(SignedValue(p.sign, p.digits), p.id) {
      WellFormedIsRead(p, line);
    }
    if DataHeader(line) == Some(h) {
      var p := ReadIsWellFormed(line, h);
    }
  }

  lemma OtherLine(line: string, rest: string)
    requires '\n' !in line && !("DATA" <= line && DataHeader(line).Some?)
    requires !("ERR" <= line || "MORE" <= line || "OK" <= line)
    ensures Parse(line + "\n" + rest) == Parse(rest)
  {
    hide DataHeader, OkId, LineEnd;
    FirstLine(line, rest);
  }

  /** A line that is no reply, and a DATA line that is not well-formed, are skipped: reading goes on with
      the next line, as if it had not been there. */
  lemma OtherLinesAreSkipped(line: string, rest: string)
    requires '\n' !in line && !exists p :: Spells(p, line)
    requires !("ERR" <= line || "MORE" <= line || "OK" <= line)
    ensures Parse(line + "\n" + rest) == Parse(rest)
  {
    hide Spells, Parse, DataHeader;
    if "DATA" <= line && DataHeader(line).Some? {
      HeaderIff(line, DataHeader(line).value);
    }
    OtherLine(line, rest);
  }

  lemma ReadDataLine(line: string, h: Header, rest: string)
    requires '\n' !in line && "DATA" <= line && DataHeader(line) == Some(h)
    ensures Parse(line + "\n" + rest) ==
      if 0 <= h.length <= |rest| then [Data(h.id, rest[..h.length])] + Parse(rest[h.length..]) else []
  {
    hide DataHeader, OkId, LineEnd;
    FirstLine(line, rest);
    assert line[0] == 'D';
  }

  /** A well-formed DATA line takes exactly as many bytes as it says, under the word it names; a negative
      number, and one that the stream does not hold, end the input. */
  lemma DataLineIsRead(p: Parts, line: string, rest: string)
    requires '\n' !in line && Spells(p, line)
    ensures var length := SignedValue(p.sign, p.digits);
      Parse(line + "\n" + rest) ==
      if 0 <= length <= |rest| then [Data(p.id, rest[..length])] + Parse(rest[length..]) else []
  {
    hide Parse, DataHeader, SignedValue;
    WellFormedIsRead(p, line);
    ReadDataLine(line, Header(SignedValue(p.sign, p.digits), p.id), rest);
  }

  /** An OK line is read with the word it names. */
  lemma OkLineIsRead(line: string, rest: string)
    requires '\n' !in line && "OK" <= line
    ensures Parse(line + "\n" + rest) == [Ok(OkId(line))] + Parse(rest)
  {
    hide DataHeader, OkId, LineEnd;
    FirstLine(line, rest);
    assert line[0] == 'O';
  }

  /** Without its newline a line is not read. */
  lemma CutLineIsDropped(line: string)
    requires '\n' !in line
    ensures Parse(line) == []
  {
  }
}
