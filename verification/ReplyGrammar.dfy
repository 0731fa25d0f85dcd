/**
 What the bytes of a control reply have to say to be accepted, line by line and without the parser: the status
 line, the one content length, no transfer encoding. The parser is shown to accept exactly that.
 */
module ReplyGrammar {
  import opened Options
  import opened ControlReply

  const TRANSFER_ENCODING := "transfer-encoding:"
  const CONTENT_LENGTH := "content-length:"

  // ------------------------------------------------------------------------ grammar

  /** Space, tab, line feed, vertical tab, form feed or carriage return. */
  predicate BlankChar(c: char) { c == ' ' || 9 <= c as int <= 13 }

  predicate Blank(s: Bytes) {
    forall i :: 0 <= i < |s| ==> BlankChar(s[i])
  }

  /** Decimal digits of a number, without leading zeros. */
  function Numeral(n: nat): (r: Bytes)
    ensures r != []
  {
    if n < 10 then [Digit(n)] else Numeral(n / 10) + [Digit(n % 10)]
  }

  function Digit(n: nat): char
    requires n < 10
  {
    "0123456789"[n]
  }

  predicate Zeros(s: Bytes) {
    forall i :: 0 <= i < |s| ==> s[i] == '0'
  }

  predicate BlankLineAt(bytes: Bytes, i: nat) {
    i + 4 <= |bytes| && bytes[i..i + 4] == "\r\n\r\n"
  }

  predicate FirstBlankLine(bytes: Bytes, b: nat) {
    BlankLineAt(bytes, b) && forall i: nat :: i < b ==> !BlankLineAt(bytes, i)
  }

  function Joined(lines: seq<Bytes>): Bytes
    requires lines != []
  {
    if |lines| == 1 then lines[0] else lines[0] + "\n" + Joined(lines[1..])
  }

  /** The lines of a header. */
  predicate AreLines(header: Bytes, lines: seq<Bytes>) {
    lines != [] && Joined(lines) == header && forall i :: 0 <= i < |lines| ==> '\n' !in lines[i]
  }

  /** HTTP/1.0 or HTTP/1.1, a space, the code, a space and something; blanks around it do not matter. */
  predicate StatusParts(line: Bytes, code: nat, lead: Bytes, version: Bytes, rest: Bytes) {
    && Blank(lead) && (version == "HTTP/1.0" || version == "HTTP/1.1") && !Blank(rest)
    && line == lead + version + " " + Numeral(code) + " " + rest
  }

  ghost predicate SaysStatus(line: Bytes, code: nat) {
    exists lead, version, rest :: StatusParts(line, code, lead, version, rest)
  }

  /** The line starts with this lower-case name, in any letter case. */
  predicate StartsWith(line: Bytes, name: Bytes) {
    |line| >= |name| && forall i :: 0 <= i < |name| ==> SameLetter(line[i], name[i])
  }

  predicate SameLetter(c: char, lower: char) {
    c == lower || ('a' <= lower <= 'z' && c as int == lower as int - 32)
  }

  /** Blanks, an optional plus, zeros and the numeral, blanks. */
  predicate NumberParts(text: Bytes, n: nat, lead: Bytes, sign: Bytes, zeros: Bytes, trail: Bytes) {
    && Blank(lead) && Blank(trail) && (sign == "" || sign == "+") && Zeros(zeros)
    && text == lead + (sign + zeros + Numeral(n)) + trail
  }

  ghost predicate SaysNumber(text: Bytes, n: nat) {
    exists lead, sign, zeros, trail :: NumberParts(text, n, lead, sign, zeros, trail)
  }

  predicate NoLine(lines: seq<Bytes>, name: Bytes) {
    forall i :: 0 <= i < |lines| ==> !StartsWith(lines[i], name)
  }

  /** Line `k`, and no other, is a content length, and it says `n`, which fits 64 bits. */
  ghost predicate OneLength(lines: seq<Bytes>, k: nat, n: nat) {
    && k < |lines| && StartsWith(lines[k], CONTENT_LENGTH) && SaysNumber(lines[k][15..], n) && n <= 0x7fff_ffff_ffff_ffff
    && forall i :: 0 <= i < |lines| && i != k ==> !StartsWith(lines[i], CONTENT_LENGTH)
  }

  // ------------------------------------------------------------------- the blank line

  lemma {:induction false} BoundaryFound(bytes: Bytes)
    ensures match Boundary(bytes)
            case Some(b) => FirstBlankLine(bytes, b)
            case None => forall i: nat :: !BlankLineAt(bytes, i)
  {
    if |bytes| >= 4 && bytes[..4] != CRLF_CRLF {
      BoundaryFound(bytes[1..]);
      forall i: nat | i > 0
        ensures BlankLineAt(bytes, i) <==> BlankLineAt(bytes[1..], i - 1)
      {
        if i + 4 <= |bytes| { assert bytes[1..][i - 1..i + 3] == bytes[i..i + 4]; }
      }
      assert !BlankLineAt(bytes, 0) by { assert bytes[0..4] == bytes[..4]; }
    } else if |bytes| >= 4 {
      assert bytes[0..4] == bytes[..4];
    }
  }

  lemma BoundaryIff(bytes: Bytes, b: nat)
    ensures FirstBlankLine(bytes, b) <==> Boundary(bytes) == Some(b)
  {
    BoundaryFound(bytes);
  }

  // --------------------------------------------------------------------------- lines

  lemma {:induction false} SplitNone(a: Bytes, separator: char)
    requires separator !in a
    ensures Split(a, separator) == [a]
  {
    if a != [] {
      assert a[0] in a;
      SplitNone(a[1..], separator);
      assert [a[0]] + a[1..] == a;
    }
  }

  lemma {:induction false} SplitFirst(a: Bytes, rest: Bytes, separator: char)
    requires separator !in a
    ensures Split(a + [separator] + rest, separator) == [a] + Split(rest, separator)
  {
    var all := a + [separator] + rest;
    if a == [] {
      assert all[1..] == rest;
    } else {
      assert a[0] in a;
      assert all[1..] == a[1..] + [separator] + rest;
      SplitFirst(a[1..], rest, separator);
      assert [a[0]] + a[1..] == a;
    }
  }

  lemma SplitStep(s: Bytes, separator: char)
    requires s != []
    ensures var words := Split(s[1..], separator);
            if s[0] == separator then Split(s, separator)[0] == [] && Split(s, separator)[1..] == words
            else Split(s, separator)[0] == [s[0]] + words[0] && Split(s, separator)[1..] == words[1..]
  {
  }

  /** What comes before the first separator, and after it. */
  lemma {:induction false} SplitHead(s: Bytes, separator: char) returns (head: Bytes, rest: Bytes)
    ensures separator !in head && head == Split(s, separator)[0]
    ensures |Split(s, separator)| == 1 ==> head == s
    ensures |Split(s, separator)| > 1 ==>
              s == head + [separator] + rest && Split(rest, separator) == Split(s, separator)[1..]
  {
    head, rest := [], [];
    if s != [] {
      SplitStep(s, separator);
      if s[0] == separator {
        rest := s[1..];
        assert s == head + [separator] + rest;
      } else {
        var front, more := SplitHead(s[1..], separator);
        head, rest := [s[0]] + front, more;
        SplitPut(s, front, separator, more);
      }
    }
  }

  lemma SplitPut(s: Bytes, front: Bytes, separator: char, rest: Bytes)
    requires s != []
    ensures s[1..] == front ==> s == [s[0]] + front
    ensures s[1..] == front + [separator] + rest ==> s == [s[0]] + front + [separator] + rest
  {
    assert s == [s[0]] + s[1..];
    assert [s[0]] + (front + [separator] + rest) == [s[0]] + front + [separator] + rest;
  }

  lemma {:induction false} LinesUnique(lines: seq<Bytes>)
    requires lines != [] && forall i :: 0 <= i < |lines| ==> '\n' !in lines[i]
    ensures Split(Joined(lines), '\n') == lines
  {
    if |lines| == 1 {
      SplitNone(lines[0], '\n');
    } else {
      assert lines[0] + "\n" + Joined(lines[1..]) == lines[0] + ['\n'] + Joined(lines[1..]);
      SplitFirst(lines[0], Joined(lines[1..]), '\n');
      LinesUnique(lines[1..]);
      assert [lines[0]] + lines[1..] == lines;
    }
  }

  /** Every header has lines, and only one way of being cut into them. */
  lemma {:induction false} LinesExist(header: Bytes)
    ensures AreLines(header, Split(header, '\n'))
    decreases |header|
  {
    var lines := Split(header, '\n');
    var first, rest := SplitHead(header, '\n');
    if |lines| > 1 {
      LinesExist(rest);
      assert lines[1..] == Split(rest, '\n');
      assert lines[0] + "\n" + Joined(lines[1..]) == header;
      assert forall i :: 1 <= i < |lines| ==> lines[i] == lines[1..][i - 1];
    }
  }

  // ------------------------------------------------------------------------- trimming

  lemma {:induction false} TrimLeftBlank(lead: Bytes, s: Bytes)
    requires Blank(lead) && (s == [] || !BlankChar(s[0]))
    ensures TrimLeft(lead + s) == s
  {
    if lead == [] {
      assert lead + s == s;
    } else {
      assert BlankChar(lead[0]);
      assert (lead + s)[1..] == lead[1..] + s;
      TrimLeftBlank(lead[1..], s);
    }
  }

  lemma {:induction false} TrimRightBlank(s: Bytes, trail: Bytes)
    requires Blank(trail) && (s == [] || !BlankChar(s[|s| - 1]))
    ensures TrimRight(s + trail) == s
  {
    var all := s + trail;
    if trail == [] {
      assert all == s;
    } else {
      var n := |trail| - 1;
      assert BlankChar(trail[n]) && all[|all| - 1] == trail[n];
      assert all[..|all| - 1] == s + trail[..n];
      TrimRightBlank(s, trail[..n]);
    }
  }

  /** Trimming removes the blanks around a text that neither starts nor ends with one. */
  lemma TrimIs(lead: Bytes, text: Bytes, trail: Bytes)
    requires Blank(lead) && Blank(trail) && text != [] && !BlankChar(text[0]) && !BlankChar(text[|text| - 1])
    ensures Trim(lead + text + trail) == text
  {
    assert lead + text + trail == lead + (text + trail);
    TrimLeftBlank(lead, text + trail);
    TrimRightBlank(text, trail);
  }

  lemma {:induction false} TrimLeftCut(s: Bytes) returns (lead: Bytes)
    ensures Blank(lead) && s == lead + TrimLeft(s)
    ensures TrimLeft(s) != [] ==> !BlankChar(TrimLeft(s)[0])
  {
    lead := [];
    if s != [] && IsSpace(s[0]) {
      var more := TrimLeftCut(s[1..]);
      lead := [s[0]] + more;
      assert s == [s[0]] + s[1..];
    }
  }

  lemma {:induction false} TrimRightCut(s: Bytes) returns (trail: Bytes)
    ensures Blank(trail) && s == TrimRight(s) + trail
    ensures TrimRight(s) != [] ==> !BlankChar(TrimRight(s)[|TrimRight(s)| - 1])
    ensures s != [] && !BlankChar(s[0]) ==> TrimRight(s) != [] && TrimRight(s)[0] == s[0]
  {
    trail := [];
    if s != [] && IsSpace(s[|s| - 1]) {
      var n := |s| - 1;
      var more := TrimRightCut(s[..n]);
      trail := more + [s[n]];
      assert s == s[..n] + [s[n]];
      assert s[..n] + [s[n]] == TrimRight(s[..n]) + more + [s[n]];
    }
  }

  /** A text is its trimmed form with blanks around it. */
  lemma TrimCut(s: Bytes) returns (lead: Bytes, trail: Bytes)
    ensures Blank(lead) && Blank(trail) && s == lead + Trim(s) + trail
    ensures Trim(s) != [] ==> !BlankChar(Trim(s)[0]) && !BlankChar(Trim(s)[|Trim(s)| - 1])
  {
    lead := TrimLeftCut(s);
    trail := TrimRightCut(TrimLeft(s));
    assert s == lead + (Trim(s) + trail);
  }

  // --------------------------------------------------------------------------- numbers

  lemma {:induction false} NumeralDigits(n: nat)
    ensures IsDigits(Numeral(n)) && Decimal(Numeral(n)) == n
  {
    var r := Numeral(n);
    if n < 10 {
      DigitValue(n);
      assert r[..0] == [];
    } else {
      NumeralDigits(n / 10);
      DigitValue(n % 10);
      assert r[..|r| - 1] == Numeral(n / 10) && r[|r| - 1] == Digit(n % 10);
    }
  }

  lemma DigitValue(d: nat)
    requires d < 10
    ensures '0' <= Digit(d) <= '9' && Digit(d) as int - '0' as int == d
  {
  }

  lemma NumeralOfThree(n: nat)
    requires 100 <= n < 1000
    ensures |Numeral(n)| == 3
  {
    assert |Numeral(n / 10 / 10)| == 1;
    assert |Numeral(n / 10)| == 2;
  }

  lemma {:induction false} ZerosCount(zeros: Bytes, digits: Bytes)
    requires Zeros(zeros) && IsDigits(digits)
    ensures IsDigits(zeros + digits) && Decimal(zeros + digits) == Decimal(digits)
    decreases |digits|, |zeros|
  {
    var all := zeros + digits;
    if digits != [] {
      var n := |digits| - 1;
      ZerosCount(zeros, digits[..n]);
      assert all[..|all| - 1] == zeros + digits[..n];
    } else if zeros != [] {
      ZerosCount(zeros[..|zeros| - 1], []);
      assert zeros[..|zeros| - 1] + [] == zeros[..|zeros| - 1];
      assert all[..|all| - 1] == zeros[..|zeros| - 1];
    }
  }

  /** A non-empty run of digits is the numeral of its value behind some zeros. */
  lemma {:induction false} DigitsAre(digits: Bytes) returns (zeros: Bytes)
    requires digits != [] && IsDigits(digits)
    ensures Zeros(zeros) && digits == zeros + Numeral(Decimal(digits))
  {
    var n := |digits| - 1;
    var front, d := digits[..n], digits[n] as int - '0' as int;
    assert Digit(d) == digits[n];
    assert digits == front + [digits[n]];
    if Decimal(front) == 0 {
      zeros := front;
      if front != [] { zeros := AllZeros(front); }
      assert Decimal(digits) == d && Numeral(d) == [digits[n]];
    } else {
      assert front != [];
      zeros := DigitsAre(front);
      assert Decimal(digits) / 10 == Decimal(front) && Decimal(digits) % 10 == d;
      assert zeros + Numeral(Decimal(front)) + [digits[n]] == zeros + (Numeral(Decimal(front)) + [digits[n]]);
    }
  }

  lemma {:induction false} AllZeros(digits: Bytes) returns (zeros: Bytes)
    requires IsDigits(digits) && Decimal(digits) == 0
    ensures Zeros(zeros) && zeros == digits
  {
    zeros := digits;
    if digits != [] {
      var n := |digits| - 1;
      var _ := AllZeros(digits[..n]);
    }
  }

  lemma SignedReads(sign: Bytes, digits: Bytes)
    requires (sign == "" || sign == "+") && digits != [] && IsDigits(digits) && Decimal(digits) <= INT64_MAXIMUM
    ensures ToLongLong(sign + digits) == Some(Decimal(digits))
  {
    hide Decimal;
    var s := sign + digits;
    if sign == "+" { assert s[1..] == digits; } else { assert s == digits && '0' <= s[0] <= '9'; }
  }

  lemma ReadIsSigned(s: Bytes, n: int) returns (sign: Bytes, digits: Bytes)
    requires ToLongLong(s) == Some(n) && n > 0
    ensures (sign == "" || sign == "+") && digits != [] && IsDigits(digits) && s == sign + digits
    ensures Decimal(digits) == n <= INT64_MAXIMUM
  {
    hide Decimal;
    if s != [] && s[0] == '+' {
      sign, digits := "+", s[1..];
    } else {
      sign, digits := "", s;
    }
    assert s == sign + digits;
  }

  lemma NumberSaid(text: Bytes, n: nat)
    requires SaysNumber(text, n) && n <= INT64_MAXIMUM
    ensures ToLongLong(Trim(text)) == Some(n)
  {
    hide ToLongLong, Trim, Numeral, Decimal;
    var lead, sign, zeros, trail :| NumberParts(text, n, lead, sign, zeros, trail);
    NumeralDigits(n);
    ZerosCount(zeros, Numeral(n));
    var digits := zeros + Numeral(n);
    SignedReads(sign, digits);
    var said := sign + digits;
    assert sign + zeros + Numeral(n) == said;
    SignedEnds(sign, digits);
    TrimIs(lead, said, trail);
  }

  lemma SignedEnds(sign: Bytes, digits: Bytes)
    requires (sign == "" || sign == "+") && digits != [] && IsDigits(digits)
    ensures !BlankChar((sign + digits)[0]) && !BlankChar((sign + digits)[|sign + digits| - 1])
  {
    var said := sign + digits;
    assert said[0] == '+' || '0' <= said[0] <= '9';
    assert said[|said| - 1] == digits[|digits| - 1];
  }

  lemma NumberRead(text: Bytes, n: int)
    requires ToLongLong(Trim(text)) == Some(n) && n > 0
    ensures SaysNumber(text, n) && n <= INT64_MAXIMUM
  {
    hide ToLongLong, Trim, Numeral, Decimal;
    var lead, trail := TrimCut(text);
    var sign, digits := ReadIsSigned(Trim(text), n);
    var zeros := DigitsAre(digits);
    assert sign + digits == sign + zeros + Numeral(n);
    assert NumberParts(text, n, lead, sign, zeros, trail);
  }

  // ----------------------------------------------------------------------- the status

  lemma StatusSaid(line: Bytes, code: nat)
    requires SaysStatus(line, code) && 100 <= code <= 599
    ensures Status(line) == Some(code)
  {
    hide Trim, Split, TrimRight, Numeral;
    var lead, version, rest :| StatusParts(line, code, lead, version, rest);
    NumeralDigits(code);
    NumeralOfThree(code);
    var trail := TrimRightCut(rest);
    var reason := TrimRight(rest);
    assert reason != [] by { assert rest == [] + trail ==> Blank(rest); }
    StatusTrims(lead, version, Numeral(code), reason, trail);
    SplitStatus(version, Numeral(code), reason);
  }

  lemma StatusTrims(lead: Bytes, version: Bytes, code: Bytes, reason: Bytes, trail: Bytes)
    requires Blank(lead) && Blank(trail) && version != [] && !BlankChar(version[0])
    requires reason != [] && !BlankChar(reason[|reason| - 1])
    ensures Trim(lead + version + " " + code + " " + (reason + trail)) == version + " " + code + " " + reason
  {
    hide Trim;
    var said := version + " " + code + " " + reason;
    assert said[0] == version[0] && said[|said| - 1] == reason[|reason| - 1];
    assert lead + version + " " + code + " " + (reason + trail) == lead + said + trail;
    TrimIs(lead, said, trail);
  }

  lemma SplitStatus(version: Bytes, code: Bytes, reason: Bytes)
    requires ' ' !in version && IsDigits(code)
    ensures Split(version + " " + code + " " + reason, ' ') == [version, code] + Split(reason, ' ')
  {
    var tail := code + [' '] + reason;
    assert ' ' !in code;
    assert version + " " + code + " " + reason == version + [' '] + tail;
    SplitFirst(version, tail, ' ');
    SplitFirst(code, reason, ' ');
  }

  lemma StatusRead(line: Bytes, code: int)
    requires Status(line) == Some(code)
    ensures 100 <= code <= 599 && SaysStatus(line, code)
  {
    var lead, trail := TrimCut(line);
    var said := Trim(line);
    var words := Split(said, ' ');
    var version, tail := SplitHead(said, ' ');
    var digits, reason := SplitHead(tail, ' ');
    assert Split(tail, ' ') == words[1..] && |words[1..]| > 1;
    assert said == words[0] + [' '] + (words[1] + [' '] + reason);
    ThreeDigits(words[1]);
    assert said[|said| - 1] == if reason == [] then ' ' else reason[|reason| - 1];
    assert !Blank(reason + trail) by {
      assert reason != [];
      assert (reason + trail)[|reason| - 1] == reason[|reason| - 1];
    }
    assert line == lead + words[0] + " " + Numeral(code) + " " + (reason + trail);
    assert StatusParts(line, code, lead, words[0], reason + trail);
  }

  lemma ThreeDigits(digits: Bytes)
    requires |digits| == 3 && IsDigits(digits) && Decimal(digits) >= 100
    ensures Numeral(Decimal(digits)) == digits
  {
    var zeros := DigitsAre(digits);
    var n := Decimal(digits);
    DecimalBound(digits);
    NumeralOfThree(n);
    assert zeros == [];
  }

  lemma {:induction false} DecimalBound(digits: Bytes)
    requires IsDigits(digits) && |digits| <= 3
    ensures Decimal(digits) < if |digits| == 0 then 1 else if |digits| == 1 then 10 else if |digits| == 2 then 100 else 1000
  {
    if digits != [] { DecimalBound(digits[..|digits| - 1]); }
  }

  /** What the status line says, in one code between 100 and 599. */
  lemma StatusIff(line: Bytes, code: int)
    ensures Status(line) == Some(code) <==> 100 <= code <= 599 && SaysStatus(line, code)
  {
    hide Status;
    if Status(line) == Some(code) { StatusRead(line, code); }
    if 100 <= code <= 599 && SaysStatus(line, code) { StatusSaid(line, code); }
  }

  // ----------------------------------------------------------------- the other lines

  lemma StartsIff(line: Bytes, name: Bytes)
    requires forall i :: 0 <= i < |name| ==> !('A' <= name[i] <= 'Z')
    ensures StartsWith(line, name) <==> name <= Lower(line)
  {
    if |line| >= |name| {
      forall i | 0 <= i < |name|
        ensures SameLetter(line[i], name[i]) <==> Lower(line)[i] == name[i]
      {
      }
      if StartsWith(line, name) {
        assert Lower(line)[..|name|] == name;
      }
    }
  }

  lemma NamesRead(line: Bytes)
    ensures StartsWith(line, TRANSFER_ENCODING) <==> "transfer-encoding:" <= Lower(line)
    ensures StartsWith(line, CONTENT_LENGTH) <==> "content-length:" <= Lower(line)
  {
    StartsIff(line, TRANSFER_ENCODING);
    StartsIff(line, CONTENT_LENGTH);
  }

  /** A length has been found: what follows must hold neither another nor a transfer encoding. */
  lemma {:induction false} ScanAfter(lines: seq<Bytes>, length: nat, maximum: int)
    ensures ScanHeaders(lines, length, maximum).Length? <==> NoLine(lines, TRANSFER_ENCODING) && NoLine(lines, CONTENT_LENGTH)
    ensures ScanHeaders(lines, length, maximum).Length? ==> ScanHeaders(lines, length, maximum).value == length
  {
    hide Lower, StartsWith, Trim, ToLongLong;
    if lines != [] {
      NamesRead(lines[0]);
      LowerKeepsLength(lines[0]);
      ScanAfter(lines[1..], length, maximum);
      NoLineCons(lines, TRANSFER_ENCODING);
      NoLineCons(lines, CONTENT_LENGTH);
    }
  }

  lemma NoLineCons(lines: seq<Bytes>, name: Bytes)
    requires lines != []
    ensures NoLine(lines, name) <==> !StartsWith(lines[0], name) && NoLine(lines[1..], name)
  {
    hide StartsWith;
    assert forall i :: 1 <= i < |lines| ==> lines[i] == lines[1..][i - 1];
    assert forall i :: 0 <= i < |lines| - 1 ==> lines[1..][i] == lines[i + 1];
  }

  /** Everything after the status line: no transfer encoding, and exactly one content length, which says `n`. */
  ghost predicate SaysLength(lines: seq<Bytes>, n: int, maximum: int) {
    0 < n <= maximum && NoLine(lines, TRANSFER_ENCODING) && exists k :: OneLength(lines, k, n)
  }

  lemma {:induction false} ScanIff(lines: seq<Bytes>, n: int, maximum: int)
    ensures ScanHeaders(lines, -1, maximum) == Length(n) <==> SaysLength(lines, n, maximum)
  {
    hide Lower, StartsWith, Trim, ToLongLong, SaysNumber;
    if lines != [] {
      NamesRead(lines[0]);
      LowerKeepsLength(lines[0]);
      NoLineCons(lines, TRANSFER_ENCODING);
      if StartsWith(lines[0], TRANSFER_ENCODING) {
      } else if StartsWith(lines[0], CONTENT_LENGTH) {
        ScanFirst(lines, n, maximum);
      } else {
        ScanIff(lines[1..], n, maximum);
        if n > 0 { OneLengthCons(lines, n); }
      }
    }
  }

  lemma OneLengthCons(lines: seq<Bytes>, n: nat)
    requires lines != [] && !StartsWith(lines[0], CONTENT_LENGTH)
    ensures (exists k :: OneLength(lines, k, n)) <==> exists k :: OneLength(lines[1..], k, n)
  {
    hide StartsWith, SaysNumber;
    assert forall i :: 0 <= i < |lines| - 1 ==> lines[1..][i] == lines[i + 1];
    if k: nat :| OneLength(lines, k, n) {
      assert k > 0;
      assert OneLength(lines[1..], k - 1, n);
    }
    if k: nat :| OneLength(lines[1..], k, n) {
      assert forall i :: 1 <= i < |lines| ==> lines[i] == lines[1..][i - 1];
      assert OneLength(lines, k + 1, n);
    }
  }

  lemma ScanFirst(lines: seq<Bytes>, n: int, maximum: int)
    requires lines != [] && StartsWith(lines[0], CONTENT_LENGTH) && !StartsWith(lines[0], TRANSFER_ENCODING)
    ensures ScanHeaders(lines, -1, maximum) == Length(n) <==> SaysLength(lines, n, maximum)
  {
    hide Lower, StartsWith, Trim, ToLongLong, SaysNumber;
    NamesRead(lines[0]);
    LowerKeepsLength(lines[0]);
    NoLineCons(lines, TRANSFER_ENCODING);
    NoLineCons(lines, CONTENT_LENGTH);
    var text := lines[0][15..];
    var parsed := ToLongLong(Trim(text));
    if parsed.Some? && 0 < parsed.value <= maximum {
      ScanAfter(lines[1..], parsed.value, maximum);
      NumberRead(text, parsed.value);
      if ScanHeaders(lines, -1, maximum) == Length(n) {
        OnlyFirst(lines, n);
      }
    }
    if SaysLength(lines, n, maximum) {
      var k: nat :| OneLength(lines, k, n);
      assert k == 0;
      NumberSaid(text, n);
      OneAtFirst(lines, n);
    }
  }

  lemma OnlyFirst(lines: seq<Bytes>, n: nat)
    requires lines != [] && StartsWith(lines[0], CONTENT_LENGTH) && NoLine(lines[1..], CONTENT_LENGTH)
    requires SaysNumber(lines[0][15..], n) && n <= INT64_MAXIMUM
    ensures OneLength(lines, 0, n)
  {
    hide StartsWith, SaysNumber;
    assert forall i :: 1 <= i < |lines| ==> lines[i] == lines[1..][i - 1];
  }

  lemma OneAtFirst(lines: seq<Bytes>, n: nat)
    requires OneLength(lines, 0, n)
    ensures NoLine(lines[1..], CONTENT_LENGTH)
  {
    hide StartsWith, SaysNumber;
    assert forall i :: 0 <= i < |lines| - 1 ==> lines[1..][i] == lines[i + 1];
  }

  // ------------------------------------------------------------------- the whole reply

  /**
   A reply is complete exactly when it is not too long, its first line says 200, no later line is a transfer
   encoding, exactly one is a content length, it says how many bytes follow the blank line, and those bytes read
   as JSON; the payload is what they read as.
   */
  lemma CompleteIff(json: Bytes -> Option<string>, bytes: Bytes, maximum: int, b: nat, lines: seq<Bytes>)
    requires FirstBlankLine(bytes, b) && AreLines(bytes[..b], lines)
    ensures Parse(json, bytes, maximum).Complete? <==>
              && b <= 8192 && |bytes| <= maximum + 8192
              && SaysStatus(lines[0], 200) && SaysLength(lines[1..], |bytes| - b - 4, maximum)
              && json(bytes[b + 4..]).Some?
    ensures Parse(json, bytes, maximum).Complete? ==> json(bytes[b + 4..]) == Some(Parse(json, bytes, maximum).payload)
  {
    hide Status, SaysStatus, ScanHeaders, SaysLength, Split;
    BoundaryIff(bytes, b);
    LinesUnique(lines);
    StatusIff(lines[0], 200);
    ScanIff(lines[1..], |bytes| - b - 4, maximum);
  }

  /** Bytes are still awaited exactly while there is no blank line, or the body is shorter than announced. */
  lemma PendingIff(json: Bytes -> Option<string>, bytes: Bytes, maximum: int, b: nat, lines: seq<Bytes>)
    requires FirstBlankLine(bytes, b) && AreLines(bytes[..b], lines)
    ensures Parse(json, bytes, maximum).Pending? <==>
              && b <= 8192 && |bytes| <= maximum + 8192 && SaysStatus(lines[0], 200)
              && exists n :: |bytes| - b - 4 < n && SaysLength(lines[1..], n, maximum)
  {
    hide Status, SaysStatus, ScanHeaders, SaysLength, Split;
    BoundaryIff(bytes, b);
    LinesUnique(lines);
    StatusIff(lines[0], 200);
    var scanned := ScanHeaders(lines[1..], -1, maximum);
    forall n: int
      ensures SaysLength(lines[1..], n, maximum) <==> scanned == Length(n)
    {
      ScanIff(lines[1..], n, maximum);
    }
  }

  /** Two failures of the body: more bytes than announced, and bytes that do not read. */
  lemma BodyFailsIff(json: Bytes -> Option<string>, bytes: Bytes, maximum: int, b: nat, lines: seq<Bytes>)
    requires FirstBlankLine(bytes, b) && AreLines(bytes[..b], lines)
    ensures Parse(json, bytes, maximum) == Failed("control_response_extra_bytes", 200) <==>
              && b <= 8192 && |bytes| <= maximum + 8192 && SaysStatus(lines[0], 200)
              && exists n :: n < |bytes| - b - 4 && SaysLength(lines[1..], n, maximum)
    ensures Parse(json, bytes, maximum) == Failed("control_response_invalid_json", 200) <==>
              && b <= 8192 && |bytes| <= maximum + 8192 && SaysStatus(lines[0], 200)
              && SaysLength(lines[1..], |bytes| - b - 4, maximum) && json(bytes[b + 4..]).None?
  {
    hide Status, SaysStatus, ScanHeaders, SaysLength, Split;
    BoundaryIff(bytes, b);
    LinesUnique(lines);
    StatusIff(lines[0], 200);
    var scanned := ScanHeaders(lines[1..], -1, maximum);
    forall n: int
      ensures SaysLength(lines[1..], n, maximum) <==> scanned == Length(n)
    {
      ScanIff(lines[1..], n, maximum);
    }
    ScanReasons(lines[1..], -1, maximum);
    ReasonsDiffer();
  }

  lemma NoBlankLine(json: Bytes -> Option<string>, bytes: Bytes, maximum: int)
    requires forall i: nat :: !BlankLineAt(bytes, i)
    ensures Parse(json, bytes, maximum)
         == if |bytes| > maximum + 8192 then Failed("control_response_too_large", 0) else Pending
  {
    BoundaryFound(bytes);
  }

  /** The service's own refusal is reported exactly when the first line says another code, and with that code. */
  lemma HttpRejectedIff(json: Bytes -> Option<string>, bytes: Bytes, maximum: int, b: nat, lines: seq<Bytes>, code: int)
    requires FirstBlankLine(bytes, b) && AreLines(bytes[..b], lines)
    ensures Parse(json, bytes, maximum) == Failed("control_http_rejected", code) <==>
              && b <= 8192 && |bytes| <= maximum + 8192
              && 100 <= code <= 599 && code != 200 && SaysStatus(lines[0], code)
  {
    hide Status, SaysStatus, ScanHeaders, Split;
    BoundaryIff(bytes, b);
    LinesUnique(lines);
    StatusIff(lines[0], code);
    ScanReasons(lines[1..], -1, maximum);
    ReasonsDiffer();
  }

  /** The reply is malformed at its first line exactly when that line says no code between 100 and 599. */
  lemma InvalidStatusIff(json: Bytes -> Option<string>, bytes: Bytes, maximum: int, b: nat, lines: seq<Bytes>)
    requires FirstBlankLine(bytes, b) && AreLines(bytes[..b], lines)
    ensures Parse(json, bytes, maximum) == Failed("control_response_invalid_status", 0) <==>
              && b <= 8192 && |bytes| <= maximum + 8192
              && forall code: nat | 100 <= code <= 599 :: !SaysStatus(lines[0], code)
  {
    hide Status, SaysStatus, ScanHeaders, Split;
    BoundaryIff(bytes, b);
    LinesUnique(lines);
    forall code: int
      ensures Status(lines[0]) == Some(code) <==> 100 <= code <= 599 && SaysStatus(lines[0], code)
    {
      StatusIff(lines[0], code);
    }
    ScanReasons(lines[1..], -1, maximum);
    ReasonsDiffer();
  }

  lemma {:induction false} ScanReasons(lines: seq<Bytes>, length: int, maximum: int)
    ensures var r := ScanHeaders(lines, length, maximum);
            r.Rejected? ==>
              || r.reason == "control_response_missing_length" || r.reason == "control_response_invalid_length"
              || r.reason == "control_response_transfer_encoding"
  {
    hide Lower, Trim, ToLongLong;
    if lines != [] {
      LowerKeepsLength(lines[0]);
      ScanReasons(lines[1..], length, maximum);
      if "content-length:" <= Lower(lines[0]) {
        var parsed := ToLongLong(Trim(lines[0][15..]));
        if parsed.Some? { ScanReasons(lines[1..], parsed.value, maximum); }
      }
    }
  }

  lemma ReasonsDiffer()
    ensures forall s :: s in ["control_response_missing_length", "control_response_invalid_length",
                              "control_response_transfer_encoding", "control_response_headers_too_large",
                              "control_response_too_large", "control_response_extra_bytes",
                              "control_response_invalid_json"] ==>
                          s != "control_http_rejected" && s != "control_response_invalid_status"
    ensures "control_http_rejected" != "control_response_invalid_status"
    ensures forall s :: s in ["control_response_missing_length", "control_response_invalid_length",
                              "control_response_transfer_encoding", "control_response_headers_too_large",
                              "control_response_too_large", "control_http_rejected",
                              "control_response_invalid_status"] ==>
                          s != "control_response_extra_bytes" && s != "control_response_invalid_json"
    ensures "control_response_extra_bytes" != "control_response_invalid_json"
  {
    assert "control_response_extra_bytes"[17] == 'e' && "control_response_invalid_json"[17] == 'i';
    assert |"control_response_extra_bytes"| == 28 && |"control_response_invalid_json"| == 29;
    assert |"control_http_rejected"| == 21 && |"control_response_invalid_status"| == 31;
    assert "control_response_missing_length"[17] == 'm' && "control_response_invalid_status"[17] == 'i';
    assert "control_response_invalid_length"[25] == 'l' && "control_response_invalid_status"[25] == 's';
  }
}
