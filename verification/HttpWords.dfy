// What one line is parsed to, with the white space written out.
module HttpWords {
  import opened Common
  import opened HttpParser
  import opened HttpRoundTrip

  const WHITE := {' ', '\t', '\n', '\r', 11 as char, 12 as char}

  predicate AllWhite(s: string) {
    forall i :: 0 <= i < |s| ==> s[i] in WHITE
  }

  predicate NoWhite(s: string) {
    forall i :: 0 <= i < |s| ==> s[i] !in WHITE
  }

  // The next character, if there is one, is white.
  predicate Apart(s: string) {
    s == "" || s[0] in WHITE
  }

  lemma {:induction false} SkipsWhite(lead: string, rest: string)
    requires AllWhite(lead) && (rest == "" || rest[0] !in WHITE)
    ensures SkipSpaces(lead + rest) == rest
    decreases lead
  {
    if lead == "" {
      assert lead + rest == rest;
    } else {
      assert (lead + rest)[1..] == lead[1..] + rest;
      SkipsWhite(lead[1..], rest);
    }
  }

  lemma {:induction false} WordIs(word: string, rest: string)
    requires NoWhite(word) && Apart(rest)
    ensures WordLength(word + rest) == |word|
    decreases word
  {
    if word == "" {
      assert word + rest == rest;
    } else {
      assert (word + rest)[1..] == word[1..] + rest;
      WordIs(word[1..], rest);
    }
  }

  // One extraction: leading white space, a word, the rest.
  lemma {:induction false} Extracts(lead: string, word: string, rest: string, good: bool)
    requires AllWhite(lead) && NoWhite(word) && Apart(rest) && (word == "" ==> rest == "")
    ensures ReadWord(Stream(lead + (word + rest), good)) ==
            if !good || word == "" then (None, Stream("", false)) else (Some(word), Stream(rest, rest != ""))
  {
    SkipsWhite(lead, word + rest);
    WordIs(word, rest);
    FrontAndBack(word, rest);
  }

  // A header line: the first word loses its last character, whatever it is,
  // and the rest its first; without a word or without a rest the line is
  // ignored, and so is a name that is there already.
  lemma {:induction false} HeaderLineMeans(f: Fields, lead: string, word: string, rest: string)
    requires AllWhite(lead) && NoWhite(word) && Apart(rest) && (word == "" ==> rest == "")
    requires '\n' !in rest && '\r' !in rest
    ensures ParseHeader(f, lead + (word + rest)) ==
            if word == "" || rest == "" || word[..|word| - 1] in f.headers then f
            else f.(headers := f.headers[word[..|word| - 1] := rest[1..]])
  {
    Extracts(lead, word, rest, true);
    LineIsAll(rest);
  }

  // Every line is of that form, so the lines ignored are known.
  lemma {:induction false} LineHasParts(line: string) returns (lead: string, word: string, rest: string)
    ensures line == lead + (word + rest)
    ensures AllWhite(lead) && NoWhite(word) && Apart(rest) && (word == "" ==> rest == "")
    decreases line
  {
    if line != "" && line[0] in WHITE {
      lead, word, rest := LineHasParts(line[1..]);
      assert line == [line[0]] + line[1..];
      ThreeParts([line[0]], lead, word + rest);
      lead := [line[0]] + lead;
    } else {
      lead := "";
      word, rest := FirstWord(line);
      NothingBefore(word + rest);
    }
  }

  lemma {:induction false} FirstWord(line: string) returns (word: string, rest: string)
    requires line == "" || line[0] !in WHITE
    ensures line == word + rest && NoWhite(word) && Apart(rest) && (word == "" ==> rest == "")
  {
    var n := WordLength(line);
    word, rest := line[..n], line[n..];
    assert NoSpace(word);
  }

  // A request line gives its first three words to method, query and version;
  // a word that is missing leaves its field as it was.
  lemma {:induction false} RequestLineMeans(
      f: Fields, s1: string, a: string, s2: string, b: string, s3: string, c: string, rest: string)
    requires AllWhite(s1) && AllWhite(s2) && AllWhite(s3) && NoWhite(a) && NoWhite(b) && NoWhite(c) && Apart(rest)
    requires a != "" && (b != "" ==> s2 != "") && (c != "" ==> s3 != "")
    requires (b == "" ==> s3 == "" && c == "") && (c == "" ==> rest == "")
    ensures ParseRequestLine(f, s1 + (a + (s2 + (b + (s3 + (c + rest)))))) ==
            f.(verb := a, action := if b == "" then f.action else b, version := if c == "" then f.version else c)
  {
    var r3 := s3 + (c + rest);
    var r2 := s2 + (b + r3);
    assert Apart(r3) && Apart(r2);
    Extracts(s1, a, r2, true);
    Extracts(s2, b, r3, r2 != "");
    Extracts(s3, c, rest, b != "" && r3 != "");
  }

  const DIGITS := {'0', '1', '2', '3', '4', '5', '6', '7', '8', '9'}

  predicate Digits(s: string) {
    s != "" && forall i :: 0 <= i < |s| ==> s[i] in DIGITS
  }

  lemma {:induction false} DigitsAre(digits: string, rest: string)
    requires (forall i :: 0 <= i < |digits| ==> digits[i] in DIGITS) && (rest == "" || rest[0] !in DIGITS)
    ensures AllDigits(digits) && DigitRun(digits + rest) == |digits|
    decreases digits
  {
    if digits == "" {
      assert digits + rest == rest;
    } else {
      assert (digits + rest)[1..] == digits[1..] + rest;
      DigitsAre(digits[1..], rest);
      assert digits == [digits[0]] + digits[1..];
    }
  }

  predicate Sign(sign: string) {
    sign == "" || sign == "+" || sign == "-"
  }

  lemma {:induction false} ScansNumber(sign: string, digits: string, rest: string)
    requires Sign(sign) && Digits(digits) && (rest == "" || rest[0] !in DIGITS)
    ensures AllDigits(digits)
    ensures ScanInt(sign + (digits + rest)) ==
            (Some(if sign == "-" then -DecimalValue(digits) else DecimalValue(digits)), rest)
  {
    var s := sign + (digits + rest);
    DigitsAre(digits, rest);
    FrontAndBack(digits, rest);
    assert s[0] == if sign == "" then digits[0] else sign[0];
    assert Unsigned(s) == digits + rest by {
      FrontAndBack(sign, digits + rest);
      NothingBefore(digits + rest);
    }
  }

  // A status line: the version word, a number, and as status all the rest.  A
  // number that does not fit into 32 bits is clamped and fails the stream, so
  // the status stays as it was, and it does when nothing follows the number.
  lemma {:induction false} StatusLineMeans(
      f: Fields, s1: string, version: string, s2: string, sign: string, digits: string, rest: string)
    requires AllWhite(s1) && AllWhite(s2) && s2 != "" && NoWhite(version) && version != ""
    requires Sign(sign) && Digits(digits) && (rest == "" || rest[0] !in DIGITS) && '\n' !in rest && '\r' !in rest
    ensures AllDigits(digits)
    ensures var n := if sign == "-" then -DecimalValue(digits) else DecimalValue(digits);
            var fits := -2147483648 <= n <= 2147483647;
            ParseStatusLine(f, s1 + (version + (s2 + (sign + (digits + rest))))) ==
            f.(version := version,
               code := if fits then n else if n < 0 then -2147483648 else 2147483647,
               status := if fits && rest != "" then rest else f.status)
  {
    Extracts(s1, version, s2 + (sign + (digits + rest)), true);
    ReadsNumber(s2, sign, digits, rest);
    LineIsAll(rest);
  }

  lemma {:induction false} ReadsNumber(lead: string, sign: string, digits: string, rest: string)
    requires AllWhite(lead) && Sign(sign) && Digits(digits) && (rest == "" || rest[0] !in DIGITS)
    ensures AllDigits(digits)
    ensures var n := if sign == "-" then -DecimalValue(digits) else DecimalValue(digits);
            ReadInt(Stream(lead + (sign + (digits + rest)), true)) ==
            (Some(Clamped(n)), Stream(rest, rest != "" && -2147483648 <= n <= 2147483647))
  {
    var number := sign + (digits + rest);
    assert number[0] == if sign == "" then digits[0] else sign[0];
    SkipsWhite(lead, number);
    ScansNumber(sign, digits, rest);
  }

  // Without a number, code and status stay as they were.
  lemma {:induction false} NoCode(f: Fields, s1: string, version: string, s2: string, rest: string)
    requires AllWhite(s1) && AllWhite(s2) && NoWhite(version) && version != "" && (rest != "" ==> s2 != "")
    requires rest == "" || (rest[0] !in WHITE && rest[0] !in DIGITS && rest[0] != '+' && rest[0] != '-')
    ensures ParseStatusLine(f, s1 + (version + (s2 + rest))) == f.(version := version)
  {
    assert Apart(s2 + rest) by {
      if s2 == "" {
        assert s2 + rest == "";
      }
    }
    Extracts(s1, version, s2 + rest, true);
    SkipsWhite(s2, rest);
    assert DigitRun(rest) == 0;
  }
}
