/** Strings taken apart and put together, and the decimal numbers in them. */
module Text {
  import opened Options

  /** strings.Cut at the first `mark`. */
  function Cut(text: string, mark: char): (r: (string, Option<string>))
    ensures mark !in r.0
    ensures r.1.None? ==> r.0 == text
    ensures r.1.Some? ==> r.0 + [mark] + r.1.value == text
  {
    if text == "" then ("", None)
    else if text[0] == mark then ("", Some(text[1..]))
    else var rest := Cut(text[1..], mark); ([text[0]] + rest.0, rest.1)
  }

  /** strings.Split at every `mark`; never empty. */
  function Split(text: string, mark: char): (parts: seq<string>)
    ensures |parts| >= 1
    ensures forall part <- parts :: mark !in part
    decreases |text|
  {
    var cut := Cut(text, mark);
    if cut.1.None? then [cut.0]
    else assert |cut.0 + [mark] + cut.1.value| == |text|; [cut.0] + Split(cut.1.value, mark)
  }

  function Join(parts: seq<string>, mark: char): string
    requires |parts| >= 1
  {
    if |parts| == 1 then parts[0] else parts[0] + [mark] + Join(parts[1..], mark)
  }

  /** Splitting is the only way to take a text apart at its marks. */
  lemma {:induction false} SplitOfJoin(parts: seq<string>, mark: char)
    requires |parts| >= 1 && forall i | 0 <= i < |parts| :: mark !in parts[i]
    ensures Split(Join(parts, mark), mark) == parts
  {
    if |parts| == 1 {
      CutOfJoin(parts[0], mark, None);
    } else {
      var rest := Join(parts[1..], mark);
      CutOfJoin(parts[0], mark, Some(rest));
      SplitOfJoin(parts[1..], mark);
      assert Join(parts, mark) == parts[0] + [mark] + rest;
    }
  }

  lemma {:induction false} CutOfJoin(before: string, mark: char, after: Option<string>)
    requires mark !in before
    ensures Cut(if after.Some? then before + [mark] + after.value else before, mark) == (before, after)
  {
    if before == "" {
      if after.Some? {
        assert ([mark] + after.value)[1..] == after.value;
        assert before + [mark] + after.value == [mark] + after.value;
      }
    } else {
      CutOfJoin(before[1..], mark, after);
      assert [before[0]] + before[1..] == before;
      if after.Some? { assert (before + [mark] + after.value)[1..] == before[1..] + [mark] + after.value; }
    }
  }

  predicate Digits(text: string) {
    text != "" && forall i | 0 <= i < |text| :: '0' <= text[i] <= '9'
  }

  function Number(text: string): nat
    requires Digits(text)
  {
    var low: nat := text[|text| - 1] as int - '0' as int;
    if |text| == 1 then low
    else Number(text[..|text| - 1]) * 10 + low
  }

  // ---------------------------------------------------------- decimal numbers

  function DigitOf(d: nat): char
    requires d < 10
  {
    (d + '0' as int) as char
  }

  function Decimal(n: nat): (text: string)
    ensures Digits(text)
  {
    if n < 10 then [DigitOf(n)] else Decimal(n / 10) + [DigitOf(n % 10)]
  }

  lemma {:induction false} DecimalNumber(n: nat)
    ensures Number(Decimal(n)) == n
  {
    if n < 10 {
    } else {
      DecimalNumber(n / 10);
      assert Decimal(n)[..|Decimal(n)| - 1] == Decimal(n / 10);
    }
  }

  const MAX_INT64 := 0x7fff_ffff_ffff_ffff

  /** strconv.ParseInt in base 10: an optional sign, digits, and the 64-bit range. */
  function ParseInt(text: string): Option<int> {
    var signed := text != "" && (text[0] == '+' || text[0] == '-');
    var digits := if signed then text[1..] else text;
    if !Digits(digits) then None
    else
      var size: int := Number(digits);
      var n := if signed && text[0] == '-' then -size else size;
      if -MAX_INT64 - 1 <= n <= MAX_INT64 then Some(n) else None
  }

  function FormatInt(n: int): string {
    if n < 0 then "-" + Decimal(-n) else Decimal(n)
  }

  lemma ParseOfFormat(n: int)
    requires -MAX_INT64 - 1 <= n <= MAX_INT64
    ensures ParseInt(FormatInt(n)) == Some(n)
  {
    hide Decimal, Number, Digits;
    if n < 0 {
      DecimalNumber(-n);
      assert FormatInt(n)[0] == '-' && FormatInt(n)[1..] == Decimal(-n);
    } else {
      DecimalNumber(n);
      FirstDigit(Decimal(n));
      assert FormatInt(n) == Decimal(n);
    }
  }

  lemma FirstDigit(text: string)
    requires Digits(text)
    ensures text != "" && '0' <= text[0] <= '9'
  {
  }

  // -------------------------------------------------------------------- words

  /** unicode.IsSpace. */
  predicate Space(c: char) {
    c in {' ', '\t', '\n', '\U{000B}', '\U{000C}', '\r', '\U{0085}', '\U{00A0}', '\U{1680}', '\U{2028}', '\U{2029}',
        '\U{202F}', '\U{205F}', '\U{3000}'}
    || '\U{2000}' <= c <= '\U{200A}'
  }

  /** How many characters stand before the first space. */
  function Run(text: string): (n: nat)
    ensures n <= |text|
    ensures forall i | 0 <= i < n :: !Space(text[i])
    ensures n < |text| ==> Space(text[n])
  {
    if text == "" || Space(text[0]) then 0 else 1 + Run(text[1..])
  }

  /** strings.Fields. */
  function Words(text: string): (words: seq<string>)
    ensures forall w <- words :: w != "" && forall i | 0 <= i < |w| :: !Space(w[i])
    decreases |text|
  {
    if text == "" then []
    else if Space(text[0]) then Words(text[1..])
    else [text[..Run(text)]] + Words(text[Run(text)..])
  }

  /** Words written with a space between them and a newline at the end. */
  function Line(words: seq<string>): string
    requires |words| >= 1
  {
    if |words| == 1 then words[0] + "\n" else words[0] + " " + Line(words[1..])
  }

  predicate Word(text: string) {
    text != "" && forall i | 0 <= i < |text| :: !Space(text[i])
  }

  lemma {:induction false} RunOfWord(word: string, rest: string)
    requires (forall i | 0 <= i < |word| :: !Space(word[i])) && (rest == "" || Space(rest[0]))
    ensures Run(word + rest) == |word|
  {
    if word == "" {
      assert word + rest == rest;
    } else {
      RunOfWord(word[1..], rest);
      assert (word + rest)[1..] == word[1..] + rest;
    }
  }

  lemma FirstWord(word: string, rest: string)
    requires Word(word) && (rest == "" || Space(rest[0]))
    ensures Words(word + rest) == [word] + Words(rest)
  {
    RunOfWord(word, rest);
    assert (word + rest)[..|word|] == word && (word + rest)[|word|..] == rest;
  }

  lemma SpaceSkipped(c: char, rest: string)
    requires Space(c)
    ensures Words([c] + rest) == Words(rest)
  {
    assert ([c] + rest)[1..] == rest;
  }

  lemma NoWords()
    ensures Words("") == []
  {
  }

  lemma {:induction false} WordsOfLine(words: seq<string>)
    requires |words| >= 1 && forall i | 0 <= i < |words| :: Word(words[i])
    ensures Words(Line(words)) == words
  {
    hide Words, Word, Run;
    if |words| == 1 {
      FirstWord(words[0], "\n");
      SpaceSkipped('\n', "");
      assert ['\n'] + "" == "\n";
      NoWords();
    } else {
      WordsOfLine(words[1..]);
      var rest := " " + Line(words[1..]);
      FirstWord(words[0], rest);
      SpaceSkipped(' ', Line(words[1..]));
      assert rest == [' '] + Line(words[1..]);
      assert words[0] + " " + Line(words[1..]) == words[0] + rest;
    }
  }
}
