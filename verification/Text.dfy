/** The string operations that flow descriptions are printed and parsed with. */
module Text {
  import opened Rules
  import opened Sdf

  predicate IsSpace(c: char) {
    c == ' ' || c == '\t' || c == '\n' || c == '\r' || c as int == 11 || c as int == 12
  }

  /** Nonempty and without white space. */
  predicate IsWord(s: string) {
    s != "" && forall i | 0 <= i < |s| :: !IsSpace(s[i])
  }

  function TrimLeft(s: string): string {
    if s != "" && IsSpace(s[0]) then TrimLeft(s[1..]) else s
  }

  function TrimRight(s: string): string {
    if s != "" && IsSpace(s[|s| - 1]) then TrimRight(s[..|s| - 1]) else s
  }

  function TrimSpace(s: string): string { TrimRight(TrimLeft(s)) }

  function WordLength(s: string): (n: nat)
    ensures n <= |s|
    ensures s != "" && !IsSpace(s[0]) ==> n > 0
  {
    if s == "" || IsSpace(s[0]) then 0 else 1 + WordLength(s[1..])
  }

  /** The words of a string. */
  function Fields(s: string): seq<string>
    decreases |s|
  {
    if s == "" then []
    else if IsSpace(s[0]) then Fields(s[1..])
    else [s[..WordLength(s)]] + Fields(s[WordLength(s)..])
  }

  function Join(words: seq<string>): string {
    if words == [] then ""
    else if |words| == 1 then words[0]
    else words[0] + " " + Join(words[1..])
  }

  /** The pieces between occurrences of a separator. */
  function Split(s: string, sep: char): (parts: seq<string>)
    ensures parts != []
  {
    if s == "" then [""]
    else if s[0] == sep then [""] + Split(s[1..], sep)
    else
      var rest := Split(s[1..], sep);
      [[s[0]] + rest[0]] + rest[1..]
  }

  function Decimal(n: nat): (s: string)
    ensures s != ""
  {
    if n < 10 then [DigitChar(n)] else Decimal(n / 10) + [DigitChar(n % 10)]
  }

  function DigitChar(n: nat): char
    requires n < 10
  {
    ('0' as int + n) as char
  }

  predicate AllDigits(s: string) {
    forall i | 0 <= i < |s| :: IsDigit(s[i])
  }

  lemma {:induction false} WordLengthOf(w: string, rest: string)
    requires forall i | 0 <= i < |w| :: !IsSpace(w[i])
    requires rest == "" || IsSpace(rest[0])
    ensures WordLength(w + rest) == |w|
  {
    if w == "" {
      assert w + rest == rest;
    } else {
      assert (w + rest)[1..] == w[1..] + rest;
      WordLengthOf(w[1..], rest);
    }
  }

  /** Splitting joined words gives the words back. */
  lemma {:induction false} FieldsOfJoin(words: seq<string>)
    requires forall i | 0 <= i < |words| :: IsWord(words[i])
    ensures Fields(Join(words)) == words
  {
    if words != [] {
      var w := words[0];
      var rest := if |words| == 1 then "" else " " + Join(words[1..]);
      assert Join(words) == w + rest;
      WordLengthOf(w, rest);
      assert (w + rest)[..|w|] == w && (w + rest)[|w|..] == rest;
      FieldsOfJoin(words[1..]);
      if |words| > 1 { assert rest[1..] == Join(words[1..]); }
      assert words == [w] + words[1..];
    }
  }

  lemma {:induction false} JoinIsTrimmed(words: seq<string>)
    requires words != [] && forall i | 0 <= i < |words| :: IsWord(words[i])
    ensures var s := Join(words); s != "" && !IsSpace(s[0]) && !IsSpace(s[|s| - 1]) && TrimSpace(s) == s
  {
    if |words| > 1 {
      JoinIsTrimmed(words[1..]);
      var tail := Join(words[1..]);
      var s := Join(words);
      assert s[|s| - 1] == tail[|tail| - 1];
    }
  }

  /** Parsing a printed number gives it back. */
  lemma {:induction false} ParseDecimal(n: nat, max: nat)
    requires n <= max
    ensures ParseUint(Decimal(n), max) == Some(n)
    ensures AllDigits(Decimal(n))
  {
    if n >= 10 {
      ParseDecimal(n / 10, max);
      var s := Decimal(n);
      assert s[..|s| - 1] == Decimal(n / 10);
    }
  }

  lemma {:induction false} ParsedDigits(s: string, max: nat)
    requires ParseUint(s, max).Some?
    ensures s != "" && AllDigits(s)
  {
    if |s| > 1 { ParsedDigits(s[..|s| - 1], max); }
  }

  lemma {:induction false} DigitsAreAWord(s: string)
    requires s != "" && AllDigits(s)
    ensures IsWord(s) && ToLower(s) == s
    ensures ',' !in s && '-' !in s && '/' !in s && TrimSpace(s) == s
  {
    assert ToLower(s) == s by {
      forall i | 0 <= i < |s| ensures ToLower(s)[i] == s[i] { assert IsDigit(s[i]); }
    }
    assert IsDigit(s[0]) && IsDigit(s[|s| - 1]);
  }

  lemma {:induction false} SplitWithout(s: string, sep: char)
    requires sep !in s
    ensures Split(s, sep) == [s]
  {
    if s != "" {
      assert s[0] in s && s == [s[0]] + s[1..];
      SplitWithout(s[1..], sep);
    }
  }

  /** A string whose pieces are all digits holds nothing but digits and separators. */
  lemma {:induction false} SplitDigits(s: string, sep: char)
    requires forall i | 0 <= i < |Split(s, sep)| :: AllDigits(Split(s, sep)[i])
    ensures forall i | 0 <= i < |s| :: s[i] == sep || IsDigit(s[i])
  {
    if s != "" {
      var rest := Split(s[1..], sep);
      var all := Split(s, sep);
      if s[0] == sep {
        assert forall i | 0 <= i < |rest| :: rest[i] == all[i + 1];
      } else {
        assert all[0] == [s[0]] + rest[0] && IsDigit(all[0][0]);
        assert AllDigits(rest[0]) by {
          forall i | 0 <= i < |rest[0]| ensures IsDigit(rest[0][i]) { assert rest[0][i] == all[0][i + 1]; }
        }
        forall i | 0 <= i < |rest| ensures AllDigits(rest[i]) {
          if i > 0 { assert rest[i] == all[i]; }
        }
      }
      SplitDigits(s[1..], sep);
      assert forall i | 1 <= i < |s| :: s[i] == s[1..][i - 1];
    }
  }
}
