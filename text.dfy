/** The string operations of the C++ standard library that the apps rely
    on, over strings as sequences of characters (bytes are characters
    here): `substr`, splitting a line into whitespace-separated tokens the
    way `std::istream_iterator<std::string>` does, and decimal rendering of
    indices. */
module Text {

  /** `isspace` in the C locale: space, tab, newline, vertical tab, form
      feed and carriage return. */
  predicate IsSpace(c: char) {
    c == ' ' || '\t' <= c <= '\r'
  }

  /** A token as the stream extractor produces it: non-empty, no whitespace. */
  predicate IsWord(w: string) {
    |w| > 0 && forall i :: 0 <= i < |w| ==> !IsSpace(w[i])
  }

  /** `s.substr(pos, n)`: at most `n` characters from `pos`; a `pos` past
      the end throws, which callers handle before calling this. */
  function Substr(s: string, pos: nat, n: nat): (r: string)
    requires pos <= |s|
    ensures |r| == if pos + n <= |s| then n else |s| - pos
    ensures forall i :: 0 <= i < |r| ==> r[i] == s[pos + i]
  {
    if pos + n <= |s| then s[pos..pos + n] else s[pos..]
  }

  /** The length of the run of non-whitespace characters that starts `s`. */
  function WordLength(s: string): (n: nat)
    ensures n <= |s|
    ensures forall i :: 0 <= i < n ==> !IsSpace(s[i])
    ensures n < |s| ==> IsSpace(s[n])
  {
    if s == [] || IsSpace(s[0]) then 0 else 1 + WordLength(s[1..])
  }

  /** A run of whitespace (possibly empty). */
  predicate IsBlank(s: string) {
    forall i :: 0 <= i < |s| ==> IsSpace(s[i])
  }

  /** The tokens `std::istream_iterator<std::string>` extracts from a line:
      maximal runs of non-whitespace characters, in order. */
  function Tokens(s: string): (ts: seq<string>)
    ensures forall i :: 0 <= i < |ts| ==> IsWord(ts[i])
    ensures ts == [] <==> IsBlank(s)
    decreases |s|
  {
    if s == [] then []
    else if IsSpace(s[0]) then
      assert IsBlank(s) <==> IsBlank(s[1..]) by {
        if IsBlank(s[1..]) {
          forall i | 0 <= i < |s| ensures IsSpace(s[i]) {
            if i > 0 { assert s[i] == s[1..][i - 1]; }
          }
        }
      }
      Tokens(s[1..])
    else
      var n := WordLength(s);
      [s[..n]] + Tokens(s[n..])
  }

  /** Fields laid out on a line: field `i` is followed by the whitespace
      run `gaps[i]`, and every run between two fields is non-empty. */
  predicate IsLayout(ws: seq<string>, gaps: seq<string>) {
    |gaps| == |ws| &&
    (forall i :: 0 <= i < |ws| ==> IsWord(ws[i]) && IsBlank(gaps[i])) &&
    (forall i :: 0 <= i < |ws| - 1 ==> |gaps[i]| > 0)
  }

  /** The line made of the fields and the runs that follow them. */
  function Joined(ws: seq<string>, gaps: seq<string>): string
    requires |gaps| == |ws|
  {
    if ws == [] then [] else ws[0] + gaps[0] + Joined(ws[1..], gaps[1..])
  }

  /** A laid-out line is at least one character per field long. */
  lemma {:induction false} JoinedLength(ws: seq<string>, gaps: seq<string>)
    requires IsLayout(ws, gaps)
    ensures |Joined(ws, gaps)| >= |ws|
  {
    if ws != [] {
      LayoutTail(ws, gaps);
      JoinedLength(ws[1..], gaps[1..]);
    }
  }

  /** Leading whitespace yields no token. */
  lemma {:induction false} TokensOfBlank(sp: string, s: string)
    requires IsBlank(sp)
    ensures Tokens(sp + s) == Tokens(s)
    decreases |sp|
  {
    if sp != [] {
      assert (sp + s)[0] == sp[0];
      assert (sp + s)[1..] == sp[1..] + s;
      TokensOfBlank(sp[1..], s);
    } else {
      assert sp + s == s;
    }
  }

  /** A word followed by whitespace or by nothing is read whole. */
  lemma {:induction false} WordLengthOfWord(w: string, rest: string)
    requires IsWord(w) && (rest == [] || IsSpace(rest[0]))
    ensures WordLength(w + rest) == |w|
    decreases |w|
  {
    assert (w + rest)[0] == w[0];
    if |w| > 1 {
      assert (w + rest)[1..] == w[1..] + rest;
      WordLengthOfWord(w[1..], rest);
    } else {
      assert (w + rest)[1..] == rest;
    }
  }

  /** A word followed by whitespace or by nothing is the first token. */
  lemma TokensOfWord(w: string, rest: string)
    requires IsWord(w) && (rest == [] || IsSpace(rest[0]))
    ensures Tokens(w + rest) == [w] + Tokens(rest)
  {
    WordLengthOfWord(w, rest);
    assert (w + rest)[0] == w[0];
    assert (w + rest)[..|w|] == w;
    assert (w + rest)[|w|..] == rest;
  }

  /** Dropping the first field keeps a layout. */
  lemma LayoutTail(ws: seq<string>, gaps: seq<string>)
    requires IsLayout(ws, gaps) && ws != []
    ensures IsLayout(ws[1..], gaps[1..])
    ensures |ws| > 1 ==> |gaps[0]| > 0
  {
    forall i | 0 <= i < |ws| - 1
      ensures ws[1..][i] == ws[i + 1] && gaps[1..][i] == gaps[i + 1]
    {
    }
  }

  /** Tokenizing a laid-out line, whatever whitespace precedes, separates
      and follows the fields, gives back exactly the fields in order. */
  lemma {:induction false} TokensOfLayout(lead: string, ws: seq<string>, gaps: seq<string>)
    requires IsBlank(lead) && IsLayout(ws, gaps)
    ensures Tokens(lead + Joined(ws, gaps)) == ws
    decreases |ws|
  {
    TokensOfBlank(lead, Joined(ws, gaps));
    if ws != [] {
      var gap, rest := gaps[0], Joined(ws[1..], gaps[1..]);
      LayoutTail(ws, gaps);
      if |ws| > 1 {
        JoinedLength(ws[1..], gaps[1..]);
      }
      assert Joined(ws, gaps) == ws[0] + (gap + rest);
      TokensOfWord(ws[0], gap + rest);
      TokensOfLayout(gap, ws[1..], gaps[1..]);
    }
  }

  /** The decimal digit character for `d`. */
  function DigitChar(d: nat): (c: char)
    requires d < 10
    ensures '0' <= c <= '9'
  {
    "0123456789"[d]
  }

  /** The value of a decimal digit character. */
  function DigitValue(c: char): (d: nat)
    requires '0' <= c <= '9'
    ensures d < 10
  {
    (c - '0') as nat
  }

  /** Decimal rendering of a natural number, without leading zeros. */
  function Decimal(n: nat): (s: string)
    ensures |s| >= 1
    ensures forall i :: 0 <= i < |s| ==> '0' <= s[i] <= '9'
  {
    if n < 10 then [DigitChar(n)] else Decimal(n / 10) + [DigitChar(n % 10)]
  }

  /** The value of a string of decimal digits (leading zeros allowed). */
  function DecimalValue(s: string): nat
    requires forall i :: 0 <= i < |s| ==> '0' <= s[i] <= '9'
  {
    if s == [] then 0 else DecimalValue(s[..|s| - 1]) * 10 + DigitValue(s[|s| - 1])
  }

  lemma DigitRoundTrip(d: nat)
    requires d < 10
    ensures DigitValue(DigitChar(d)) == d
  {
  }

  /** Reading back a decimal rendering gives the number. */
  lemma {:induction false} DecimalRoundTrip(n: nat)
    ensures DecimalValue(Decimal(n)) == n
  {
    if n < 10 {
      DigitRoundTrip(n);
      assert Decimal(n)[..0] == [];
    } else {
      var s := Decimal(n);
      assert s[..|s| - 1] == Decimal(n / 10);
      DecimalRoundTrip(n / 10);
      DigitRoundTrip(n % 10);
    }
  }
}
