/** The lexical scanner.  The character stream is the text `input` and a
    position in it: reading a character advances the position by one, and at
    the end of the text a read returns WEOF and leaves the position alone.
    Pushing a character back (ungetwc) or seeking back (fseek) is a smaller
    position. */
module Scanner {

  /** What a lexer accumulated, and the stream position after it. */
  datatype Lexeme = Lexeme(text: string, next: nat)

  /** Whether a keyword matched, and the stream position after the attempt. */
  datatype Probe = Probe(matched: bool, next: nat)

  /** The characters the reader takes as part of a number (iswdigit, '.', '-'). */
  predicate IsNumberChar(c: char)
  {
    '0' <= c <= '9' || c == '.' || c == '-'
  }

  /** The keyword kw is the text at p, compared character by character. */
  predicate KeywordAt(input: string, p: nat, kw: string)
    decreases |kw|
  {
    p + |kw| <= |input| && (kw == [] || (input[p] == kw[0] && KeywordAt(input, p + 1, kw[1..])))
  }

  /** The character-by-character comparison agrees with comparing the slice. */
  lemma {:induction false} KeywordAtSlice(input: string, p: nat, kw: string)
    ensures KeywordAt(input, p, kw) <==> p + |kw| <= |input| && input[p..p + |kw|] == kw
    decreases |kw|
  {
    if kw != [] && p + |kw| <= |input| {
      KeywordAtSlice(input, p + 1, kw[1..]);
      assert input[p..p + |kw|] == [input[p]] + input[p + 1..p + 1 + |kw[1..]|];
      assert kw == [kw[0]] + kw[1..];
    }
  }

  /** The outcome of matchSequence: the keyword matches when it is the text
      at p.  Because the loop reads a character before it tests for the end
      of the keyword, a successful match also consumes the character after
      the keyword, when there is one.  A failed match leaves the stream where
      it was. */
  function Matches(input: string, p: nat, kw: string): (r: Probe)
    requires p <= |input|
    ensures r.next <= |input|
    ensures r.matched ==> p + |kw| <= r.next <= p + |kw| + 1
    ensures !r.matched ==> r.next == p
  {
    if KeywordAt(input, p, kw)
    then Probe(true, if p + |kw| < |input| then p + |kw| + 1 else p + |kw|)
    else Probe(false, p)
  }

  /** A keyword whose first character differs from the next character of
      the stream does not match, and nothing is consumed. */
  lemma MismatchOnFirst(input: string, p: nat, kw: string)
    requires p < |input| && |kw| >= 1 && input[p] != kw[0]
    ensures Matches(input, p, kw) == Probe(false, p)
  {
  }

  /** matchSequence: compares the keyword with the characters read from p;
      on a mismatch, or WEOF before the keyword ends, it seeks back to p. */
  method MatchSequence(input: string, p: nat, kw: string) returns (matched: bool, q: nat)
    requires p <= |input|
    ensures Probe(matched, q) == Matches(input, p, kw)
    ensures !matched ==> q == p
    ensures matched ==> input[p..p + |kw|] == kw && q >= p + |kw|
  {
    var startPos := p;
    var index := 0;
    q := p;
    while q < |input|
      invariant p <= q <= |input| && index <= |kw|
      invariant q == p + index
      invariant input[p..q] == kw[..index]
      decreases |input| - q
    {
      var wchar := input[q];
      q := q + 1;
      if index == |kw| {
        break;
      }
      if wchar != kw[index] {
        assert input[p..q][index] != kw[..index + 1][index];
        KeywordAtSlice(input, p, kw);
        q := startPos;
        return false, q;
      }
      assert input[p..q] == input[p..q - 1] + [wchar];
      index := index + 1;
    }
    KeywordAtSlice(input, p, kw);
    if index == |kw| {
      matched := true;
    } else {
      matched := false;
      q := startPos;
    }
  }

  /** The text of a string literal from p: every character up to the next
      '"' or the end of the text, with no escapes; the closing quote is
      consumed when there is one. */
  function StringBody(input: string, p: nat): (r: Lexeme)
    requires p <= |input|
    ensures p <= r.next <= |input| && (p < |input| ==> p < r.next)
    decreases |input| - p
  {
    if p == |input| then Lexeme([], p)
    else if input[p] == '"' then Lexeme([], p + 1)
    else
      var rest := StringBody(input, p + 1);
      Lexeme([input[p]] + rest.text, rest.next)
  }

  /** The string literal is the text up to the first '"' (a backslash is an
      ordinary character); the quote is consumed, and at the end of the text
      the literal is the rest of it. */
  lemma {:induction false} StringBodyStops(input: string, p: nat)
    requires p <= |input|
    ensures var r := StringBody(input, p);
            && p + |r.text| <= |input| && input[p..p + |r.text|] == r.text
            && (forall i | 0 <= i < |r.text| :: r.text[i] != '"')
            && if p + |r.text| == |input| then r.next == |input|
               else input[p + |r.text|] == '"' && r.next == p + |r.text| + 1
    decreases |input| - p
  {
    if p < |input| && input[p] != '"' {
      StringBodyStops(input, p + 1);
      var rest := StringBody(input, p + 1);
      assert input[p..p + 1 + |rest.text|] == [input[p]] + input[p + 1..p + 1 + |rest.text|];
    }
  }

  /** wjson_parse_value_string (and the key loop of wjson_parse_key):
      accumulate characters until '"' or WEOF. */
  method ScanString(input: string, p: nat) returns (text: string, q: nat)
    requires p <= |input|
    ensures Lexeme(text, q) == StringBody(input, p)
  {
    text := [];
    q := p;
    while q < |input| && input[q] != '"'
      invariant p <= q <= |input|
      invariant StringBody(input, p) == Lexeme(text + StringBody(input, q).text, StringBody(input, q).next)
      decreases |input| - q
    {
      assert StringBody(input, q).text == [input[q]] + StringBody(input, q + 1).text;
      text := text + [input[q]];
      q := q + 1;
    }
    if q < |input| {
      q := q + 1;
    }
  }

  /** The rest of a number after its first character: the longest run of
      digits, '.' and '-' from p.  The character that ends the run is read
      and not pushed back, so it is consumed too. */
  function NumberTail(input: string, p: nat): (r: Lexeme)
    requires p <= |input|
    ensures p <= r.next <= |input| && (p < |input| ==> p < r.next)
    decreases |input| - p
  {
    if p == |input| then Lexeme([], p)
    else if !IsNumberChar(input[p]) then Lexeme([], p + 1)
    else
      var rest := NumberTail(input, p + 1);
      Lexeme([input[p]] + rest.text, rest.next)
  }

  /** The number tail is the longest run of number characters from p; the
      character that ends it is consumed. */
  lemma {:induction false} NumberTailStops(input: string, p: nat)
    requires p <= |input|
    ensures var r := NumberTail(input, p);
            && p + |r.text| <= |input| && input[p..p + |r.text|] == r.text
            && (forall i | 0 <= i < |r.text| :: IsNumberChar(r.text[i]))
            && if p + |r.text| == |input| then r.next == |input|
               else !IsNumberChar(input[p + |r.text|]) && r.next == p + |r.text| + 1
    decreases |input| - p
  {
    if p < |input| && IsNumberChar(input[p]) {
      NumberTailStops(input, p + 1);
      var rest := NumberTail(input, p + 1);
      assert input[p..p + 1 + |rest.text|] == [input[p]] + input[p + 1..p + 1 + |rest.text|];
    }
  }

  /** parseDouble, up to the text it hands to swscanf: the first character
      seeds the buffer, then the number characters that follow are added. */
  method ScanNumber(input: string, first: char, p: nat) returns (lexeme: string, q: nat)
    requires p <= |input|
    ensures lexeme == [first] + NumberTail(input, p).text && q == NumberTail(input, p).next
  {
    lexeme := [first];
    q := p;
    while q < |input| && IsNumberChar(input[q])
      invariant p <= q <= |input|
      invariant [first] + NumberTail(input, p).text == lexeme + NumberTail(input, q).text
      invariant NumberTail(input, p).next == NumberTail(input, q).next
      decreases |input| - q
    {
      assert NumberTail(input, q).text == [input[q]] + NumberTail(input, q + 1).text;
      lexeme := lexeme + [input[q]];
      q := q + 1;
    }
    if q < |input| {
      q := q + 1;
    }
  }

  /** The position after the first `stop` at or after p, or the end of the
      text when there is none: the loops that discard characters up to '{'
      (wjson_parse_subobj) and up to ':' (wjson_parse_key). */
  function SkipPast(input: string, p: nat, stop: char): (q: nat)
    requires p <= |input|
    ensures p <= q <= |input| && (p < |input| ==> p < q)
    decreases |input| - p
  {
    if p == |input| then p
    else if input[p] == stop then p + 1
    else SkipPast(input, p + 1, stop)
  }

  /** SkipPast stops right after the first `stop`, or at the end of the text
      when there is none. */
  lemma {:induction false} SkipPastStops(input: string, p: nat, stop: char)
    requires p <= |input|
    ensures var q := SkipPast(input, p, stop);
            && (forall i | p <= i < q - 1 :: input[i] != stop)
            && ((p < q && input[q - 1] == stop) || (q == |input| && forall i | p <= i < |input| :: input[i] != stop))
    decreases |input| - p
  {
    if p < |input| && input[p] != stop {
      SkipPastStops(input, p + 1, stop);
    }
  }

  method SkipPastChar(input: string, p: nat, stop: char) returns (q: nat)
    requires p <= |input|
    ensures q == SkipPast(input, p, stop)
  {
    q := p;
    while q < |input| && input[q] != stop
      invariant p <= q <= |input|
      invariant SkipPast(input, q, stop) == SkipPast(input, p, stop)
      decreases |input| - q
    {
      q := q + 1;
    }
    if q < |input| {
      q := q + 1;
    }
  }
}
