/** Words of a script line and integer tokens, script.hpp:36-105. */
module Tokens {
  import opened Words
  import opened Text

  datatype TokenError = QuoteInsideToken | TrailingEscape | Unterminated
  datatype NumberError = NotAnInteger | OutOfRange

  type Lexed = Result<seq<string>, TokenError>

  predicate IsBlank(c: char) {
    c == ' ' || c == '\t'
  }

  function Unescape(c: char): char {
    if c == 'n' then '\n' else if c == 'r' then '\r' else if c == 't' then '\t' else c
  }

  function SkipBlanks(s: string): (r: string)
    ensures |r| <= |s|
    ensures r == "" || !IsBlank(r[0])
  {
    if s != "" && IsBlank(s[0]) then SkipBlanks(s[1..]) else s
  }

  function Prepend(word: string, later: Lexed): Lexed {
    if later.Ok? then Ok([word] + later.value) else later
  }

  /** The words of the rest of a line, given the word being read and whether it is quoted. */
  function Lex(s: string, current: string, quoted: bool): Lexed
    decreases |s|
  {
    if s == "" then
      if quoted then Err(Unterminated) else Ok(if current == "" then [] else [current])
    else if s[0] == '"' then
      if quoted then Prepend(current, Lex(SkipBlanks(s[1..]), "", false))
      else if current != "" then Err(QuoteInsideToken)
      else Lex(s[1..], current, true)
    else if s[0] == '\\' && quoted then
      if |s| == 1 then Err(TrailingEscape) else Lex(s[2..], current + [Unescape(s[1])], true)
    else if IsBlank(s[0]) && !quoted then
      if current == "" then Lex(s[1..], current, quoted) else Prepend(current, Lex(s[1..], "", false))
    else if s[0] == '#' && !quoted && current == "" then Ok([])
    else Lex(s[1..], current + [s[0]], quoted)
  }

  function WordsOf(line: string): Lexed {
    Lex(line, "", false)
  }

  function After(out: seq<string>, later: Lexed): Lexed {
    if later.Ok? then Ok(out + later.value) else later
  }

  lemma AfterPrepend(out: seq<string>, word: string, later: Lexed)
    ensures After(out, Prepend(word, later)) == After(out + [word], later)
  {
    if later.Ok? {
      assert out + ([word] + later.value) == out + [word] + later.value;
    }
  }

  lemma AfterNothing(later: Lexed)
    ensures After([], later) == later
  {
    if later.Ok? {
      assert [] + later.value == later.value;
    }
  }

  lemma AfterError(out: seq<string>, e: TokenError)
    ensures After(out, Err(e)) == Err(e)
  {
  }

  lemma AfterLast(out: seq<string>, words: seq<string>)
    ensures After(out, Ok(words)) == Ok(out + words)
  {
  }

  /** The loop after a closing quote, script.hpp:47-49. */
  method SkipFollowingBlanks(line: string, start: nat) returns (i: nat)
    requires start < |line|
    ensures start <= i < |line| && line[i + 1..] == SkipBlanks(line[start + 1..])
  {
    hide SkipBlanks, IsBlank;
    i := start;
    while i + 1 < |line| && IsBlank(line[i + 1])
      invariant start <= i < |line|
      invariant SkipBlanks(line[start + 1..]) == SkipBlanks(line[i + 1..])
    {
      SkipAt(line, i + 1);
      i := i + 1;
    }
    SkipAt(line, i + 1);
  }

  lemma SkipAt(line: string, k: nat)
    requires k <= |line|
    ensures SkipBlanks(line[k..]) == if k < |line| && IsBlank(line[k]) then SkipBlanks(line[k + 1..]) else line[k..]
  {
    hide IsBlank;
    if k < |line| {
      assert line[k..][0] == line[k] && line[k..][1..] == line[k + 1..];
    }
  }

  /** split_words, script.hpp:36-80. */
  method SplitWords(line: string) returns (r: Lexed)
    ensures r == WordsOf(line)
  {
    hide After, Prepend, SkipBlanks, Unescape, IsBlank;
    var out: seq<string> := [];
    var current := "";
    var inQuote := false;
    var i := 0;
    assert line[0..] == line;
    AfterNothing(WordsOf(line));
    while i < |line|
      invariant i <= |line|
      invariant WordsOf(line) == After(out, Lex(line[i..], current, inQuote))
    {
      var ch := line[i];
      assert line[i..][1..] == line[i + 1..];
      if ch == '"' {
        if inQuote {
          ghost var rest := line[i + 1..];
          AfterPrepend(out, current, Lex(SkipBlanks(rest), "", false));
          out := out + [current];
          current := "";
          inQuote := false;
          i := SkipFollowingBlanks(line, i);
        } else {
          if current != "" {
            AfterError(out, QuoteInsideToken);
            return Err(QuoteInsideToken);
          }
          inQuote := true;
        }
      } else if ch == '\\' && inQuote {
        i := i + 1;
        if i >= |line| {
          AfterError(out, TrailingEscape);
          return Err(TrailingEscape);
        }
        assert line[i - 1..][2..] == line[i + 1..];
        current := current + [Unescape(line[i])];
      } else if IsBlank(ch) && !inQuote {
        if current != "" {
          AfterPrepend(out, current, Lex(line[i + 1..], "", false));
          out := out + [current];
          current := "";
        }
      } else if ch == '#' && !inQuote && current == "" {
        AfterLast(out, []);
        assert out + [] == out;
        return Ok(out);
      } else {
        current := current + [ch];
      }
      i := i + 1;
    }
    if inQuote {
      AfterError(out, Unterminated);
      return Err(Unterminated);
    }
    AfterLast(out, if current == "" then [] else [current]);
    assert out + [] == out;
    if current != "" {
      out := out + [current];
    }
    r := Ok(out);
  }

  // ---------------------------------------------------------------------------
  // Reading back what is written as a word or in quotes

  lemma {:induction false} LexPlain(word: string, later: string, current: string)
    requires forall c :: c in word ==> WordChar(c)
    requires current != "" || word == "" || word[0] != '#'
    ensures Lex(word + later, current, false) == Lex(later, current + word, false)
    decreases |word|
  {
    if word == "" {
      assert word + later == later && current + word == current;
    } else {
      assert word[0] in word;
      assert (word + later)[1..] == word[1..] + later;
      assert Lex(word + later, current, false) == Lex(word[1..] + later, current + [word[0]], false);
      LexPlain(word[1..], later, current + [word[0]]);
      assert current + [word[0]] + word[1..] == current + word;
    }
  }

  /** A word followed by a blank, or by the end of the line, is complete. */
  lemma LexWord(word: string, later: string, blank: char)
    requires IsWord(word) && (blank == ' ' || blank == '\t')
    ensures Lex(word + ([blank] + later), "", false) == Prepend(word, Lex(later, "", false))
    ensures Lex(word, "", false) == Ok([word])
  {
    assert "" + word == word && word + "" == word;
    LexPlain(word, [blank] + later, "");
    assert ([blank] + later)[1..] == later;
    LexPlain(word, "", "");
  }

  /** Words separated by spaces or tabs are read back as they are. */
  lemma {:induction false} WordsOfUnsplit(words: seq<string>, blank: char)
    requires words != [] && forall w :: w in words ==> IsWord(w)
    requires blank == ' ' || blank == '\t'
    ensures WordsOf(Unsplit(words, blank)) == Ok(words)
  {
    hide Lex, IsWord;
    var w := words[0];
    assert w in words;
    if |words| == 1 {
      LexWord(w, "", blank);
      assert [w] == words;
    } else {
      var later := Unsplit(words[1..], blank);
      assert Unsplit(words, blank) == w + ([blank] + later);
      LexWord(w, later, blank);
      WordsOfUnsplit(words[1..], blank);
      assert [w] + words[1..] == words;
    }
  }

  /** The escapes of a quoted string. */
  function Escape(c: char): string {
    if c == '"' then ['\\', '"']
    else if c == '\\' then ['\\', '\\']
    else if c == '\n' then ['\\', 'n']
    else if c == '\r' then ['\\', 'r']
    else if c == '\t' then ['\\', 't']
    else [c]
  }

  function EscapeAll(text: string): string {
    if text == "" then "" else Escape(text[0]) + EscapeAll(text[1..])
  }

  function Quote(text: string): string {
    ['"'] + EscapeAll(text) + ['"']
  }

  lemma LexEscape(c: char, later: string, current: string)
    ensures Lex(Escape(c) + later, current, true) == Lex(later, current + [c], true)
  {
    if |Escape(c)| == 1 {
      assert (Escape(c) + later)[1..] == later;
    } else {
      assert (Escape(c) + later)[2..] == later;
    }
  }

  lemma {:induction false} LexQuoted(text: string, later: string, current: string)
    ensures Lex(EscapeAll(text) + later, current, true) == Lex(later, current + text, true)
    decreases |text|
  {
    hide Lex, Escape;
    if text == "" {
      assert EscapeAll(text) + later == later && current + text == current;
    } else {
      assert EscapeAll(text) + later == Escape(text[0]) + (EscapeAll(text[1..]) + later);
      LexEscape(text[0], EscapeAll(text[1..]) + later, current);
      LexQuoted(text[1..], later, current + [text[0]]);
      assert current + [text[0]] + text[1..] == current + text;
    }
  }

  lemma LexOpen(later: string)
    ensures Lex(['"'] + later, "", false) == Lex(later, "", true)
  {
    assert (['"'] + later)[1..] == later;
  }

  lemma LexClose(current: string)
    ensures Lex(['"'], current, true) == Ok([current])
  {
    assert ['"'][1..] == "";
    assert [current] + [] == [current];
  }

  lemma LexQuote(text: string)
    ensures Lex(Quote(text), "", false) == Ok([text])
  {
    hide EscapeAll, Lex;
    assert Quote(text) == ['"'] + (EscapeAll(text) + ['"']);
    LexOpen(EscapeAll(text) + ['"']);
    LexQuoted(text, ['"'], "");
    assert "" + text == text;
    LexClose(text);
  }

  /** Any text whatever survives as a quoted word. */
  lemma WordThenQuote(word: string, text: string)
    requires IsWord(word)
    ensures WordsOf(word + ([' '] + Quote(text))) == Ok([word, text])
  {
    hide Lex, Quote, IsWord;
    LexWord(word, Quote(text), ' ');
    LexQuote(text);
    assert [word] + [text] == [word, text];
  }

  // ---------------------------------------------------------------------------
  // Whole lines

  /** A word, bare or in quotes, and the blanks after it. */
  datatype Piece = Piece(word: string, quoted: bool, gap: string)

  predicate AllBlank(s: string) {
    forall c :: c in s ==> IsBlank(c)
  }

  /** A bare word ends at a blank or at the end of the line; a quoted one needs nothing after it. */
  predicate Legible(pieces: seq<Piece>) {
    forall i :: 0 <= i < |pieces| ==>
      && AllBlank(pieces[i].gap)
      && (pieces[i].quoted || (IsWord(pieces[i].word) && (pieces[i].gap != "" || i == |pieces| - 1)))
  }

  /** Whether anything may follow. */
  predicate Closed(pieces: seq<Piece>) {
    pieces != [] ==> pieces[|pieces| - 1].quoted || pieces[|pieces| - 1].gap != ""
  }

  function Layout(pieces: seq<Piece>): string {
    if pieces == [] then ""
    else
      var p := pieces[0];
      (if p.quoted then Quote(p.word) else p.word) + (p.gap + Layout(pieces[1..]))
  }

  function Meant(pieces: seq<Piece>): seq<string> {
    if pieces == [] then [] else [pieces[0].word] + Meant(pieces[1..])
  }

  lemma {:induction false} LexBlanks(gap: string, later: string)
    requires AllBlank(gap)
    ensures Lex(gap + later, "", false) == Lex(later, "", false)
  {
    if gap == "" {
      assert gap + later == later;
    } else {
      assert gap[0] in gap && (gap + later)[1..] == gap[1..] + later;
      LexBlanks(gap[1..], later);
    }
  }

  lemma {:induction false} LexSkipped(s: string)
    ensures Lex(SkipBlanks(s), "", false) == Lex(s, "", false)
  {
    if s != "" && IsBlank(s[0]) {
      LexSkipped(s[1..]);
    }
  }

  lemma LexQuotedPiece(text: string, gap: string, later: string)
    requires AllBlank(gap)
    ensures Lex(Quote(text) + (gap + later), "", false) == Prepend(text, Lex(later, "", false))
  {
    hide EscapeAll, SkipBlanks, AllBlank;
    var rest := gap + later;
    assert Quote(text) + rest == ['"'] + (EscapeAll(text) + (['"'] + rest));
    assert "" + text == text && (['"'] + rest)[1..] == rest;
    LexOpen(EscapeAll(text) + (['"'] + rest));
    LexQuoted(text, ['"'] + rest, "");
    LexSkipped(rest);
    LexBlanks(gap, later);
  }

  lemma LexBarePiece(word: string, gap: string, later: string)
    requires IsWord(word) && AllBlank(gap) && gap != ""
    ensures Lex(word + (gap + later), "", false) == Prepend(word, Lex(later, "", false))
  {
    hide Lex, IsWord;
    assert gap[0] in gap && gap + later == [gap[0]] + (gap[1..] + later);
    LexWord(word, gap[1..] + later, gap[0]);
    LexBlanks(gap[1..], later);
  }

  lemma LegibleRest(pieces: seq<Piece>)
    requires Legible(pieces) && pieces != []
    ensures Legible(pieces[1..]) && (Closed(pieces) ==> Closed(pieces[1..]))
  {
  }

  /** The words of a line are those laid out on it; what follows is read on its own. */
  lemma {:induction false} LexLayout(pieces: seq<Piece>, later: string)
    requires Legible(pieces) && (Closed(pieces) || later == "")
    ensures Lex(Layout(pieces) + later, "", false) == After(Meant(pieces), Lex(later, "", false))
  {
    hide Lex, Quote, IsWord, After, AllBlank;
    if pieces == [] {
      assert Layout(pieces) + later == later;
      AfterNothing(Lex(later, "", false));
    } else {
      var p, rest := pieces[0], pieces[1..];
      var text := if p.quoted then Quote(p.word) else p.word;
      LegibleRest(pieces);
      assert Layout(pieces) + later == text + (p.gap + (Layout(rest) + later));
      LexLayout(rest, later);
      AfterFirst(p.word, Meant(rest), Lex(later, "", false));
      if p.quoted {
        LexQuotedPiece(p.word, p.gap, Layout(rest) + later);
      } else if p.gap != "" {
        LexBarePiece(p.word, p.gap, Layout(rest) + later);
      } else {
        assert Layout(rest) == "" && text + ("" + ("" + "")) == text;
        LexWord(p.word, "", ' ');
        LexNothing();
        AfterLast([p.word], []);
        assert [p.word] + [] == [p.word] && Meant(pieces) == [p.word] + [];
      }
    }
  }

  lemma LexNothing()
    ensures Lex("", "", false) == Ok([])
  {
  }

  lemma AfterFirst(word: string, words: seq<string>, later: Lexed)
    ensures Prepend(word, After(words, later)) == After([word] + words, later)
  {
    if later.Ok? {
      assert [word] + (words + later.value) == [word] + words + later.value;
    }
  }

  /** Any words, bare or quoted, with any blanks around them and a comment after them, are read as they are meant. */
  lemma LayoutIsRead(lead: string, pieces: seq<Piece>, comment: string)
    requires AllBlank(lead) && Legible(pieces)
    ensures WordsOf(lead + Layout(pieces)) == Ok(Meant(pieces))
    ensures Closed(pieces) ==> WordsOf(lead + (Layout(pieces) + (['#'] + comment))) == Ok(Meant(pieces))
  {
    hide Layout, AllBlank, Legible, Closed;
    LexBlanks(lead, Layout(pieces));
    assert Layout(pieces) + "" == Layout(pieces);
    LexLayout(pieces, "");
    LexNothing();
    AfterLast(Meant(pieces), []);
    assert Meant(pieces) + [] == Meant(pieces);
    if Closed(pieces) {
      LexBlanks(lead, Layout(pieces) + (['#'] + comment));
      LexLayout(pieces, ['#'] + comment);
    }
  }

  /** The three ways a line can fail, behind any words that are read. */
  lemma BadTailFails(pieces: seq<Piece>, word: string, text: string, later: string)
    requires Legible(pieces) && Closed(pieces) && IsWord(word)
    ensures WordsOf(Layout(pieces) + (word + (['"'] + later))) == Err(QuoteInsideToken)
    ensures WordsOf(Layout(pieces) + (['"'] + EscapeAll(text))) == Err(Unterminated)
    ensures WordsOf(Layout(pieces) + (['"'] + (EscapeAll(text) + ['\\']))) == Err(TrailingEscape)
  {
    hide Lex, Layout, EscapeAll, Legible, Closed;
    QuoteInsideWordFails(word, later);
    OpenQuoteFails(text);
    LexLayout(pieces, word + (['"'] + later));
    LexLayout(pieces, ['"'] + EscapeAll(text));
    LexLayout(pieces, ['"'] + (EscapeAll(text) + ['\\']));
  }

  lemma {:induction false} EscapedStaysOnTheLine(text: string)
    ensures '\n' !in EscapeAll(text)
  {
    if text != "" {
      EscapedStaysOnTheLine(text[1..]);
    }
  }

  /** Blanks, then nothing or a comment. */
  predicate IsBlankOrComment(line: string) {
    line == "" || line[0] == '#' || (IsBlank(line[0]) && IsBlankOrComment(line[1..]))
  }

  lemma {:induction false} NoWordsInBlank(line: string)
    requires IsBlankOrComment(line)
    ensures WordsOf(line) == Ok([])
  {
    if line != "" && line[0] != '#' {
      NoWordsInBlank(line[1..]);
    }
  }

  /** A comment may follow the words of a line. */
  lemma {:induction false} CommentIsDropped(words: seq<string>, comment: string)
    requires words != [] && forall w :: w in words ==> IsWord(w)
    ensures WordsOf(Unsplit(words, ' ') + ([' '] + (['#'] + comment))) == Ok(words)
  {
    hide IsWord;
    var w := words[0];
    var tail := ['#'] + comment;
    assert w in words;
    if |words| == 1 {
      LexWord(w, tail, ' ');
      assert tail[0] == '#' && Lex(tail, "", false) == Ok([]);
      assert [w] + [] == words;
    } else {
      var later := Unsplit(words[1..], ' ');
      assert Unsplit(words, ' ') + ([' '] + tail) == w + ([' '] + (later + ([' '] + tail)));
      LexWord(w, later + ([' '] + tail), ' ');
      CommentIsDropped(words[1..], comment);
      assert [w] + words[1..] == words;
    }
  }

  /** The three ways a line can fail: a quote inside a word, no closing quote, a backslash at the end. */
  lemma QuoteInsideWordFails(word: string, later: string)
    requires IsWord(word)
    ensures WordsOf(word + (['"'] + later)) == Err(QuoteInsideToken)
  {
    LexPlain(word, ['"'] + later, "");
    assert "" + word == word;
  }

  lemma OpenQuoteFails(text: string)
    ensures WordsOf(['"'] + EscapeAll(text)) == Err(Unterminated)
    ensures WordsOf(['"'] + (EscapeAll(text) + ['\\'])) == Err(TrailingEscape)
  {
    hide EscapeAll;
    LexOpen(EscapeAll(text));
    LexOpen(EscapeAll(text) + ['\\']);
    assert EscapeAll(text) + "" == EscapeAll(text) && "" + text == text;
    LexQuoted(text, "", "");
    LexQuoted(text, ['\\'], "");
  }

  // ---------------------------------------------------------------------------
  // Integers

  predicate IsLetter(c: char) {
    'A' <= c <= 'Z' || 'a' <= c <= 'z'
  }

  function SkipSpaces(s: string): string {
    if s != "" && IsSpace(s[0]) then SkipSpaces(s[1..]) else s
  }

  predicate AllDigits(s: string) {
    s != "" && forall c :: c in s ==> IsDigit(c)
  }

  function DigitOf(c: char): nat {
    if IsDigit(c) then (c - '0') as int else 0
  }

  function Decimal(s: string): nat
  {
    if s == "" then 0 else 10 * Decimal(s[..|s| - 1]) + DigitOf(s[|s| - 1])
  }

  const LONG_LONG_MIN := -0x8000_0000_0000_0000
  const LONG_LONG_MAX := 0x7FFF_FFFF_FFFF_FFFF

  /** std::stoll on a whole token: leading white space, an optional sign, decimal digits, in range. */
  function IntegerOf(token: string): Option<int> {
    var t := SkipSpaces(token);
    var signed := t != "" && (t[0] == '-' || t[0] == '+');
    var digits := if signed then t[1..] else t;
    if !AllDigits(digits) then None
    else
      var magnitude: int := Decimal(digits);
      var value := if signed && t[0] == '-' then -magnitude else magnitude;
      if LONG_LONG_MIN <= value <= LONG_LONG_MAX then Some(value) else None
  }

  /** parse_ranged_integer_token, script.hpp:97-105. */
  function RangedInteger(token: string, min: int, max: int): (r: Result<int, NumberError>)
    ensures r.Ok? ==> min <= r.value <= max
  {
    match IntegerOf(token)
    case None => Err(NotAnInteger)
    case Some(value) => if value < min || value > max then Err(OutOfRange) else Ok(value)
  }

  function PrintNat(n: nat): string {
    if n < 10 then ['0' + n as char] else PrintNat(n / 10) + ['0' + (n % 10) as char]
  }

  function PrintInt(v: int): string {
    if v < 0 then ['-'] + PrintNat(-v) else PrintNat(v)
  }

  lemma {:induction false} DecimalOfPrint(n: nat)
    ensures AllDigits(PrintNat(n)) && Decimal(PrintNat(n)) == n
  {
    var s := PrintNat(n);
    if n < 10 {
      assert s[..0] == "";
    } else {
      DecimalOfPrint(n / 10);
      assert s[..|s| - 1] == PrintNat(n / 10);
    }
  }

  lemma IntegerOfPrint(v: int)
    requires LONG_LONG_MIN <= v <= LONG_LONG_MAX
    ensures IntegerOf(PrintInt(v)) == Some(v) && IsWord(PrintInt(v))
  {
    hide PrintNat, Decimal;
    var n := if v < 0 then -v else v;
    DecimalOfPrint(n);
    assert PrintNat(n)[0] in PrintNat(n);
    assert v < 0 ==> PrintInt(v)[1..] == PrintNat(n);
  }

  /** A written integer is accepted exactly in its range, which excludes nothing at either end. */
  lemma RangeIsExact(v: int, min: int, max: int)
    requires LONG_LONG_MIN <= v <= LONG_LONG_MAX
    ensures RangedInteger(PrintInt(v), min, max) == if min <= v <= max then Ok(v) else Err(OutOfRange)
  {
    hide PrintInt, IntegerOf;
    IntegerOfPrint(v);
  }

  lemma {:induction false} SpacesAreSkipped(spaces: string, token: string)
    requires forall c :: c in spaces ==> IsSpace(c)
    requires token == "" || !IsSpace(token[0])
    ensures SkipSpaces(spaces + token) == token
  {
    if spaces == "" {
      assert spaces + token == token;
    } else {
      assert (spaces + token)[1..] == spaces[1..] + token;
      SpacesAreSkipped(spaces[1..], token);
    }
  }

  lemma {:induction false} LetterIsNotSkipped(s: string, c: char)
    requires c in s && IsLetter(c)
    ensures c in SkipSpaces(s)
  {
    if IsSpace(s[0]) {
      assert s == [s[0]] + s[1..];
      LetterIsNotSkipped(s[1..], c);
    }
  }

  lemma LetterIsNoInteger(token: string, c: char)
    requires c in token && IsLetter(c)
    ensures IntegerOf(token) == None
  {
    LetterIsNotSkipped(token, c);
    var t := SkipSpaces(token);
    assert t == [t[0]] + t[1..];
  }

  /** Integers have no case. */
  lemma SameInteger(a: string, b: string)
    requires SameButForCase(a, b)
    ensures IntegerOf(a) == IntegerOf(b)
  {
    hide IntegerOf;
    if a != b {
      var i :| 0 <= i < |a| && a[i] != b[i];
      assert SameLetter(a[i], b[i]);
      LetterIsNoInteger(a, a[i]);
      LetterIsNoInteger(b, b[i]);
    }
  }

  /** White space before the number and a plus sign are allowed; anything after the digits is not. */
  lemma IntegerForms(n: nat, spaces: string, after: char)
    requires n <= LONG_LONG_MAX && forall c :: c in spaces ==> IsSpace(c)
    ensures IntegerOf(spaces + PrintNat(n)) == Some(n)
    ensures IntegerOf(spaces + (['+'] + PrintNat(n))) == Some(n)
    ensures !IsDigit(after) ==> IntegerOf(PrintNat(n) + [after]) == None
  {
    hide PrintNat, Decimal, SkipSpaces;
    var digits := PrintNat(n);
    DecimalOfPrint(n);
    assert digits[0] in digits;
    SpacesAreSkipped(spaces, digits);
    SpacesAreSkipped(spaces, ['+'] + digits);
    assert (['+'] + digits)[1..] == digits;
    SpacesAreSkipped("", digits + [after]);
    assert "" + (digits + [after]) == digits + [after];
    assert (digits + [after])[|digits|] == after && after in digits + [after];
  }
}
