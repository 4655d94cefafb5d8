/** Strings of the script language: std::string, with a Dafny char standing for one C++ char. */
module Text {
  /** std::string::find: the first position of `c`, or the length of the string. */
  function Index(s: string, c: char): (i: nat)
    ensures i <= |s| && c !in s[..i] && (i < |s| ==> s[i] == c)
  {
    if s == "" || s[0] == c then 0 else
      assert s == [s[0]] + s[1..];
      1 + Index(s[1..], c)
  }

  /** The pieces of a string between the occurrences of a character; at least one piece. */
  function Split(s: string, c: char): (parts: seq<string>)
    ensures parts != []
    decreases |s|
  {
    var i := Index(s, c);
    if i == |s| then [s] else [s[..i]] + Split(s[i + 1..], c)
  }

  /** Cutting off the first piece at the first separator leaves the other pieces. */
  lemma SplitFirst(s: string, c: char)
    ensures Split(s, c)[0] == s[..Index(s, c)]
    ensures Split(s, c)[1..] == if Index(s, c) == |s| then [] else Split(s[Index(s, c) + 1..], c)
  {
  }

  /** One step of a loop over pieces: the next one, and what is left to split. */
  lemma NextPiece(parts: seq<string>, k: nat, rest: string, c: char)
    requires k <= |parts| && parts[k..] == Split(rest, c)
    ensures k < |parts| && parts[k] == rest[..Index(rest, c)]
    ensures parts[k + 1..] == if Index(rest, c) == |rest| then [] else Split(rest[Index(rest, c) + 1..], c)
  {
    hide Split;
    SplitFirst(rest, c);
    assert parts[k] == parts[k..][0] && parts[k + 1..] == parts[k..][1..];
  }

  function Unsplit(parts: seq<string>, c: char): string
    requires parts != []
  {
    if |parts| == 1 then parts[0] else parts[0] + [c] + Unsplit(parts[1..], c)
  }

  lemma {:induction false} IndexOfFirst(before: string, after: string, c: char)
    requires c !in before && (after == "" || after[0] == c)
    ensures Index(before + after, c) == |before|
  {
    if before == "" {
      assert before + after == after;
    } else {
      assert (before + after)[1..] == before[1..] + after;
      IndexOfFirst(before[1..], after, c);
    }
  }

  lemma {:induction false} SplitOfUnsplit(parts: seq<string>, c: char)
    requires parts != [] && forall p :: p in parts ==> c !in p
    ensures Split(Unsplit(parts, c), c) == parts
  {
    var first := parts[0];
    if |parts| == 1 {
      assert first + "" == first;
      IndexOfFirst(first, "", c);
    } else {
      var after := [c] + Unsplit(parts[1..], c);
      assert Unsplit(parts, c) == first + after;
      IndexOfFirst(first, after, c);
      assert (first + after)[|first| + 1..] == Unsplit(parts[1..], c);
      SplitOfUnsplit(parts[1..], c);
    }
  }

  lemma {:induction false} UnsplitOfSplit(s: string, c: char)
    ensures Unsplit(Split(s, c), c) == s
    decreases |s|
  {
    hide Split;
    var i := Index(s, c);
    SplitFirst(s, c);
    if i < |s| {
      UnsplitOfSplit(s[i + 1..], c);
      assert s == s[..i] + [c] + s[i + 1..];
    }
  }

  lemma {:induction false} PartsAreWhole(s: string, c: char)
    ensures forall p :: p in Split(s, c) ==> c !in p
    decreases |s|
  {
    var i := Index(s, c);
    if i < |s| {
      PartsAreWhole(s[i + 1..], c);
    }
  }

  lemma SplitOfPiece(piece: string, after: string, c: char)
    requires c !in piece
    ensures Split(piece, c) == [piece]
    ensures Split(piece + ([c] + after), c) == [piece] + Split(after, c)
  {
    assert piece + "" == piece;
    IndexOfFirst(piece, "", c);
    var s := piece + ([c] + after);
    IndexOfFirst(piece, [c] + after, c);
    assert s[..|piece|] == piece && s[|piece| + 1..] == after;
  }

  /** Splitting a text is splitting what is before and what is after any one separator. */
  lemma {:induction false} SplitOfLines(before: string, after: string, c: char)
    ensures Split(before + ([c] + after), c) == Split(before, c) + Split(after, c)
    decreases |before|
  {
    hide Split;
    var i := Index(before, c);
    var piece := before[..i];
    if i == |before| {
      assert piece == before;
      SplitOfPiece(before, after, c);
    } else {
      var later := before[i + 1..];
      assert before == piece + ([c] + later);
      assert before + ([c] + after) == piece + ([c] + (later + ([c] + after)));
      SplitOfPiece(piece, later, c);
      SplitOfPiece(piece, later + ([c] + after), c);
      SplitOfLines(later, after, c);
    }
  }

  /** std::toupper in the "C" locale. */
  function Upper(c: char): char {
    if 'a' <= c <= 'z' then c - 'a' + 'A' else c
  }

  /** upper_ascii, keys.hpp:18-23. */
  function UpperAll(s: string): (u: string)
    ensures |u| == |s| && forall i :: 0 <= i < |s| ==> u[i] == Upper(s[i])
  {
    seq(|s|, i requires 0 <= i < |s| => Upper(s[i]))
  }

  /** The same character, or the two cases of one of the letters A to Z. */
  predicate SameLetter(a: char, b: char) {
    a == b
    || ('A' <= a <= 'Z' && b as int == a as int + 32)
    || ('A' <= b <= 'Z' && a as int == b as int + 32)
  }

  predicate SameButForCase(a: string, b: string) {
    |a| == |b| && forall i :: 0 <= i < |a| ==> SameLetter(a[i], b[i])
  }

  lemma SameUpper(a: char, b: char)
    ensures Upper(a) == Upper(b) <==> SameLetter(a, b)
  {
  }

  /** Folding makes two texts equal exactly if they are the same but for case. */
  lemma FoldedIsSame(a: string, b: string)
    ensures UpperAll(a) == UpperAll(b) <==> SameButForCase(a, b)
  {
    hide Upper, SameLetter;
    forall i, j | 0 <= i < |a| && 0 <= j < |b| ensures Upper(a[i]) == Upper(b[j]) <==> SameLetter(a[i], b[j]) {
      SameUpper(a[i], b[j]);
    }
    if UpperAll(a) == UpperAll(b) {
      forall i | 0 <= i < |a| ensures SameLetter(a[i], b[i]) {
        assert UpperAll(a)[i] == UpperAll(b)[i];
      }
    }
  }

  lemma OtherLetter(a: char, b: char, c: char)
    requires SameLetter(a, b) && a != c && forall d :: SameLetter(c, d) ==> d == c
    ensures b != c
  {
    assert SameLetter(b, a);
  }

  lemma {:induction false} SameIndex(a: string, b: string, c: char)
    requires SameButForCase(a, b) && forall d :: SameLetter(c, d) ==> d == c
    ensures Index(a, c) == Index(b, c)
  {
    hide SameLetter;
    if a != "" && a[0] != c {
      assert SameLetter(a[0], b[0]);
      OtherLetter(a[0], b[0], c);
      SameIndex(a[1..], b[1..], c);
    } else if a != "" {
      assert SameLetter(a[0], b[0]);
    }
  }

  /** Splitting at a character without case keeps texts the same but for case, piece by piece. */
  lemma {:induction false} SplitOfSame(a: string, b: string, c: char)
    requires SameButForCase(a, b) && forall d :: SameLetter(c, d) ==> d == c
    ensures |Split(a, c)| == |Split(b, c)|
    ensures forall i :: 0 <= i < |Split(a, c)| ==> SameButForCase(Split(a, c)[i], Split(b, c)[i])
    decreases |a|
  {
    hide SameButForCase, Split;
    SameIndex(a, b, c);
    SplitFirst(a, c);
    SplitFirst(b, c);
    var i, p, q := Index(a, c), Split(a, c), Split(b, c);
    SameParts(a, b, i);
    if i < |a| {
      SplitOfSame(a[i + 1..], b[i + 1..], c);
      forall k | 1 <= k < |p| ensures SameButForCase(p[k], q[k]) {
        assert p[k] == p[1..][k - 1] && q[k] == q[1..][k - 1];
      }
    }
  }

  lemma SameParts(a: string, b: string, i: nat)
    requires SameButForCase(a, b) && i <= |a|
    ensures |a| == |b| && SameButForCase(a[..i], b[..i])
    ensures i < |a| ==> SameButForCase(a[i + 1..], b[i + 1..])
  {
    hide SameLetter;
  }

  /** std::isspace in the "C" locale. */
  predicate IsSpace(c: char) {
    c == ' ' || '\t' <= c <= '\r'
  }

  predicate IsDigit(c: char) {
    '0' <= c <= '9'
  }

  /** A character that ends nothing in a script line. */
  predicate WordChar(c: char) {
    c != ' ' && c != '\t' && c != '\n' && c != '"'
  }

  /** A comment sign starts a comment only where a word would start. */
  predicate IsWord(s: string) {
    s != "" && s[0] != '#' && forall c :: c in s ==> WordChar(c)
  }
}
