/** Python `str` operations used by the modelled code, on `seq<char>`:
    `startswith`, `in`, `find`, `rfind`, `replace`, `split(sep)`,
    `split()` on whitespace and `sep.join(parts)`. */
module Strings {
  import opened Common

  predicate StartsWith(s: string, prefix: string)
  {
    |prefix| <= |s| && s[..|prefix|] == prefix
  }

  /** `sub` occurs in `s` at position `i`. */
  predicate OccursAt(s: string, sub: string, i: int)
  {
    0 <= i && i + |sub| <= |s| && s[i..i + |sub|] == sub
  }

  /** Python's `s.find(sub)`: the leftmost position of `sub` in `s`. */
  function Find(s: string, sub: string): Option<nat>
    decreases |s|
  {
    if StartsWith(s, sub) then Some(0)
    else if |s| == 0 then None
    else match Find(s[1..], sub)
      case None => None
      case Some(i) => Some(i + 1)
  }

  lemma OccursShift(s: string, sub: string, i: int)
    requires |s| > 0 && 0 <= i
    ensures OccursAt(s[1..], sub, i) <==> OccursAt(s, sub, i + 1)
  {
    if i + 1 + |sub| <= |s| {
      assert s[1..][i..i + |sub|] == s[i + 1..i + 1 + |sub|];
    }
  }

  /** `Find` returns an occurrence, and no occurrence lies to its left. */
  lemma {:induction false} FindIsLeftmost(s: string, sub: string)
    ensures Find(s, sub).Some? ==> OccursAt(s, sub, Find(s, sub).value)
    ensures forall i :: OccursAt(s, sub, i) ==> Find(s, sub).Some? && Find(s, sub).value <= i
    decreases |s|
  {
    if StartsWith(s, sub) {
    } else if |s| == 0 {
    } else {
      FindIsLeftmost(s[1..], sub);
      var r := Find(s[1..], sub);
      if r.Some? {
        OccursShift(s, sub, r.value);
      }
      forall i | OccursAt(s, sub, i)
        ensures Find(s, sub).Some? && Find(s, sub).value <= i
      {
        assert i != 0;
        OccursShift(s, sub, i - 1);
      }
    }
  }

  /** The position `Find` returns is an occurrence. */
  lemma FindOccurs(s: string, sub: string)
    ensures Find(s, sub).Some? ==> OccursAt(s, sub, Find(s, sub).value)
  {
    FindIsLeftmost(s, sub);
  }

  /** An occurrence at `i` means `Find` succeeds at `i` or further left. */
  lemma FindBefore(s: string, sub: string, i: int)
    requires OccursAt(s, sub, i)
    ensures Find(s, sub).Some? && Find(s, sub).value <= i
  {
    FindIsLeftmost(s, sub);
  }

  /** An occurrence in a prefix of `s` is an occurrence in `s`. */
  lemma OccursInPrefix(s: string, sub: string, i: nat, j: int)
    requires i <= |s| && OccursAt(s[..i], sub, j)
    ensures OccursAt(s, sub, j)
  {
    assert s[..i][j..j + |sub|] == s[j..j + |sub|];
  }

  /** Python's `sub in s`. */
  predicate Contains(s: string, sub: string)
  {
    Find(s, sub).Some?
  }

  lemma ContainsIff(s: string, sub: string)
    ensures Contains(s, sub) <==> exists i :: OccursAt(s, sub, i)
  {
    FindIsLeftmost(s, sub);
  }

  /** Python's `s.rfind(c)` for a single character. */
  function RFind(s: string, c: char): (r: Option<nat>)
    ensures r.Some? ==> r.value < |s| && s[r.value] == c
    ensures forall k :: 0 <= k < |s| && s[k] == c ==> r.Some? && k <= r.value
  {
    if |s| == 0 then None
    else if s[|s| - 1] == c then Some(|s| - 1)
    else RFind(s[..|s| - 1], c)
  }

  /** Python's `s.replace(pat, rep)`: every non-overlapping occurrence of
      `pat`, scanning from the left, is replaced by `rep`. */
  function ReplaceAll(s: string, pat: string, rep: string): string
    requires |pat| > 0
    decreases |s|
  {
    if StartsWith(s, pat) then rep + ReplaceAll(s[|pat|..], pat, rep)
    else if |s| == 0 then ""
    else [s[0]] + ReplaceAll(s[1..], pat, rep)
  }

  /** A string without an occurrence of `pat` is left unchanged by `replace`. */
  lemma {:induction false} ReplaceAllAbsent(s: string, pat: string, rep: string)
    requires |pat| > 0 && !Contains(s, pat)
    ensures ReplaceAll(s, pat, rep) == s
    decreases |s|
  {
    if |s| > 0 {
      ReplaceAllAbsent(s[1..], pat, rep);
    }
  }

  /** Python's `s.split(sep)` for a non-empty separator: the pieces between
      the non-overlapping occurrences of `sep`, found from the left. */
  function SplitOn(s: string, sep: string): (parts: seq<string>)
    requires |sep| > 0
    ensures |parts| >= 1
    decreases |s|
  {
    match Find(s, sep)
    case None => [s]
    case Some(i) =>
      FindOccurs(s, sep);
      [s[..i]] + SplitOn(s[i + |sep|..], sep)
  }

  /** Python's `sep.join(parts)`. */
  function Join(parts: seq<string>, sep: string): string
  {
    if |parts| == 0 then ""
    else if |parts| == 1 then parts[0]
    else parts[0] + sep + Join(parts[1..], sep)
  }

  /** The pieces concatenated without a separator (`"".join(parts)`). */
  function Concat(parts: seq<string>): string
  {
    if |parts| == 0 then "" else parts[0] + Concat(parts[1..])
  }

  function Last<T>(xs: seq<T>): T
    requires |xs| > 0
  {
    xs[|xs| - 1]
  }

  /** Joining the pieces of a split with the same separator gives back the string. */
  lemma {:induction false} JoinSplit(s: string, sep: string)
    requires |sep| > 0
    ensures Join(SplitOn(s, sep), sep) == s
    decreases |s|
  {
    var f := Find(s, sep);
    if f.None? {
      assert SplitOn(s, sep) == [s];
    } else {
      var i := f.value;
      FindBound(s, sep, i);
      SplitOnFound(s, sep, i);
      var rest := s[i + |sep|..];
      JoinSplit(rest, sep);
      JoinCons(s[..i], SplitOn(rest, sep), sep);
      FindOccurs(s, sep);
      Reassemble(s, sep, i);
    }
  }

  /** Joining a piece in front of at least one other puts the separator
      between them. */
  lemma JoinCons(x: string, xs: seq<string>, sep: string)
    requires |xs| >= 1
    ensures Join([x] + xs, sep) == x + sep + Join(xs, sep)
  {
    assert ([x] + xs)[1..] == xs;
  }

  /** A string is the text before an occurrence, the occurrence and the
      text after it. */
  lemma Reassemble(s: string, sub: string, i: int)
    requires OccursAt(s, sub, i)
    ensures s == s[..i] + sub + s[i + |sub|..]
  {
  }

  /** The position `Find` returns leaves room for `sub`. */
  lemma FindBound(s: string, sub: string, i: nat)
    requires Find(s, sub) == Some(i)
    ensures i + |sub| <= |s|
  {
    FindOccurs(s, sub);
  }

  /** A split that finds the separator: the piece before it, then the split
      of the rest. */
  lemma SplitOnFound(s: string, sep: string, i: nat)
    requires |sep| > 0 && Find(s, sep) == Some(i) && i + |sep| <= |s|
    ensures SplitOn(s, sep) == [s[..i]] + SplitOn(s[i + |sep|..], sep)
  {
  }

  lemma LastCons<T>(x: T, xs: seq<T>)
    requires |xs| > 0
    ensures Last([x] + xs) == Last(xs)
  {
  }

  lemma DropDrop<T>(s: seq<T>, a: nat, k: nat)
    requires a <= |s| && k <= |s| - a
    ensures s[a..][k..] == s[a + k..]
  {
  }

  lemma SliceAppend<T>(a: seq<T>, b: seq<T>, n: nat)
    requires n <= |a|
    ensures (a + b)[..n] == a[..n] && (a + b)[n..] == a[n..] + b
  {
  }

  /** The last piece of a split is the end of the string and holds no separator. */
  lemma {:induction false} SplitOnLast(s: string, sep: string)
    requires |sep| > 0
    ensures !Contains(Last(SplitOn(s, sep)), sep)
    ensures exists k :: 0 <= k <= |s| && s[k..] == Last(SplitOn(s, sep))
    decreases |s|
  {
    var f := Find(s, sep);
    if f.None? {
      assert SplitOn(s, sep) == [s];
      assert s[0..] == s;
    } else {
      var i := f.value;
      FindBound(s, sep, i);
      SplitOnFound(s, sep, i);
      var rest := s[i + |sep|..];
      LastCons(s[..i], SplitOn(rest, sep));
      SplitOnLast(rest, sep);
      var k :| 0 <= k <= |rest| && rest[k..] == Last(SplitOn(rest, sep));
      DropDrop(s, i + |sep|, k);
    }
  }

  lemma SubSlice<T>(s: seq<T>, j: nat, a: nat, b: nat)
    requires j <= |s| && a <= b <= |s| - j
    ensures s[j..][a..b] == s[j + a..j + b]
  {
  }

  /** When the string holds the separator, the last piece of the split
      starts right after an occurrence of it. */
  lemma {:induction false} SplitOnLastAfterSep(s: string, sep: string)
    requires |sep| > 0
    ensures Contains(s, sep) ==>
      exists k :: |sep| <= k <= |s| && s[k - |sep|..k] == sep && s[k..] == Last(SplitOn(s, sep))
    decreases |s|
  {
    if !Contains(s, sep) {
      return;
    }
    var i := Find(s, sep).value;
    FindBound(s, sep, i);
    SplitOnFound(s, sep, i);
    FindOccurs(s, sep);
    var j := i + |sep|;
    var rest := s[j..];
    LastCons(s[..i], SplitOn(rest, sep));
    if Contains(rest, sep) {
      SplitOnLastAfterSep(rest, sep);
      var k :| |sep| <= k <= |rest| && rest[k - |sep|..k] == sep && rest[k..] == Last(SplitOn(rest, sep));
      DropDrop(s, j, k);
      SubSlice(s, j, k - |sep|, k);
      assert s[j + k - |sep|..j + k] == sep && s[j + k..] == Last(SplitOn(s, sep));
    } else {
      assert SplitOn(rest, sep) == [rest];
      assert s[j - |sep|..j] == sep && s[j..] == Last(SplitOn(s, sep));
    }
  }

  /** Finding a character that does not occur in the prefix `a` stops right after it. */
  lemma FindCharAfter(a: string, c: char, b: string)
    requires c !in a
    ensures Find(a + [c] + b, [c]) == Some(|a|)
    ensures Find(a, [c]) == None
  {
    var s := a + [c] + b;
    assert s[|a|..|a| + 1] == [c];
    FindBefore(s, [c], |a|);
    FindOccurs(s, [c]);
    var j := Find(s, [c]).value;
    assert s[j] == s[j..j + 1][0] == c;
    FindOccurs(a, [c]);
  }

  /** Splitting a join on a one-character separator gives back the pieces,
      when no piece contains that character. */
  lemma {:induction false} SplitJoin(parts: seq<string>, c: char)
    requires |parts| >= 1
    requires forall k :: 0 <= k < |parts| ==> c !in parts[k]
    ensures SplitOn(Join(parts, [c]), [c]) == parts
    decreases |parts|
  {
    if |parts| == 1 {
      FindCharAfter(parts[0], c, "");
    } else {
      var rest := Join(parts[1..], [c]);
      assert Join(parts, [c]) == parts[0] + [c] + rest;
      FindCharAfter(parts[0], c, rest);
      SplitJoin(parts[1..], c);
      assert (parts[0] + [c] + rest)[|parts[0]| + 1..] == rest;
      assert (parts[0] + [c] + rest)[..|parts[0]|] == parts[0];
    }
  }

  /** Each piece with `sep` put in front of it. */
  function Prefixed(sep: string, parts: seq<string>): (r: seq<string>)
    ensures |r| == |parts|
    ensures forall k :: 0 <= k < |parts| ==> r[k] == sep + parts[k]
  {
    seq(|parts|, k requires 0 <= k < |parts| => sep + parts[k])
  }

  /** `sep.join(parts)` is the first piece followed by every other piece with
      the separator in front of it. */
  lemma {:induction false} JoinAsConcat(parts: seq<string>, sep: string)
    requires |parts| >= 1
    ensures Join(parts, sep) == parts[0] + Concat(Prefixed(sep, parts[1..]))
    decreases |parts|
  {
    if |parts| > 1 {
      JoinAsConcat(parts[1..], sep);
      assert parts[1..][1..] == parts[2..];
      assert Prefixed(sep, parts[1..])[1..] == Prefixed(sep, parts[2..]);
    }
  }

  /** No piece in `parts` contains `sep`. */
  predicate NoPieceContains(parts: seq<string>, sep: string)
  {
    forall k :: 0 <= k < |parts| ==> !Contains(parts[k], sep)
  }

  lemma NoPieceContainsTail(parts: seq<string>, sep: string)
    requires |parts| > 0 && NoPieceContains(parts, sep)
    ensures NoPieceContains(parts[1..], sep)
  {
    forall k | 0 <= k < |parts| - 1 ensures !Contains(parts[1..][k], sep) {
      assert parts[1..][k] == parts[k + 1];
    }
  }

  /** A string in which `[c]` does not occur holds no `c`. */
  lemma NoCharIfNotContained(s: string, c: char)
    requires !Contains(s, [c])
    ensures c !in s
  {
    if c in s {
      var j :| 0 <= j < |s| && s[j] == c;
      assert s[j..j + 1] == [c];
      FindBefore(s, [c], j);
    }
  }

  lemma NoPieceContainsCons(x: string, xs: seq<string>, sep: string)
    requires !Contains(x, sep) && NoPieceContains(xs, sep)
    ensures NoPieceContains([x] + xs, sep)
  {
    forall k | 0 <= k < |[x] + xs| ensures !Contains(([x] + xs)[k], sep) {
      if k > 0 {
        assert ([x] + xs)[k] == xs[k - 1];
      }
    }
  }

  /** The text before the first separator holds no separator. */
  lemma NothingBeforeFind(s: string, sep: string, i: nat)
    requires |sep| > 0 && Find(s, sep) == Some(i) && i <= |s|
    ensures !Contains(s[..i], sep)
  {
    if Contains(s[..i], sep) {
      var j := Find(s[..i], sep).value;
      FindOccurs(s[..i], sep);
      OccursInPrefix(s, sep, i, j);
      FindBefore(s, sep, j);
      assert false;
    }
  }

  /** No piece of a split contains the separator. */
  lemma {:induction false} SplitOnPieces(s: string, sep: string)
    requires |sep| > 0
    ensures NoPieceContains(SplitOn(s, sep), sep)
    decreases |s|
  {
    var f := Find(s, sep);
    if f.None? {
      assert SplitOn(s, sep) == [s];
    } else {
      var i := f.value;
      FindBound(s, sep, i);
      SplitOnFound(s, sep, i);
      var rest := s[i + |sep|..];
      SplitOnPieces(rest, sep);
      NothingBeforeFind(s, sep, i);
      NoPieceContainsCons(s[..i], SplitOn(rest, sep), sep);
    }
  }

  function DigitChar(d: nat): char
    requires d < 10
  {
    "0123456789"[d]
  }

  /** Python's `str(n)` for a natural number: its decimal digits. */
  function Digits(n: nat): (r: string)
    ensures |r| >= 1
    decreases n
  {
    if n < 10 then [DigitChar(n)] else Digits(n / 10) + [DigitChar(n % 10)]
  }

  /** Python's `str(i)` for an integer. */
  function IntToDecimal(i: int): string
  {
    if i < 0 then "-" + Digits(-i) else Digits(i)
  }

  /** Python's `str.isspace` for one character. */
  predicate IsSpace(c: char)
  {
    c == ' ' || ('\t' <= c <= '\r') || ('\U{1C}' <= c <= '\U{1F}') || c == '\U{85}' || c == '\U{A0}'
    || c == '\U{1680}' || ('\U{2000}' <= c <= '\U{200A}') || c == '\U{2028}' || c == '\U{2029}'
    || c == '\U{202F}' || c == '\U{205F}' || c == '\U{3000}'
  }

  /** Length of the run of whitespace at the start of `s`. */
  function SpaceRun(s: string): (n: nat)
    ensures n <= |s|
    ensures forall k :: 0 <= k < n ==> IsSpace(s[k])
    ensures n < |s| ==> !IsSpace(s[n])
  {
    if |s| == 0 || !IsSpace(s[0]) then 0 else 1 + SpaceRun(s[1..])
  }

  /** Length of the run of non-whitespace characters at the start of `s`. */
  function WordRun(s: string): (n: nat)
    ensures n <= |s|
    ensures forall k :: 0 <= k < n ==> !IsSpace(s[k])
    ensures n < |s| ==> IsSpace(s[n])
  {
    if |s| == 0 || IsSpace(s[0]) then 0 else 1 + WordRun(s[1..])
  }

  /** Python's `s.split()`: the maximal runs of non-whitespace characters. */
  function SplitWhitespace(s: string): seq<string>
    decreases |s|
  {
    var t := s[SpaceRun(s)..];
    if |t| == 0 then []
    else
      var n := WordRun(t);
      [t[..n]] + SplitWhitespace(t[n..])
  }

  /** The non-whitespace characters of `s`, in order. */
  function NonSpace(s: string): string
  {
    if |s| == 0 then "" else (if IsSpace(s[0]) then "" else [s[0]]) + NonSpace(s[1..])
  }

  lemma {:induction false} NonSpaceAppend(a: string, b: string)
    ensures NonSpace(a + b) == NonSpace(a) + NonSpace(b)
    decreases |a|
  {
    if |a| > 0 {
      assert (a + b)[1..] == a[1..] + b;
      NonSpaceAppend(a[1..], b);
    } else {
      assert a + b == b;
    }
  }

  lemma {:induction false} NonSpaceOfRun(s: string, spaces: bool)
    requires forall k :: 0 <= k < |s| ==> IsSpace(s[k]) == spaces
    ensures NonSpace(s) == if spaces then "" else s
    decreases |s|
  {
    if |s| > 0 {
      NonSpaceOfRun(s[1..], spaces);
    }
  }

  /** A non-empty run of non-whitespace characters. */
  predicate IsWord(w: string)
  {
    |w| > 0 && forall j :: 0 <= j < |w| ==> !IsSpace(w[j])
  }

  /** Every element of `ws` is a word. */
  predicate AllWords(ws: seq<string>)
  {
    forall k :: 0 <= k < |ws| ==> IsWord(ws[k])
  }

  lemma AllWordsCons(w: string, ws: seq<string>)
    requires IsWord(w) && AllWords(ws)
    ensures AllWords([w] + ws)
  {
    forall k | 0 <= k < |[w] + ws| ensures IsWord(([w] + ws)[k]) {
      if k > 0 {
        assert ([w] + ws)[k] == ws[k - 1];
      }
    }
  }

  lemma AllWordsTail(ws: seq<string>)
    requires |ws| > 0 && AllWords(ws)
    ensures IsWord(ws[0]) && AllWords(ws[1..])
  {
    forall k | 0 <= k < |ws[1..]| ensures IsWord(ws[1..][k]) {
      assert ws[1..][k] == ws[k + 1];
    }
  }

  /** One step of `split()`: skip the leading whitespace, then take the word
      that follows it. */
  lemma SplitWhitespaceStep(s: string)
    ensures var t := s[SpaceRun(s)..];
      && (|t| == 0 ==> SplitWhitespace(s) == [])
      && (|t| > 0 ==> IsWord(t[..WordRun(t)]))
      && (|t| > 0 ==> SplitWhitespace(s) == [t[..WordRun(t)]] + SplitWhitespace(t[WordRun(t)..]))
  {
    var t := s[SpaceRun(s)..];
    if |t| > 0 {
      assert t[0] == s[SpaceRun(s)];
      assert WordRun(t) > 0;
    }
  }

  /** Every piece of `split()` is a non-empty word without whitespace. */
  lemma {:induction false} SplitWhitespaceWords(s: string)
    ensures AllWords(SplitWhitespace(s))
    decreases |s|
  {
    SplitWhitespaceStep(s);
    var t := s[SpaceRun(s)..];
    if |t| > 0 {
      var n := WordRun(t);
      SplitWhitespaceWords(t[n..]);
      AllWordsCons(t[..n], SplitWhitespace(t[n..]));
    }
  }

  /** Leading whitespace adds nothing to the non-whitespace text. */
  lemma NonSpaceSkip(s: string)
    ensures NonSpace(s) == NonSpace(s[SpaceRun(s)..])
  {
    var m := SpaceRun(s);
    assert s == s[..m] + s[m..];
    NonSpaceAppend(s[..m], s[m..]);
    NonSpaceOfRun(s[..m], true);
  }

  /** A leading word is all non-whitespace text. */
  lemma NonSpaceWord(t: string)
    ensures NonSpace(t) == t[..WordRun(t)] + NonSpace(t[WordRun(t)..])
  {
    var n := WordRun(t);
    assert t == t[..n] + t[n..];
    NonSpaceAppend(t[..n], t[n..]);
    NonSpaceOfRun(t[..n], false);
  }

  lemma ConcatCons(x: string, xs: seq<string>)
    ensures Concat([x] + xs) == x + Concat(xs)
  {
    assert ([x] + xs)[1..] == xs;
  }

  /** The pieces of `split()` together hold exactly the non-whitespace
      characters of `s`, in order. */
  lemma {:induction false} SplitWhitespaceKeepsText(s: string)
    ensures Concat(SplitWhitespace(s)) == NonSpace(s)
    decreases |s|
  {
    SplitWhitespaceStep(s);
    NonSpaceSkip(s);
    var t := s[SpaceRun(s)..];
    if |t| > 0 {
      var n := WordRun(t);
      NonSpaceWord(t);
      SplitWhitespaceKeepsText(t[n..]);
      ConcatCons(t[..n], SplitWhitespace(t[n..]));
    } else {
      assert NonSpace(t) == "";
    }
  }

  lemma {:induction false} WordRunOfWord(w: string, rest: string)
    requires IsWord(w) && (|rest| == 0 || IsSpace(rest[0]))
    ensures WordRun(w + rest) == |w|
    decreases |w|
  {
    assert (w + rest)[0] == w[0];
    if |w| > 1 {
      assert (w + rest)[1..] == w[1..] + rest;
      WordRunOfWord(w[1..], rest);
    } else {
      assert (w + rest)[1..] == rest;
    }
  }

  lemma SplitWhitespaceAfterWord(w: string, rest: string)
    requires IsWord(w) && (|rest| == 0 || IsSpace(rest[0]))
    ensures SplitWhitespace(w + rest) == [w] + SplitWhitespace(rest)
  {
    var s := w + rest;
    WordRunOfWord(w, rest);
    assert s[0] == w[0];
    assert SpaceRun(s) == 0;
    assert s[0..] == s;
    assert s[..|w|] == w;
    assert s[|w|..] == rest;
  }

  lemma SplitWhitespaceAfterSpace(j: string)
    ensures SplitWhitespace(" " + j) == SplitWhitespace(j)
  {
    assert (" " + j)[1..] == j;
    assert SpaceRun(" " + j) == 1 + SpaceRun(j);
    assert (" " + j)[1 + SpaceRun(j)..] == j[SpaceRun(j)..];
  }

  lemma SplitWhitespaceOneWord(w: string)
    requires IsWord(w)
    ensures SplitWhitespace(w) == [w]
  {
    SplitWhitespaceAfterWord(w, "");
    assert w + "" == w;
  }

  lemma JoinSpaceStep(words: seq<string>)
    requires |words| > 1
    ensures Join(words, " ") == words[0] + (" " + Join(words[1..], " "))
  {
    JoinCons(words[0], words[1..], " ");
    assert [words[0]] + words[1..] == words;
  }

  /** Words joined by single spaces split back into the same words. */
  lemma {:induction false} SplitWhitespaceJoin(words: seq<string>)
    requires AllWords(words)
    ensures SplitWhitespace(Join(words, " ")) == words
    decreases |words|
  {
    if |words| == 1 {
      AllWordsTail(words);
      SplitWhitespaceOneWord(words[0]);
    } else if |words| > 1 {
      AllWordsTail(words);
      var w, j := words[0], Join(words[1..], " ");
      calc {
        SplitWhitespace(Join(words, " "));
        == { JoinSpaceStep(words); }
        SplitWhitespace(w + (" " + j));
        == { SplitWhitespaceAfterWord(w, " " + j); }
        [w] + SplitWhitespace(" " + j);
        == { SplitWhitespaceAfterSpace(j); }
        [w] + SplitWhitespace(j);
        == { SplitWhitespaceJoin(words[1..]); }
        [w] + words[1..];
        == { assert [w] + words[1..] == words; }
        words;
      }
    }
  }

  /** Python's `a <= b` on strings: lexicographic by code point. */
  predicate StrLe(a: string, b: string)
    decreases |a|
  {
    |a| == 0 || (|b| > 0 && (a[0] < b[0] || (a[0] == b[0] && StrLe(a[1..], b[1..]))))
  }

  lemma {:induction false} StrLeTotal(a: string, b: string)
    ensures StrLe(a, b) || StrLe(b, a)
    decreases |a|
  {
    if |a| > 0 && |b| > 0 && a[0] == b[0] {
      StrLeTotal(a[1..], b[1..]);
    }
  }

  lemma {:induction false} StrLeTrans(a: string, b: string, c: string)
    requires StrLe(a, b) && StrLe(b, c)
    ensures StrLe(a, c)
    decreases |a|
  {
    if |a| > 0 && a[0] == b[0] && b[0] == c[0] {
      StrLeTrans(a[1..], b[1..], c[1..]);
    }
  }

  lemma {:induction false} StrLeAntisymmetric(a: string, b: string)
    requires StrLe(a, b) && StrLe(b, a)
    ensures a == b
    decreases |a|
  {
    if |a| > 0 {
      StrLeAntisymmetric(a[1..], b[1..]);
      assert a == [a[0]] + a[1..] && b == [b[0]] + b[1..];
    }
  }
}
