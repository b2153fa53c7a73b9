/** The parts of Python's `pathlib.PurePath` the modelled code relies on,
    applied to the final path component (`path.name`), with the semantics of
    CPython 3.11 and 3.12. */
module Paths {
  import opened Common
  import opened Strings

  /** `PurePath.suffix`: from the last dot to the end, unless that dot is the
      first or the last character of the name. */
  function Suffix(name: string): (r: string)
    ensures r != "" ==> |r| >= 2 && r[0] == '.' && '.' !in r[1..]
    ensures r != "" ==> exists k :: 0 < k < |name| && name[k..] == r
  {
    match RFind(name, '.')
    case Some(i) =>
      if 0 < i < |name| - 1 then
        assert name[i..][1..] == name[i + 1..];
        name[i..]
      else ""
    case None => ""
  }

  /** Length of the run of `c` at the start of `s`. */
  function LeadingRun(s: string, c: char): (n: nat)
    ensures n <= |s|
    ensures forall k :: 0 <= k < n ==> s[k] == c
    ensures n < |s| ==> s[n] != c
  {
    if |s| == 0 || s[0] != c then 0 else 1 + LeadingRun(s[1..], c)
  }

  /** `PurePath.suffixes`: none when the name ends with a dot; otherwise the
      name without its leading dots is split on dots and every piece after the
      first becomes a suffix. */
  function Suffixes(name: string): seq<string>
  {
    if |name| > 0 && name[|name| - 1] == '.' then []
    else Prefixed(".", SplitOn(name[LeadingRun(name, '.')..], ".")[1..])
  }

  /** The suffixes, joined, are the end of the name; each is a dot followed by
      a dot-free piece. */
  lemma SuffixesTail(name: string)
    ensures |Concat(Suffixes(name))| <= |name|
    ensures name[|name| - |Concat(Suffixes(name))|..] == Concat(Suffixes(name))
    ensures forall k :: 0 <= k < |Suffixes(name)| ==>
      Suffixes(name)[k][0] == '.' && '.' !in Suffixes(name)[k][1..]
  {
    if !(|name| > 0 && name[|name| - 1] == '.') {
      var m := LeadingRun(name, '.');
      var t := name[m..];
      var segs := SplitOn(t, ".");
      var sfx := Prefixed(".", segs[1..]);
      assert Suffixes(name) == sfx;
      JoinSplit(t, ".");
      JoinAsConcat(segs, ".");
      assert t == segs[0] + Concat(sfx);
      assert name == name[..m] + t;
      EndOfConcat(name, name[..m], segs[0], Concat(sfx));
      SplitOnPieces(t, ".");
      NoPieceContainsTail(segs, ".");
      DotFreeSuffixes(segs[1..]);
    }
  }

  lemma EndOfConcat(s: string, a: string, b: string, c: string)
    requires s == a + (b + c)
    ensures |c| <= |s| && s[|s| - |c|..] == c
  {
    assert s == (a + b) + c;
  }

  /** Pieces without a dot, each with a dot put in front, are suffixes with
      one leading dot and no other. */
  lemma DotFreeSuffixes(pieces: seq<string>)
    requires NoPieceContains(pieces, ".")
    ensures forall k :: 0 <= k < |Prefixed(".", pieces)| ==>
      Prefixed(".", pieces)[k][0] == '.' && '.' !in Prefixed(".", pieces)[k][1..]
  {
    forall k | 0 <= k < |pieces| ensures '.' !in Prefixed(".", pieces)[k][1..] {
      assert Prefixed(".", pieces)[k][1..] == pieces[k];
      NoCharIfNotContained(pieces[k], '.');
    }
  }

  /** A name with exactly one dot, neither first nor last, has that one
      suffix, both as `suffix` and as `suffixes`. */
  lemma SingleSuffix(stem: string, ext: string)
    requires |stem| > 0 && stem[0] != '.' && |ext| > 0
    requires '.' !in stem && '.' !in ext
    ensures Suffixes(stem + "." + ext) == ["." + ext]
    ensures Suffix(stem + "." + ext) == "." + ext
  {
    var name := stem + "." + ext;
    assert name[0] == stem[0];
    assert LeadingRun(name, '.') == 0;
    assert name[0..] == name;
    calc {
      SplitOn(name, ".");
      == { FindCharAfter(stem, '.', ext); FindBound(name, ".", |stem|); SplitOnFound(name, ".", |stem|); }
      [name[..|stem|]] + SplitOn(name[|stem| + 1..], ".");
      == { assert name[..|stem|] == stem; assert name[|stem| + 1..] == ext; }
      [stem] + SplitOn(ext, ".");
      == { FindCharAfter(ext, '.', ""); assert SplitOn(ext, ".") == [ext]; }
      [stem, ext];
    }
    assert [stem, ext][1..] == [ext];
    SingleDot(stem, ext);
  }

  /** The one dot of `stem + "." + ext` is the last one, so it starts the
      suffix. */
  lemma SingleDot(stem: string, ext: string)
    requires |stem| > 0 && |ext| > 0 && '.' !in ext
    ensures Suffix(stem + "." + ext) == "." + ext
  {
    var name := stem + "." + ext;
    assert name[|stem|] == '.';
    forall k | |stem| < k < |name| ensures name[k] != '.' {
      assert name[k] == ext[k - |stem| - 1];
    }
    assert RFind(name, '.') == Some(|stem|);
    assert name[|stem|..] == "." + ext;
  }
}
