/** The helpers of `src/helper/general.ts`: capitalisation, avatar initials,
    the thousands separator, `m:ss` time formatting, the image-URL rewrite
    and the category-tree flattener. */
module General {
  import opened Wrappers
  import opened JsStrings

  // ---------------------------------------------------------------------
  // capitalizeFirstLetter
  // ---------------------------------------------------------------------

  /** `capitalizeFirstLetter`: the empty string stays empty; otherwise the
      first character is upper-cased and the rest is kept. */
  function CapitalizeFirstLetter(s: string): (r: string)
    ensures |r| == |s|
    ensures s != [] ==> r[0] == ToUpper(s[0]) && r[1..] == s[1..]
  {
    if s == [] then [] else [ToUpper(s[0])] + s[1..]
  }

  /** Capitalising twice is capitalising once. */
  lemma CapitalizeIdempotent(s: string)
    ensures CapitalizeFirstLetter(CapitalizeFirstLetter(s)) == CapitalizeFirstLetter(s)
  {
  }

  // ---------------------------------------------------------------------
  // getAvatarFallback
  // ---------------------------------------------------------------------

  /** `t.split(/\s+/)`: the pieces between maximal runs of whitespace; a
      leading run yields an empty first piece, a trailing run an empty
      last piece, and the empty string yields `[""]`. */
  function SplitOnSpaceRuns(t: string): (pieces: seq<string>)
    ensures |pieces| >= 1
    decreases |t|
  {
    if t == [] then [""]
    else if IsSpace(t[0]) then
      assert TrimStart(t) == TrimStart(t[1..]);
      [""] + SplitOnSpaceRuns(TrimStart(t))
    else
      var rest := SplitOnSpaceRuns(t[1..]);
      [[t[0]] + rest[0]] + rest[1..]
  }

  /** The maximal runs of whitespace in `t`, in order: the separators that
      `split(/\s+/)` removes. */
  function SpaceRuns(t: string): seq<string>
    decreases |t|
  {
    if t == [] then []
    else if IsSpace(t[0]) then
      var u := TrimStart(t);
      [t[..|t| - |u|]] + SpaceRuns(u)
    else SpaceRuns(t[1..])
  }

  /** The pieces with the separators put back between them. */
  function Interleave(pieces: seq<string>, seps: seq<string>): string
    requires |pieces| == |seps| + 1
    decreases |seps|
  {
    if seps == [] then pieces[0] else pieces[0] + seps[0] + Interleave(pieces[1..], seps[1..])
  }

  /** Every separator is a non-empty run of whitespace, and putting the
      separators back between the pieces gives `t` again. */
  predicate JoinsBack(t: string) {
    var pieces, seps := SplitOnSpaceRuns(t), SpaceRuns(t);
    |pieces| == |seps| + 1 && Interleave(pieces, seps) == t && AllRuns(seps)
  }

  /** Every separator is a non-empty run of whitespace. */
  predicate AllRuns(seps: seq<string>) {
    forall k :: 0 <= k < |seps| ==> seps[k] != [] && IsBlank(seps[k])
  }

  lemma AllRunsCons(run: string, seps: seq<string>)
    requires run != [] && IsBlank(run) && AllRuns(seps)
    ensures AllRuns([run] + seps)
  {
    forall k | 0 <= k < |[run] + seps| ensures ([run] + seps)[k] != [] && IsBlank(([run] + seps)[k]) {
      if k > 0 {
        assert ([run] + seps)[k] == seps[k - 1];
      }
    }
  }

  /** An empty first piece contributes nothing before the first separator. */
  lemma InterleaveAfterEmpty(pieces: seq<string>, sep: string, seps: seq<string>)
    requires |pieces| == |seps| + 1
    ensures Interleave([""] + pieces, [sep] + seps) == sep + Interleave(pieces, seps)
  {
    assert ([""] + pieces)[1..] == pieces && ([sep] + seps)[1..] == seps;
    assert "" + sep == sep;
  }

  /** One step of the split at a leading whitespace run. */
  lemma SplitAtRun(t: string)
    requires t != [] && IsSpace(t[0])
    ensures var u := TrimStart(t);
      SplitOnSpaceRuns(t) == [""] + SplitOnSpaceRuns(u) && SpaceRuns(t) == [t[..|t| - |u|]] + SpaceRuns(u)
  {
  }

  /** Putting back a leading run in front of what the rest joins to. */
  lemma InterleaveAfterRun(pieces: seq<string>, seps: seq<string>, run: string, rest: string)
    requires |pieces| == |seps| + 1 && Interleave(pieces, seps) == rest
    ensures |[""] + pieces| == |[run] + seps| + 1
    ensures Interleave([""] + pieces, [run] + seps) == run + rest
  {
    InterleaveAfterEmpty(pieces, run, seps);
  }

  lemma JoinsBackAfterRun(t: string)
    requires t != [] && IsSpace(t[0])
    requires JoinsBack(TrimStart(t))
    ensures JoinsBack(t)
  {
    var u := TrimStart(t);
    var n := |t| - |u|;
    var run := t[..n];
    SplitAtRun(t);
    InterleaveAfterRun(SplitOnSpaceRuns(u), SpaceRuns(u), run, u);
    ConcatSlices(t, n);
    assert IsBlank(run) by {
      forall i | 0 <= i < n ensures IsSpace(run[i]) {
        assert run[i] == t[i];
      }
    }
    AllRunsCons(run, SpaceRuns(u));
  }

  lemma ConcatSlices(t: string, n: nat)
    requires n <= |t|
    ensures t[..n] + t[n..] == t
  {
  }

  lemma JoinsBackAfterChar(t: string)
    requires t != [] && !IsSpace(t[0])
    requires JoinsBack(t[1..])
    ensures JoinsBack(t)
  {
    SplitAtChar(t);
    InterleaveAfterChar(t[0], SplitOnSpaceRuns(t[1..]), SpaceRuns(t));
    assert [t[0]] + t[1..] == t;
  }

  /** A character put in front of the first piece comes out in front of
      the whole interleaving. */
  lemma InterleaveAfterChar(c: char, pieces: seq<string>, seps: seq<string>)
    requires |pieces| == |seps| + 1
    ensures Interleave([[c] + pieces[0]] + pieces[1..], seps) == [c] + Interleave(pieces, seps)
  {
    var longer := [[c] + pieces[0]] + pieces[1..];
    assert longer[0] == [c] + pieces[0] && longer[1..] == pieces[1..];
    if seps != [] {
      var tail := seps[0] + Interleave(pieces[1..], seps[1..]);
      assert Interleave(longer, seps) == ([c] + pieces[0]) + tail;
      assert Interleave(pieces, seps) == pieces[0] + tail;
    }
  }

  /** `split(/\s+/)` cuts `t` at its whitespace runs and nowhere else. */
  lemma {:induction false} SplitOnSpaceRunsJoinsBack(t: string)
    ensures JoinsBack(t)
    decreases |t|
  {
    if t == [] {
      assert SplitOnSpaceRuns(t) == [""] && SpaceRuns(t) == [];
    } else if IsSpace(t[0]) {
      SplitOnSpaceRunsJoinsBack(TrimStart(t));
      JoinsBackAfterRun(t);
    } else {
      SplitOnSpaceRunsJoinsBack(t[1..]);
      JoinsBackAfterChar(t);
    }
  }

  /** One step of the split at a leading non-space character. */
  lemma SplitAtChar(t: string)
    requires t != [] && !IsSpace(t[0])
    ensures var rest := SplitOnSpaceRuns(t[1..]);
      SplitOnSpaceRuns(t) == [[t[0]] + rest[0]] + rest[1..] && SpaceRuns(t) == SpaceRuns(t[1..])
  {
  }

  /** No piece holds a whitespace character. */
  predicate NoSpaceInPieces(pieces: seq<string>) {
    forall k, i :: 0 <= k < |pieces| && 0 <= i < |pieces[k]| ==> !IsSpace(pieces[k][i])
  }

  lemma NoSpaceAfterEmpty(pieces: seq<string>)
    requires NoSpaceInPieces(pieces)
    ensures NoSpaceInPieces([""] + pieces)
  {
    forall k, i | 0 <= k < |[""] + pieces| && 0 <= i < |([""] + pieces)[k]| ensures !IsSpace(([""] + pieces)[k][i]) {
      assert ([""] + pieces)[k] == pieces[k - 1];
    }
  }

  lemma NoSpaceExtendFirst(c: char, pieces: seq<string>)
    requires pieces != [] && !IsSpace(c) && NoSpaceInPieces(pieces)
    ensures NoSpaceInPieces([[c] + pieces[0]] + pieces[1..])
  {
    var r := [[c] + pieces[0]] + pieces[1..];
    forall k, i | 0 <= k < |r| && 0 <= i < |r[k]| ensures !IsSpace(r[k][i]) {
      if k == 0 && i > 0 {
        assert r[0][i] == pieces[0][i - 1];
      } else if k > 0 {
        assert r[k] == pieces[k];
      }
    }
  }

  /** No piece of `split(/\s+/)` holds a whitespace character. */
  lemma {:induction false} SplitPiecesHaveNoSpace(t: string)
    ensures NoSpaceInPieces(SplitOnSpaceRuns(t))
    decreases |t|
  {
    if t == [] {
      assert SplitOnSpaceRuns(t) == [""];
    } else if IsSpace(t[0]) {
      SplitPiecesHaveNoSpace(TrimStart(t));
      SplitAtRun(t);
      NoSpaceAfterEmpty(SplitOnSpaceRuns(TrimStart(t)));
    } else {
      SplitPiecesHaveNoSpace(t[1..]);
      SplitAtChar(t);
      NoSpaceExtendFirst(t[0], SplitOnSpaceRuns(t[1..]));
    }
  }

  /** The index just after the last whitespace character of `t`, or 0 when
      there is none: where the last word starts. */
  function LastWordStart(t: string): (j: nat)
    ensures j <= |t|
    ensures forall i :: j <= i < |t| ==> !IsSpace(t[i])
    ensures j > 0 ==> IsSpace(t[j - 1])
  {
    if t == [] then 0 else if IsSpace(t[|t| - 1]) then |t| else LastWordStart(t[..|t| - 1])
  }

  /** Only one index has the two properties `LastWordStart` promises. */
  lemma LastWordStartUnique(t: string, j: nat)
    requires j <= |t|
    requires forall i :: j <= i < |t| ==> !IsSpace(t[i])
    requires j > 0 ==> IsSpace(t[j - 1])
    ensures j == LastWordStart(t)
  {
  }

  /** With at least one separator, the text ends with the last separator
      followed by the last piece. */
  lemma {:induction false} InterleaveEnds(pieces: seq<string>, seps: seq<string>)
    requires |pieces| == |seps| + 1 && seps != []
    ensures var t, last, sep := Interleave(pieces, seps), pieces[|pieces| - 1], seps[|seps| - 1];
      |t| >= |sep| + |last| && t[|t| - |last|..] == last && t[|t| - |last| - |sep|..|t| - |last|] == sep
    decreases |seps|
  {
    var t := Interleave(pieces, seps);
    var last, sep := pieces[|pieces| - 1], seps[|seps| - 1];
    if |seps| == 1 {
      assert seps[1..] == [] && Interleave(pieces[1..], seps[1..]) == last;
      assert t == (pieces[0] + sep) + last;
      assert t == pieces[0] + (sep + last);
      AppendKeepsSlice(pieces[0], sep + last, 0, |sep|);
      AppendKeepsSlice(pieces[0], sep + last, |sep|, |sep| + |last|);
    } else {
      var head := pieces[0] + seps[0];
      var rest := Interleave(pieces[1..], seps[1..]);
      assert t == head + rest;
      InterleaveEnds(pieces[1..], seps[1..]);
      assert pieces[1..][|pieces| - 2] == last && seps[1..][|seps| - 2] == sep;
      AppendKeepsSlice(head, rest, |rest| - |last|, |rest|);
      AppendKeepsSlice(head, rest, |rest| - |last| - |sep|, |rest| - |last|);
    }
  }

  lemma AppendKeepsSlice(head: string, rest: string, i: nat, j: nat)
    requires i <= j <= |rest|
    ensures (head + rest)[|head| + i..|head| + j] == rest[i..j]
  {
  }

  /** The last piece of `split(/\s+/)` is the text after the last
      whitespace character, and the split has two pieces or more exactly
      when the text holds whitespace. */
  lemma SplitLastPiece(t: string)
    ensures var p := SplitOnSpaceRuns(t);
      p[|p| - 1] == t[LastWordStart(t)..] && (|p| >= 2 <==> LastWordStart(t) > 0)
  {
    var p, seps := SplitOnSpaceRuns(t), SpaceRuns(t);
    SplitOnSpaceRunsJoinsBack(t);
    SplitPiecesHaveNoSpace(t);
    var last := p[|p| - 1];
    PieceHasNoSpace(p, |p| - 1);
    if seps == [] {
      assert t == last;
      WordHasNoBreak(t);
    } else {
      InterleaveEnds(p, seps);
      var sep := seps[|seps| - 1];
      assert sep != [] && IsBlank(sep);
      WordAfterRun(t, last, sep);
    }
  }

  lemma PieceHasNoSpace(pieces: seq<string>, k: nat)
    requires k < |pieces| && NoSpaceInPieces(pieces)
    ensures forall i :: 0 <= i < |pieces[k]| ==> !IsSpace(pieces[k][i])
  {
  }

  /** A text with no whitespace is one word starting at 0. */
  lemma WordHasNoBreak(t: string)
    requires forall i :: 0 <= i < |t| ==> !IsSpace(t[i])
    ensures LastWordStart(t) == 0
  {
    LastWordStartUnique(t, 0);
  }

  /** A text ending in a whitespace run and then a space-free word has its
      last word start where that word does. */
  lemma WordAfterRun(t: string, last: string, sep: string)
    requires |t| >= |sep| + |last|
    requires t[|t| - |last|..] == last && t[|t| - |last| - |sep|..|t| - |last|] == sep
    requires sep != [] && IsBlank(sep)
    requires forall i :: 0 <= i < |last| ==> !IsSpace(last[i])
    ensures LastWordStart(t) == |t| - |last|
  {
    var j := |t| - |last|;
    assert t[j - 1] == sep[|sep| - 1];
    forall i | j <= i < |t| ensures !IsSpace(t[i]) {
      assert t[i] == last[i - j];
    }
    LastWordStartUnique(t, j);
  }

  /** `name.trim().split(/\s+/)`. */
  function Words(name: string): seq<string> {
    SplitOnSpaceRuns(Trim(name))
  }

  /** `getAvatarFallback(name)`. `None` stands for the TypeError the source
      raises when it reads the first character of an empty word, which
      happens for a non-empty name made only of whitespace. */
  function GetAvatarFallback(name: string): (r: Option<string>)
    ensures name == [] ==> r == Some("")
    ensures name != [] && IsBlank(name) ==> r.None?
    ensures r.Some? ==> |r.value| <= 2
  {
    TrimEmptyIffBlank(name);
    if name == [] then Some("")
    else
      var words := Words(name);
      var last := words[|words| - 1];
      if words[0] == [] then None
      else if |words| > 1 && last == [] then None
      else Some([ToUpper(words[0][0])] + (if |words| > 1 then [ToUpper(last[0])] else []))
  }

  /** A string that starts with a non-space character splits into a first
      piece that starts with that character. */
  lemma FirstPieceStarts(t: string)
    requires t != [] && !IsSpace(t[0])
    ensures var p := SplitOnSpaceRuns(t); p[0] != [] && p[0][0] == t[0]
  {
  }

  /** A string that ends with a non-space character splits into a last
      piece that is not empty. */
  lemma {:induction false} LastPieceNonEmpty(t: string)
    requires t != [] && !IsSpace(t[|t| - 1])
    ensures var p := SplitOnSpaceRuns(t); p[|p| - 1] != []
    decreases |t|
  {
    var p := SplitOnSpaceRuns(t);
    if IsSpace(t[0]) {
      var u := TrimStart(t);
      assert u != [] && u[|u| - 1] == t[|t| - 1];
      LastPieceNonEmpty(u);
      assert p == [""] + SplitOnSpaceRuns(u);
    } else if |t| > 1 {
      var u := t[1..];
      assert u[|u| - 1] == t[|t| - 1];
      LastPieceNonEmpty(u);
    }
  }

  /** For a name with a non-space character the initials exist: one or two
      characters, the first being the upper-cased first character of the
      trimmed name, and two exactly when the name has two or more words. */
  lemma AvatarOfNonBlankName(name: string)
    requires !IsBlank(name)
    ensures var r := GetAvatarFallback(name);
      r.Some? && 1 <= |r.value| <= 2 &&
      r.value[0] == ToUpper(Trim(name)[0]) &&
      (|r.value| == 2 <==> |Words(name)| >= 2) &&
      (|r.value| == 2 <==> LastWordStart(Trim(name)) > 0) &&
      (|r.value| == 2 ==> r.value[1] == ToUpper(Trim(name)[LastWordStart(Trim(name))]))
  {
    AvatarOfWords(name);
    SplitLastPiece(Trim(name));
  }

  /** For a name with a non-space character, the first and last words are
      non-empty and the initials are read off them. */
  lemma AvatarOfWords(name: string)
    requires !IsBlank(name)
    ensures var t, words := Trim(name), Words(name);
      t != [] && words[0] != [] && words[|words| - 1] != [] && words[0][0] == t[0] &&
      GetAvatarFallback(name) ==
        Some([ToUpper(t[0])] + (if |words| > 1 then [ToUpper(words[|words| - 1][0])] else []))
  {
    TrimEmptyIffBlank(name);
    var t := Trim(name);
    TrimEnds(name);
    FirstPieceStarts(t);
    LastPieceNonEmpty(t);
    assert name != [];
  }

  /** A name made only of whitespace (and not empty) makes the source throw;
      the empty name gives the empty string. */
  lemma AvatarOfBlankName(name: string)
    requires IsBlank(name)
    ensures GetAvatarFallback(name) == if name == [] then Some("") else None
  {
    TrimEmptyIffBlank(name);
  }

  // ---------------------------------------------------------------------
  // formatNumberWithDots (natural numbers)
  // ---------------------------------------------------------------------

  /** A comma before every third digit counted from the right, never at the
      front: what `/\B(?=(\d{3})+(?!\d))/g` matches in a digit string. */
  function Grouped(ds: string): string
    decreases |ds|
  {
    if |ds| <= 3 then ds else Grouped(ds[..|ds| - 3]) + "," + ds[|ds| - 3..]
  }

  /** `formatNumberWithDots(n)` for a natural number. */
  function FormatNumberWithDots(n: nat): (text: string)
    ensures WellGrouped(text)
  {
    GroupedIsWellGrouped(NatToString(n));
    Grouped(NatToString(n))
  }

  /** The characters of `s` from last to first, commas left out. */
  function ReversedWithoutCommas(s: string): string {
    if s == [] then []
    else (if s[|s| - 1] == ',' then [] else [s[|s| - 1]]) + ReversedWithoutCommas(s[..|s| - 1])
  }

  /** Digit groups separated by commas: the first group has one to three
      digits and every later group exactly three. */
  predicate WellGrouped(s: string)
    decreases |s|
  {
    (1 <= |s| <= 3 && AllDigits(s)) ||
    (|s| > 4 && s[|s| - 4] == ',' && AllDigits(s[|s| - 3..]) && WellGrouped(s[..|s| - 4]))
  }

  lemma {:induction false} ReversedWithoutCommasAppend(a: string, b: string)
    ensures ReversedWithoutCommas(a + b) == ReversedWithoutCommas(b) + ReversedWithoutCommas(a)
    decreases |b|
  {
    if b == [] {
      assert a + b == a;
    } else {
      var init, c := b[..|b| - 1], b[|b| - 1];
      ReversedWithoutCommasAppend(a, init);
      var ab := a + b;
      assert ab[|ab| - 1] == c && ab[..|ab| - 1] == a + init;
      assert ReversedWithoutCommas(ab) == (if c == ',' then [] else [c]) + ReversedWithoutCommas(a + init);
      assert ReversedWithoutCommas(b) == (if c == ',' then [] else [c]) + ReversedWithoutCommas(init);
    }
  }

  lemma {:induction false} ReversedWithoutCommasOfDigits(ds: string)
    requires AllDigits(ds)
    ensures ReversedWithoutCommas(ds) == Reverse(ds)
    decreases |ds|
  {
    if ds != [] {
      ReversedWithoutCommasOfDigits(ds[..|ds| - 1]);
    }
  }

  function Reverse(s: string): string {
    if s == [] then [] else [s[|s| - 1]] + Reverse(s[..|s| - 1])
  }

  lemma {:induction false} ReverseAppend(a: string, b: string)
    ensures Reverse(a + b) == Reverse(b) + Reverse(a)
    decreases |b|
  {
    if b == [] {
      assert a + b == a;
    } else {
      var init, c := b[..|b| - 1], b[|b| - 1];
      ReverseAppend(a, init);
      var ab := a + b;
      assert ab[|ab| - 1] == c && ab[..|ab| - 1] == a + init;
      assert Reverse(ab) == [c] + Reverse(a + init);
      assert Reverse(b) == [c] + Reverse(init);
    }
  }

  /** Deleting the commas of a grouped digit string gives back the digits,
      so the separators carry no other change. */
  lemma {:induction false} GroupedKeepsDigits(ds: string)
    requires AllDigits(ds)
    ensures ReversedWithoutCommas(Grouped(ds)) == Reverse(ds)
    decreases |ds|
  {
    if |ds| <= 3 {
      ReversedWithoutCommasOfDigits(ds);
    } else {
      var head, tail := ds[..|ds| - 3], ds[|ds| - 3..];
      GroupedKeepsDigits(head);
      ReversedWithoutCommasOfGroup(Grouped(head), tail);
      ReverseAppend(head, tail);
      assert head + tail == ds;
    }
  }

  /** A comma and a group of digits add the reversed digits in front. */
  lemma ReversedWithoutCommasOfGroup(g: string, tail: string)
    requires AllDigits(tail)
    ensures ReversedWithoutCommas(g + "," + tail) == Reverse(tail) + ReversedWithoutCommas(g)
  {
    ReversedWithoutCommasAppend(g + ",", tail);
    ReversedWithoutCommasAppend(g, ",");
    ReversedWithoutCommasOfDigits(tail);
  }

  /** Grouping a non-empty digit string gives well-formed groups. */
  lemma {:induction false} GroupedIsWellGrouped(ds: string)
    requires AllDigits(ds) && ds != []
    ensures WellGrouped(Grouped(ds))
    decreases |ds|
  {
    if |ds| > 3 {
      var head, tail := ds[..|ds| - 3], ds[|ds| - 3..];
      GroupedIsWellGrouped(head);
      var g := Grouped(ds);
      assert g == Grouped(head) + "," + tail;
      assert g[..|g| - 4] == Grouped(head);
      assert g[|g| - 3..] == tail;
    }
  }

  /** The formatted number is well grouped and, with its commas removed,
      reads back as the number. */
  lemma FormatNumberRoundTrip(n: nat)
    ensures WellGrouped(FormatNumberWithDots(n))
    ensures var digits := Reverse(ReversedWithoutCommas(FormatNumberWithDots(n)));
      AllDigits(digits) && DigitsValue(digits) == n
  {
    var ds := NatToString(n);
    GroupedIsWellGrouped(ds);
    GroupedKeepsDigits(ds);
    ReverseTwice(ds);
    NatToStringRoundTrip(n);
  }

  lemma {:induction false} ReverseTwice(s: string)
    ensures Reverse(Reverse(s)) == s
    decreases |s|
  {
    if s != [] {
      ReverseTwice(s[..|s| - 1]);
      ReverseAppend([s[|s| - 1]], Reverse(s[..|s| - 1]));
      assert s[..|s| - 1] + [s[|s| - 1]] == s;
    }
  }

  // ---------------------------------------------------------------------
  // formatTimeMinute (integers)
  // ---------------------------------------------------------------------

  /** JavaScript's `%`: the remainder takes the sign of the dividend. */
  function JsRemainder(a: int, b: int): (r: int)
    requires b > 0
    ensures a >= 0 ==> 0 <= r < b
    ensures a < 0 ==> -b < r <= 0
    ensures a - r == b * (if a >= 0 then a / b else -((-a) / b))
  {
    if a >= 0 then a % b else -((-a) % b)
  }

  /** `formatTimeMinute(time)` for an integer: `Math.floor(time / 60)`,
      a colon, then `time % 60` padded to two characters. */
  function FormatTimeMinute(time: int): (text: string)
    ensures ':' in text
    ensures time >= 0 ==> |text| >= 4 && text[|text| - 3] == ':'
  {
    var minutes, seconds := IntToString(time / 60), PadStart2(IntToString(JsRemainder(time, 60)));
    var text := minutes + ":" + seconds;
    assert text[|minutes|] == ':';
    if time >= 0 then
      SecondsField(time % 60);
      text
    else
      text
  }

  /** For a non-negative time the text splits at the colon into whole
      minutes and exactly two second digits below 60 that together give
      back the time. */
  lemma {:induction false} DigitsHaveNoColon(s: string)
    requires AllDigits(s)
    ensures ':' !in s
  {
    forall i | 0 <= i < |s| ensures s[i] != ':' {
      assert IsDigit(s[i]);
    }
  }

  /** The seconds field: two digits that read back as the seconds. */
  lemma SecondsField(s: nat)
    requires s < 60
    ensures var p := PadStart2(NatToString(s));
      |p| == 2 && AllDigits(p) && DigitsValue(p) == s
  {
    var ss := NatToString(s);
    NatToStringRoundTrip(s);
    if s < 10 {
      assert ss == [DigitChar(s)];
      var p := PadStart2(ss);
      assert p == ['0', DigitChar(s)];
      assert p[..1] == ['0'];
    } else {
      assert ss == NatToString(s / 10) + [DigitChar(s % 10)];
    }
  }

  /** For a non-negative time the text splits at the colon into whole
      minutes and exactly two second digits below 60 that together give
      back the time. */
  lemma TimeRoundTrip(time: nat)
    ensures var parts := Split(FormatTimeMinute(time), ':');
      |parts| == 2 && |parts[1]| == 2 &&
      AllDigits(parts[0]) && AllDigits(parts[1]) &&
      DigitsValue(parts[1]) < 60 &&
      DigitsValue(parts[0]) * 60 + DigitsValue(parts[1]) == time
  {
    var m, s := time / 60, time % 60;
    var ms := NatToString(m);
    var padded := PadStart2(NatToString(s));
    NatToStringRoundTrip(m);
    SecondsField(s);
    DigitsHaveNoColon(ms);
    DigitsHaveNoColon(padded);
    SplitAtFirst(ms, ':', padded);
    SplitNoSeparator(padded, ':');
    assert FormatTimeMinute(time) == ms + [':'] + padded;
  }

  // ---------------------------------------------------------------------
  // resizeImage
  // ---------------------------------------------------------------------

  predicate OccursAt(s: string, pattern: string, i: nat) {
    i + |pattern| <= |s| && s[i..i + |pattern|] == pattern
  }

  /** The first position at or after `from` where `pattern` occurs. */
  function FirstOccurrence(s: string, pattern: string, from: nat): (r: Option<nat>)
    ensures r.Some? ==> from <= r.value && OccursAt(s, pattern, r.value)
    ensures r.Some? ==> forall j :: from <= j < r.value ==> !OccursAt(s, pattern, j)
    ensures r.None? ==> forall j :: from <= j ==> !OccursAt(s, pattern, j)
    decreases |s| - from
  {
    if from + |pattern| > |s| then None
    else if s[from..from + |pattern|] == pattern then Some(from)
    else FirstOccurrence(s, pattern, from + 1)
  }

  /** `s.replace(pattern, replacement)` with a string pattern (whose
      replacement has no `$`): only the first occurrence is replaced. */
  function ReplaceFirst(s: string, pattern: string, replacement: string): (r: string)
    ensures FirstOccurrence(s, pattern, 0).None? ==> r == s
    ensures FirstOccurrence(s, pattern, 0).Some? ==>
      var i := FirstOccurrence(s, pattern, 0).value;
      |r| == |s| - |pattern| + |replacement| &&
      r[..i] == s[..i] && r[i..i + |replacement|] == replacement && r[i + |replacement|..] == s[i + |pattern|..]
  {
    match FirstOccurrence(s, pattern, 0)
    case None => s
    case Some(i) => s[..i] + replacement + s[i + |pattern|..]
  }

  /** The search from the start stops at the first occurrence. */
  lemma FirstOccurrenceFromStart(s: string, pattern: string, i: nat)
    requires OccursAt(s, pattern, i)
    requires forall j :: 0 <= j < i ==> !OccursAt(s, pattern, j)
    ensures FirstOccurrence(s, pattern, 0) == Some(i)
  {
    var r := FirstOccurrence(s, pattern, 0);
    if r.Some? {
      assert OccursAt(s, pattern, r.value);
    }
  }

  const UploadSegment: string := "upload/"

  /** `resizeImage(img, width)`. */
  function ResizeImage(img: string, width: int): (url: string)
    ensures url == img || |url| == |img| + |"c_limit,w_" + IntToString(width) + "/f_auto/"|
  {
    ReplaceFirst(img, UploadSegment, "upload/c_limit,w_" + IntToString(width) + "/f_auto/")
  }

  /** Only the first "upload/" of the URL gains the transformation
      segment; the rest of the URL is kept. */
  lemma ResizesFirstUpload(img: string, width: int, i: nat)
    requires OccursAt(img, UploadSegment, i)
    requires forall j :: 0 <= j < i ==> !OccursAt(img, UploadSegment, j)
    ensures ResizeImage(img, width) == img[..i] + "upload/c_limit,w_" + IntToString(width) + "/f_auto/" + img[i + 7..]
  {
    FirstOccurrenceFromStart(img, UploadSegment, i);
    assert |UploadSegment| == 7;
  }

  /** A URL without "upload/" is returned unchanged. */
  lemma NoUploadUnchanged(img: string, width: int)
    requires forall j :: !OccursAt(img, UploadSegment, j)
    ensures ResizeImage(img, width) == img
  {
  }

  // ---------------------------------------------------------------------
  // flattenCategories
  // ---------------------------------------------------------------------

  /** A category of the tree. An absent `subCategories` is the empty
      sequence: every use in the source tests "present and non-empty". */
  datatype Category = Category(id: int, name: string, thumbnail: string, subCategories: seq<Category>)

  datatype FlatCategory = FlatCategory(id: int, name: string, thumbnail: string, level: int)

  /** The `parent` argument of the recursive call. */
  datatype ParentCategory = ParentCategory(id: int, name: string, thumbnail: string, level: int)

  /** The level the source gives to the categories of one call. */
  function LevelUnder(parent: Option<ParentCategory>): int {
    if parent.Some? then parent.value.level + 1 else 0
  }

  /** Pre-order listing of a forest whose roots sit at `level`. */
  function Flattened(cats: seq<Category>, level: int): (flat: seq<FlatCategory>)
    ensures |flat| >= |cats|
    ensures flat == [] <==> cats == []
    decreases cats
  {
    if cats == [] then []
    else
      var c := cats[0];
      assert c in cats;
      [FlatCategory(c.id, c.name, c.thumbnail, level)] + Flattened(c.subCategories, level + 1) + Flattened(cats[1..], level)
  }

  /** The number of categories in a forest, subcategories included. */
  function NodeCount(cats: seq<Category>): nat
    decreases cats
  {
    if cats == [] then 0
    else
      assert cats[0] in cats;
      1 + NodeCount(cats[0].subCategories) + NodeCount(cats[1..])
  }

  /** `flattenCategories(categories, parent)`: the loop pushes each category
      and then, when it has subcategories, the result of the recursive call. */
  method FlattenCategories(categories: seq<Category>, parent: Option<ParentCategory>)
    returns (result: seq<FlatCategory>)
    ensures result == Flattened(categories, LevelUnder(parent))
    decreases categories
  {
    result := [];
    var level := LevelUnder(parent);
    for i := 0 to |categories|
      invariant result == Flattened(categories[..i], level)
    {
      var c := categories[i];
      assert c in categories;
      FlattenedStep(categories, i, level);
      result := result + [FlatCategory(c.id, c.name, c.thumbnail, level)];
      if |c.subCategories| > 0 {
        var sub := FlattenCategories(c.subCategories, Some(ParentCategory(c.id, c.name, c.thumbnail, level)));
        result := result + sub;
      }
    }
    assert categories[..|categories|] == categories;
  }

  /** One more category of the list adds its own entry and its subtree. */
  lemma FlattenedStep(cats: seq<Category>, i: nat, level: int)
    requires i < |cats|
    ensures Flattened(cats[..i + 1], level) ==
      Flattened(cats[..i], level) + [FlatCategory(cats[i].id, cats[i].name, cats[i].thumbnail, level)] +
      Flattened(cats[i].subCategories, level + 1)
  {
    var c := cats[i];
    FlattenedSingle(c, level);
    FlattenedAppend(cats[..i], [c], level);
    assert cats[..i + 1] == cats[..i] + [c];
  }

  /** Flattening a concatenation of sibling lists concatenates their
      flattenings: siblings stay in input order. */
  lemma {:induction false} FlattenedAppend(a: seq<Category>, b: seq<Category>, level: int)
    ensures Flattened(a + b, level) == Flattened(a, level) + Flattened(b, level)
    decreases a
  {
    if a == [] {
      assert a + b == b;
    } else {
      var h, t := a[0], a[1..];
      var own := [FlatCategory(h.id, h.name, h.thumbnail, level)] + Flattened(h.subCategories, level + 1);
      calc {
        Flattened(a + b, level);
        { assert a + b == [h] + (t + b); FlattenedCons(h, t + b, level); }
        own + Flattened(t + b, level);
        { FlattenedAppend(t, b, level); }
        own + (Flattened(t, level) + Flattened(b, level));
        { assert a == [h] + t; FlattenedCons(h, t, level); }
        Flattened(a, level) + Flattened(b, level);
      }
    }
  }

  /** The flattening of a list is its head, the head's subtree, then the
      rest. */
  lemma FlattenedSingle(c: Category, level: int)
    ensures Flattened([c], level) ==
      [FlatCategory(c.id, c.name, c.thumbnail, level)] + Flattened(c.subCategories, level + 1)
  {
    FlattenedCons(c, [], level);
    assert [c] + [] == [c];
  }

  lemma FlattenedCons(c: Category, rest: seq<Category>, level: int)
    ensures Flattened([c] + rest, level) ==
      [FlatCategory(c.id, c.name, c.thumbnail, level)] + Flattened(c.subCategories, level + 1) + Flattened(rest, level)
  {
    assert ([c] + rest)[0] == c && ([c] + rest)[1..] == rest;
  }

  lemma {:induction false} NodeCountAppend(a: seq<Category>, b: seq<Category>)
    ensures NodeCount(a + b) == NodeCount(a) + NodeCount(b)
    decreases a
  {
    if a == [] {
      assert a + b == b;
    } else {
      NodeCountAppend(a[1..], b);
      assert (a + b)[1..] == a[1..] + b;
    }
  }

  /** The flat list has one entry per category of the forest. */
  lemma {:induction false} FlattenedLength(cats: seq<Category>, level: int)
    ensures |Flattened(cats, level)| == NodeCount(cats)
    decreases cats
  {
    if cats != [] {
      assert cats[0] in cats;
      FlattenedLength(cats[0].subCategories, level + 1);
      FlattenedLength(cats[1..], level);
    }
  }

  /** Pre-order: the i-th top-level category sits right after the subtrees
      of its earlier siblings, at the roots' level, and is immediately
      followed by its own subcategories flattened one level deeper. */
  lemma FlattenedPreOrder(cats: seq<Category>, i: nat, level: int)
    requires i < |cats|
    ensures var flat, at, c := Flattened(cats, level), NodeCount(cats[..i]), cats[i];
      at + 1 + NodeCount(c.subCategories) <= |flat| &&
      flat[at] == FlatCategory(c.id, c.name, c.thumbnail, level) &&
      flat[at + 1..at + 1 + NodeCount(c.subCategories)] == Flattened(c.subCategories, level + 1)
  {
    var c := cats[i];
    assert cats == cats[..i] + ([c] + cats[i + 1..]);
    FlattenedAppend(cats[..i], [c] + cats[i + 1..], level);
    FlattenedLength(cats[..i], level);
    FlattenedLength(c.subCategories, level + 1);
    FlattenedLength(cats, level);
    NodeCountAppend(cats[..i], [c] + cats[i + 1..]);
    var prefix := Flattened(cats[..i], level);
    var own := [FlatCategory(c.id, c.name, c.thumbnail, level)] + Flattened(c.subCategories, level + 1);
    assert Flattened([c] + cats[i + 1..], level) == own + Flattened(cats[i + 1..], level) by {
      assert ([c] + cats[i + 1..])[1..] == cats[i + 1..];
    }
    assert Flattened(cats, level) == prefix + own + Flattened(cats[i + 1..], level);
  }

  /** Every entry is at least as deep as the roots; top-level calls
      (no parent) start at level 0. */
  lemma {:induction false} FlattenedLevelsFrom(cats: seq<Category>, level: int)
    ensures forall e :: e in Flattened(cats, level) ==> e.level >= level
    decreases cats
  {
    if cats != [] {
      assert cats[0] in cats;
      FlattenedLevelsFrom(cats[0].subCategories, level + 1);
      FlattenedLevelsFrom(cats[1..], level);
    }
  }
}
