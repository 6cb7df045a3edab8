/**
  * The detail page's bold-text renderer: the text is split with the global
  * regular expression `(\*\*.*?\*\*)` (one capture group, so the matched runs
  * are kept between the pieces of plain text), and each piece that both starts
  * and ends with `**` becomes a bold fragment with two characters cut from
  * either end; every other piece is plain.
  *
  * The regular expression is modelled by hand: `**`, then the fewest
  * characters other than a line terminator, then `**`. The split follows the
  * ECMAScript `RegExp.prototype[@@split]` algorithm: a sticky match is tried at
  * every position from left to right, and each match ends the current piece.
  */
module Markdown {
  import opened Wrappers

  /** A rendered fragment: `<strong>` or `<span>`. */
  datatype Fragment = Strong(text: string) | Span(text: string)

  /** The characters the regular expression's `.` does not match. */
  predicate IsLineTerminator(c: char)
  {
    c == '\n' || c == '\r' || c == '\U{2028}' || c == '\U{2029}'
  }

  /** `s` has `**` at positions `j` and `j + 1`. */
  predicate StarsAt(s: string, j: int)
  {
    0 <= j && j + 1 < |s| && s[j] == '*' && s[j + 1] == '*'
  }

  ghost predicate NoTerminator(s: string, a: int, b: int)
    requires 0 <= a <= b <= |s|
  {
    forall k :: a <= k < b ==> !IsLineTerminator(s[k])
  }

  /**
    * The lazy `.*?\*\*` from position `j`: the first `**` at or after `j`
    * that is reached without crossing a line terminator.
    */
  function CloseFrom(s: string, j: nat): (c: Option<nat>)
    decreases |s| - j
    ensures c.Some? ==>
      j <= c.value && StarsAt(s, c.value) && NoTerminator(s, j, c.value)
      && forall k :: j <= k < c.value ==> !StarsAt(s, k)
    ensures c.None? ==> forall k :: j <= k && StarsAt(s, k) ==> !NoTerminator(s, j, k)
  {
    if j + 1 >= |s| then None
    else if s[j] == '*' && s[j + 1] == '*' then Some(j)
    else if IsLineTerminator(s[j]) then None
    else CloseFrom(s, j + 1)
  }

  /** The end of the match of `\*\*.*?\*\*` that starts exactly at `q`, if there is one. */
  function MatchEnd(s: string, q: nat): (e: Option<nat>)
    ensures e.Some? ==> q + 4 <= e.value <= |s|
  {
    if StarsAt(s, q) then
      match CloseFrom(s, q + 2)
      case Some(c) => Some(c + 2)
      case None => None
    else None
  }

  /**
    * A bold run: `**`, then text without a line terminator and without an
    * inner `**`, then `**`.
    */
  ghost predicate IsBoldRun(t: string)
  {
    |t| >= 4 && StarsAt(t, 0) && StarsAt(t, |t| - 2) && NoTerminator(t, 2, |t| - 2)
    && forall k :: 2 <= k < |t| - 2 ==> !StarsAt(t, k)
  }

  /** No stretch of `t` is a bold run. */
  ghost predicate NoBoldRun(t: string)
  {
    forall i, e :: 0 <= i <= e <= |t| ==> !IsBoldRun(t[i..e])
  }

  /** No match of the regular expression starts at a position in [a, b). */
  ghost predicate NoMatchIn(s: string, a: nat, b: nat)
  {
    forall i: nat :: a <= i < b ==> MatchEnd(s, i).None?
  }

  /**
    * `parts` tiles `s[p..]` leftmost-first: a piece in which no match starts,
    * then the match found right after it, and so on; the last piece runs to
    * the end of the text and no match starts in it either.
    */
  ghost predicate Tiles(s: string, parts: seq<string>, p: nat)
    decreases |parts|
  {
    if |parts| == 0 || p > |s| then false
    else if |parts| == 1 then parts[0] == s[p..] && NoMatchIn(s, p, |s|)
    else
      var q := p + |parts[0]|;
      var e := q + |parts[1]|;
      |parts| >= 3 && e <= |s| && parts[0] == s[p..q] && parts[1] == s[q..e]
      && NoMatchIn(s, p, q) && MatchEnd(s, q) == Some(e) && Tiles(s, parts[2..], e)
  }

  /** The text holds no `*` at all. */
  predicate NoStars(s: string)
  {
    forall i :: 0 <= i < |s| ==> s[i] != '*'
  }

  /**
    * The split loop from piece start `p` and search position `q`: the piece
    * `s[p..q]` and the matched run are emitted at each match; the remainder is
    * the last piece. There is an odd number of pieces, and every matched run
    * is at least four characters long.
    */
  function SplitFrom(s: string, p: nat, q: nat): (parts: seq<string>)
    requires p <= q <= |s|
    ensures |parts| % 2 == 1
    ensures forall k :: 0 <= k < |parts| && k % 2 == 1 ==> |parts[k]| >= 4
    decreases |s| - q
  {
    if q >= |s| then [s[p..]]
    else
      match MatchEnd(s, q)
      case Some(e) => [s[p..q], s[q..e]] + SplitFrom(s, e, e)
      case None => SplitFrom(s, p, q + 1)
  }

  /**
    * `text.split(/(\*\*.*?\*\*)/g)`: the pieces join back to the text and
    * tile it leftmost-first, alternating plain text that holds no bold run and
    * bold runs.
    */
  function Split(s: string): (parts: seq<string>)
    ensures Concat(parts) == s
    ensures |parts| % 2 == 1
    ensures forall k :: 0 <= k < |parts| && k % 2 == 1 ==> IsBoldRun(parts[k])
    ensures forall k :: 0 <= k < |parts| && k % 2 == 0 ==> NoBoldRun(parts[k])
    ensures Tiles(s, parts, 0)
  {
    SplitFromConcat(s, 0, 0);
    SplitFromShape(s, 0, 0);
    SplitFromTiles(s, 0, 0);
    SplitFrom(s, 0, 0)
  }

  function Concat(parts: seq<string>): string
  {
    if parts == [] then "" else parts[0] + Concat(parts[1..])
  }

  /** `part.startsWith('**') && part.endsWith('**')`. */
  predicate Delimited(part: string)
  {
    |part| >= 2 && part[..2] == "**" && part[|part| - 2..] == "**"
  }

  /** `part.slice(2, -2)`: empty when the part is shorter than four characters. */
  function Inner(part: string): string
  {
    if |part| >= 4 then part[2..|part| - 2] else ""
  }

  /**
    * One piece: bold when it starts and ends with `**`. Rendering loses
    * nothing, except that the stars of a bare `**` or `***` vanish.
    */
  function RenderPart(part: string): (f: Fragment)
    ensures part != "**" && part != "***" ==> Unrender(f) == part
    ensures part == "**" || part == "***" ==> f == Strong("")
    ensures f.Strong? <==>
      |part| >= 2 && part[0] == '*' && part[1] == '*' && part[|part| - 2] == '*' && part[|part| - 1] == '*'
  {
    assert |part| >= 2 ==>
      part[..2] == [part[0], part[1]] && part[|part| - 2..] == [part[|part| - 2], part[|part| - 1]];
    if Delimited(part) then
      assert |part| >= 4 ==> part == part[..2] + part[2..|part| - 2] + part[|part| - 2..];
      Strong(Inner(part))
    else Span(part)
  }

  function RenderAll(parts: seq<string>): (r: seq<Fragment>)
    ensures |r| == |parts|
    ensures forall k :: 0 <= k < |parts| ==> r[k] == RenderPart(parts[k])
  {
    seq(|parts|, k requires 0 <= k < |parts| => RenderPart(parts[k]))
  }

  /**
    * `renderMarkdown`: `null` for empty text, else one fragment per piece of
    * the split. Text without a star is one plain fragment of itself.
    */
  function RenderMarkdown(text: string): (r: Option<seq<Fragment>>)
    ensures r.None? <==> text == ""
    ensures text != "" && NoStars(text) ==> r == Some([Span(text)])
  {
    if text == "" then None
    else
      PlainTextIsOnePiece(text);
      var parts := Split(text);
      assert NoStars(text) ==> RenderAll(parts) == [Span(text)];
      Some(RenderAll(parts))
  }

  /** The source text a fragment stands for: bold text gets its delimiters back. */
  function Unrender(f: Fragment): string
  {
    match f
    case Strong(t) => "**" + t + "**"
    case Span(t) => t
  }

  function UnrenderAll(frags: seq<Fragment>): (r: seq<string>)
    ensures |r| == |frags|
    ensures forall k :: 0 <= k < |frags| ==> r[k] == Unrender(frags[k])
  {
    seq(|frags|, k requires 0 <= k < |frags| => Unrender(frags[k]))
  }

  /** A match found by `MatchEnd` is a bold run. */
  lemma MatchIsBoldRun(s: string, q: nat)
    requires MatchEnd(s, q).Some?
    ensures IsBoldRun(s[q..MatchEnd(s, q).value])
  {
    var e := MatchEnd(s, q).value;
    var c := e - 2;
    var u := s[q..e];
    assert StarsAt(u, 0) && StarsAt(u, |u| - 2) by {
      assert u[0] == s[q] && u[1] == s[q + 1] && u[|u| - 2] == s[c] && u[|u| - 1] == s[c + 1];
    }
    forall k | 2 <= k < |u| - 2
      ensures !IsLineTerminator(u[k]) && !StarsAt(u, k)
    {
      assert u[k] == s[q + k] && u[k + 1] == s[q + k + 1];
      assert !StarsAt(s, q + k);
    }
  }

  /** Wherever a bold run starts, the regular expression matches. */
  lemma BoldRunMatches(s: string, i: nat, e: nat)
    requires i <= e <= |s| && IsBoldRun(s[i..e])
    ensures MatchEnd(s, i).Some?
  {
    var u := s[i..e];
    assert StarsAt(s, i) by {
      assert u[0] == s[i] && u[1] == s[i + 1];
    }
    assert StarsAt(s, e - 2) by {
      assert u[|u| - 2] == s[e - 2] && u[|u| - 1] == s[e - 1];
    }
    assert NoTerminator(s, i + 2, e - 2) by {
      forall k | i + 2 <= k < e - 2
        ensures !IsLineTerminator(s[k])
      {
        assert s[k] == u[k - i];
      }
    }
  }

  /** Joining the pieces of the split gives back the text. */
  lemma {:induction false} SplitFromConcat(s: string, p: nat, q: nat)
    requires p <= q <= |s|
    ensures Concat(SplitFrom(s, p, q)) == s[p..]
    decreases |s| - q
  {
    if q >= |s| {
      assert Concat([s[p..]]) == s[p..] + Concat([]);
    } else {
      match MatchEnd(s, q)
      case Some(e) =>
        var rest := SplitFrom(s, e, e);
        SplitFromConcat(s, e, e);
        var parts := [s[p..q], s[q..e]] + rest;
        assert parts[1..] == [s[q..e]] + rest;
        assert ([s[q..e]] + rest)[1..] == rest;
        assert Concat(parts) == s[p..q] + (s[q..e] + s[e..]);
        assert s[p..] == s[p..q] + (s[q..e] + s[e..]);
      case None =>
        SplitFromConcat(s, p, q + 1);
    }
  }

  /**
    * The pieces alternate: an odd number of them, bold runs at the odd
    * positions and text holding no bold run at the even positions.
    */
  lemma {:induction false} SplitFromShape(s: string, p: nat, q: nat)
    requires p <= q <= |s|
    requires forall i :: p <= i < q ==> MatchEnd(s, i).None?
    ensures var parts := SplitFrom(s, p, q);
      |parts| % 2 == 1
      && (forall k :: 0 <= k < |parts| && k % 2 == 1 ==> IsBoldRun(parts[k]))
      && (forall k :: 0 <= k < |parts| && k % 2 == 0 ==> NoBoldRun(parts[k]))
    decreases |s| - q
  {
    if q >= |s| {
      SegmentHasNoBoldRun(s, p, q);
      assert s[p..q] == s[p..];
    } else {
      match MatchEnd(s, q)
      case Some(e) =>
        var rest := SplitFrom(s, e, e);
        SplitFromShape(s, e, e);
        SegmentHasNoBoldRun(s, p, q);
        MatchIsBoldRun(s, q);
        var parts := [s[p..q], s[q..e]] + rest;
        assert SplitFrom(s, p, q) == parts;
        assert forall k :: 2 <= k < |parts| ==> parts[k] == rest[k - 2];
      case None =>
        SplitFromShape(s, p, q + 1);
    }
  }

  /** The split loop tiles what is left of the text leftmost-first. */
  lemma {:induction false} SplitFromTiles(s: string, p: nat, q: nat)
    requires p <= q <= |s| && NoMatchIn(s, p, q)
    ensures Tiles(s, SplitFrom(s, p, q), p)
    decreases |s| - q
  {
    if q >= |s| {
      assert SplitFrom(s, p, q) == [s[p..]];
    } else {
      match MatchEnd(s, q)
      case Some(e) =>
        var rest := SplitFrom(s, e, e);
        SplitFromTiles(s, e, e);
        var parts := [s[p..q], s[q..e]] + rest;
        assert SplitFrom(s, p, q) == parts;
        assert parts[2..] == rest;
        assert |parts[0]| == q - p && |parts[1]| == e - q;
      case None =>
        SplitFromTiles(s, p, q + 1);
    }
  }

  /** A stretch in which the regular expression matches nowhere holds no bold run. */
  lemma SegmentHasNoBoldRun(s: string, p: nat, q: nat)
    requires p <= q <= |s|
    requires forall i :: p <= i < q ==> MatchEnd(s, i).None?
    requires q == |s| || MatchEnd(s, q).Some?
    ensures NoBoldRun(s[p..q])
  {
    var t := s[p..q];
    forall i, e | 0 <= i <= e <= |t|
      ensures !IsBoldRun(t[i..e])
    {
      if IsBoldRun(t[i..e]) {
        assert t[i..e] == s[p + i..p + e] by {
          assert forall j :: 0 <= j < e - i ==> t[i..e][j] == s[p + i + j];
        }
        BoldRunMatches(s, p + i, p + e);
      }
    }
  }

  /** The first two pieces of a tiling with more than one piece, and the tiling of the rest. */
  lemma TilesUnfold(s: string, parts: seq<string>, p: nat)
    requires Tiles(s, parts, p) && |parts| > 1
    ensures var q := p + |parts[0]|;
      var e := q + |parts[1]|;
      |parts| >= 3 && p <= q < e <= |s| && parts[0] == s[p..q] && parts[1] == s[q..e]
      && NoMatchIn(s, p, q) && MatchEnd(s, q) == Some(e) && Tiles(s, parts[2..], e)
  {
  }

  /** Positions where no match starts are passed over without emitting anything. */
  lemma {:induction false} SkipUnmatched(s: string, p: nat, q: nat)
    requires p <= q <= |s| && NoMatchIn(s, p, q)
    ensures SplitFrom(s, p, p) == SplitFrom(s, p, q)
    decreases q - p
  {
    if q > p {
      SkipUnmatched(s, p, q - 1);
      assert MatchEnd(s, q - 1).None?;
    }
  }

  /** The last piece of a tiling is what the split loop yields from its start. */
  lemma LastPieceIsSplit(s: string, p: nat)
    requires p <= |s| && NoMatchIn(s, p, |s|)
    ensures SplitFrom(s, p, p) == [s[p..]]
  {
    SkipUnmatched(s, p, |s|);
  }

  /** From `p`, the split loop emits the unmatched stretch up to the first match, then the match. */
  lemma MatchStep(s: string, p: nat, q: nat, e: nat)
    requires p <= q < e <= |s| && NoMatchIn(s, p, q) && MatchEnd(s, q) == Some(e)
    ensures SplitFrom(s, p, p) == [s[p..q], s[q..e]] + SplitFrom(s, e, e)
  {
    SkipUnmatched(s, p, q);
  }

  /** Every leftmost-first tiling of `s[p..]` is what the split loop yields from `p`. */
  lemma {:induction false} TilesAreSplit(s: string, parts: seq<string>, p: nat)
    requires Tiles(s, parts, p)
    ensures parts == SplitFrom(s, p, p)
    decreases |parts|
  {
    if |parts| == 1 {
      LastPieceIsSplit(s, p);
    } else {
      TilesUnfold(s, parts, p);
      var q := p + |parts[0]|;
      var e := q + |parts[1]|;
      TilesAreSplit(s, parts[2..], e);
      MatchStep(s, p, q, e);
      assert parts == [parts[0], parts[1]] + parts[2..];
    }
  }

  /** The split is the only leftmost-first tiling of the text. */
  lemma SplitIsTheTiling(s: string, parts: seq<string>)
    requires Tiles(s, parts, 0)
    ensures parts == Split(s)
  {
    TilesAreSplit(s, parts, 0);
  }

  /** Text without a star is not split at all, and is not delimited. */
  lemma PlainTextIsOnePiece(s: string)
    ensures NoStars(s) ==> Split(s) == [s] && !Delimited(s)
  {
    if NoStars(s) {
      if |s| >= 2 {
        assert s[..2][0] == s[0];
      }
      assert NoMatchIn(s, 0, |s|) by {
        forall i: nat | i < |s|
          ensures !StarsAt(s, i)
        {
        }
      }
      assert Tiles(s, [s], 0);
      SplitIsTheTiling(s, [s]);
    }
  }

  /** A bold run renders as bold text without its delimiters. */
  lemma BoldRunRendersStrong(part: string)
    requires IsBoldRun(part)
    ensures RenderPart(part) == Strong(part[2..|part| - 2])
    ensures Unrender(RenderPart(part)) == part
  {
    assert part[..2] == "**" by {
      assert part[..2] == [part[0], part[1]];
    }
    assert part[|part| - 2..] == "**" by {
      assert part[|part| - 2..] == [part[|part| - 2], part[|part| - 1]];
    }
    assert part == part[..2] + part[2..|part| - 2] + part[|part| - 2..];
  }

  /**
    * The delimiters dropped by rendering are exactly those of the bold pieces:
    * putting them back restores the text, unless a piece is a bare `**` or `***`.
    */
  lemma RenderRoundTrip(text: string)
    requires text != ""
    requires forall k :: 0 <= k < |Split(text)| ==> Split(text)[k] != "**" && Split(text)[k] != "***"
    ensures RenderMarkdown(text).Some?
    ensures Concat(UnrenderAll(RenderMarkdown(text).value)) == text
  {
    var parts := Split(text);
    var back := UnrenderAll(RenderAll(parts));
    assert back == parts;
  }

  /** Empty text renders nothing at all; any other text renders one fragment per piece. */
  lemma RenderShape(text: string)
    ensures RenderMarkdown(text).None? <==> text == ""
    ensures text != "" ==>
      |RenderMarkdown(text).value| == |Split(text)| && |Split(text)| % 2 == 1
      && forall k :: 0 <= k < |Split(text)| && k % 2 == 1 ==>
           Unrender(RenderMarkdown(text).value[k]) == Split(text)[k]
           && RenderMarkdown(text).value[k].Strong?
  {
    if text != "" {
      forall k | 0 <= k < |Split(text)| && k % 2 == 1
        ensures Unrender(RenderMarkdown(text).value[k]) == Split(text)[k]
        ensures RenderMarkdown(text).value[k].Strong?
      {
        BoldRunRendersStrong(Split(text)[k]);
      }
    }
  }

  /** The split of a phrase in the middle of a sentence. */
  lemma BoldPhraseSplit()
    ensures Split("a **b** c") == ["a ", "**b**", " c"]
  {
    var s := "a **b** c";
    assert MatchEnd(s, 0).None? && MatchEnd(s, 1).None?;
    assert CloseFrom(s, 4) == Some(5);
    assert MatchEnd(s, 2) == Some(7);
    assert MatchEnd(s, 7).None? && MatchEnd(s, 8).None?;
    assert s[7..] == " c";
    assert SplitFrom(s, 7, 9) == [" c"];
    assert SplitFrom(s, 7, 8) == SplitFrom(s, 7, 9);
    assert SplitFrom(s, 7, 7) == SplitFrom(s, 7, 8);
    assert s[0..2] == "a " && s[2..7] == "**b**";
    assert SplitFrom(s, 0, 2) == ["a ", "**b**"] + SplitFrom(s, 7, 7);
    assert SplitFrom(s, 0, 1) == SplitFrom(s, 0, 2);
  }

  /** The rendering of a phrase in the middle of a sentence. */
  lemma BoldPhraseExample()
    ensures RenderMarkdown("a **b** c") == Some([Span("a "), Strong("b"), Span(" c")])
  {
    BoldPhraseSplit();
    assert RenderPart("a ") == Span("a ") && RenderPart(" c") == Span(" c");
    assert RenderPart("**b**") == Strong("b");
    assert RenderAll(["a ", "**b**", " c"]) == [Span("a "), Strong("b"), Span(" c")];
  }

  /** A run broken by a line break is no match, yet a text that starts and ends with `**` still renders bold. */
  lemma LineBreakExample()
    ensures Split("**a\nb**") == ["**a\nb**"]
    ensures RenderMarkdown("**a\nb**") == Some([Strong("a\nb")])
  {
    var s := "**a\nb**";
    assert CloseFrom(s, 2).None?;
    assert MatchEnd(s, 0).None?;
    assert MatchEnd(s, 1).None? && MatchEnd(s, 2).None? && MatchEnd(s, 3).None?;
    assert MatchEnd(s, 4).None? && MatchEnd(s, 5).None? && MatchEnd(s, 6).None?;
    assert |s| == 7 && s[0..] == s;
    assert SplitFrom(s, 0, 7) == [s];
    assert SplitFrom(s, 0, 5) == SplitFrom(s, 0, 6);
    assert SplitFrom(s, 0, 4) == SplitFrom(s, 0, 5);
    assert SplitFrom(s, 0, 3) == SplitFrom(s, 0, 4);
    assert SplitFrom(s, 0, 2) == SplitFrom(s, 0, 3);
    assert SplitFrom(s, 0, 1) == SplitFrom(s, 0, 2);
    assert SplitFrom(s, 0, 0) == SplitFrom(s, 0, 1);
    assert s[..2] == "**" && s[|s| - 2..] == "**";
    assert s[2..|s| - 2] == "a\nb";
    assert RenderAll([s]) == [Strong("a\nb")];
  }

  /** A bare `**` is no match; it is rendered as empty bold text and disappears from the page. */
  lemma LoneStarsExample()
    ensures Split("**") == ["**"]
    ensures RenderMarkdown("**") == Some([Strong("")])
  {
    var s := "**";
    assert CloseFrom(s, 2).None?;
    assert MatchEnd(s, 0).None? && MatchEnd(s, 1).None?;
    assert s[0..] == s;
    assert SplitFrom(s, 0, 2) == [s];
    assert SplitFrom(s, 0, 1) == SplitFrom(s, 0, 2);
    assert RenderAll([s]) == [Strong("")];
  }
}
