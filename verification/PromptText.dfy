/** The normal form under which two renderings of a prompt are compared. */
module PromptText {
  import opened Ordering

  /** Which characters `str.strip` removes; only that the two line ends are among them is assumed. */
  type Space = char -> bool

  ghost predicate KnowsLineEnds(space: Space) {
    space('\n') && space('\r')
  }

  ghost predicate AllSpace(space: Space, s: string) {
    forall k | 0 <= k < |s| :: space(s[k])
  }

  /** `s.replace("\r\n", "\n")`. */
  function UnixLines(s: string): string {
    if s == "" then ""
    else if |s| >= 2 && s[0] == '\r' && s[1] == '\n' then "\n" + UnixLines(s[2..])
    else [s[0]] + UnixLines(s[1..])
  }

  /** `s.split("\n")`. */
  function Split(s: string): (lines: seq<string>)
    ensures lines != [] && '\n' !in lines[0]
  {
    if s == "" then [""]
    else
      var rest := Split(s[1..]);
      if s[0] == '\n' then [""] + rest else [[s[0]] + rest[0]] + rest[1..]
  }

  function Join(lines: seq<string>): string {
    if lines == [] then ""
    else if |lines| == 1 then lines[0]
    else lines[0] + "\n" + Join(lines[1..])
  }

  function RStrip(space: Space, s: string): (r: string)
    ensures r <= s
  {
    if s != "" && space(s[|s| - 1]) then RStrip(space, s[..|s| - 1]) else s
  }

  function LStrip(space: Space, s: string): string {
    if s != "" && space(s[0]) then LStrip(space, s[1..]) else s
  }

  function Strip(space: Space, s: string): string {
    RStrip(space, LStrip(space, s))
  }

  function EachRStrip(space: Space, lines: seq<string>): (stripped: seq<string>)
    ensures |stripped| == |lines|
  {
    seq(|lines|, k requires 0 <= k < |lines| => RStrip(space, lines[k]))
  }

  /** `text or ""`. */
  function TextOf(text: Option<string>): string {
    if text.Some? then text.value else ""
  }

  /** The text `prompt_hash` hashes. */
  function Normalize(space: Space, text: Option<string>): string {
    Strip(space, Join(EachRStrip(space, Split(UnixLines(TextOf(text)))))) + "\n"
  }

  predicate StartsLine(s: string) {
    s == "" || s[0] == '\n'
  }

  /** What stripping every line amounts to, character by character: a space goes when nothing of its
      line is left behind it. */
  function Clean(space: Space, s: string): string {
    if s == "" then ""
    else
      var rest := Clean(space, s[1..]);
      if s[0] != '\n' && space(s[0]) && StartsLine(rest) then rest else [s[0]] + rest
  }

  lemma {:induction false} RStripFromFront(space: Space, c: char, s: string)
    ensures RStrip(space, [c] + s) == if RStrip(space, s) == "" && space(c) then "" else [c] + RStrip(space, s)
    decreases |s|
  {
    var cs := [c] + s;
    if s == "" {
      assert cs[..0] == "";
    } else if space(s[|s| - 1]) {
      assert cs[..|cs| - 1] == [c] + s[..|s| - 1];
      RStripFromFront(space, c, s[..|s| - 1]);
    }
  }

  /** Replacing the first of some lines replaces the head of the joined text. */
  lemma JoinHead(lines: seq<string>, first: string)
    requires lines != []
    ensures lines[0] <= Join(lines)
    ensures Join([first] + lines[1..]) == first + Join(lines)[|lines[0]|..]
    ensures StartsLine(Join(lines)[|lines[0]|..])
  {
    assert ([first] + lines[1..])[1..] == lines[1..];
  }

  lemma BlankLineAhead(space: Space, rest: seq<string>)
    requires rest != []
    ensures Join(EachRStrip(space, [""] + rest)) == "\n" + Join(EachRStrip(space, rest))
  {
    var lines := EachRStrip(space, rest);
    assert EachRStrip(space, [""] + rest) == [""] + lines;
    assert ([""] + lines)[1..] == lines;
  }

  lemma CharacterAhead(space: Space, c: char, rest: seq<string>)
    requires rest != [] && c != '\n' && '\n' !in rest[0]
    requires StartsLine(Join(EachRStrip(space, rest))) <==> RStrip(space, rest[0]) == ""
    ensures var more, text := [[c] + rest[0]] + rest[1..], Join(EachRStrip(space, rest));
            && Join(EachRStrip(space, more)) == (if space(c) && StartsLine(text) then text else [c] + text)
            && (StartsLine(Join(EachRStrip(space, more))) <==> RStrip(space, [c] + rest[0]) == "")
  {
    var lines, head := EachRStrip(space, rest), RStrip(space, [c] + rest[0]);
    RStripFromFront(space, c, rest[0]);
    assert EachRStrip(space, [[c] + rest[0]] + rest[1..]) == [head] + lines[1..];
    assert lines[0] == RStrip(space, rest[0]);
    JoinHead(lines, head);
    hide RStrip, EachRStrip, Join;
    HeadReplaced(c, lines[0], Join(lines));
  }

  lemma HeadReplaced(c: char, head: string, text: string)
    requires head <= text
    ensures ([c] + head) + text[|head|..] == [c] + text
    ensures "" + text[|head|..] == text[|head|..]
    ensures head == "" ==> text[|head|..] == text
  {
    assert text == head + text[|head|..];
  }

  /** Splitting, stripping each line and joining is the cleaning above. */
  lemma {:induction false} CleanIsLinewise(space: Space, s: string)
    ensures Clean(space, s) == Join(EachRStrip(space, Split(s)))
    ensures StartsLine(Clean(space, s)) <==> RStrip(space, Split(s)[0]) == ""
    decreases |s|
  {
    if s == "" {
      assert EachRStrip(space, [""]) == [""];
    } else {
      CleanIsLinewise(space, s[1..]);
      hide RStrip, Join;
      var rest := Split(s[1..]);
      if s[0] == '\n' {
        BlankLineAhead(space, rest);
        NothingToStrip(space);
      } else {
        CharacterAhead(space, s[0], rest);
      }
    }
  }

  lemma NothingToStrip(space: Space)
    ensures RStrip(space, "") == ""
  {
  }

  /** Cleaning sees through a carriage return before a line feed. */
  lemma {:induction false} UnixLinesAreClean(space: Space, s: string)
    requires KnowsLineEnds(space)
    ensures Clean(space, UnixLines(s)) == Clean(space, s)
    decreases |s|
  {
    if s == "" {
    } else if |s| >= 2 && s[0] == '\r' && s[1] == '\n' {
      UnixLinesAreClean(space, s[2..]);
      assert ("\n" + UnixLines(s[2..]))[1..] == UnixLines(s[2..]);
      assert s[1..][1..] == s[2..];
    } else {
      UnixLinesAreClean(space, s[1..]);
      assert ([s[0]] + UnixLines(s[1..]))[1..] == UnixLines(s[1..]);
    }
  }

  /** The normal form in one formula; the line-end replacement adds nothing to the stripping. */
  lemma NormalizeIsStrippedClean(space: Space, text: Option<string>)
    requires KnowsLineEnds(space)
    ensures Normalize(space, text) == Strip(space, Clean(space, TextOf(text))) + "\n"
  {
    var s := TextOf(text);
    CleanIsLinewise(space, UnixLines(s));
    UnixLinesAreClean(space, s);
  }

  /** No space is the last of its line. */
  ghost predicate Tidy(space: Space, s: string) {
    forall k | 0 <= k < |s| && space(s[k]) && s[k] != '\n' :: !StartsLine(s[k + 1..])
  }

  lemma {:induction false} CleanIsTidy(space: Space, s: string)
    ensures Tidy(space, Clean(space, s))
    decreases |s|
  {
    if s != "" {
      CleanIsTidy(space, s[1..]);
      TidyAhead(space, s[0], Clean(space, s[1..]));
    }
  }

  lemma TidyAhead(space: Space, c: char, s: string)
    requires Tidy(space, s)
    ensures Tidy(space, [c] + s) <==> c == '\n' || !space(c) || !StartsLine(s)
  {
    var cs := [c] + s;
    assert cs[1..] == s;
    forall k | 0 < k < |cs| && space(cs[k]) && cs[k] != '\n' ensures !StartsLine(cs[k + 1..]) {
      assert cs[k + 1..] == s[k..];
    }
    assert Tidy(space, cs) ==> cs[0] == '\n' || !space(cs[0]) || !StartsLine(cs[1..]);
  }

  lemma {:induction false} TidyIsClean(space: Space, s: string)
    requires Tidy(space, s)
    ensures Clean(space, s) == s
    decreases |s|
  {
    if s != "" {
      assert s == [s[0]] + s[1..];
      forall k | 0 <= k < |s[1..]| && space(s[1..][k]) && s[1..][k] != '\n' ensures !StartsLine(s[1..][k + 1..]) {
        assert s[1..][k + 1..] == s[k + 2..];
      }
      TidyIsClean(space, s[1..]);
      TidyAhead(space, s[0], s[1..]);
    }
  }

  /** No space stands at either end. */
  predicate Trimmed(space: Space, s: string) {
    s == "" || (!space(s[0]) && !space(s[|s| - 1]))
  }

  lemma {:induction false} LStripKeepsTidy(space: Space, s: string)
    requires Tidy(space, s)
    ensures Tidy(space, LStrip(space, s))
    ensures LStrip(space, s) == "" || !space(LStrip(space, s)[0])
    decreases |s|
  {
    if s != "" && space(s[0]) {
      forall k | 0 <= k < |s[1..]| && space(s[1..][k]) && s[1..][k] != '\n' ensures !StartsLine(s[1..][k + 1..]) {
        assert s[1..][k + 1..] == s[k + 2..];
      }
      LStripKeepsTidy(space, s[1..]);
    }
  }

  lemma {:induction false} RStripEndsWell(space: Space, s: string)
    ensures RStrip(space, s) == "" || !space(RStrip(space, s)[|RStrip(space, s)| - 1])
    decreases |s|
  {
    if s != "" && space(s[|s| - 1]) {
      RStripEndsWell(space, s[..|s| - 1]);
    }
  }

  lemma StripTidies(space: Space, s: string)
    requires Tidy(space, s)
    ensures Tidy(space, Strip(space, s)) && Trimmed(space, Strip(space, s))
  {
    var left := LStrip(space, s);
    LStripKeepsTidy(space, s);
    RStripEndsWell(space, left);
    var both := RStrip(space, left);
    hide LStrip, RStrip;
    forall k | 0 <= k < |both| && space(both[k]) && both[k] != '\n' ensures !StartsLine(both[k + 1..]) {
      assert left[k] == both[k] && !StartsLine(left[k + 1..]);
    }
  }

  /** The canonical texts: tidy lines, no space at either end, and one final line feed. */
  ghost predicate Canonical(space: Space, s: string) {
    s != "" && s[|s| - 1] == '\n' && Tidy(space, s[..|s| - 1]) && Trimmed(space, s[..|s| - 1])
  }

  lemma NormalizeIsCanonical(space: Space, text: Option<string>)
    requires KnowsLineEnds(space)
    ensures Canonical(space, Normalize(space, text))
  {
    var s := TextOf(text);
    NormalizeIsStrippedClean(space, text);
    CleanIsTidy(space, s);
    StripTidies(space, Clean(space, s));
    assert Normalize(space, text)[..|Normalize(space, text)| - 1] == Strip(space, Clean(space, s));
  }

  lemma TidyWithFinalLine(space: Space, s: string)
    requires Tidy(space, s) && Trimmed(space, s)
    ensures Tidy(space, s + "\n")
  {
    var line := s + "\n";
    forall k | 0 <= k < |line| && space(line[k]) && line[k] != '\n' ensures !StartsLine(line[k + 1..]) {
      assert !StartsLine(s[k + 1..]);
    }
  }

  lemma StripOfTrimmedLine(space: Space, s: string)
    requires KnowsLineEnds(space) && Trimmed(space, s)
    ensures Strip(space, s + "\n") == s
  {
    var line := s + "\n";
    if s == "" {
      assert line[1..] == "";
    } else {
      assert line[0] == s[0] && line[..|line| - 1] == s;
      assert RStrip(space, s) == s && LStrip(space, line) == line;
    }
  }

  /** The canonical texts are exactly the fixed points of the normalization. */
  lemma CanonicalIsFixed(space: Space, s: string)
    requires KnowsLineEnds(space)
    ensures Canonical(space, s) <==> Normalize(space, Some(s)) == s
  {
    if Canonical(space, s) {
      var body := s[..|s| - 1];
      assert s == body + "\n";
      NormalizeIsStrippedClean(space, Some(s));
      TidyWithFinalLine(space, body);
      TidyIsClean(space, s);
      StripOfTrimmedLine(space, body);
    }
    NormalizeIsCanonical(space, Some(s));
  }

  lemma NormalizeIsIdempotent(space: Space, text: Option<string>)
    requires KnowsLineEnds(space)
    ensures Normalize(space, Some(Normalize(space, text))) == Normalize(space, text)
  {
    NormalizeIsCanonical(space, text);
    CanonicalIsFixed(space, Normalize(space, text));
  }

  /** Cleaning a text only looks at the clean form of what follows. */
  lemma {:induction false} CleanAfter(space: Space, a: string, x: string, y: string)
    requires Clean(space, x) == Clean(space, y)
    ensures Clean(space, a + x) == Clean(space, a + y)
    decreases |a|
  {
    if a == "" {
      assert a + x == x && a + y == y;
    } else {
      CleanAfter(space, a[1..], x, y);
      assert (a + x)[1..] == a[1..] + x && (a + y)[1..] == a[1..] + y;
    }
  }

  lemma {:induction false} BlanksBeforeLineEnd(space: Space, w: string, b: string)
    requires AllSpace(space, w) && '\n' !in w && StartsLine(b)
    ensures Clean(space, w + b) == Clean(space, b) && StartsLine(Clean(space, b))
    decreases |w|
  {
    if w == "" {
      assert w + b == b;
    } else {
      BlanksBeforeLineEnd(space, w[1..], b);
      assert (w + b)[1..] == w[1..] + b;
      assert w[0] in w;
    }
  }

  /** White space before a line end, or before the end of the text, does not count. */
  lemma TrailingSpaceIsIgnored(space: Space, a: string, w: string, b: string)
    requires KnowsLineEnds(space) && AllSpace(space, w) && '\n' !in w && StartsLine(b)
    ensures Normalize(space, Some(a + w + b)) == Normalize(space, Some(a + b))
  {
    BlanksBeforeLineEnd(space, w, b);
    CleanAfter(space, a, w + b, b);
    assert a + w + b == a + (w + b);
    NormalizeIsStrippedClean(space, Some(a + w + b));
    NormalizeIsStrippedClean(space, Some(a + b));
  }

  /** A text with DOS line ends, in any mixture, normalizes as its Unix rendering does. */
  lemma LineEndsAreIgnored(space: Space, s: string)
    requires KnowsLineEnds(space)
    ensures Normalize(space, Some(UnixLines(s))) == Normalize(space, Some(s))
  {
    UnixLinesAreClean(space, s);
    NormalizeIsStrippedClean(space, Some(s));
    NormalizeIsStrippedClean(space, Some(UnixLines(s)));
  }

  lemma {:induction false} LeadingSpaceStripped(space: Space, w: string, s: string)
    requires AllSpace(space, w)
    ensures Strip(space, Clean(space, w + s)) == Strip(space, Clean(space, s))
    decreases |w|
  {
    if w == "" {
      assert w + s == s;
    } else {
      LeadingSpaceStripped(space, w[1..], s);
      assert (w + s)[1..] == w[1..] + s;
      var rest := Clean(space, w[1..] + s);
      assert ([w[0]] + rest)[1..] == rest;
    }
  }

  lemma {:induction false} CleanBeforeLine(space: Space, s: string)
    ensures Clean(space, s + "\n") == Clean(space, s) + "\n"
    decreases |s|
  {
    if s == "" {
      assert s + "\n" == "\n";
    } else {
      CleanBeforeLine(space, s[1..]);
      assert (s + "\n")[1..] == s[1..] + "\n";
    }
  }

  lemma {:induction false} LStripBeforeLine(space: Space, s: string)
    requires space('\n')
    ensures LStrip(space, s + "\n") == (if LStrip(space, s) == "" then "" else LStrip(space, s) + "\n")
    decreases |s|
  {
    if s == "" {
      assert s + "\n" == "\n";
    } else {
      LStripBeforeLine(space, s[1..]);
      assert (s + "\n")[1..] == s[1..] + "\n";
    }
  }

  lemma LineStripped(space: Space, s: string)
    requires space('\n')
    ensures Strip(space, s + "\n") == Strip(space, s)
  {
    LStripBeforeLine(space, s);
    var left := LStrip(space, s);
    assert (left + "\n")[..|left|] == left;
  }

  lemma {:induction false} TrailingSpaceStripped(space: Space, s: string, w: string)
    requires KnowsLineEnds(space) && AllSpace(space, w)
    ensures Strip(space, Clean(space, s + w)) == Strip(space, Clean(space, s))
    decreases |w|
  {
    if w == "" {
      assert s + w == s;
    } else {
      var n := |w| - 1;
      TrailingSpaceStripped(space, s, w[..n]);
      assert s + w == (s + w[..n]) + [w[n]];
      if w[n] == '\n' {
        CleanBeforeLine(space, s + w[..n]);
        LineStripped(space, Clean(space, s + w[..n]));
      } else {
        BlanksBeforeLineEnd(space, [w[n]], "");
        assert [w[n]] + "" == [w[n]];
        CleanAfter(space, s + w[..n], [w[n]], "");
        assert (s + w[..n]) + "" == s + w[..n];
      }
    }
  }

  /** Blank lines, and any other white space, around the text do not count. */
  lemma SurroundingSpaceIsIgnored(space: Space, v: string, s: string, w: string)
    requires KnowsLineEnds(space) && AllSpace(space, v) && AllSpace(space, w)
    ensures Normalize(space, Some(v + s + w)) == Normalize(space, Some(s))
  {
    TrailingSpaceStripped(space, v + s, w);
    LeadingSpaceStripped(space, v, s);
    NormalizeIsStrippedClean(space, Some(v + s + w));
    NormalizeIsStrippedClean(space, Some(s));
  }

  /** The characters of a text that are no spaces, in their order. */
  function Visible(space: Space, s: string): string {
    if s == "" then "" else (if space(s[0]) then "" else [s[0]]) + Visible(space, s[1..])
  }

  lemma {:induction false} VisibleJoined(space: Space, a: string, b: string)
    ensures Visible(space, a + b) == Visible(space, a) + Visible(space, b)
    decreases |a|
  {
    if a == "" {
      assert a + b == b;
    } else {
      VisibleJoined(space, a[1..], b);
      assert (a + b)[1..] == a[1..] + b;
    }
  }

  lemma {:induction false} CleanKeepsVisible(space: Space, s: string)
    ensures Visible(space, Clean(space, s)) == Visible(space, s)
    decreases |s|
  {
    if s != "" {
      CleanKeepsVisible(space, s[1..]);
      assert ([s[0]] + Clean(space, s[1..]))[1..] == Clean(space, s[1..]);
    }
  }

  lemma {:induction false} LStripKeepsVisible(space: Space, s: string)
    ensures Visible(space, LStrip(space, s)) == Visible(space, s)
    decreases |s|
  {
    if s != "" && space(s[0]) {
      LStripKeepsVisible(space, s[1..]);
    }
  }

  lemma {:induction false} RStripKeepsVisible(space: Space, s: string)
    ensures Visible(space, RStrip(space, s)) == Visible(space, s)
    decreases |s|
  {
    if s != "" && space(s[|s| - 1]) {
      var n := |s| - 1;
      RStripKeepsVisible(space, s[..n]);
      VisibleJoined(space, s[..n], [s[n]]);
      assert s == s[..n] + [s[n]];
      assert Visible(space, [s[n]]) == "";
    }
  }

  /** The normalization drops and adds nothing but spaces. */
  lemma NormalizeKeepsVisible(space: Space, text: Option<string>)
    requires KnowsLineEnds(space)
    ensures Visible(space, Normalize(space, text)) == Visible(space, if text.Some? then text.value else "")
  {
    var s := TextOf(text);
    NormalizeIsStrippedClean(space, text);
    CleanKeepsVisible(space, s);
    LStripKeepsVisible(space, Clean(space, s));
    RStripKeepsVisible(space, LStrip(space, Clean(space, s)));
    VisibleJoined(space, Strip(space, Clean(space, s)), "\n");
    assert Visible(space, "\n") == "";
    hide Clean, LStrip, RStrip, Normalize;
  }
}
