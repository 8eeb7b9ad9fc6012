/** The splice of a generated table between two markers of a hand-written document. */
module MatrixSplice {
  import opened Ordering

  datatype Markers = Markers(begin: string, end: string)

  const MARKERS := Markers("<!-- BEGIN GENERATED PANEL TABLE -->", "<!-- END GENERATED PANEL TABLE -->")

  datatype Rendered = Ok(text: string) | MissingMarker | EndBeforeBegin

  predicate OccursAt(s: string, mark: string, k: nat) {
    k + |mark| <= |s| && s[k..k + |mark|] == mark
  }

  predicate Contains(s: string, mark: string) {
    exists k: nat :: k <= |s| && OccursAt(s, mark, k)
  }

  /** The first occurrence from `k` on. */
  function Find(s: string, mark: string, k: nat): (found: Option<nat>)
    requires k <= |s|
    ensures found.Some? ==>
              k <= found.value && OccursAt(s, mark, found.value)
              && forall i: nat | k <= i < found.value :: !OccursAt(s, mark, i)
    ensures found.None? ==> forall i: nat | k <= i :: !OccursAt(s, mark, i)
    decreases |s| - k
  {
    if OccursAt(s, mark, k) then Some(k)
    else if k == |s| then None
    else Find(s, mark, k + 1)
  }

  /** `s.split(mark, 1)` when the mark occurs: what stands before it and after it. */
  function SplitOnce(s: string, mark: string): Option<(string, string)> {
    match Find(s, mark, 0)
    case None => None
    case Some(k) => Some((s[..k], s[k + |mark|..]))
  }

  /** `render_matrix`. A document that lacks a marker fails its assertion; one with the end marker
      only ahead of the begin marker fails to unpack the second split. */
  function Render(m: Markers, text: string, table: string): Rendered {
    if !Contains(text, m.begin) || !Contains(text, m.end) then MissingMarker
    else
      match SplitOnce(text, m.begin)
      case None => MissingMarker
      case Some((before, rest)) =>
        match SplitOnce(rest, m.end)
        case None => EndBeforeBegin
        case Some((_, after)) => Ok(Spliced(m, before, table, after))
  }

  function Spliced(m: Markers, before: string, table: string, after: string): string {
    before + m.begin + "\n\n" + table + "\n\n" + m.end + after
  }

  /** The document splits here: `before` ends at the first begin marker, and `after` starts past the
      first end marker behind it. */
  ghost predicate Around(m: Markers, text: string, before: string, stale: string, after: string) {
    && text == before + m.begin + stale + m.end + after
    && (forall k: nat | k < |before| :: !OccursAt(text, m.begin, k))
    && (forall k: nat | k < |stale| :: !OccursAt(stale + m.end + after, m.end, k))
  }

  lemma OccursWithin(s: string, t: string, mark: string, k: nat)
    requires OccursAt(s, mark, k) && s <= t
    ensures OccursAt(t, mark, k)
  {
    assert t[k..k + |mark|] == s[k..k + |mark|];
  }

  lemma OccursShifted(ahead: string, s: string, mark: string, k: nat)
    ensures OccursAt(s, mark, k) <==> OccursAt(ahead + s, mark, |ahead| + k)
  {
    if k + |mark| <= |s| {
      assert (ahead + s)[|ahead| + k..|ahead| + k + |mark|] == s[k..k + |mark|];
    }
  }

  lemma FindIs(s: string, mark: string, at: nat)
    requires OccursAt(s, mark, at) && forall k: nat | k < at :: !OccursAt(s, mark, k)
    ensures Find(s, mark, 0) == Some(at)
  {
  }

  lemma SplitOnceIs(s: string, before: string, mark: string, after: string)
    requires s == before + mark + after && forall k: nat | k < |before| :: !OccursAt(s, mark, k)
    ensures SplitOnce(s, mark) == Some((before, after)) && Contains(s, mark)
  {
    assert s[|before|..|before| + |mark|] == mark;
    assert OccursAt(s, mark, |before|);
    FindIs(s, mark, |before|);
    assert s[..|before|] == before && s[|before| + |mark|..] == after;
  }

  lemma SplitOnceJoins(s: string, mark: string)
    requires SplitOnce(s, mark).Some?
    ensures var (before, after) := SplitOnce(s, mark).value;
            s == before + mark + after && forall k: nat | k < |before| :: !OccursAt(s, mark, k)
  {
  }

  lemma ContainsBehind(ahead: string, s: string, mark: string)
    requires Contains(s, mark)
    ensures Contains(ahead + s, mark)
  {
    var k: nat :| k <= |s| && OccursAt(s, mark, k);
    OccursShifted(ahead, s, mark, k);
  }

  /** Rendering succeeds exactly on documents with an end marker behind their first begin marker, and
      replaces what stands between the two. */
  lemma RenderReplaces(m: Markers, text: string, table: string, before: string, stale: string, after: string)
    requires Around(m, text, before, stale, after)
    ensures Render(m, text, table) == Ok(before + m.begin + "\n\n" + table + "\n\n" + m.end + after)
  {
    var rest := stale + m.end + after;
    assert text == before + m.begin + rest;
    SplitOnceIs(text, before, m.begin, rest);
    SplitOnceIs(rest, stale, m.end, after);
    assert text == (before + m.begin) + rest;
    ContainsBehind(before + m.begin, rest, m.end);
  }

  lemma SplitOnceFinds(s: string, mark: string)
    ensures SplitOnce(s, mark).Some? <==> Contains(s, mark)
  {
    if Contains(s, mark) {
      var k: nat :| k <= |s| && OccursAt(s, mark, k);
    }
    if Find(s, mark, 0).Some? {
      assert OccursAt(s, mark, Find(s, mark, 0).value);
    }
  }

  lemma AroundFrom(m: Markers, text: string, before: string, rest: string, stale: string, after: string)
    requires text == before + m.begin + rest && rest == stale + m.end + after
    requires forall k: nat | k < |before| :: !OccursAt(text, m.begin, k)
    requires forall k: nat | k < |stale| :: !OccursAt(rest, m.end, k)
    ensures Around(m, text, before, stale, after)
  {
    hide OccursAt;
    assert text == before + m.begin + stale + m.end + after;
  }

  lemma RenderSplits(m: Markers, text: string, table: string) returns (before: string, stale: string, after: string)
    requires Render(m, text, table).Ok?
    ensures Around(m, text, before, stale, after) && Render(m, text, table) == Ok(Spliced(m, before, table, after))
  {
    hide OccursAt, Contains, SplitOnce, Spliced, Around;
    SplitOnceJoins(text, m.begin);
    var rest := SplitOnce(text, m.begin).value.1;
    SplitOnceJoins(rest, m.end);
    before := SplitOnce(text, m.begin).value.0;
    stale, after := SplitOnce(rest, m.end).value.0, SplitOnce(rest, m.end).value.1;
    AroundFrom(m, text, before, rest, stale, after);
  }

  /** Rendering succeeds exactly on documents with an end marker behind their first begin marker, and
      complains of a missing marker exactly when one of the two is nowhere to be found. */
  lemma RenderSucceeds(m: Markers, text: string, table: string)
    ensures Render(m, text, table).Ok? <==> exists before, stale, after :: Around(m, text, before, stale, after)
    ensures Render(m, text, table).MissingMarker? <==> !Contains(text, m.begin) || !Contains(text, m.end)
  {
    SplitOnceFinds(text, m.begin);
    if Render(m, text, table).Ok? {
      var before, stale, after := RenderSplits(m, text, table);
    } else if before, stale, after :| Around(m, text, before, stale, after) {
      RenderReplaces(m, text, table, before, stale, after);
    }
  }

  /** What the markers must be like: an end marker that is one line of text. */
  predicate Sensible(m: Markers) {
    m.end != "" && '\n' !in m.end
  }

  lemma MarkersAreSensible()
    ensures Sensible(MARKERS)
  {
  }

  lemma OccurrenceAvoids(s: string, mark: string, c: char, k: nat, i: nat)
    requires c !in mark && OccursAt(s, mark, k) && k <= i < k + |mark|
    ensures s[i] != c
  {
    assert s[i] == s[k..k + |mark|][i - k] && mark[i - k] in mark;
  }

  /** An occurrence that starts in a table fenced in by line feeds lies in the table. */
  lemma FencedOccurrence(mark: string, table: string, tail: string, k: nat)
    requires mark != "" && '\n' !in mark && k < |table| + 4
    requires OccursAt("\n\n" + table + "\n\n" + tail, mark, k)
    ensures k >= 2 && OccursAt(table, mark, k - 2)
  {
    var s := "\n\n" + table + "\n\n" + tail;
    assert s[0] == s[1] == s[|table| + 2] == s[|table| + 3] == '\n';
    OccurrenceAvoids(s, mark, '\n', k, k);
    if k <= |table| + 2 < k + |mark| {
      OccurrenceAvoids(s, mark, '\n', k, |table| + 2);
    }
    assert k - 2 + |mark| <= |table|;
    assert s[k..k + |mark|] == table[k - 2..k - 2 + |mark|];
  }

  lemma StillFirst(m: Markers, text: string, other: string, before: string)
    requires before + m.begin <= text && before + m.begin <= other
    requires forall k: nat | k < |before| :: !OccursAt(text, m.begin, k)
    ensures forall k: nat | k < |before| :: !OccursAt(other, m.begin, k)
  {
    forall k: nat | k < |before| ensures !OccursAt(other, m.begin, k) {
      if OccursAt(other, m.begin, k) {
        var head := before + m.begin;
        assert head[k..k + |m.begin|] == other[k..k + |m.begin|];
        assert OccursAt(head, m.begin, k);
        OccursWithin(head, text, m.begin, k);
      }
    }
  }

  /** A spliced document splits in the same place again when its table holds no end marker. */
  lemma SplicedIsAround(m: Markers, text: string, before: string, stale: string, table: string, after: string)
    requires Sensible(m) && Around(m, text, before, stale, after) && !Contains(table, m.end)
    ensures Around(m, Spliced(m, before, table, after), before, "\n\n" + table + "\n\n", after)
  {
    var next := Spliced(m, before, table, after);
    var fenced := "\n\n" + table + "\n\n";
    assert next == before + m.begin + fenced + m.end + after;
    StillFirst(m, text, next, before);
    forall k: nat | k < |fenced| ensures !OccursAt(fenced + m.end + after, m.end, k) {
      assert fenced + m.end + after == "\n\n" + table + "\n\n" + (m.end + after);
      if OccursAt(fenced + m.end + after, m.end, k) {
        FencedOccurrence(m.end, table, m.end + after, k);
      }
    }
  }

  /** Rendering over a rendered document leaves no trace of the first table, and all the text outside
      the markers as it was. */
  lemma RenderForgets(m: Markers, text: string, first: string, second: string)
    requires Sensible(m) && Render(m, text, first).Ok? && !Contains(first, m.end)
    ensures Render(m, Render(m, text, first).text, second) == Render(m, text, second)
  {
    hide Render, OccursAt, Contains;
    var before, stale, after := RenderSplits(m, text, first);
    SplicedIsAround(m, text, before, stale, first, after);
    RenderReplaces(m, Spliced(m, before, first, after), second, before, "\n\n" + first + "\n\n", after);
    RenderReplaces(m, text, second, before, stale, after);
  }

  /** A table that holds an end marker splits the document there the next time round, and leaves its
      own rest behind the new one. */
  lemma MarkInTableGrows(m: Markers, text: string, table: string)
    requires Sensible(m) && Render(m, text, table).Ok? && Contains(table, m.end)
    ensures var once := Render(m, text, table).text;
            Render(m, once, table).Ok? && |Render(m, once, table).text| > |once|
  {
    var before, stale, after := RenderSplits(m, text, table);
    SplitOnceFinds(table, m.end);
    SplitOnceJoins(table, m.end);
    var (head, tail) := SplitOnce(table, m.end).value;
    hide Render, Contains, SplitOnce;
    var once := Spliced(m, before, table, after);
    var further := tail + "\n\n" + m.end + after;
    MarkFoundInTable(m, text, before, stale, table, head, tail, after);
    RenderReplaces(m, once, table, before, "\n\n" + head, further);
  }

  lemma MarkFoundInTable(m: Markers, text: string, before: string, stale: string, table: string,
                         head: string, tail: string, after: string)
    requires Sensible(m) && Around(m, text, before, stale, after)
    requires table == head + m.end + tail && forall k: nat | k < |head| :: !OccursAt(table, m.end, k)
    ensures Around(m, Spliced(m, before, table, after), before, "\n\n" + head, tail + "\n\n" + m.end + after)
  {
    var once := Spliced(m, before, table, after);
    var further := tail + "\n\n" + m.end + after;
    var fenced := "\n\n" + head;
    assert once == before + m.begin + fenced + m.end + further;
    StillFirst(m, text, once, before);
    var s := fenced + m.end + further;
    forall k: nat | k < |fenced| ensures !OccursAt(s, m.end, k) {
      assert s == "\n\n" + table + "\n\n" + (m.end + after);
      if OccursAt(s, m.end, k) {
        FencedOccurrence(m.end, table, m.end + after, k);
      }
    }
  }

  /** A `--check` right after a write succeeds exactly when the table holds no end marker. */
  lemma CheckAfterWrite(m: Markers, text: string, table: string)
    requires Sensible(m) && Render(m, text, table).Ok?
    ensures Render(m, Render(m, text, table).text, table) == Render(m, text, table) <==> !Contains(table, m.end)
  {
    if Contains(table, m.end) {
      MarkInTableGrows(m, text, table);
    } else {
      RenderForgets(m, text, table, table);
    }
  }
}
