/** The musical-notes example playground: a table of line patterns that a
    code-lens provider turns into clickable lenses over the notes written in
    a markdown document, the commands those lenses invoke, and the state
    (instrument and tempo) two of them change.

    The patterns are JavaScript regular expressions; each is modelled as an
    anchored matcher `MatchAt` plus the left-to-right search `exec` performs
    with a global pattern.  None of them needs backtracking beyond what the
    matchers spell out: each greedy run is followed by a character its class
    excludes. */
module NotesLens {
  import opened Host
  import Console

  // ---------------------------------------------------------------------
  // Tokens

  /** `[A-G][#b]?\d` (or `[0-9]`) at `q`: its length, or 0. */
  function NoteLen(s: string, q: nat): (n: nat)
    ensures n == 0 || n == 2 || n == 3
    ensures n > 0 ==> q + n <= |s| && 'A' <= s[q] <= 'G' && IsDigit(s[q + n - 1])
  {
    if q + 2 <= |s| && 'A' <= s[q] <= 'G' && IsDigit(s[q + 1]) then 2
    else if q + 3 <= |s| && 'A' <= s[q] <= 'G' && (s[q + 1] == '#' || s[q + 1] == 'b') && IsDigit(s[q + 2]) then 3
    else 0
  }

  /** `\b` at position `k`. */
  predicate Boundary(s: string, k: nat)
    requires k <= |s|
  {
    (k > 0 && IsWordChar(s[k - 1])) != (k < |s| && IsWordChar(s[k]))
  }

  /** A non-empty run of decimal digits, as `(\d+)` captures. */
  predicate Digits(d: string) {
    d != [] && forall i :: 0 <= i < |d| ==> IsDigit(d[i])
  }

  /** `/[A-G][#b]?[0-9]/.test(s)` */
  predicate HasNote(s: string) {
    exists q | 0 <= q < |s| :: NoteLen(s, q) > 0
  }

  /** `s.split(/\s+/)` */
  function SplitWs(s: string): (r: seq<string>)
    ensures |r| >= 1
    ensures forall i, j :: 0 <= i < |r| && 0 <= j < |r[i]| ==> !IsSpace(r[i][j])
    ensures forall i :: 0 < i < |r| - 1 ==> r[i] != []
    ensures s != [] && !IsSpace(s[0]) ==> r[0] != []
    decreases |s|
  {
    var n := Span(NotSpace, s);
    if n == |s| then [s]
    else
      var w := Span(IsSpace, s[n..]);
      assert s[n..][0] == s[n];
      [s[..n]] + SplitWs(s[n + w..])
  }

  predicate NotSpace(c: char) {
    !IsSpace(c)
  }

  /** A word with no white space in it is the one part of its split. */
  lemma SplitWsWord(a: string)
    requires forall i :: 0 <= i < |a| ==> !IsSpace(a[i])
    ensures SplitWs(a) == [a]
  {
    SpanIs(NotSpace, a, |a|);
  }

  /** A word, a run of white space and the rest: the word is the first
      part and the rest is split on its own. */
  lemma SplitWsCons(a: string, w: string, b: string)
    requires forall i :: 0 <= i < |a| ==> !IsSpace(a[i])
    requires w != [] && forall i :: 0 <= i < |w| ==> IsSpace(w[i])
    requires b == [] || !IsSpace(b[0])
    ensures SplitWs(a + w + b) == [a] + SplitWs(b)
  {
    var s := a + w + b;
    WordBeforeSpace(a, w + b);
    assert s == a + (w + b);
    SpaceBeforeWord(w, b);
    assert s[|a|..][|w|..] == s[|a| + |w|..];
  }

  lemma WordBeforeSpace(a: string, t: string)
    requires forall i :: 0 <= i < |a| ==> !IsSpace(a[i])
    requires t != [] && IsSpace(t[0])
    ensures Span(NotSpace, a + t) == |a| && (a + t)[..|a|] == a && (a + t)[|a|..] == t
  {
    assert (a + t)[|a|] == t[0];
    SpanIs(NotSpace, a + t, |a|);
  }

  lemma SpaceBeforeWord(w: string, b: string)
    requires forall i :: 0 <= i < |w| ==> IsSpace(w[i])
    requires b == [] || !IsSpace(b[0])
    ensures Span(IsSpace, w + b) == |w| && (w + b)[|w|..] == b
  {
    assert |w| < |w + b| ==> (w + b)[|w|] == b[0];
    SpanIs(IsSpace, w + b, |w|);
  }

  // ---------------------------------------------------------------------
  // `fullLineExtractor` of the chord-group entry

  /** `\s+—|\s*$` at position `e`. */
  predicate DelimiterAt(s: string, e: nat)
    requires e <= |s|
  {
    var w := Span(IsSpace, s[e..]);
    (w > 0 && e + w < |s| && s[e + w] == '\U{2014}') || e + w == |s|
  }

  /** The lazy `(.*?)` from its start: the first end at which the
      delimiter matches, extending over any character but a line
      terminator. */
  function LazyEnd(s: string, e: nat): (r: Option<nat>)
    requires e <= |s|
    ensures r.Some? ==> e <= r.value <= |s|
    decreases |s| - e
  {
    if DelimiterAt(s, e) then Some(e)
    else if e < |s| && !IsLineTerminator(s[e]) then LazyEnd(s, e + 1)
    else None
  }

  /** `\s*(.*?)` followed by the delimiter, with `\s*` giving back one
      character at a time from `g` down to `p`: the span of the group. */
  function GroupFrom(s: string, p: nat, g: nat): (r: Option<(nat, nat)>)
    requires p <= g <= |s|
    ensures r.Some? ==> p <= r.value.0 <= r.value.1 <= |s|
    decreases g - p
  {
    match LazyEnd(s, g)
    case Some(e) => Some((g, e))
    case None => if g > p then GroupFrom(s, p, g - 1) else None
  }

  predicate IsMarker(c: char) {
    c == '-' || c == '\U{2022}'
  }

  /** `[-•]\s*(.*?)(?:\s+—|\s*$)` searched from position `i`: the span of
      the group in the leftmost match. */
  function NoteExpression(s: string, i: nat): (r: Option<(nat, nat)>)
    requires i <= |s|
    ensures r.Some? ==> r.value.0 <= r.value.1 <= |s|
    decreases |s| - i
  {
    if i == |s| then None
    else if IsMarker(s[i]) then
      var p := i + 1;
      var found := GroupFrom(s, p, p + Span(IsSpace, s[p..]));
      if found.Some? then found else NoteExpression(s, i + 1)
    else NoteExpression(s, i + 1)
  }

  /** What the extractor returns: the expression and `line.indexOf` of it. */
  datatype Extracted = Extracted(expression: string, startIdx: nat)

  lemma OccursInSlice(s: string, g: nat, e: nat, t: string)
    requires g <= e <= |s|
    requires exists i :: OccursAt(s[g..e], t, i)
    ensures IndexOf(s, t) >= 0
  {
    var i :| OccursAt(s[g..e], t, i);
    assert s[g + i..g + i + |t|] == t by {
      forall j | 0 <= j < |t|
        ensures s[g + i + j] == t[j]
      {
        assert t[j] == s[g..e][i..i + |t|][j];
      }
    }
    assert OccursAt(s, t, g + i);
  }

  /** `fullLineExtractor(line)`: the trimmed text after the first `-` or
      `•` marker, up to a `—` or the end of the line, when it contains a
      note; it lies on the line at `startIdx`, the first place it occurs. */
  function FullLineExtractor(line: string): (r: Option<Extracted>)
    ensures r.Some? ==> HasNote(r.value.expression) && r.value.expression != []
    ensures r.Some? ==> OccursAt(line, r.value.expression, r.value.startIdx)
    ensures r.Some? ==> forall j :: 0 <= j < r.value.startIdx ==> !OccursAt(line, r.value.expression, j)
    ensures r.Some? ==> Trimmed(r.value.expression)
    ensures NoteExpression(line, 0).None? ==> r.None?
  {
    var span := NoteExpression(line, 0);
    if span.None? then None else ExtractGroup(line, span.value.0, span.value.1)
  }

  /** The extractor's result once the group `line[g..e]` is found. */
  function ExtractGroup(line: string, g: nat, e: nat): (r: Option<Extracted>)
    requires g <= e <= |line|
    ensures r.Some? ==> HasNote(r.value.expression) && r.value.expression != []
    ensures r.Some? ==> OccursAt(line, r.value.expression, r.value.startIdx)
    ensures r.Some? ==> forall j :: 0 <= j < r.value.startIdx ==> !OccursAt(line, r.value.expression, j)
    ensures r.Some? ==> Trimmed(r.value.expression)
  {
    var expression := Trim(line[g..e]);
    if HasNote(expression) then
      OccursInSlice(line, g, e, expression);
      Some(Extracted(expression, IndexOf(line, expression)))
    else None
  }

  /** A line without a `-` or `•` has no note expression. */
  lemma {:induction false} NoMarkerNoExpression(line: string, i: nat)
    requires i <= |line|
    requires forall k :: i <= k < |line| ==> !IsMarker(line[k])
    ensures NoteExpression(line, i).None?
    decreases |line| - i
  {
    if i < |line| {
      NoMarkerNoExpression(line, i + 1);
    }
  }

  // ---------------------------------------------------------------------
  // The patterns

  /** A match of a global pattern: where it starts and ends on the line and
      the texts of its capture groups. */
  datatype RegMatch = RegMatch(index: nat, end: nat, groups: seq<string>)

  /** The match array: the matched text, then the groups. */
  function MatchArray(s: string, m: RegMatch): seq<string>
    requires m.index <= m.end <= |s|
  {
    [s[m.index..m.end]] + m.groups
  }

  datatype Pattern =
    | InstrumentPattern   // \bINSTRUMENT=(\d+)\b
    | TempoPattern        // \bTEMPO=(\d+)\b
    | ChordGroupPattern   // \([^)]*[A-G][#b]?[0-9][^)]*\)
    | NoteSequencePattern // \b((?:[A-G][#b]?\d\s+)+[A-G][#b]?\d)\b
    | SingleNotePattern   // \b([A-G][#b]?\d)\b

  /** `\bNAME=(\d+)\b` at `k`. */
  function SettingAt(s: string, k: nat, name: string): (r: Option<RegMatch>)
    requires k <= |s|
    ensures r.Some? ==> r.value.index == k < r.value.end <= |s|
    ensures r.Some? ==> |r.value.groups| == 1 && Digits(r.value.groups[0])
  {
    if Boundary(s, k) && StartsWith(s[k..], name + "=") then
      var d := k + |name| + 1;
      var n := Span(IsDigit, s[d..]);
      if n > 0 && Boundary(s, d + n) then Some(RegMatch(k, d + n, [s[d..d + n]])) else None
    else None
  }

  /** The notes separated by white space that follow a note: the end of the
      longest `(?:note\s+)*note\b` from `q`, trying one more repetition
      before stopping, as the greedy `+` does. */
  function SequenceTail(s: string, q: nat): (r: Option<nat>)
    requires q <= |s|
    ensures r.Some? ==> q < r.value <= |s|
    decreases |s| - q
  {
    var n := NoteLen(s, q);
    if n == 0 then None
    else
      var w := Span(IsSpace, s[q + n..]);
      var longer := if w > 0 then SequenceTail(s, q + n + w) else None;
      if longer.Some? then longer
      else if Boundary(s, q + n) then Some(q + n)
      else None
  }

  /** The first `)` at or after `k`, or `|s|`. */
  function CloseParen(s: string, k: nat): (c: nat)
    requires k <= |s|
    ensures k <= c <= |s|
    ensures c < |s| ==> s[c] == ')'
    ensures forall j :: k <= j < c ==> s[j] != ')'
  {
    k + Span(x => x != ')', s[k..])
  }

  /** The pattern anchored at `k`. */
  function MatchAt(p: Pattern, s: string, k: nat): (r: Option<RegMatch>)
    requires k <= |s|
    ensures r.Some? ==> r.value.index == k < r.value.end <= |s|
    ensures r.Some? && (p == InstrumentPattern || p == TempoPattern) ==> |r.value.groups| == 1 && Digits(r.value.groups[0])
  {
    match p
    case InstrumentPattern => SettingAt(s, k, "INSTRUMENT")
    case TempoPattern => SettingAt(s, k, "TEMPO")
    case ChordGroupPattern =>
      if k < |s| && s[k] == '(' then
        var c := CloseParen(s, k + 1);
        if c < |s| && HasNote(s[k + 1..c]) then Some(RegMatch(k, c + 1, [])) else None
      else None
    case NoteSequencePattern =>
      var n := NoteLen(s, k);
      if Boundary(s, k) && n > 0 then
        var w := Span(IsSpace, s[k + n..]);
        var tail := if w > 0 then SequenceTail(s, k + n + w) else None;
        if tail.Some? then Some(RegMatch(k, tail.value, [s[k..tail.value]])) else None
      else None
    case SingleNotePattern =>
      var n := NoteLen(s, k);
      if Boundary(s, k) && n > 0 && Boundary(s, k + n) then Some(RegMatch(k, k + n, [s[k..k + n]])) else None
  }

  /** `pattern.exec(s)` with `lastIndex == from`: the leftmost match that
      starts at or after `from`. */
  function Search(p: Pattern, s: string, from: nat): (r: Option<RegMatch>)
    requires from <= |s|
    ensures r.Some? ==> from <= r.value.index < r.value.end <= |s|
    ensures r.Some? ==> MatchAt(p, s, r.value.index) == r
    decreases |s| - from
  {
    var m := MatchAt(p, s, from);
    if m.Some? then m
    else if from < |s| then Search(p, s, from + 1)
    else None
  }

  /** The match `exec` finds is the leftmost one: none starts between
      `from` and it. */
  lemma {:induction false} SearchLeftmost(p: Pattern, s: string, from: nat)
    requires from <= |s| && Search(p, s, from).Some?
    ensures Gap(p, s, from, Search(p, s, from).value.index)
    decreases |s| - from
  {
    if MatchAt(p, s, from).None? {
      assert Search(p, s, from) == Search(p, s, from + 1);
      SearchLeftmost(p, s, from + 1);
      GapStep(p, s, from, Search(p, s, from).value.index);
    }
  }

  /** When `exec` finds nothing, no match starts at or after `from`. */
  lemma {:induction false} SearchNone(p: Pattern, s: string, from: nat)
    requires from <= |s| && Search(p, s, from).None?
    ensures Gap(p, s, from, |s| + 1)
    decreases |s| - from
  {
    if from < |s| {
      assert Search(p, s, from) == Search(p, s, from + 1);
      SearchNone(p, s, from + 1);
      GapStep(p, s, from, |s| + 1);
    } else {
      GapStep(p, s, from, |s| + 1);
    }
  }

  lemma GapStep(p: Pattern, s: string, a: nat, b: nat)
    requires a <= |s| && MatchAt(p, s, a).None? && Gap(p, s, a + 1, b)
    ensures Gap(p, s, a, b)
  {
  }

  /** The matches the `exec` loop visits from `from` on. */
  function Scan(p: Pattern, s: string, from: nat): (r: seq<RegMatch>)
    requires from <= |s|
    ensures forall i :: 0 <= i < |r| ==> from <= r[i].index < r[i].end <= |s|
    ensures forall i :: 0 <= i < |r| ==> MatchAt(p, s, r[i].index) == Some(r[i])
    decreases |s| - from
  {
    var m := Search(p, s, from);
    if m.None? then []
    else
      var rest := Scan(p, s, m.value.end);
      ScanCons(p, s, from, m.value, rest);
      [m.value] + rest
  }

  /** A match followed by matches that start after it are all matches
      from `from` on. */
  lemma ScanCons(p: Pattern, s: string, from: nat, m: RegMatch, rest: seq<RegMatch>)
    requires from <= m.index < m.end <= |s| && MatchAt(p, s, m.index) == Some(m)
    requires forall i :: 0 <= i < |rest| ==> m.end <= rest[i].index < rest[i].end <= |s|
    requires forall i :: 0 <= i < |rest| ==> MatchAt(p, s, rest[i].index) == Some(rest[i])
    ensures forall i :: 0 <= i < |[m] + rest| ==> from <= ([m] + rest)[i].index < ([m] + rest)[i].end <= |s|
    ensures forall i :: 0 <= i < |[m] + rest| ==> MatchAt(p, s, ([m] + rest)[i].index) == Some(([m] + rest)[i])
  {
  }

  /** The `exec` loop visits the matches from left to right, each starting
      where the previous one ended or later. */
  lemma {:induction false} ScanInOrder(p: Pattern, s: string, from: nat)
    requires from <= |s|
    ensures InOrder(Scan(p, s, from))
    decreases |s| - from
  {
    var m := Search(p, s, from);
    if m.Some? {
      var rest := Scan(p, s, m.value.end);
      assert Scan(p, s, from) == [m.value] + rest;
      ScanInOrder(p, s, m.value.end);
      InOrderCons(m.value, rest);
    }
  }

  /** Each match ends at or before the next one starts. */
  predicate InOrder(r: seq<RegMatch>) {
    forall i :: 0 <= i < |r| - 1 ==> r[i].end <= r[i + 1].index
  }

  lemma InOrderCons(m: RegMatch, rest: seq<RegMatch>)
    requires forall i :: 0 <= i < |rest| ==> m.end <= rest[i].index
    requires InOrder(rest)
    ensures InOrder([m] + rest)
  {
    var r := [m] + rest;
    forall i | 0 <= i < |r| - 1
      ensures r[i].end <= r[i + 1].index
    {
      if i == 0 {
        assert r[1] == rest[0];
      } else {
        assert r[i] == rest[i - 1] && r[i + 1] == rest[i];
      }
    }
  }

  /** The first match the loop visits is the leftmost one from `from` on. */
  lemma ScanFirst(p: Pattern, s: string, from: nat)
    requires from <= |s|
    ensures Scan(p, s, from) == [] <==> Search(p, s, from).None?
    ensures Scan(p, s, from) != [] ==> Scan(p, s, from)[0] == Search(p, s, from).value
    ensures Scan(p, s, from) != [] ==> from <= Scan(p, s, from)[0].index && Gap(p, s, from, Scan(p, s, from)[0].index)
    ensures Scan(p, s, from) == [] ==> Gap(p, s, from, |s| + 1)
  {
    if Search(p, s, from).Some? {
      SearchLeftmost(p, s, from);
    } else {
      SearchNone(p, s, from);
    }
  }

  /** The loop skips no match between two visited matches. */
  lemma {:induction false} ScanSkipsNone(p: Pattern, s: string, from: nat)
    requires from <= |s|
    ensures var r := Scan(p, s, from);
      forall i :: 0 <= i < |r| - 1 ==> Gap(p, s, r[i].end, r[i + 1].index)
    decreases |s| - from
  {
    var m := Search(p, s, from);
    if m.Some? {
      var rest := Scan(p, s, m.value.end);
      var r := [m.value] + rest;
      assert Scan(p, s, from) == r;
      ScanSkipsNone(p, s, m.value.end);
      ScanFirst(p, s, m.value.end);
      forall i | 0 <= i < |r| - 1
        ensures Gap(p, s, r[i].end, r[i + 1].index)
      {
        if i == 0 {
          assert r[1] == rest[0];
        } else {
          assert r[i] == rest[i - 1] && r[i + 1] == rest[i];
        }
      }
    }
  }

  /** No match starts after the last one the loop visits. */
  lemma {:induction false} ScanSkipsNoneAfter(p: Pattern, s: string, from: nat)
    requires from <= |s|
    ensures var r := Scan(p, s, from);
      r != [] ==> Gap(p, s, r[|r| - 1].end, |s| + 1)
    decreases |s| - from
  {
    var m := Search(p, s, from);
    if m.Some? {
      var rest := Scan(p, s, m.value.end);
      var r := [m.value] + rest;
      assert Scan(p, s, from) == r;
      if rest == [] {
        ScanFirst(p, s, m.value.end);
        assert r[|r| - 1] == m.value;
      } else {
        ScanSkipsNoneAfter(p, s, m.value.end);
        assert r[|r| - 1] == rest[|rest| - 1];
      }
    }
  }

  /** No match of `p` starts at a position from `a` up to (not including) `b`. */
  predicate Gap(p: Pattern, s: string, a: nat, b: nat) {
    forall k :: a <= k < b && k <= |s| ==> MatchAt(p, s, k).None?
  }

  // ---------------------------------------------------------------------
  // The pattern table

  /** A command's `condition`: absent, or `notes.length > 1`. */
  datatype Condition = Always | MoreThanOneNote

  predicate Holds(c: Condition, argument: seq<string>) {
    c == Always || |argument| > 1
  }

  /** An entry of a `commands` list. */
  datatype Command = Command(title: string, id: string, condition: Condition)

  /** A `title` that is a string or one of the two title functions, which
      show the current setting and the value the match would set. */
  datatype Title = Fixed(text: string) | InstrumentTitle | TempoTitle

  /** An entry of `codeLensPatterns`.  `multiple` stands for
      `multipleCommands && commands`; `title` and `id` are the single
      command of an entry without it.  `splitNotes` is the `processor`
      that splits the first group into notes. */
  datatype Entry = Entry(
    key: string,
    extractor: bool,
    pattern: Pattern,
    skipIfProcessed: bool,
    splitNotes: bool,
    multiple: bool,
    commands: seq<Command>,
    title: Title,
    id: string)

  const SetInstrument := "musicNotes.setInstrument"
  const SetTempo := "musicNotes.setTempo"
  const PlayChord := "musicNotes.playChord"
  const PlaySequence := "musicNotes.playSequence"

  const PlayCommands: seq<Command> :=
    [Command("\U{25B6} Play Chord", PlayChord, Always),
     Command("\U{25B6} Play Sequence", PlaySequence, MoreThanOneNote)]

  const Table: seq<Entry> := [
    Entry("instrument", false, InstrumentPattern, false, false, false, [], InstrumentTitle, SetInstrument),
    Entry("tempo", false, TempoPattern, false, false, false, [], TempoTitle, SetTempo),
    Entry("chordGroups", true, ChordGroupPattern, false, false, true, PlayCommands, Fixed(""), ""),
    Entry("noteSequence", false, NoteSequencePattern, false, true, true, PlayCommands, Fixed(""), ""),
    Entry("singleNote", false, SingleNotePattern, true, false, false, [], Fixed("\U{25B6} Play"), PlayChord)
  ]

  // ---------------------------------------------------------------------
  // Lenses

  /** A code lens: its range on one line and the command it invokes with
      its one argument. */
  datatype Lens = Lens(line: nat, start: nat, end: nat, title: string, command: string, argument: seq<string>)

  /** `lens.range.contains(new Position(line, index))`: both ends are
      included. */
  predicate Contains(l: Lens, line: nat, index: nat) {
    l.line == line && l.start <= index <= l.end
  }

  predicate Covered(lenses: seq<Lens>, line: nat, index: nat) {
    exists j :: 0 <= j < |lenses| && Contains(lenses[j], line, index)
  }

  function TitleText(t: Title, matches: seq<string>, instrument: int, tempo: int): string {
    var value := if |matches| > 1 then matches[1] else "undefined";
    match t
    case Fixed(text) => text
    case InstrumentTitle => "Set Instrument (" + IntToString(instrument) + ") to " + value
    case TempoTitle => "Set Tempo (" + IntToString(tempo) + ") to " + value + " BPM"
  }

  /** One lens per command whose condition holds on `argument`, in the
      order of `cmds`. */
  function CommandLenses(cmds: seq<Command>, line: nat, start: nat, end: nat, argument: seq<string>): seq<Lens> {
    if cmds == [] then []
    else
      (if Holds(cmds[0].condition, argument) then [Lens(line, start, end, cmds[0].title, cmds[0].id, argument)] else [])
      + CommandLenses(cmds[1..], line, start, end, argument)
  }

  /** The lenses of an extracted expression. */
  function ExtractedLenses(e: Entry, line: nat, x: Extracted): seq<Lens> {
    if e.multiple then CommandLenses(e.commands, line, x.startIdx, x.startIdx + |x.expression|, SplitWs(x.expression))
    else []
  }

  /** `config.processor ? config.processor(match) : match` */
  function Processed(e: Entry, s: string, m: RegMatch): seq<string>
    requires m.index <= m.end <= |s|
  {
    if e.splitNotes then SplitWs(Trim(if m.groups != [] then m.groups[0] else "")) else MatchArray(s, m)
  }

  /** The lenses of one match. */
  function MatchLenses(e: Entry, line: nat, s: string, m: RegMatch, instrument: int, tempo: int): seq<Lens>
    requires m.index <= m.end <= |s|
  {
    if e.multiple then CommandLenses(e.commands, line, m.index, m.end, Processed(e, s, m))
    else
      var matches := MatchArray(s, m);
      [Lens(line, m.index, m.end, TitleText(e.title, matches, instrument, tempo), e.id, matches)]
  }

  /** The `exec` loop over the matches `ms` of entry `e`, starting from
      the lenses produced so far. */
  function ScanLenses(e: Entry, lenses: seq<Lens>, line: nat, s: string, ms: seq<RegMatch>, instrument: int, tempo: int): (r: seq<Lens>)
    requires forall i :: 0 <= i < |ms| ==> ms[i].index <= ms[i].end <= |s|
    ensures lenses <= r
    decreases |ms|
  {
    if ms == [] then lenses
    else
      var m := ms[0];
      var next := if e.skipIfProcessed && Covered(lenses, line, m.index) then lenses
        else lenses + MatchLenses(e, line, s, m, instrument, tempo);
      var r := ScanLenses(e, next, line, s, ms[1..], instrument, tempo);
      assert r[..|lenses|] == next[..|lenses|] == lenses;
      r
  }

  /** One entry on one line: the lenses afterwards and `lineProcessed`.
      `extracted` is what `fullLineExtractor` returns for the line; the
      extractor is pure, so computing it once per line is the same as
      calling it from each entry that has it. */
  function EntryStep(e: Entry, lenses: seq<Lens>, processed: bool, line: nat, s: string, extracted: Option<Extracted>, instrument: int, tempo: int): (r: (seq<Lens>, bool))
    ensures lenses <= r.0
    ensures r.1 <==> processed || (e.extractor && extracted.Some?)
    ensures processed ==> r.0 == lenses
  {
    var x := if e.extractor && !processed then extracted else None;
    if x.Some? then (lenses + ExtractedLenses(e, line, x.value), true)
    else if processed then (lenses, true)
    else (ScanLenses(e, lenses, line, s, Scan(e.pattern, s, 0), instrument, tempo), false)
  }

  /** The entries `es` in turn on one line. */
  function EntriesLenses(es: seq<Entry>, lenses: seq<Lens>, processed: bool, line: nat, s: string, extracted: Option<Extracted>, instrument: int, tempo: int): seq<Lens> {
    if es == [] then lenses
    else
      var (next, p) := EntryStep(es[0], lenses, processed, line, s, extracted, instrument, tempo);
      EntriesLenses(es[1..], next, p, line, s, extracted, instrument, tempo)
  }

  /** The entries of `table` on the lines from `k` on. */
  function DocLenses(table: seq<Entry>, lines: seq<string>, k: nat, lenses: seq<Lens>, instrument: int, tempo: int): seq<Lens>
    requires k <= |lines|
    decreases |lines| - k
  {
    if k == |lines| then lenses
    else DocLenses(table, lines, k + 1, EntriesLenses(table, lenses, false, k, lines[k], FullLineExtractor(lines[k]), instrument, tempo), instrument, tempo)
  }

  /** `provideCodeLenses(document)` with the pattern table `table`, given
      the document's language and text and the current instrument and
      tempo. */
  function CodeLenses(table: seq<Entry>, languageId: string, text: string, instrument: int, tempo: int): (r: seq<Lens>)
    ensures languageId != "markdown" ==> r == []
  {
    if languageId != "markdown" then [] else DocLenses(table, SplitOn(text, '\n'), 0, [], instrument, tempo)
  }
}
