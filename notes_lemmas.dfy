/** Properties of the note-playing code-lens provider: every lens it
    produces lies on a line of the document and hands its command an
    argument the command can use, a note already covered by a lens gets
    no second one, a line the chord extractor claims gets nothing from the
    later entries, and registration keeps one handler per command id. */
module NotesProperties {
  import opened Host
  import Console
  import opened NotesLens
  import opened NotesPlayground

  // ---------------------------------------------------------------------
  // Well-formed lenses

  /** A lens lies within line `line` of `lines`; a `playSequence` lens
      carries more than one note; a setting lens carries the digits its
      handler parses as `matches[1]`. */
  predicate LensOk(l: Lens, lines: seq<string>) {
    l.line < |lines| && l.start <= l.end <= |lines[l.line]| &&
    (l.command == PlaySequence ==> |l.argument| > 1) &&
    ((l.command == SetInstrument || l.command == SetTempo) ==> |l.argument| > 1 && Digits(l.argument[1]))
  }

  predicate AllOk(ls: seq<Lens>, lines: seq<string>) {
    forall i :: 0 <= i < |ls| ==> LensOk(ls[i], lines)
  }

  predicate CommandOk(c: Command) {
    (c.id == PlaySequence ==> c.condition == MoreThanOneNote) && c.id != SetInstrument && c.id != SetTempo
  }

  /** What the table must say for its lenses to be well formed: a
      `playSequence` command is conditional on several notes, and only the
      setting patterns lead to the setting commands. */
  predicate EntryOk(e: Entry) {
    (e.multiple ==> forall i :: 0 <= i < |e.commands| ==> CommandOk(e.commands[i])) &&
    (!e.multiple ==>
      e.id != PlaySequence &&
      ((e.id == SetInstrument || e.id == SetTempo) ==> e.pattern == InstrumentPattern || e.pattern == TempoPattern))
  }

  predicate TableOk(table: seq<Entry>) {
    forall i :: 0 <= i < |table| ==> EntryOk(table[i])
  }

  lemma PatternTableOk()
    ensures TableOk(Table)
  {
    assert CommandOk(PlayCommands[0]) && CommandOk(PlayCommands[1]);
    assert EntryOk(Table[0]) && EntryOk(Table[1]) && EntryOk(Table[2]);
    assert EntryOk(Table[3]) && EntryOk(Table[4]);
  }

  lemma AllOkAppend(a: seq<Lens>, b: seq<Lens>, lines: seq<string>)
    requires AllOk(a, lines) && AllOk(b, lines)
    ensures AllOk(a + b, lines)
  {
    forall i | 0 <= i < |a + b|
      ensures LensOk((a + b)[i], lines)
    {
      if i < |a| { assert (a + b)[i] == a[i]; } else { assert (a + b)[i] == b[i - |a|]; }
    }
  }

  lemma {:induction false} CommandLensesOk(cmds: seq<Command>, line: nat, start: nat, end: nat, argument: seq<string>, lines: seq<string>)
    requires line < |lines| && start <= end <= |lines[line]|
    requires forall i :: 0 <= i < |cmds| ==> CommandOk(cmds[i])
    ensures AllOk(CommandLenses(cmds, line, start, end, argument), lines)
    decreases |cmds|
  {
    if cmds != [] {
      CommandLensesOk(cmds[1..], line, start, end, argument, lines);
      var head := if Holds(cmds[0].condition, argument) then [Lens(line, start, end, cmds[0].title, cmds[0].id, argument)] else [];
      assert AllOk(head, lines) by {
        assert CommandOk(cmds[0]);
      }
      AllOkAppend(head, CommandLenses(cmds[1..], line, start, end, argument), lines);
    }
  }

  lemma MatchLensesOk(e: Entry, line: nat, s: string, m: RegMatch, instrument: int, tempo: int, lines: seq<string>)
    requires EntryOk(e) && line < |lines| && lines[line] == s
    requires m.index <= m.end <= |s| && MatchAt(e.pattern, s, m.index) == Some(m)
    ensures AllOk(MatchLenses(e, line, s, m, instrument, tempo), lines)
  {
    if e.multiple {
      CommandLensesOk(e.commands, line, m.index, m.end, Processed(e, s, m), lines);
    } else {
      var matches := MatchArray(s, m);
      if e.id == SetInstrument || e.id == SetTempo {
        assert |m.groups| == 1 && Digits(m.groups[0]);
        assert matches[1] == m.groups[0];
      }
      assert LensOk(Lens(line, m.index, m.end, TitleText(e.title, matches, instrument, tempo), e.id, matches), lines);
    }
  }

  lemma {:induction false} ScanLensesOk(e: Entry, lenses: seq<Lens>, line: nat, s: string, ms: seq<RegMatch>, instrument: int, tempo: int, lines: seq<string>)
    requires EntryOk(e) && line < |lines| && lines[line] == s && AllOk(lenses, lines)
    requires forall i :: 0 <= i < |ms| ==> ms[i].index <= ms[i].end <= |s|
    requires forall i :: 0 <= i < |ms| ==> MatchAt(e.pattern, s, ms[i].index) == Some(ms[i])
    ensures AllOk(ScanLenses(e, lenses, line, s, ms, instrument, tempo), lines)
    decreases |ms|
  {
    if ms != [] {
      var m := ms[0];
      var next := if e.skipIfProcessed && Covered(lenses, line, m.index) then lenses
        else lenses + MatchLenses(e, line, s, m, instrument, tempo);
      MatchLensesOk(e, line, s, m, instrument, tempo, lines);
      if next != lenses {
        AllOkAppend(lenses, MatchLenses(e, line, s, m, instrument, tempo), lines);
      }
      ScanLensesOk(e, next, line, s, ms[1..], instrument, tempo, lines);
    }
  }

  /** The extracted expression lies on its line. */
  lemma ExtractedWithin(s: string)
    requires FullLineExtractor(s).Some?
    ensures FullLineExtractor(s).value.startIdx + |FullLineExtractor(s).value.expression| <= |s|
  {
    var x := FullLineExtractor(s).value;
    assert OccursAt(s, x.expression, x.startIdx);
  }

  lemma ExtractedLensesOk(e: Entry, line: nat, s: string, x: Extracted, lines: seq<string>)
    requires EntryOk(e) && line < |lines| && lines[line] == s
    requires x.startIdx + |x.expression| <= |s|
    ensures AllOk(ExtractedLenses(e, line, x), lines)
  {
    if e.multiple {
      CommandLensesOk(e.commands, line, x.startIdx, x.startIdx + |x.expression|, SplitWs(x.expression), lines);
    }
  }

  lemma {:induction false} EntriesLensesOk(es: seq<Entry>, lenses: seq<Lens>, processed: bool, line: nat, s: string, extracted: Option<Extracted>, instrument: int, tempo: int, lines: seq<string>)
    requires TableOk(es) && line < |lines| && lines[line] == s && AllOk(lenses, lines)
    requires extracted.Some? ==> extracted.value.startIdx + |extracted.value.expression| <= |s|
    ensures AllOk(EntriesLenses(es, lenses, processed, line, s, extracted, instrument, tempo), lines)
    decreases |es|
  {
    if es != [] {
      var e := es[0];
      assert EntryOk(e);
      var x := if e.extractor && !processed then extracted else None;
      if x.Some? {
        ExtractedLensesOk(e, line, s, x.value, lines);
        AllOkAppend(lenses, ExtractedLenses(e, line, x.value), lines);
      } else if !processed {
        ScanLensesOk(e, lenses, line, s, Scan(e.pattern, s, 0), instrument, tempo, lines);
      }
      var (next, p) := EntryStep(e, lenses, processed, line, s, extracted, instrument, tempo);
      assert TableOk(es[1..]) by {
        forall i | 0 <= i < |es[1..]| ensures EntryOk(es[1..][i]) { assert es[1..][i] == es[i + 1]; }
      }
      EntriesLensesOk(es[1..], next, p, line, s, extracted, instrument, tempo, lines);
    }
  }

  lemma {:induction false} DocLensesOk(table: seq<Entry>, lines: seq<string>, k: nat, lenses: seq<Lens>, instrument: int, tempo: int)
    requires TableOk(table) && k <= |lines| && AllOk(lenses, lines)
    ensures AllOk(DocLenses(table, lines, k, lenses, instrument, tempo), lines)
    decreases |lines| - k
  {
    if k < |lines| {
      var x := FullLineExtractor(lines[k]);
      if x.Some? {
        ExtractedWithin(lines[k]);
      }
      EntriesLensesOk(table, lenses, false, k, lines[k], x, instrument, tempo, lines);
      DocLensesOk(table, lines, k + 1, EntriesLenses(table, lenses, false, k, lines[k], x, instrument, tempo), instrument, tempo);
    }
  }

  /** Every lens of a markdown document lies within one of its lines, a
      "Play Sequence" lens always has more than one note to play, and a
      "Set Instrument" or "Set Tempo" lens always passes its handler the
      digits it parses. */
  lemma CodeLensesOk(languageId: string, text: string, instrument: int, tempo: int)
    ensures AllOk(CodeLenses(Table, languageId, text, instrument, tempo), SplitOn(text, '\n'))
  {
    if languageId == "markdown" {
      PatternTableOk();
      DocLensesOk(Table, SplitOn(text, '\n'), 0, [], instrument, tempo);
    }
  }

  // ---------------------------------------------------------------------
  // One lens per note

  lemma {:induction false} CommandLensesAt(cmds: seq<Command>, line: nat, start: nat, end: nat, argument: seq<string>)
    ensures forall j :: 0 <= j < |CommandLenses(cmds, line, start, end, argument)| ==>
      CommandLenses(cmds, line, start, end, argument)[j].line == line &&
      CommandLenses(cmds, line, start, end, argument)[j].start == start
    decreases |cmds|
  {
    if cmds != [] {
      CommandLensesAt(cmds[1..], line, start, end, argument);
    }
  }

  /** The `singleNote` entry adds a lens for a note only where no earlier
      lens of the line already contains the note's start: every lens its
      scan adds starts outside all the lenses before it. */
  lemma {:induction false} ScanSkipsCovered(e: Entry, lenses: seq<Lens>, line: nat, s: string, ms: seq<RegMatch>, instrument: int, tempo: int)
    requires e.skipIfProcessed && !e.multiple
    requires forall i :: 0 <= i < |ms| ==> ms[i].index <= ms[i].end <= |s|
    ensures var r := ScanLenses(e, lenses, line, s, ms, instrument, tempo);
      lenses <= r &&
      forall j :: |lenses| <= j < |r| ==> r[j].line == line && !Covered(r[..j], line, r[j].start)
    decreases |ms|
  {
    if ms != [] {
      var m := ms[0];
      var next := if Covered(lenses, line, m.index) then lenses
        else lenses + MatchLenses(e, line, s, m, instrument, tempo);
      ScanSkipsCovered(e, next, line, s, ms[1..], instrument, tempo);
      var r := ScanLenses(e, lenses, line, s, ms, instrument, tempo);
      assert r == ScanLenses(e, next, line, s, ms[1..], instrument, tempo);
      if next != lenses {
        assert |next| == |lenses| + 1;
        assert r[|lenses|] == next[|lenses|];
        assert r[..|lenses|] == lenses;
      }
    }
  }

  // ---------------------------------------------------------------------
  // Lines the chord extractor claims

  /** Once a line is processed, the remaining entries add nothing to it. */
  lemma {:induction false} ProcessedLineStops(es: seq<Entry>, lenses: seq<Lens>, line: nat, s: string, extracted: Option<Extracted>, instrument: int, tempo: int)
    ensures EntriesLenses(es, lenses, true, line, s, extracted, instrument, tempo) == lenses
    decreases |es|
  {
    if es != [] {
      ProcessedLineStops(es[1..], lenses, line, s, extracted, instrument, tempo);
    }
  }

  /** The first extractor entry on an unprocessed line with a note
      expression contributes the expression's lenses, and the entries after
      it contribute nothing. */
  lemma {:induction false} ClaimedLine(pre: seq<Entry>, tail: seq<Entry>, lenses: seq<Lens>, line: nat, s: string, x: Extracted, instrument: int, tempo: int)
    requires forall k :: 0 <= k < |pre| ==> !pre[k].extractor
    requires tail != [] && tail[0].extractor
    ensures EntriesLenses(pre + tail, lenses, false, line, s, Some(x), instrument, tempo)
      == EntriesLenses(pre, lenses, false, line, s, Some(x), instrument, tempo) + ExtractedLenses(tail[0], line, x)
    decreases |pre|
  {
    if pre == [] {
      assert pre + tail == tail;
      ProcessedLineStops(tail[1..], lenses + ExtractedLenses(tail[0], line, x), line, s, Some(x), instrument, tempo);
    } else {
      var next := ScanLenses(pre[0], lenses, line, s, Scan(pre[0].pattern, s, 0), instrument, tempo);
      assert EntriesLenses(pre + tail, lenses, false, line, s, Some(x), instrument, tempo)
        == EntriesLenses(pre[1..] + tail, next, false, line, s, Some(x), instrument, tempo) by {
        assert (pre + tail)[0] == pre[0] && !pre[0].extractor;
        assert (pre + tail)[1..] == pre[1..] + tail;
      }
      ClaimedLine(pre[1..], tail, next, line, s, x, instrument, tempo);
    }
  }

  /** A line on which `fullLineExtractor` finds a note expression `x`
      gets the instrument and tempo lenses, then "Play Chord" and, for more
      than one note, "Play Sequence" over the expression, and nothing from
      the note sequence and single note patterns. */
  lemma ChordLineLenses(lenses: seq<Lens>, line: nat, s: string, x: Extracted, instrument: int, tempo: int)
    ensures EntriesLenses(Table, lenses, false, line, s, Some(x), instrument, tempo)
      == EntriesLenses(Table[..2], lenses, false, line, s, Some(x), instrument, tempo)
         + CommandLenses(PlayCommands, line, x.startIdx, x.startIdx + |x.expression|, SplitWs(x.expression))
  {
    var t := Table;
    assert |t| == 5 && !t[0].extractor && !t[1].extractor && t[2].extractor && t[2].multiple && t[2].commands == PlayCommands;
    ThirdEntryClaims(t, lenses, line, s, x, instrument, tempo);
  }

  /** The same for any table whose first two entries scan and whose third
      is the multiple-lens extractor entry. */
  lemma ThirdEntryClaims(t: seq<Entry>, lenses: seq<Lens>, line: nat, s: string, x: Extracted, instrument: int, tempo: int)
    requires |t| >= 3 && !t[0].extractor && !t[1].extractor && t[2].extractor && t[2].multiple
    ensures EntriesLenses(t, lenses, false, line, s, Some(x), instrument, tempo)
      == EntriesLenses(t[..2], lenses, false, line, s, Some(x), instrument, tempo)
         + CommandLenses(t[2].commands, line, x.startIdx, x.startIdx + |x.expression|, SplitWs(x.expression))
  {
    assert t == t[..2] + t[2..];
    ClaimedLine(t[..2], t[2..], lenses, line, s, x, instrument, tempo);
  }

  // ---------------------------------------------------------------------
  // Registration

  /** Registering never replaces a handler already registered. */
  lemma {:induction false} RegisterKeeps(r: Registry, cmds: seq<(string, string)>, api: string -> Handle)
    ensures var q := Register(r, cmds, api);
      r.ids <= q.ids &&
      (forall id :: id in r.entries ==> id in q.entries && q.entries[id] == r.entries[id]) &&
      (forall id :: id in q.entries <==> id in r.entries || exists i :: 0 <= i < |cmds| && cmds[i].0 == id)
    decreases |cmds|
  {
    if cmds != [] {
      var id := cmds[0].0;
      var next := if id in r.entries then r
        else Registry(r.ids + [id], r.entries[id := Registration(api(id), cmds[0].1)]);
      RegisterKeeps(next, cmds[1..], api);
      var q := Register(r, cmds, api);
      forall x | x in q.entries
        ensures x in r.entries || exists i :: 0 <= i < |cmds| && cmds[i].0 == x
      {
        if x !in next.entries {
          var i :| 0 <= i < |cmds[1..]| && cmds[1..][i].0 == x;
          assert cmds[i + 1].0 == x;
        }
      }
      forall x | x !in r.entries && exists i :: 0 <= i < |cmds| && cmds[i].0 == x
        ensures x in q.entries
      {
        var i :| 0 <= i < |cmds| && cmds[i].0 == x;
        if i > 0 {
          assert cmds[1..][i - 1].0 == x;
        }
      }
    }
  }

  /** The registry stays a map whose key order lists each key once. */
  lemma {:induction false} RegisterValid(r: Registry, cmds: seq<(string, string)>, api: string -> Handle)
    requires ValidRegistry(r)
    ensures ValidRegistry(Register(r, cmds, api))
    decreases |cmds|
  {
    if cmds != [] {
      var id := cmds[0].0;
      var next := if id in r.entries then r
        else Registry(r.ids + [id], r.entries[id := Registration(api(id), cmds[0].1)]);
      assert ValidRegistry(next);
      RegisterValid(next, cmds[1..], api);
    }
  }

  /** An id's handler is the one of its first occurrence in `cmds`. */
  lemma {:induction false} RegisterFirstWins(r: Registry, cmds: seq<(string, string)>, api: string -> Handle, i: nat)
    requires i < |cmds| && cmds[i].0 !in r.entries
    requires forall j :: 0 <= j < i ==> cmds[j].0 != cmds[i].0
    ensures cmds[i].0 in Register(r, cmds, api).entries
    ensures Register(r, cmds, api).entries[cmds[i].0] == Registration(api(cmds[i].0), cmds[i].1)
    decreases |cmds|
  {
    var id := cmds[0].0;
    var next := if id in r.entries then r
      else Registry(r.ids + [id], r.entries[id := Registration(api(id), cmds[0].1)]);
    if i == 0 {
      RegisterKeeps(next, cmds[1..], api);
    } else {
      assert cmds[1..][i - 1] == cmds[i];
      RegisterFirstWins(next, cmds[1..], api, i - 1);
    }
  }

  lemma TableCommandsValue()
    ensures TableCommands(Table) == [
      (SetInstrument, "instrument"), (SetTempo, "tempo"),
      (PlayChord, "chordGroups"), (PlaySequence, "chordGroups"),
      (PlayChord, "noteSequence"), (PlaySequence, "noteSequence"),
      (PlayChord, "singleNote")]
  {
    var chord := [(PlayChord, "chordGroups"), (PlaySequence, "chordGroups")];
    var sequence := [(PlayChord, "noteSequence"), (PlaySequence, "noteSequence")];
    assert CommandIds(PlayCommands, "chordGroups") == chord;
    assert CommandIds(PlayCommands, "noteSequence") == sequence;
    assert TableCommands(Table[4..]) == [(PlayChord, "singleNote")] by {
      assert Table[4..][1..] == [];
    }
    assert TableCommands(Table[3..]) == sequence + [(PlayChord, "singleNote")] by {
      assert Table[3..][1..] == Table[4..];
    }
    assert TableCommands(Table[2..]) == chord + sequence + [(PlayChord, "singleNote")] by {
      assert Table[2..][1..] == Table[3..];
    }
    assert TableCommands(Table[1..]) == [(SetTempo, "tempo")] + chord + sequence + [(PlayChord, "singleNote")] by {
      assert Table[1..][1..] == Table[2..];
    }
  }

  /** The four command ids of the table are different strings. */
  lemma CommandIdsDistinct()
    ensures SetInstrument != SetTempo && SetInstrument != PlayChord && SetInstrument != PlaySequence
    ensures SetTempo != PlayChord && SetTempo != PlaySequence && PlayChord != PlaySequence
  {
    assert |SetInstrument| == 24 && |SetTempo| == 19 && |PlayChord| == 20 && |PlaySequence| == 23;
  }

  /** One table row whose id is not yet registered adds it. */
  lemma RegisterFresh(r: Registry, id: string, title: string, rest: seq<(string, string)>, api: string -> Handle)
    requires id !in r.entries
    ensures Register(r, [(id, title)] + rest, api)
      == Register(Registry(r.ids + [id], r.entries[id := Registration(api(id), title)]), rest, api)
  {
    assert ([(id, title)] + rest)[1..] == rest;
  }

  /** The last three table rows name commands that are already registered,
      so they change nothing. */
  lemma RegisteredAlready(r: Registry, api: string -> Handle)
    requires PlayChord in r.entries && PlaySequence in r.entries
    ensures Register(r, [(PlayChord, "noteSequence"), (PlaySequence, "noteSequence"), (PlayChord, "singleNote")], api) == r
  {
    var c4, c5, c6 := (PlayChord, "noteSequence"), (PlaySequence, "noteSequence"), (PlayChord, "singleNote");
    assert Register(r, [c6], api) == r by { assert [c6][1..] == []; }
    assert Register(r, [c5, c6], api) == r by { assert [c5, c6][1..] == [c6]; }
    assert [c4, c5, c6][1..] == [c5, c6];
  }

  /** Registering the seven (command, entry) pairs of the table. */
  lemma RegisterTablePairs(api: string -> Handle)
    ensures var q := Register(Registry([], map[]), [
        (SetInstrument, "instrument"), (SetTempo, "tempo"),
        (PlayChord, "chordGroups"), (PlaySequence, "chordGroups"),
        (PlayChord, "noteSequence"), (PlaySequence, "noteSequence"),
        (PlayChord, "singleNote")], api);
      q.ids == [SetInstrument, SetTempo, PlayChord, PlaySequence] &&
      q.entries == map[
        SetInstrument := Registration(api(SetInstrument), "instrument"),
        SetTempo := Registration(api(SetTempo), "tempo"),
        PlayChord := Registration(api(PlayChord), "chordGroups"),
        PlaySequence := Registration(api(PlaySequence), "chordGroups")]
  {
    CommandIdsDistinct();
    var c0, c1, c2, c3 := (SetInstrument, "instrument"), (SetTempo, "tempo"), (PlayChord, "chordGroups"), (PlaySequence, "chordGroups");
    var tail := [(PlayChord, "noteSequence"), (PlaySequence, "noteSequence"), (PlayChord, "singleNote")];
    var r0 := Registry([], map[]);
    var r1 := Registry(r0.ids + [SetInstrument], r0.entries[SetInstrument := Registration(api(SetInstrument), "instrument")]);
    var r2 := Registry(r1.ids + [SetTempo], r1.entries[SetTempo := Registration(api(SetTempo), "tempo")]);
    var r3 := Registry(r2.ids + [PlayChord], r2.entries[PlayChord := Registration(api(PlayChord), "chordGroups")]);
    var r4 := Registry(r3.ids + [PlaySequence], r3.entries[PlaySequence := Registration(api(PlaySequence), "chordGroups")]);
    var table := [c0, c1, c2, c3, (PlayChord, "noteSequence"), (PlaySequence, "noteSequence"), (PlayChord, "singleNote")];
    assert table == [c0] + ([c1] + ([c2] + ([c3] + tail)));
    calc {
      Register(r0, [c0] + ([c1] + ([c2] + ([c3] + tail))), api);
      { RegisterFresh(r0, SetInstrument, "instrument", [c1] + ([c2] + ([c3] + tail)), api); }
      Register(r1, [c1] + ([c2] + ([c3] + tail)), api);
      { RegisterFresh(r1, SetTempo, "tempo", [c2] + ([c3] + tail), api); }
      Register(r2, [c2] + ([c3] + tail), api);
      { RegisterFresh(r2, PlayChord, "chordGroups", [c3] + tail, api); }
      Register(r3, [c3] + tail, api);
      { RegisterFresh(r3, PlaySequence, "chordGroups", tail, api); }
      Register(r4, tail, api);
      { RegisteredAlready(r4, api); }
      r4;
    }
    assert Register(r0, table, api) == r4;
    assert r4.ids == [SetInstrument, SetTempo, PlayChord, PlaySequence];
    assert r4.entries == map[
      SetInstrument := Registration(api(SetInstrument), "instrument"),
      SetTempo := Registration(api(SetTempo), "tempo"),
      PlayChord := Registration(api(PlayChord), "chordGroups"),
      PlaySequence := Registration(api(PlaySequence), "chordGroups")];
  }

  /** Registering the table registers four commands, in table order; the
      chord-group handlers serve "Play Chord" and "Play Sequence" for the
      note-sequence and single-note lenses too, since the later entries'
      ids are already taken. */
  lemma TableRegistration(api: string -> Handle)
    ensures var q := Register(Registry([], map[]), TableCommands(Table), api);
      q.ids == [SetInstrument, SetTempo, PlayChord, PlaySequence] &&
      q.entries == map[
        SetInstrument := Registration(api(SetInstrument), "instrument"),
        SetTempo := Registration(api(SetTempo), "tempo"),
        PlayChord := Registration(api(PlayChord), "chordGroups"),
        PlaySequence := Registration(api(PlaySequence), "chordGroups")]
  {
    TableCommandsValue();
    RegisterTablePairs(api);
  }

  // ---------------------------------------------------------------------
  // Disposal

  /** `registeredCommands.values()` lists the handle of every registered
      command. */
  lemma ValuesCoverRegistry(r: Registry, id: string)
    requires ValidRegistry(r) && id in r.entries
    ensures forall i :: 0 <= i < |r.ids| ==> r.ids[i] in r.entries
    ensures r.entries[id].disposable in Values(r.ids, r.entries)
  {
    var i :| 0 <= i < |r.ids| && r.ids[i] == id;
    assert Values(r.ids, r.entries)[i] == r.entries[id].disposable;
  }

  // ---------------------------------------------------------------------
  // Settings

  lemma {:induction false} ParseDigitsPositive(d: string)
    requires Digits(d) && d[0] != '0'
    ensures Console.ParseDigits(d) > 0
    decreases |d|
  {
    if |d| > 1 {
      ParseDigitsPositive(d[..|d| - 1]);
    }
  }

  /** A digit string without leading zeros is how its value prints. */
  lemma {:induction false} ParseDigitsShown(d: string)
    requires Digits(d) && (d[0] != '0' || |d| == 1)
    ensures NatToString(Console.ParseDigits(d)) == d
    decreases |d|
  {
    var n := Console.ParseDigits(d);
    var last := d[|d| - 1];
    if |d| == 1 {
      assert n == Console.ParseDigits([]) * 10 + Console.DigitValue(last);
      assert NatToString(n) == ['0' + (n % 10) as char];
    } else {
      var front := d[..|d| - 1];
      ParseDigitsPositive(front);
      ParseDigitsShown(front);
      assert n == 10 * Console.ParseDigits(front) + Console.DigitValue(last);
      assert n / 10 == Console.ParseDigits(front) && n % 10 == Console.DigitValue(last);
      assert d == front + [last];
    }
  }

  /** After "Set Instrument" runs with a lens's arguments, the instrument
      lens of the same text reads "Set Instrument (D) to D": the title shows
      the value the handler stored. */
  lemma InstrumentTitleShowsSetting(matches: seq<string>, tempo: int)
    requires |matches| > 1 && Digits(matches[1]) && (matches[1][0] != '0' || |matches[1]| == 1)
    ensures TitleText(InstrumentTitle, matches, Console.ParseDigits(matches[1]), tempo)
      == "Set Instrument (" + matches[1] + ") to " + matches[1]
  {
    ParseDigitsShown(matches[1]);
  }

  lemma TempoTitleShowsSetting(matches: seq<string>, instrument: int)
    requires |matches| > 1 && Digits(matches[1]) && (matches[1][0] != '0' || |matches[1]| == 1)
    ensures TitleText(TempoTitle, matches, instrument, Console.ParseDigits(matches[1]))
      == "Set Tempo (" + matches[1] + ") to " + matches[1] + " BPM"
  {
    ParseDigitsShown(matches[1]);
  }
}
