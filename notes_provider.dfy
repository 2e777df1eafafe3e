/** The objects of the musical-notes playground: the instrument and tempo
    the `setInstrument` and `setTempo` commands change, and the code-lens
    provider, which registers the commands of the pattern table once each,
    computes the lenses of a document, and disposes its commands. */
module NotesPlayground {
  import opened Host
  import Console
  import opened NotesLens

  /** `currentInstrument` and `currentTempo`. */
  class Settings {
    var currentInstrument: int
    var currentTempo: int

    constructor()
      ensures currentInstrument == 108 && currentTempo == 120
    {
      currentInstrument := 108;
      currentTempo := 120;
    }

    /** The `setInstrument` handler of the table: `parseInt(matches[1])`
        becomes the current instrument and is returned. */
    method SetInstrument(matches: seq<string>) returns (instrument: int)
      requires |matches| > 1 && Digits(matches[1])
      modifies this
      ensures instrument == currentInstrument == Console.ParseDigits(matches[1])
      ensures currentTempo == old(currentTempo)
    {
      instrument := Console.ParseDigits(matches[1]);
      currentInstrument := instrument;
    }

    /** The `setTempo` handler of the table. */
    method SetTempo(matches: seq<string>) returns (tempo: int)
      requires |matches| > 1 && Digits(matches[1])
      modifies this
      ensures tempo == currentTempo == Console.ParseDigits(matches[1])
      ensures currentInstrument == old(currentInstrument)
    {
      tempo := Console.ParseDigits(matches[1]);
      currentTempo := tempo;
    }
  }

  // ---------------------------------------------------------------------
  // The registered commands

  /** A registered command: the disposable `registerCommand` returned and
      the key of the table entry whose handler it runs. */
  datatype Registration = Registration(disposable: Handle, owner: string)

  /** `registeredCommands`, a `Map`: its keys in insertion order and its
      entries. */
  datatype Registry = Registry(ids: seq<string>, entries: map<string, Registration>)

  ghost predicate ValidRegistry(r: Registry) {
    NoDuplicates(r.ids) && forall id :: id in r.entries <==> id in r.ids
  }

  /** The (command, entry key) pairs of a `commands` list. */
  function CommandIds(cmds: seq<Command>, key: string): (r: seq<(string, string)>)
    ensures |r| == |cmds|
    ensures forall i :: 0 <= i < |cmds| ==> r[i] == (cmds[i].id, key)
  {
    if cmds == [] then [] else [(cmds[0].id, key)] + CommandIds(cmds[1..], key)
  }

  /** The commands `registerCommands` goes through for one entry. */
  function EntryCommands(e: Entry): seq<(string, string)> {
    if e.multiple then CommandIds(e.commands, e.key)
    else if e.id != "" then [(e.id, e.key)]
    else []
  }

  function TableCommands(es: seq<Entry>): seq<(string, string)> {
    if es == [] then [] else EntryCommands(es[0]) + TableCommands(es[1..])
  }

  /** Registering `cmds` in turn, skipping ids already registered; `api`
      gives the disposable `registerCommand` returns for an id. */
  function Register(r: Registry, cmds: seq<(string, string)>, api: string -> Handle): (q: Registry)
    ensures r.ids <= q.ids
    ensures forall id :: id in r.entries ==> id in q.entries && q.entries[id] == r.entries[id]
    decreases |cmds|
  {
    if cmds == [] then r
    else
      var id := cmds[0].0;
      var next := if id in r.entries then r
        else Registry(r.ids + [id], r.entries[id := Registration(api(id), cmds[0].1)]);
      Register(next, cmds[1..], api)
  }

  /** `registeredCommands.values()` */
  function Values(ids: seq<string>, entries: map<string, Registration>): (hs: seq<Handle>)
    requires forall i :: 0 <= i < |ids| ==> ids[i] in entries
    ensures |hs| == |ids|
    ensures forall i :: 0 <= i < |ids| ==> hs[i] == entries[ids[i]].disposable
  {
    if ids == [] then [] else [entries[ids[0]].disposable] + Values(ids[1..], entries)
  }

  // ---------------------------------------------------------------------
  // The provider

  /** The search in `codeLenses` for a lens containing the match start. */
  method IsProcessed(lenses: seq<Lens>, line: nat, index: nat) returns (found: bool)
    ensures found == Covered(lenses, line, index)
  {
    found := false;
    var i := 0;
    while i < |lenses| && !found
      invariant 0 <= i <= |lenses|
      invariant found ==> Covered(lenses, line, index)
      invariant !found ==> forall j :: 0 <= j < i ==> !Contains(lenses[j], line, index)
    {
      if Contains(lenses[i], line, index) {
        found := true;
      }
      i := i + 1;
    }
  }

  /** The loop over a `commands` list pushing a lens per command whose
      condition holds. */
  method PushCommandLenses(lenses: seq<Lens>, cmds: seq<Command>, line: nat, start: nat, end: nat, argument: seq<string>)
    returns (r: seq<Lens>)
    ensures r == lenses + CommandLenses(cmds, line, start, end, argument)
  {
    r := lenses;
    for k := 0 to |cmds|
      invariant r + CommandLenses(cmds[k..], line, start, end, argument) == lenses + CommandLenses(cmds, line, start, end, argument)
    {
      var c := cmds[k];
      assert cmds[k..][1..] == cmds[k + 1..];
      if Holds(c.condition, argument) {
        r := r + [Lens(line, start, end, c.title, c.id, argument)];
      }
    }
  }

  /** The `exec` loop of one entry over one line. */
  method ScanEntry(e: Entry, lenses: seq<Lens>, line: nat, s: string, instrument: int, tempo: int) returns (r: seq<Lens>)
    ensures r == ScanLenses(e, lenses, line, s, Scan(e.pattern, s, 0), instrument, tempo)
  {
    r := lenses;
    var from := 0;
    var m := Search(e.pattern, s, from);
    while m.Some?
      invariant from <= |s|
      invariant m == Search(e.pattern, s, from)
      invariant ScanLenses(e, r, line, s, Scan(e.pattern, s, from), instrument, tempo)
        == ScanLenses(e, lenses, line, s, Scan(e.pattern, s, 0), instrument, tempo)
      decreases |s| - from
    {
      var found := m.value;
      var skip := false;
      if e.skipIfProcessed {
        skip := IsProcessed(r, line, found.index);
      }
      if !skip {
        if e.multiple {
          r := PushCommandLenses(r, e.commands, line, found.index, found.end, Processed(e, s, found));
        } else {
          var matches := MatchArray(s, found);
          r := r + [Lens(line, found.index, found.end, TitleText(e.title, matches, instrument, tempo), e.id, matches)];
        }
      }
      from := found.end;
      m := Search(e.pattern, s, from);
    }
  }

  /** The body of the loop over the pattern table: one entry on one line,
      given the lenses so far and `lineProcessed`. */
  method EntryLenses(e: Entry, lenses: seq<Lens>, processed: bool, line: nat, s: string, instrument: int, tempo: int)
    returns (r: seq<Lens>, nowProcessed: bool)
    ensures (r, nowProcessed) == EntryStep(e, lenses, processed, line, s, FullLineExtractor(s), instrument, tempo)
  {
    var x := None;
    if e.extractor && !processed {
      x := FullLineExtractor(s);
    }
    if x.Some? {
      r := PushExtracted(e, lenses, line, x.value);
      nowProcessed := true;
    } else if processed {
      r, nowProcessed := lenses, true;
    } else {
      r := ScanEntry(e, lenses, line, s, instrument, tempo);
      nowProcessed := false;
    }
  }

  /** The lenses of an extracted expression, pushed when the entry has a
      `commands` list. */
  method PushExtracted(e: Entry, lenses: seq<Lens>, line: nat, x: Extracted) returns (r: seq<Lens>)
    ensures r == lenses + ExtractedLenses(e, line, x)
  {
    if e.multiple {
      r := PushCommandLenses(lenses, e.commands, line, x.startIdx, x.startIdx + |x.expression|, SplitWs(x.expression));
    } else {
      r := lenses;
      assert r == lenses + [];
    }
  }

  /** The loop over the document's lines in `provideCodeLenses`. */
  method DocumentLenses(table: seq<Entry>, lines: seq<string>, instrument: int, tempo: int) returns (lenses: seq<Lens>)
    ensures lenses == DocLenses(table, lines, 0, [], instrument, tempo)
  {
    lenses := [];
    for k := 0 to |lines|
      invariant DocLenses(table, lines, k, lenses, instrument, tempo) == DocLenses(table, lines, 0, [], instrument, tempo)
    {
      lenses := LineLenses(table, lenses, k, lines[k], instrument, tempo);
    }
  }

  /** The loop over the pattern table for one line, with its
      `lineProcessed` flag. */
  method LineLenses(table: seq<Entry>, lenses: seq<Lens>, line: nat, s: string, instrument: int, tempo: int) returns (r: seq<Lens>)
    ensures r == EntriesLenses(table, lenses, false, line, s, FullLineExtractor(s), instrument, tempo)
  {
    r := lenses;
    var processed := false;
    for k := 0 to |table|
      invariant EntriesLenses(table[k..], r, processed, line, s, FullLineExtractor(s), instrument, tempo)
        == EntriesLenses(table, lenses, false, line, s, FullLineExtractor(s), instrument, tempo)
    {
      assert table[k..][1..] == table[k + 1..];
      r, processed := EntryLenses(table[k], r, processed, line, s, instrument, tempo);
    }
  }

  lemma {:induction false} RegisterAppend(r: Registry, a: seq<(string, string)>, b: seq<(string, string)>, api: string -> Handle)
    ensures Register(r, a + b, api) == Register(Register(r, a, api), b, api)
    decreases |a|
  {
    if a == [] {
      assert a + b == b;
    } else {
      assert (a + b)[1..] == a[1..] + b;
      var id := a[0].0;
      var next := if id in r.entries then r
        else Registry(r.ids + [id], r.entries[id := Registration(api(id), a[0].1)]);
      RegisterAppend(next, a[1..], b, api);
    }
  }

  /** Registering an id that is not yet there keeps the registry valid. */
  lemma AddFreshValid(r: Registry, id: string, reg: Registration)
    requires ValidRegistry(r) && id !in r.entries
    ensures ValidRegistry(Registry(r.ids + [id], r.entries[id := reg]))
  {
    assert forall i :: 0 <= i < |r.ids| ==> r.ids[i] in r.entries;
  }

  /** One entry of the table registered: the rest of the table still
      leads to the same registry. */
  lemma RegisterTableStep(table: seq<Entry>, k: nat, r0: Registry, before: Registry, after: Registry, api: string -> Handle)
    requires k < |table|
    requires Register(before, TableCommands(table[k..]), api) == Register(r0, TableCommands(table), api)
    requires after == Register(before, EntryCommands(table[k]), api)
    ensures Register(after, TableCommands(table[k + 1..]), api) == Register(r0, TableCommands(table), api)
  {
    assert TableCommands(table[k..]) == EntryCommands(table[k]) + TableCommands(table[k + 1..]) by {
      assert table[k..][0] == table[k];
      assert table[k..][1..] == table[k + 1..];
    }
    RegisterAppend(before, EntryCommands(table[k]), TableCommands(table[k + 1..]), api);
  }

  class ConfigurableCodeLensProvider {
    /** `codeLensPatterns`, the table the provider reads. */
    const patterns: seq<Entry>
    var registeredIds: seq<string>
    var registeredCommands: map<string, Registration>

    function Commands(): Registry
      reads this
    {
      Registry(registeredIds, registeredCommands)
    }

    ghost predicate Valid()
      reads this
    {
      ValidRegistry(Commands())
    }

    /** The constructor registers the table's commands; `api` gives the
        disposable `registerCommand` returns for an id. */
    constructor(api: string -> Handle)
      ensures patterns == Table
      ensures Valid()
      ensures Commands() == Register(Registry([], map[]), TableCommands(Table), api)
    {
      patterns := Table;
      registeredIds := [];
      registeredCommands := map[];
      new;
      var _ := RegisterCommands(api);
    }

    /** The loop over the commands of one entry in `registerCommands`:
        gives the ids it passed to `registerCommand`, in order. */
    method RegisterEach(cmds: seq<(string, string)>, api: string -> Handle) returns (calls: seq<string>)
      requires Valid()
      modifies this
      ensures Valid()
      ensures Commands() == Register(old(Commands()), cmds, api)
      ensures registeredIds == old(registeredIds) + calls
    {
      calls := [];
      ghost var r0 := Commands();
      for j := 0 to |cmds|
        invariant Valid()
        invariant registeredIds == r0.ids + calls
        invariant Register(Commands(), cmds[j..], api) == Register(r0, cmds, api)
      {
        var id := cmds[j].0;
        assert cmds[j..][1..] == cmds[j + 1..];
        if id !in registeredCommands {
          AddFreshValid(Commands(), id, Registration(api(id), cmds[j].1));
          registeredIds := registeredIds + [id];
          registeredCommands := registeredCommands[id := Registration(api(id), cmds[j].1)];
          calls := calls + [id];
        }
      }
    }

    /** `registerCommands`: gives the ids it passed to `registerCommand`,
        in order. */
    method RegisterCommands(api: string -> Handle) returns (calls: seq<string>)
      requires Valid()
      modifies this
      ensures Valid()
      ensures Commands() == Register(old(Commands()), TableCommands(patterns), api)
      ensures registeredIds == old(registeredIds) + calls
    {
      calls := [];
      ghost var r0 := Commands();
      var table := patterns;
      assert table[0..] == table;
      for k := 0 to |table|
        invariant Valid()
        invariant registeredIds == r0.ids + calls
        invariant Register(Commands(), TableCommands(table[k..]), api) == Register(r0, TableCommands(table), api)
      {
        ghost var before := Commands();
        var more := RegisterEach(EntryCommands(table[k]), api);
        AppendAssoc(r0.ids, calls, more);
        calls := calls + more;
        RegisterTableStep(table, k, r0, before, Commands(), api);
      }
    }

    /** `provideCodeLenses(document)` for a document with language
        `languageId` and text `text`. */
    method ProvideCodeLenses(languageId: string, text: string, settings: Settings) returns (lenses: seq<Lens>)
      ensures lenses == CodeLenses(patterns, languageId, text, settings.currentInstrument, settings.currentTempo)
      ensures languageId != "markdown" ==> lenses == []
    {
      lenses := [];
      if languageId != "markdown" {
        return;
      }
      lenses := DocumentLenses(patterns, SplitOn(text, '\n'), settings.currentInstrument, settings.currentTempo);
    }

    /** `dispose`: disposes the registered commands in insertion order and
        then clears the map; a throwing `dispose` ends it early, leaving
        the map as it was. */
    method Dispose() returns (disposed: seq<Handle>, thrown: Option<JsValue>)
      requires Valid()
      modifies this
      ensures (disposed, thrown) == DisposeAll(Values(old(registeredIds), old(registeredCommands)))
      ensures thrown.None? ==> registeredIds == [] && registeredCommands == map[]
      ensures thrown.Some? ==> registeredIds == old(registeredIds) && registeredCommands == old(registeredCommands)
    {
      disposed, thrown := DisposeEach(Values(registeredIds, registeredCommands));
      if thrown.Some? {
        return;
      }
      registeredIds := [];
      registeredCommands := map[];
    }
  }
}
