/** What the source transformer does to the number of lines. */
module TransformLemmas {
  import opened Host
  import opened Transform

  // ---------------------------------------------------------------------
  // Line counts

  function Newlines(s: string): nat {
    if s == [] then 0 else (if s[0] == '\n' then 1 else 0) + Newlines(s[1..])
  }

  lemma {:induction false} NewlinesAppend(a: string, b: string)
    ensures Newlines(a + b) == Newlines(a) + Newlines(b)
    decreases |a|
  {
    if a == [] {
      assert a + b == b;
    } else {
      assert (a + b)[0] == a[0] && (a + b)[1..] == a[1..] + b;
      NewlinesAppend(a[1..], b);
    }
  }

  lemma NewlinesSlice(s: string, a: nat, b: nat)
    requires a <= b <= |s|
    ensures Newlines(s[a..b]) <= Newlines(s)
  {
    assert s == s[..a] + s[a..b] + s[b..];
    NewlinesAppend(s[..a] + s[a..b], s[b..]);
    NewlinesAppend(s[..a], s[a..b]);
  }

  /** The match of `r` at the start of `t`, if any, has as many line breaks
      as the text it replaces. */
  predicate MatchKeepsLines(r: Rule, t: string) {
    match MatchAt(r, t)
    case None => true
    case Some(m) => Newlines(Replacement(r, t, m)) == Newlines(t[..m.len])
  }

  predicate KeepsLinesAt(r: Rule, s: string) {
    forall i :: 0 <= i < |s| ==> MatchKeepsLines(r, s[i..])
  }

  lemma KeepsLinesSuffix(r: Rule, s: string, k: nat)
    requires KeepsLinesAt(r, s) && k <= |s|
    ensures KeepsLinesAt(r, s[k..])
  {
    forall i | 0 <= i < |s[k..]| ensures MatchKeepsLines(r, s[k..][i..]) {
      assert s[k..][i..] == s[i + k..];
    }
  }

  lemma NewlinesSplit(s: string, k: nat)
    requires k <= |s|
    ensures Newlines(s) == Newlines(s[..k]) + Newlines(s[k..])
  {
    assert s == s[..k] + s[k..];
    NewlinesAppend(s[..k], s[k..]);
  }

  lemma EmittedKeepsLines(r: Rule, s: string)
    requires s != [] && KeepsLinesAt(r, s)
    ensures Newlines(Emitted(r, s)) == Newlines(s[..Step(r, s)])
  {
    assert s[0..] == s;
    if MatchAt(r, s).None? {
      assert s[..1] == [s[0]];
    }
  }

  /** A pass whose every match keeps its own line count keeps the line count
      of the whole text. */
  lemma {:induction false} RewriteKeepsLines(r: Rule, s: string)
    requires KeepsLinesAt(r, s)
    ensures Newlines(Rewrite(r, s)) == Newlines(s)
    decreases |s|
  {
    if s != [] {
      var k := Step(r, s);
      EmittedKeepsLines(r, s);
      NewlinesSplit(s, k);
      KeepsLinesSuffix(r, s, k);
      RewriteKeepsLines(r, s[k..]);
      NewlinesAppend(Emitted(r, s), Rewrite(r, s[k..]));
    }
  }

  lemma {:induction false} NoNewlineChar(s: string)
    requires '\n' !in s
    ensures Newlines(s) == 0
    decreases |s|
  {
    if s != [] {
      assert s == [s[0]] + s[1..];
      NoNewlineChar(s[1..]);
    }
  }

  /** The literal text of template `t` has no line break. */
  predicate TextsOneLine(t: seq<Piece>) {
    forall k :: 0 <= k < |t| && t[k].Text? ==> '\n' !in t[k].t
  }

  /** A replacement template with no line break in its literal text,
      expanded from captures that lie inside a one-line match, has no line
      break. */
  lemma {:induction false} ExpandOneLine(t: seq<Piece>, s: string, m: Match)
    requires WellFormed(m, s) && Newlines(s[..m.len]) == 0
    requires TextsOneLine(t)
    ensures Newlines(Expand(t, s, m.groups)) == 0
    decreases |t|
  {
    if t != [] {
      assert forall k :: 0 <= k < |t[1..]| ==> t[1..][k] == t[k + 1];
      ExpandOneLine(t[1..], s, m);
      var head := match t[0] case Text(x) => x case Group(n) => Captured(s, m.groups, n);
      if t[0].Text? {
        NoNewlineChar(head);
      } else {
        CapturedOneLine(s, m, t[0].n);
      }
      NewlinesAppend(head, Expand(t[1..], s, m.groups));
    }
  }

  /** What a group of a match on one line captured is on one line. */
  lemma CapturedOneLine(s: string, m: Match, n: nat)
    requires WellFormed(m, s) && Newlines(s[..m.len]) == 0
    ensures Newlines(Captured(s, m.groups, n)) == 0
  {
    if 1 <= n <= |m.groups| {
      var (a, b) := m.groups[n - 1];
      assert s[..m.len][a..b] == s[a..b];
      NewlinesSlice(s[..m.len], a, b);
    }
  }

  lemma TemplateOneLine(r: Rule)
    ensures TextsOneLine(Template(r))
  {
    match r
    case ImportNamespace => ImportNamespaceTemplateOneLine();
    case ImportNamed => ImportNamedTemplateOneLine();
    case ImportDefault => ImportDefaultTemplateOneLine();
    case ExportFunction => ExportFunctionTemplateOneLine();
    case ExportList =>
    case ExportConst => ExportConstTemplateOneLine();
  }

  lemma ImportNamespaceTemplateOneLine() ensures TextsOneLine(Template(ImportNamespace)) {}
  lemma ImportNamedTemplateOneLine() ensures TextsOneLine(Template(ImportNamed)) {}
  lemma ImportDefaultTemplateOneLine() ensures TextsOneLine(Template(ImportDefault)) {
    var t := Template(ImportDefault);
    assert '\n' !in t[4].t by { assert t[4].t == "\").default || require(\""; }
    assert forall k :: 0 <= k < 4 ==> t[k] == Template(ImportNamespace)[k];
    ImportNamespaceTemplateOneLine();
  }
  lemma ExportFunctionTemplateOneLine() ensures TextsOneLine(Template(ExportFunction)) {}
  lemma ExportConstTemplateOneLine() ensures TextsOneLine(Template(ExportConst)) {}

  /** Every rule except `export {...}` replaces a match that lies on one line
      by text on one line. */
  lemma OneLineMatchKeepsLines(r: Rule, t: string)
    requires r != ExportList
    requires MatchAt(r, t).Some? && Newlines(t[..MatchAt(r, t).value.len]) == 0
    ensures Newlines(Replacement(r, t, MatchAt(r, t).value)) == 0
    ensures MatchKeepsLines(r, t)
  {
    TemplateOneLine(r);
    ExpandOneLine(Template(r), t, MatchAt(r, t).value);
  }

  /** Every match of `r` in `s` lies on one line. */
  predicate OneLineMatches(r: Rule, s: string) {
    forall i :: 0 <= i < |s| && MatchAt(r, s[i..]).Some? ==> Newlines(s[i..][..MatchAt(r, s[i..]).value.len]) == 0
  }

  /** A pass other than `export {...}` whose matches in `s` each lie on one
      line leaves the number of lines of `s` unchanged. */
  lemma RewriteOneLineKeepsLines(r: Rule, s: string)
    requires r != ExportList && OneLineMatches(r, s)
    ensures Newlines(Rewrite(r, s)) == Newlines(s)
  {
    forall i | 0 <= i < |s| ensures MatchKeepsLines(r, s[i..]) {
      if MatchAt(r, s[i..]).Some? {
        OneLineMatchKeepsLines(r, s[i..]);
      }
    }
    RewriteKeepsLines(r, s);
  }

  /** The text each pass of `rules` sees, starting from `s`, has its matches
      on one line, and none at all for `export {...}`, whose replacement
      puts each name on a line of its own. */
  predicate OneLinePasses(rules: seq<Rule>, s: string)
    decreases |rules|
  {
    rules == [] ||
    ((if rules[0] == ExportList then NoMatchIn(rules[0], s) else OneLineMatches(rules[0], s)) &&
     OneLinePasses(rules[1..], Rewrite(rules[0], s)))
  }

  lemma {:induction false} ApplyKeepsLines(rules: seq<Rule>, s: string)
    requires OneLinePasses(rules, s)
    ensures Newlines(Apply(rules, s)) == Newlines(s)
    decreases |rules|
  {
    if rules != [] {
      if rules[0] != ExportList {
        RewriteOneLineKeepsLines(rules[0], s);
      }
      ApplyKeepsLines(rules[1..], Rewrite(rules[0], s));
    }
  }

  /** The transformed text has as many lines as the file, so positions in
      error stacks still point at the right line, as long as every import
      and export form each pass rewrites lies on one line and there is no
      `export {...}` list. */
  lemma TransformKeepsLines(code: string)
    requires OneLinePasses(Passes, code)
    ensures Newlines(TransformESMToCommonJS(code)) == Newlines(code)
  {
    ApplyKeepsLines(Passes, code);
  }
}
