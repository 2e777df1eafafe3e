/** The source transformer: six global regular-expression replacements that
    turn module-style `import`/`export` syntax into `require` calls and
    assignments to `exports`, applied one after the other.

    Each replacement is a left-to-right scan: at each position the rule's
    pattern is tried, anchored there; on a match its replacement text is
    emitted and the scan resumes after the match, otherwise one character is
    copied.  This is what `String.prototype.replace` with a global pattern
    does.  Every pattern here is matched without backtracking: each greedy
    run (`\s+`, `\w+`, `[^'"]+`, `[^}]+`) is followed by a character its
    class excludes, so the greedy choice is the only one that can succeed;
    the optional `(async\s+)?` group is tried present first, then absent. */
module Transform {
  import opened Host

  datatype Rule =
    | ImportNamespace   // import * as N from 'M'
    | ImportNamed       // import {L} from 'M'
    | ImportDefault     // import N from 'M'
    | ExportFunction    // export [async ]function f
    | ExportList        // export {a, b}
    | ExportConst       // export const x

  /** A match anchored at the start of the scanned text: how many characters
      it covers and, for each capture group, the span it captured (an empty
      span for a group that did not take part). */
  datatype Match = Match(len: nat, groups: seq<(nat, nat)>)

  /** The spans of `m` lie inside the `|s|` characters scanned, and the
      match covers at least one character. */
  predicate WellFormed(m: Match, s: string) {
    0 < m.len <= |s| && forall k :: 0 <= k < |m.groups| ==> m.groups[k].0 <= m.groups[k].1 <= m.len
  }

  /** A piece of a replacement string: literal text or `$n`. */
  datatype Piece = Text(t: string) | Group(n: nat)

  /** The replacement strings of the five rules that have one. */
  function Template(r: Rule): seq<Piece> {
    match r
    case ImportNamespace => [Text("const "), Group(1), Text(" = require(\""), Group(2), Text("\")")]
    case ImportNamed => [Text("const {"), Group(1), Text("} = require(\""), Group(2), Text("\")")]
    case ImportDefault =>
      [Text("const "), Group(1), Text(" = require(\""), Group(2), Text("\").default || require(\""), Group(2), Text("\")")]
    case ExportFunction => [Text("exports."), Group(2), Text(" = "), Group(1), Text("function")]
    case ExportList => []
    case ExportConst => [Text("const "), Group(1), Text(" = exports."), Group(1)]
  }

  /** The text captured by group `n` (numbered from 1). */
  function Captured(s: string, groups: seq<(nat, nat)>, n: nat): string {
    if 1 <= n <= |groups| && groups[n - 1].0 <= groups[n - 1].1 <= |s| then s[groups[n - 1].0..groups[n - 1].1] else ""
  }

  /** A replacement string with each `$n` replaced by what group `n` captured. */
  function Expand(t: seq<Piece>, s: string, groups: seq<(nat, nat)>): string {
    if t == [] then ""
    else (match t[0] case Text(x) => x case Group(n) => Captured(s, groups, n)) + Expand(t[1..], s, groups)
  }

  /** What replaces the match `m` at the start of `s`. */
  function Replacement(r: Rule, s: string, m: Match): string {
    if r == ExportList then ExportAssignments(Captured(s, m.groups, 1))
    else Expand(Template(r), s, m.groups)
  }

  /** The character classes the patterns use. */
  datatype Class = Space | WordChar | Quote | NotQuote | NotCloseBrace

  predicate InClass(c: Class, x: char) {
    match c
    case Space => IsSpace(x)
    case WordChar => IsWordChar(x)
    case Quote => x == '\'' || x == '"'
    case NotQuote => x != '\'' && x != '"'
    case NotCloseBrace => x != '}'
  }

  /** How many characters of the class `c` follow position `k` of `s`:
      what a greedy `[class]+` consumes from there. */
  function ClassRun(c: Class, s: string, k: nat): (n: nat)
    requires k <= |s|
    ensures k + n <= |s|
    decreases |s| - k
  {
    if k < |s| && InClass(c, s[k]) then 1 + ClassRun(c, s, k + 1) else 0
  }

  /** An element of a pattern: a literal word, `[class]+` (greedy), one
      character of a class, or the opening or closing parenthesis of a
      capture group. */
  datatype Elem = Lit(w: string) | Plus(c: Class) | One(c: Class) | Begin | End

  /** The groups captured so far end at or before `k`. */
  predicate GroupsBefore(groups: seq<(nat, nat)>, k: nat) {
    forall i :: 0 <= i < |groups| ==> groups[i].0 <= groups[i].1 <= k
  }

  /** Runs the elements of `p` from the `i`-th on `s` from position `k`;
      `start` is where the group opened last begins.  Gives the end of the
      match and the spans of the groups, in order. */
  function Run(p: seq<Elem>, i: nat, s: string, k: nat, start: nat, groups: seq<(nat, nat)>): (r: Option<(nat, seq<(nat, nat)>)>)
    requires i <= |p| && k <= |s| && start <= k && GroupsBefore(groups, k)
    ensures r.Some? ==> k <= r.value.0 <= |s| && GroupsBefore(r.value.1, r.value.0)
    ensures r.Some? && i < |p| && p[i].Lit? && p[i].w != [] ==> k < r.value.0
    decreases |p| - i
  {
    if i == |p| then Some((k, groups))
    else match p[i]
      case Lit(w) =>
        if StartsWith(s[k..], w) then Run(p, i + 1, s, k + |w|, start, groups) else None
      case Plus(c) =>
        var n := ClassRun(c, s, k);
        if n == 0 then None else Run(p, i + 1, s, k + n, start, groups)
      case One(c) =>
        if k < |s| && InClass(c, s[k]) then Run(p, i + 1, s, k + 1, start, groups) else None
      case Begin => Run(p, i + 1, s, k, k, groups)
      case End => Run(p, i + 1, s, k, start, groups + [(start, k)])
  }

  /** The pattern tried at the start of `s`. */
  function MatchPattern(p: seq<Elem>, s: string): (m: Option<Match>)
    requires p != [] && p[0].Lit? && p[0].w != []
    ensures m.Some? ==> WellFormed(m.value, s)
  {
    match Run(p, 0, s, 0, 0, [])
    case None => None
    case Some((len, groups)) => Some(Match(len, groups))
  }

  // ---------------------------------------------------------------------
  // The six patterns

  /** `import\s+\*\s+as\s+(\w+)\s+from\s+['"]([^'"]+)['"]` */
  const ImportNamespacePattern: seq<Elem> :=
    [Lit("import"), Plus(Space), Lit("*"), Plus(Space), Lit("as"), Plus(Space),
     Begin, Plus(WordChar), End, Plus(Space), Lit("from"), Plus(Space),
     One(Quote), Begin, Plus(NotQuote), End, One(Quote)]

  /** `import\s+{([^}]+)}\s+from\s+['"]([^'"]+)['"]` */
  const ImportNamedPattern: seq<Elem> :=
    [Lit("import"), Plus(Space), Lit("{"), Begin, Plus(NotCloseBrace), End, Lit("}"),
     Plus(Space), Lit("from"), Plus(Space), One(Quote), Begin, Plus(NotQuote), End, One(Quote)]

  /** `import\s+(\w+)\s+from\s+['"]([^'"]+)['"]` */
  const ImportDefaultPattern: seq<Elem> :=
    [Lit("import"), Plus(Space), Begin, Plus(WordChar), End, Plus(Space), Lit("from"), Plus(Space),
     One(Quote), Begin, Plus(NotQuote), End, One(Quote)]

  /** `export\s+(async\s+)?function\s+(\w+)` with the optional group present ... */
  const ExportAsyncFunctionPattern: seq<Elem> :=
    [Lit("export"), Plus(Space), Begin, Lit("async"), Plus(Space), End, Lit("function"), Plus(Space),
     Begin, Plus(WordChar), End]

  /** ... and absent (it then captures the empty text). */
  const ExportFunctionPattern: seq<Elem> :=
    [Lit("export"), Plus(Space), Begin, End, Lit("function"), Plus(Space), Begin, Plus(WordChar), End]

  /** `export\s+{([^}]+)}` */
  const ExportListPattern: seq<Elem> :=
    [Lit("export"), Plus(Space), Lit("{"), Begin, Plus(NotCloseBrace), End, Lit("}")]

  /** `export\s+const\s+(\w+)` */
  const ExportConstPattern: seq<Elem> :=
    [Lit("export"), Plus(Space), Lit("const"), Plus(Space), Begin, Plus(WordChar), End]

  /** The replacement computed for `export {...}`: the list split at commas,
      each item trimmed and assigned to `exports` under its own name, the
      assignments joined by `;` and a line break. */
  function ExportAssignments(list: string): string {
    Join(AssignEach(SplitOn(list, ',')), ";\n")
  }

  function AssignEach(items: seq<string>): (r: seq<string>)
    ensures |r| == |items|
    ensures forall i :: 0 <= i < |items| ==> r[i] == "exports." + Trim(items[i]) + " = " + Trim(items[i])
  {
    if items == [] then [] else
      var t := Trim(items[0]);
      ["exports." + t + " = " + t] + AssignEach(items[1..])
  }

  /** The rule's pattern tried at the start of `s`. */
  function MatchAt(r: Rule, s: string): (m: Option<Match>)
    ensures m.Some? ==> WellFormed(m.value, s)
  {
    match r
    case ImportNamespace => MatchPattern(ImportNamespacePattern, s)
    case ImportNamed => MatchPattern(ImportNamedPattern, s)
    case ImportDefault => MatchPattern(ImportDefaultPattern, s)
    case ExportFunction =>
      var withAsync := MatchPattern(ExportAsyncFunctionPattern, s);
      if withAsync.Some? then withAsync else MatchPattern(ExportFunctionPattern, s)
    case ExportList => MatchPattern(ExportListPattern, s)
    case ExportConst => MatchPattern(ExportConstPattern, s)
  }

  /** How many characters one step of a pass consumes at the start of a
      non-empty `s`: the whole match, or one character. */
  function Step(r: Rule, s: string): (n: nat)
    requires s != []
    ensures 0 < n <= |s|
  {
    match MatchAt(r, s)
    case Some(m) => m.len
    case None => 1
  }

  /** What one step of a pass emits: the replacement of the match, or the
      character copied. */
  function Emitted(r: Rule, s: string): string
    requires s != []
  {
    match MatchAt(r, s)
    case Some(m) => Replacement(r, s, m)
    case None => [s[0]]
  }

  /** The pattern of `r` matches at no position of `s`. */
  predicate NoMatchIn(r: Rule, s: string) {
    forall i :: 0 <= i < |s| ==> MatchAt(r, s[i..]).None?
  }

  /** One global replacement pass of rule `r` over `s`; where the pattern
      matches nowhere, the text is left as it is. */
  function Rewrite(r: Rule, s: string): (out: string)
    ensures NoMatchIn(r, s) ==> out == s
    decreases |s|
  {
    if s == [] then []
    else
      NoMatchInTail(r, s);
      Emitted(r, s) + Rewrite(r, s[Step(r, s)..])
  }

  /** Where nothing matches in `s`, nothing matches at its start or in its
      tail. */
  lemma NoMatchInTail(r: Rule, s: string)
    requires s != []
    ensures NoMatchIn(r, s) ==> MatchAt(r, s).None? && NoMatchIn(r, s[1..])
  {
    if NoMatchIn(r, s) {
      assert s[0..] == s;
      forall i | 0 <= i < |s| - 1
        ensures MatchAt(r, s[1..][i..]).None?
      {
        assert s[1..][i..] == s[i + 1..];
      }
    }
  }

  /** The six rules in the order the source applies them. */
  const Passes: seq<Rule> :=
    [ImportNamespace, ImportNamed, ImportDefault, ExportFunction, ExportList, ExportConst]

  /** Global replacement passes of `rules`, first to last. */
  function Apply(rules: seq<Rule>, s: string): (out: string)
    ensures (forall r :: NoMatchIn(r, s)) ==> out == s
    decreases |rules|
  {
    if rules == [] then s else Apply(rules[1..], Rewrite(rules[0], s))
  }

  /** `transformESMToCommonJS`: code without any import or export form
      comes out unchanged. */
  function TransformESMToCommonJS(code: string): (out: string)
    ensures (forall r :: NoMatchIn(r, code)) ==> out == code
  {
    Apply(Passes, code)
  }
}
