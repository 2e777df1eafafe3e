/** What each import/export form becomes: the form written with single
    spaces, a name made of word characters and a module name in quotes, is
    matched in full and replaced by its `require` or `exports` counterpart,
    and the pass carries on after it. */
module TransformForms {
  import opened Host
  import opened Transform

  // ---------------------------------------------------------------------
  // One element of a pattern at a time

  /** `[class]+` consumes exactly the characters from `k` to `e` when they
      are in the class and the next one is not. */
  lemma {:induction false} ClassRunExact(c: Class, s: string, k: nat, e: nat)
    requires k <= e <= |s|
    requires forall j :: k <= j < e ==> InClass(c, s[j])
    requires e == |s| || !InClass(c, s[e])
    ensures ClassRun(c, s, k) == e - k
    decreases e - k
  {
    if k < e {
      ClassRunExact(c, s, k + 1, e);
    }
  }

  lemma RunLit(p: seq<Elem>, i: nat, w: string, s: string, k: nat, start: nat, groups: seq<(nat, nat)>)
    requires i < |p| && k <= |s| && start <= k && GroupsBefore(groups, k)
    requires p[i] == Lit(w) && OccursAt(s, w, k)
    ensures Run(p, i, s, k, start, groups) == Run(p, i + 1, s, k + |w|, start, groups)
  {
    assert s[k..][..|w|] == s[k..k + |w|];
  }

  lemma RunLitFails(p: seq<Elem>, i: nat, w: string, s: string, k: nat, start: nat, groups: seq<(nat, nat)>)
    requires i < |p| && k <= |s| && start <= k && GroupsBefore(groups, k)
    requires p[i] == Lit(w) && !OccursAt(s, w, k)
    ensures Run(p, i, s, k, start, groups).None?
  {
    if |w| <= |s[k..]| {
      assert s[k..][..|w|] == s[k..k + |w|];
    }
  }

  lemma RunPlus(p: seq<Elem>, i: nat, s: string, k: nat, start: nat, groups: seq<(nat, nat)>, n: nat)
    requires i < |p| && k <= |s| && start <= k && GroupsBefore(groups, k)
    requires p[i].Plus? && 0 < n && k + n <= |s|
    requires forall j :: k <= j < k + n ==> InClass(p[i].c, s[j])
    requires k + n == |s| || !InClass(p[i].c, s[k + n])
    ensures Run(p, i, s, k, start, groups) == Run(p, i + 1, s, k + n, start, groups)
  {
    ClassRunExact(p[i].c, s, k, k + n);
  }

  /** `[class]+` matching one character. */
  lemma RunPlusOne(p: seq<Elem>, i: nat, c: Class, s: string, k: nat, start: nat, groups: seq<(nat, nat)>)
    requires i < |p| && k < |s| && start <= k && GroupsBefore(groups, k)
    requires p[i] == Plus(c) && InClass(c, s[k]) && (k + 1 == |s| || !InClass(c, s[k + 1]))
    ensures Run(p, i, s, k, start, groups) == Run(p, i + 1, s, k + 1, start, groups)
  {
    RunPlus(p, i, s, k, start, groups, 1);
  }

  lemma RunDone(p: seq<Elem>, i: nat, s: string, k: nat, start: nat, groups: seq<(nat, nat)>)
    requires i == |p| && k <= |s| && start <= k && GroupsBefore(groups, k)
    ensures Run(p, i, s, k, start, groups) == Some((k, groups))
  {
  }

  lemma RunOne(p: seq<Elem>, i: nat, s: string, k: nat, start: nat, groups: seq<(nat, nat)>)
    requires i < |p| && k < |s| && start <= k && GroupsBefore(groups, k)
    requires p[i].One? && InClass(p[i].c, s[k])
    ensures Run(p, i, s, k, start, groups) == Run(p, i + 1, s, k + 1, start, groups)
  {
  }

  lemma RunBegin(p: seq<Elem>, i: nat, s: string, k: nat, start: nat, groups: seq<(nat, nat)>)
    requires i < |p| && k <= |s| && start <= k && GroupsBefore(groups, k)
    requires p[i].Begin?
    ensures Run(p, i, s, k, start, groups) == Run(p, i + 1, s, k, k, groups)
  {
  }

  lemma RunEnd(p: seq<Elem>, i: nat, s: string, k: nat, start: nat, groups: seq<(nat, nat)>)
    requires i < |p| && k <= |s| && start <= k && GroupsBefore(groups, k)
    requires p[i].End?
    ensures GroupsBefore(groups + [(start, k)], k)
    ensures Run(p, i, s, k, start, groups) == Run(p, i + 1, s, k, start, groups + [(start, k)])
  {
  }

  // ---------------------------------------------------------------------
  // Fragments shared by the patterns

  predicate IsQuote(c: char) {
    c == '\'' || c == '"'
  }

  /** A captured name: word characters only, at least one. */
  predicate IsName(x: string) {
    x != [] && forall i :: 0 <= i < |x| ==> IsWordChar(x[i])
  }

  /** A module specifier between quotes: at least one character, no quote. */
  predicate IsSpecifier(m: string) {
    m != [] && forall i :: 0 <= i < |m| ==> !IsQuote(m[i])
  }

  /** What is between `{` and `}`: at least one character, no `}`. */
  predicate IsBraced(l: string) {
    l != [] && forall i :: 0 <= i < |l| ==> l[i] != '}'
  }

  /** A name followed by `rest` ends where `rest` begins. */
  predicate NameEnds(rest: string) {
    rest == [] || !IsWordChar(rest[0])
  }

  lemma WordNotSpace(c: char)
    requires IsWordChar(c)
    ensures !IsSpace(c)
  {
  }

  /** `p` holds, from its `i`-th element: a keyword and `\s+`. */
  predicate KeywordAt(p: seq<Elem>, i: nat, w: string) {
    i + 1 < |p| && p[i] == Lit(w) && p[i + 1] == Plus(Space)
  }

  /** ... `(\w+)` */
  predicate NameGroupAt(p: seq<Elem>, i: nat) {
    i + 2 < |p| && p[i] == Begin && p[i + 1] == Plus(WordChar) && p[i + 2] == End
  }

  /** ... `\s+from\s+['"]([^'"]+)['"]` */
  predicate FromGroupAt(p: seq<Elem>, i: nat) {
    i + 7 < |p| && p[i] == Plus(Space) && KeywordAt(p, i + 1, "from") &&
    p[i + 3] == One(Quote) && p[i + 4] == Begin && p[i + 5] == Plus(NotQuote) && p[i + 6] == End && p[i + 7] == One(Quote)
  }

  /** ... `{([^}]+)}` */
  predicate BracedGroupAt(p: seq<Elem>, i: nat) {
    i + 4 < |p| && p[i] == Lit("{") && p[i + 1] == Begin && p[i + 2] == Plus(NotCloseBrace) && p[i + 3] == End && p[i + 4] == Lit("}")
  }

  /** `\s+` on a single space. */
  lemma RunSpace(p: seq<Elem>, i: nat, s: string, k: nat, start: nat, groups: seq<(nat, nat)>)
    requires i < |p| && start <= k && k + 1 < |s| && GroupsBefore(groups, k)
    requires p[i] == Plus(Space) && s[k] == ' ' && !IsSpace(s[k + 1])
    ensures Run(p, i, s, k, start, groups) == Run(p, i + 1, s, k + 1, start, groups)
  {
    RunPlus(p, i, s, k, start, groups, 1);
  }

  /** A keyword and a single space after it. */
  lemma RunWordSpace(p: seq<Elem>, i: nat, w: string, s: string, k: nat, start: nat, groups: seq<(nat, nat)>)
    requires KeywordAt(p, i, w) && start <= k && k + |w| + 1 < |s| && GroupsBefore(groups, k)
    requires OccursAt(s, w, k) && s[k + |w|] == ' ' && !IsSpace(s[k + |w| + 1])
    ensures Run(p, i, s, k, start, groups) == Run(p, i + 2, s, k + |w| + 1, start, groups)
  {
    RunLit(p, i, w, s, k, start, groups);
    RunSpace(p, i + 1, s, k + |w|, start, groups);
  }

  /** `(\w+)` on the name from `k` to `e`. */
  lemma RunName(p: seq<Elem>, i: nat, s: string, k: nat, e: nat, start: nat, groups: seq<(nat, nat)>)
    requires NameGroupAt(p, i) && start <= k < e <= |s| && GroupsBefore(groups, k)
    requires forall j :: k <= j < e ==> IsWordChar(s[j])
    requires e == |s| || !IsWordChar(s[e])
    ensures GroupsBefore(groups + [(k, e)], e)
    ensures Run(p, i, s, k, start, groups) == Run(p, i + 3, s, e, k, groups + [(k, e)])
  {
    RunBegin(p, i, s, k, start, groups);
    RunPlus(p, i + 1, s, k, k, groups, e - k);
    RunEnd(p, i + 2, s, e, k, groups);
  }

  /** `['"]([^'"]+)['"]` on quotes at `k` and `e`. */
  lemma RunQuoted(p: seq<Elem>, i: nat, s: string, k: nat, e: nat, start: nat, groups: seq<(nat, nat)>)
    requires i + 4 < |p| && start <= k && k + 1 < e < |s| && GroupsBefore(groups, k)
    requires p[i] == One(Quote) && p[i + 1] == Begin && p[i + 2] == Plus(NotQuote) && p[i + 3] == End && p[i + 4] == One(Quote)
    requires IsQuote(s[k]) && IsQuote(s[e]) && forall j :: k < j < e ==> !IsQuote(s[j])
    ensures GroupsBefore(groups + [(k + 1, e)], e + 1)
    ensures Run(p, i, s, k, start, groups) == Run(p, i + 5, s, e + 1, k + 1, groups + [(k + 1, e)])
  {
    RunOne(p, i, s, k, start, groups);
    RunBegin(p, i + 1, s, k + 1, start, groups);
    RunPlus(p, i + 2, s, k + 1, k + 1, groups, e - k - 1);
    RunEnd(p, i + 3, s, e, k + 1, groups);
    RunOne(p, i + 4, s, e, k + 1, groups + [(k + 1, e)]);
  }

  /** `{([^}]+)}` on braces at `k` and `e`. */
  lemma RunBraced(p: seq<Elem>, i: nat, s: string, k: nat, e: nat, start: nat, groups: seq<(nat, nat)>)
    requires BracedGroupAt(p, i) && start <= k && k + 1 < e < |s| && GroupsBefore(groups, k)
    requires s[k] == '{' && s[e] == '}' && forall j :: k < j < e ==> s[j] != '}'
    ensures GroupsBefore(groups + [(k + 1, e)], e + 1)
    ensures Run(p, i, s, k, start, groups) == Run(p, i + 5, s, e + 1, k + 1, groups + [(k + 1, e)])
  {
    assert s[k..k + 1] == "{";
    RunLit(p, i, "{", s, k, start, groups);
    RunBegin(p, i + 1, s, k + 1, start, groups);
    RunPlus(p, i + 2, s, k + 1, k + 1, groups, e - k - 1);
    RunEnd(p, i + 3, s, e, k + 1, groups);
    assert s[e..e + 1] == "}";
    RunLit(p, i + 4, "}", s, e, k + 1, groups + [(k + 1, e)]);
  }

  /** `\s+from\s+['"]([^'"]+)['"]` on ` from 'm'` at `a`, the closing quote
      at `b`. */
  predicate FromClause(s: string, a: nat, b: nat) {
    a + 7 < b < |s| && s[a] == ' ' && !IsSpace(s[a + 1]) && OccursAt(s, "from", a + 1) &&
    s[a + 5] == ' ' && !IsSpace(s[a + 6]) &&
    IsQuote(s[a + 6]) && IsQuote(s[b]) && forall j :: a + 6 < j < b ==> !IsQuote(s[j])
  }

  lemma FromText(head: string, q1: char, m: string, q2: char, rest: string)
    requires IsQuote(q1) && IsQuote(q2) && IsSpecifier(m)
    ensures var s := head + " from " + [q1] + m + [q2] + rest;
      FromClause(s, |head|, |head| + 7 + |m|) &&
      s[|head| + 7..|head| + 7 + |m|] == m && s[|head| + 8 + |m|..] == rest
  {
    var s := head + " from " + [q1] + m + [q2] + rest;
    var a := |head|;
    assert s[a..a + 6] == " from ";
    assert s[a + 1..a + 5] == "from";
    assert forall j :: a + 6 < j < a + 7 + |m| ==> s[j] == m[j - a - 7];
  }

  lemma RunFrom(p: seq<Elem>, i: nat, s: string, a: nat, b: nat, start: nat, groups: seq<(nat, nat)>)
    requires FromGroupAt(p, i) && start <= a && GroupsBefore(groups, a) && FromClause(s, a, b)
    ensures GroupsBefore(groups + [(a + 7, b)], b + 1)
    ensures Run(p, i, s, a, start, groups) == Run(p, i + 8, s, b + 1, a + 7, groups + [(a + 7, b)])
  {
    RunSpace(p, i, s, a, start, groups);
    RunWordSpace(p, i + 1, "from", s, a + 1, start, groups);
    RunQuoted(p, i + 3, s, a + 6, b, start, groups);
  }

  /** A match `m` at the start of `s` is replaced and the pass resumes at
      `rest`, the text after it. */
  lemma RewriteAtMatch(r: Rule, s: string, m: Match, rest: string)
    requires MatchAt(r, s) == Some(m) && s[m.len..] == rest
    ensures Rewrite(r, s) == Replacement(r, s, m) + Rewrite(r, rest)
  {
  }

  /** A template of text, group, text, group, text expands to those texts
      around the two captured groups. */
  lemma ExpandFive(x0: string, g1: nat, x1: string, g2: nat, x2: string, s: string, g: seq<(nat, nat)>)
    ensures Expand([Text(x0), Group(g1), Text(x1), Group(g2), Text(x2)], s, g)
      == x0 + Captured(s, g, g1) + x1 + Captured(s, g, g2) + x2
  {
    var t := [Text(x0), Group(g1), Text(x1), Group(g2), Text(x2)];
    var c := Captured(s, g, g1);
    var y := Captured(s, g, g2);
    assert t[5..] == [];
    var e4 := Expand(t[4..], s, g);
    assert e4 == x2 by { ExpandStep(t, 4, s, g); }
    var e3 := Expand(t[3..], s, g);
    assert e3 == y + e4 by { ExpandStep(t, 3, s, g); }
    var e2 := Expand(t[2..], s, g);
    assert e2 == x1 + e3 by { ExpandStep(t, 2, s, g); }
    var e1 := Expand(t[1..], s, g);
    assert e1 == c + e2 by { ExpandStep(t, 1, s, g); }
    assert Expand(t, s, g) == x0 + e1 by {
      assert t[0..] == t;
      ExpandStep(t, 0, s, g);
    }
    Flatten5(x0, c, x1, y, x2);
  }

  /** One piece of a template expanded. */
  lemma ExpandStep(t: seq<Piece>, k: nat, s: string, g: seq<(nat, nat)>)
    requires k < |t|
    ensures t[k].Text? ==> Expand(t[k..], s, g) == t[k].t + Expand(t[k + 1..], s, g)
    ensures t[k].Group? ==> Expand(t[k..], s, g) == Captured(s, g, t[k].n) + Expand(t[k + 1..], s, g)
  {
    assert t[k..][0] == t[k] && t[k..][1..] == t[k + 1..];
  }

  lemma Flatten5<T>(a: seq<T>, b: seq<T>, c: seq<T>, d: seq<T>, e: seq<T>)
    ensures a + b + c + d + e == a + (b + (c + (d + e)))
  {
    AppendAssoc(a + b + c, d, e);
    AppendAssoc(a + b, c, d + e);
    AppendAssoc(a, b, c + (d + e));
  }

  lemma Flatten7<T>(a: seq<T>, b: seq<T>, c: seq<T>, d: seq<T>, e: seq<T>, f: seq<T>, h: seq<T>)
    ensures a + b + c + d + e + f + h == a + (b + (c + (d + (e + (f + h)))))
  {
    AppendAssoc(a + b + c + d + e, f, h);
    AppendAssoc(a + b + c + d, e, f + h);
    AppendAssoc(a + b + c, d, e + (f + h));
    AppendAssoc(a + b, c, d + (e + (f + h)));
    AppendAssoc(a, b, c + (d + (e + (f + h))));
  }

}

module TransformImportForms {
  import opened Host
  import opened Transform
  import opened TransformForms

  // ---------------------------------------------------------------------
  // import * as N from 'M'

  predicate IsImportNamespacePattern(p: seq<Elem>) {
    |p| == 17 && KeywordAt(p, 0, "import") && KeywordAt(p, 2, "*") && KeywordAt(p, 4, "as") &&
    NameGroupAt(p, 6) && FromGroupAt(p, 9)
  }

  lemma ImportNamespaceHead(n: string, tail: string)
    requires IsName(n) && tail != [] && tail[0] == ' '
    ensures var s := "import * as " + n + tail;
      var a := 12 + |n|;
      a < |s| && OccursAt(s, "import", 0) && s[6] == ' ' && !IsSpace(s[7]) && OccursAt(s, "*", 7) &&
      s[8] == ' ' && !IsSpace(s[9]) && OccursAt(s, "as", 9) && s[11] == ' ' && !IsSpace(s[12]) &&
      (forall j :: 12 <= j < a ==> IsWordChar(s[j])) && !IsWordChar(s[a]) && s[12..a] == n
  {
    var s := "import * as " + n + tail;
    assert s[12] == n[0];
    WordNotSpace(n[0]);
    assert forall j :: 12 <= j < 12 + |n| ==> s[j] == n[j - 12];
    assert s[12 + |n|] == tail[0];
  }

  lemma ImportNamespaceRunHead(p: seq<Elem>, s: string)
    requires IsImportNamespacePattern(p)
    requires 12 < |s| && OccursAt(s, "import", 0) && s[6] == ' ' && !IsSpace(s[7]) && OccursAt(s, "*", 7)
    requires s[8] == ' ' && !IsSpace(s[9]) && OccursAt(s, "as", 9) && s[11] == ' ' && !IsSpace(s[12])
    ensures Run(p, 0, s, 0, 0, []) == Run(p, 6, s, 12, 0, [])
  {
    RunWordSpace(p, 0, "import", s, 0, 0, []);
    RunWordSpace(p, 2, "*", s, 7, 0, []);
    RunWordSpace(p, 4, "as", s, 9, 0, []);
  }

  lemma ImportNamespaceRunTail(p: seq<Elem>, s: string, a: nat, b: nat)
    requires IsImportNamespacePattern(p)
    requires 12 < a < |s| && (forall j :: 12 <= j < a ==> IsWordChar(s[j])) && !IsWordChar(s[a]) && FromClause(s, a, b)
    ensures Run(p, 6, s, 12, 0, []) == Some((b + 1, [(12, a), (a + 7, b)]))
  {
    RunName(p, 6, s, 12, a, 0, []);
    assert [] + [(12, a)] == [(12, a)];
    RunFrom(p, 9, s, a, b, 12, [(12, a)]);
    assert [(12, a)] + [(a + 7, b)] == [(12, a), (a + 7, b)];
    RunDone(p, 17, s, b + 1, a + 7, [(12, a), (a + 7, b)]);
  }

  lemma ImportNamespacePatternShape()
    ensures IsImportNamespacePattern(ImportNamespacePattern)
  {
    var p := ImportNamespacePattern;
    assert p[9..] == [Plus(Space), Lit("from"), Plus(Space), One(Quote), Begin, Plus(NotQuote), End, One(Quote)];
    assert FromGroupAt(p, 9);
  }

  /** Where the parts of `import * as N from 'M'` lie. */
  predicate ImportNamespaceAt(s: string, a: nat, b: nat) {
    12 < a < |s| && OccursAt(s, "import", 0) && s[6] == ' ' && !IsSpace(s[7]) && OccursAt(s, "*", 7) &&
    s[8] == ' ' && !IsSpace(s[9]) && OccursAt(s, "as", 9) && s[11] == ' ' && !IsSpace(s[12]) &&
    (forall j :: 12 <= j < a ==> IsWordChar(s[j])) && !IsWordChar(s[a]) && FromClause(s, a, b)
  }

  lemma ImportNamespaceText(n: string, q1: char, m: string, q2: char, rest: string)
    requires IsName(n) && IsQuote(q1) && IsSpecifier(m) && IsQuote(q2)
    ensures var s := "import * as " + n + " from " + [q1] + m + [q2] + rest;
      var a := 12 + |n|;
      var b := a + 7 + |m|;
      ImportNamespaceAt(s, a, b) && s[12..a] == n && s[a + 7..b] == m && s[b + 1..] == rest
  {
    var s := "import * as " + n + " from " + [q1] + m + [q2] + rest;
    ImportNamespaceHead(n, " from " + [q1] + m + [q2] + rest);
    assert s == "import * as " + n + (" from " + [q1] + m + [q2] + rest);
    FromText("import * as " + n, q1, m, q2, rest);
  }

  lemma ImportNamespaceMatchPattern(p: seq<Elem>, s: string, a: nat, b: nat)
    requires IsImportNamespacePattern(p) && ImportNamespaceAt(s, a, b)
    ensures MatchPattern(p, s) == Some(Match(b + 1, [(12, a), (a + 7, b)]))
  {
    ImportNamespaceRunHead(p, s);
    ImportNamespaceRunTail(p, s, a, b);
  }

  lemma ImportNamespaceMatch(s: string, a: nat, b: nat)
    requires ImportNamespaceAt(s, a, b)
    ensures MatchAt(ImportNamespace, s) == Some(Match(b + 1, [(12, a), (a + 7, b)]))
  {
    ImportNamespacePatternShape();
    ImportNamespaceMatchPattern(ImportNamespacePattern, s, a, b);
  }

  lemma ImportNamespaceReplacement(s: string, mt: Match, a: nat, b: nat, c: nat, d: nat)
    requires mt.groups == [(a, b), (c, d)] && a <= b <= |s| && c <= d <= |s|
    ensures Replacement(ImportNamespace, s, mt) == "const " + s[a..b] + " = require(\"" + s[c..d] + "\")"
  {
    assert Captured(s, mt.groups, 1) == s[a..b] && Captured(s, mt.groups, 2) == s[c..d];
    ExpandFive("const ", 1, " = require(\"", 2, "\")", s, mt.groups);
  }

  lemma ImportNamespaceRewrite(s: string, a: nat, b: nat, n: string, m: string, rest: string)
    requires ImportNamespaceAt(s, a, b)
    requires s[12..a] == n && s[a + 7..b] == m && s[b + 1..] == rest
    ensures Rewrite(ImportNamespace, s) == "const " + n + " = require(\"" + m + "\")" + Rewrite(ImportNamespace, rest)
  {
    var mt := Match(b + 1, [(12, a), (a + 7, b)]);
    ImportNamespaceMatch(s, a, b);
    ImportNamespaceReplacement(s, mt, 12, a, a + 7, b);
    RewriteAtMatch(ImportNamespace, s, mt, s[b + 1..]);
  }

  /** `import * as N from 'M'` becomes `const N = require("M")`. */
  lemma ImportNamespaceForm(n: string, q1: char, m: string, q2: char, rest: string)
    requires IsName(n) && IsQuote(q1) && IsSpecifier(m) && IsQuote(q2)
    ensures Rewrite(ImportNamespace, "import * as " + n + " from " + [q1] + m + [q2] + rest) ==
      "const " + n + " = require(\"" + m + "\")" + Rewrite(ImportNamespace, rest)
  {
    ImportNamespaceText(n, q1, m, q2, rest);
    ImportNamespaceRewrite("import * as " + n + " from " + [q1] + m + [q2] + rest, 12 + |n|, 12 + |n| + 7 + |m|, n, m, rest);
  }

  // ---------------------------------------------------------------------
  // import {L} from 'M'

  predicate IsImportNamedPattern(p: seq<Elem>) {
    |p| == 15 && KeywordAt(p, 0, "import") && BracedGroupAt(p, 2) && FromGroupAt(p, 7)
  }

  lemma ImportNamedPatternShape()
    ensures IsImportNamedPattern(ImportNamedPattern)
  {
    var p := ImportNamedPattern;
    assert p[7..] == [Plus(Space), Lit("from"), Plus(Space), One(Quote), Begin, Plus(NotQuote), End, One(Quote)];
    assert FromGroupAt(p, 7);
  }

  /** Where the parts of `import {L} from 'M'` lie: the braces at 7 and `e`,
      the closing quote at `b`. */
  predicate ImportNamedAt(s: string, e: nat, b: nat) {
    8 < e && e + 1 < |s| && OccursAt(s, "import", 0) && s[6] == ' ' && !IsSpace(s[7]) &&
    s[7] == '{' && s[e] == '}' && (forall j :: 7 < j < e ==> s[j] != '}') && FromClause(s, e + 1, b)
  }

  lemma ImportNamedHead(l: string, tail: string)
    requires IsBraced(l) && tail != []
    ensures var s := "import {" + l + "}" + tail;
      var e := 8 + |l|;
      e + 1 < |s| && OccursAt(s, "import", 0) && s[6] == ' ' && !IsSpace(s[7]) &&
      s[7] == '{' && s[e] == '}' && (forall j :: 7 < j < e ==> s[j] != '}') && s[8..e] == l
  {
    var s := "import {" + l + "}" + tail;
    assert forall j :: 7 < j < 8 + |l| ==> s[j] == l[j - 8];
  }

  lemma ImportNamedText(l: string, q1: char, m: string, q2: char, rest: string)
    requires IsBraced(l) && IsQuote(q1) && IsSpecifier(m) && IsQuote(q2)
    ensures var s := "import {" + l + "}" + " from " + [q1] + m + [q2] + rest;
      var e := 8 + |l|;
      var b := e + 1 + 7 + |m|;
      ImportNamedAt(s, e, b) && s[8..e] == l && s[e + 1 + 7..b] == m && s[b + 1..] == rest
  {
    var s := "import {" + l + "}" + " from " + [q1] + m + [q2] + rest;
    ImportNamedHead(l, " from " + [q1] + m + [q2] + rest);
    assert s == "import {" + l + "}" + (" from " + [q1] + m + [q2] + rest);
    FromText("import {" + l + "}", q1, m, q2, rest);
  }

  lemma ImportNamedRunTail(p: seq<Elem>, s: string, e: nat, b: nat)
    requires IsImportNamedPattern(p) && ImportNamedAt(s, e, b)
    ensures Run(p, 7, s, e + 1, 8, [(8, e)]) == Some((b + 1, [(8, e), (e + 1 + 7, b)]))
  {
    RunFrom(p, 7, s, e + 1, b, 8, [(8, e)]);
    assert [(8, e)] + [(e + 1 + 7, b)] == [(8, e), (e + 1 + 7, b)];
    RunDone(p, 15, s, b + 1, e + 1 + 7, [(8, e), (e + 1 + 7, b)]);
  }

  lemma ImportNamedMatchPattern(p: seq<Elem>, s: string, e: nat, b: nat)
    requires IsImportNamedPattern(p) && ImportNamedAt(s, e, b)
    ensures MatchPattern(p, s) == Some(Match(b + 1, [(8, e), (e + 1 + 7, b)]))
  {
    RunWordSpace(p, 0, "import", s, 0, 0, []);
    RunBraced(p, 2, s, 7, e, 0, []);
    assert [] + [(8, e)] == [(8, e)];
    ImportNamedRunTail(p, s, e, b);
  }

  lemma ImportNamedReplacement(s: string, mt: Match, a: nat, b: nat, c: nat, d: nat)
    requires mt.groups == [(a, b), (c, d)] && a <= b <= |s| && c <= d <= |s|
    ensures Replacement(ImportNamed, s, mt) == "const {" + s[a..b] + "} = require(\"" + s[c..d] + "\")"
  {
    assert Captured(s, mt.groups, 1) == s[a..b] && Captured(s, mt.groups, 2) == s[c..d];
    ExpandFive("const {", 1, "} = require(\"", 2, "\")", s, mt.groups);
  }

  lemma ImportNamedRewrite(s: string, e: nat, b: nat, l: string, m: string, rest: string)
    requires ImportNamedAt(s, e, b)
    requires s[8..e] == l && s[e + 1 + 7..b] == m && s[b + 1..] == rest
    ensures Rewrite(ImportNamed, s) == "const {" + l + "} = require(\"" + m + "\")" + Rewrite(ImportNamed, rest)
  {
    var mt := Match(b + 1, [(8, e), (e + 1 + 7, b)]);
    ImportNamedPatternShape();
    ImportNamedMatchPattern(ImportNamedPattern, s, e, b);
    ImportNamedReplacement(s, mt, 8, e, e + 1 + 7, b);
    RewriteAtMatch(ImportNamed, s, mt, s[b + 1..]);
  }

  /** `import {L} from 'M'` becomes `const {L} = require("M")`. */
  lemma ImportNamedForm(l: string, q1: char, m: string, q2: char, rest: string)
    requires IsBraced(l) && IsQuote(q1) && IsSpecifier(m) && IsQuote(q2)
    ensures Rewrite(ImportNamed, "import {" + l + "}" + " from " + [q1] + m + [q2] + rest) ==
      "const {" + l + "} = require(\"" + m + "\")" + Rewrite(ImportNamed, rest)
  {
    ImportNamedText(l, q1, m, q2, rest);
    ImportNamedRewrite("import {" + l + "}" + " from " + [q1] + m + [q2] + rest, 8 + |l|, 8 + |l| + 1 + 7 + |m|, l, m, rest);
  }

  // ---------------------------------------------------------------------
  // import N from 'M'

  predicate IsImportDefaultPattern(p: seq<Elem>) {
    |p| == 13 && KeywordAt(p, 0, "import") && NameGroupAt(p, 2) && FromGroupAt(p, 5)
  }

  lemma ImportDefaultPatternShape()
    ensures IsImportDefaultPattern(ImportDefaultPattern)
  {
    var p := ImportDefaultPattern;
    assert p[5..] == [Plus(Space), Lit("from"), Plus(Space), One(Quote), Begin, Plus(NotQuote), End, One(Quote)];
    assert FromGroupAt(p, 5);
  }

  /** Where the parts of `import N from 'M'` lie: the name ends at `a`, the
      closing quote is at `b`. */
  predicate ImportDefaultAt(s: string, a: nat, b: nat) {
    7 < a < |s| && OccursAt(s, "import", 0) && s[6] == ' ' && !IsSpace(s[7]) &&
    (forall j :: 7 <= j < a ==> IsWordChar(s[j])) && !IsWordChar(s[a]) && FromClause(s, a, b)
  }

  lemma ImportDefaultHead(n: string, tail: string)
    requires IsName(n) && tail != [] && tail[0] == ' '
    ensures var s := "import " + n + tail;
      var a := 7 + |n|;
      a < |s| && OccursAt(s, "import", 0) && s[6] == ' ' && !IsSpace(s[7]) &&
      (forall j :: 7 <= j < a ==> IsWordChar(s[j])) && !IsWordChar(s[a]) && s[7..a] == n
  {
    var s := "import " + n + tail;
    assert s[7] == n[0];
    WordNotSpace(n[0]);
    assert forall j :: 7 <= j < 7 + |n| ==> s[j] == n[j - 7];
    assert s[7 + |n|] == tail[0];
  }

  lemma ImportDefaultText(n: string, q1: char, m: string, q2: char, rest: string)
    requires IsName(n) && IsQuote(q1) && IsSpecifier(m) && IsQuote(q2)
    ensures var s := "import " + n + " from " + [q1] + m + [q2] + rest;
      var a := 7 + |n|;
      var b := a + 7 + |m|;
      ImportDefaultAt(s, a, b) && s[7..a] == n && s[a + 7..b] == m && s[b + 1..] == rest
  {
    var s := "import " + n + " from " + [q1] + m + [q2] + rest;
    ImportDefaultHead(n, " from " + [q1] + m + [q2] + rest);
    assert s == "import " + n + (" from " + [q1] + m + [q2] + rest);
    FromText("import " + n, q1, m, q2, rest);
  }

  lemma ImportDefaultRunTail(p: seq<Elem>, s: string, a: nat, b: nat)
    requires IsImportDefaultPattern(p) && ImportDefaultAt(s, a, b)
    ensures Run(p, 5, s, a, 7, [(7, a)]) == Some((b + 1, [(7, a), (a + 7, b)]))
  {
    RunFrom(p, 5, s, a, b, 7, [(7, a)]);
    assert [(7, a)] + [(a + 7, b)] == [(7, a), (a + 7, b)];
    RunDone(p, 13, s, b + 1, a + 7, [(7, a), (a + 7, b)]);
  }

  lemma ImportDefaultMatchPattern(p: seq<Elem>, s: string, a: nat, b: nat)
    requires IsImportDefaultPattern(p) && ImportDefaultAt(s, a, b)
    ensures MatchPattern(p, s) == Some(Match(b + 1, [(7, a), (a + 7, b)]))
  {
    RunWordSpace(p, 0, "import", s, 0, 0, []);
    RunName(p, 2, s, 7, a, 0, []);
    assert [] + [(7, a)] == [(7, a)];
    ImportDefaultRunTail(p, s, a, b);
  }

  /** The expansion of a template of the shape of the `import N from 'M'`
      replacement. */
  lemma ExpandSeven(t: seq<Piece>, s: string, g: seq<(nat, nat)>, x0: string, x1: string, x2: string, x3: string)
    requires t == [Text(x0), Group(1), Text(x1), Group(2), Text(x2), Group(2), Text(x3)]
    ensures Expand(t, s, g) ==
      x0 + Captured(s, g, 1) + x1 + Captured(s, g, 2) + x2 + Captured(s, g, 2) + x3
  {
    var c := Captured(s, g, 1);
    var y := Captured(s, g, 2);
    assert t[7..] == [];
    var e6 := Expand(t[6..], s, g);
    assert e6 == x3 by { ExpandStep(t, 6, s, g); }
    var e5 := Expand(t[5..], s, g);
    assert e5 == y + e6 by { ExpandStep(t, 5, s, g); }
    var e4 := Expand(t[4..], s, g);
    assert e4 == x2 + e5 by { ExpandStep(t, 4, s, g); }
    var e3 := Expand(t[3..], s, g);
    assert e3 == y + e4 by { ExpandStep(t, 3, s, g); }
    var e2 := Expand(t[2..], s, g);
    assert e2 == x1 + e3 by { ExpandStep(t, 2, s, g); }
    var e1 := Expand(t[1..], s, g);
    assert e1 == c + e2 by { ExpandStep(t, 1, s, g); }
    assert Expand(t, s, g) == x0 + e1 by {
      assert t[0..] == t;
      ExpandStep(t, 0, s, g);
    }
    Flatten7(x0, c, x1, y, x2, y, x3);
  }

  lemma ImportDefaultReplacement(s: string, mt: Match, a: nat, b: nat, c: nat, d: nat)
    requires mt.groups == [(a, b), (c, d)] && a <= b <= |s| && c <= d <= |s|
    ensures Replacement(ImportDefault, s, mt) ==
      "const " + s[a..b] + " = require(\"" + s[c..d] + "\").default || require(\"" + s[c..d] + "\")"
  {
    ExpandSeven(Template(ImportDefault), s, mt.groups, "const ", " = require(\"", "\").default || require(\"", "\")");
    assert Captured(s, mt.groups, 1) == s[a..b];
    assert Captured(s, mt.groups, 2) == s[c..d];
  }

  lemma ImportDefaultRewrite(s: string, a: nat, b: nat, n: string, m: string, rest: string)
    requires ImportDefaultAt(s, a, b)
    requires s[7..a] == n && s[a + 7..b] == m && s[b + 1..] == rest
    ensures Rewrite(ImportDefault, s) ==
      "const " + n + " = require(\"" + m + "\").default || require(\"" + m + "\")" + Rewrite(ImportDefault, rest)
  {
    var mt := Match(b + 1, [(7, a), (a + 7, b)]);
    ImportDefaultPatternShape();
    ImportDefaultMatchPattern(ImportDefaultPattern, s, a, b);
    ImportDefaultReplacement(s, mt, 7, a, a + 7, b);
    RewriteAtMatch(ImportDefault, s, mt, s[b + 1..]);
  }

  /** `import N from 'M'` becomes `const N = require("M").default || require("M")`. */
  lemma ImportDefaultForm(n: string, q1: char, m: string, q2: char, rest: string)
    requires IsName(n) && IsQuote(q1) && IsSpecifier(m) && IsQuote(q2)
    ensures Rewrite(ImportDefault, "import " + n + " from " + [q1] + m + [q2] + rest) ==
      "const " + n + " = require(\"" + m + "\").default || require(\"" + m + "\")" + Rewrite(ImportDefault, rest)
  {
    ImportDefaultText(n, q1, m, q2, rest);
    ImportDefaultRewrite("import " + n + " from " + [q1] + m + [q2] + rest, 7 + |n|, 7 + |n| + 7 + |m|, n, m, rest);
  }
}
