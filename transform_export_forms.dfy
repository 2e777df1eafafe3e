/** What the export forms become: `export [async ]function f` and
    `export const x`, each written with single spaces. */
module TransformExportForms {
  import opened Host
  import opened Transform
  import opened TransformForms

  /** A name after the text `pre`, followed by `rest`. */
  lemma NameAfter(pre: string, x: string, rest: string)
    requires IsName(x) && NameEnds(rest)
    ensures var s := pre + x + rest;
      var e := |pre| + |x|;
      !IsSpace(s[|pre|]) && (forall j :: |pre| <= j < e ==> IsWordChar(s[j])) &&
      (e == |s| || !IsWordChar(s[e])) && s[|pre|..e] == x && s[e..] == rest
  {
    var s := pre + x + rest;
    assert s[|pre|] == x[0];
    WordNotSpace(x[0]);
    assert forall j :: |pre| <= j < |pre| + |x| ==> s[j] == x[j - |pre|];
  }

  // ---------------------------------------------------------------------
  // export [async ]function f

  /** `export\s+(async\s+)?function\s+(\w+)` with the optional group present. */
  predicate IsAsyncFunctionPattern(p: seq<Elem>) {
    |p| == 11 && KeywordAt(p, 0, "export") && p[2] == Begin && KeywordAt(p, 3, "async") && p[5] == End &&
    KeywordAt(p, 6, "function") && NameGroupAt(p, 8)
  }

  /** The same with the optional group absent. */
  predicate IsPlainFunctionPattern(p: seq<Elem>) {
    |p| == 9 && KeywordAt(p, 0, "export") && p[2] == Begin && p[3] == End &&
    KeywordAt(p, 4, "function") && NameGroupAt(p, 6)
  }

  lemma FunctionPatternShapes()
    ensures IsAsyncFunctionPattern(ExportAsyncFunctionPattern)
    ensures IsPlainFunctionPattern(ExportFunctionPattern)
  {
  }

  /** Where the parts of `export function f` lie: the name ends at `e`. */
  predicate ExportFunctionAt(s: string, e: nat) {
    16 < e <= |s| && OccursAt(s, "export", 0) && s[6] == ' ' && !IsSpace(s[7]) && !OccursAt(s, "async", 7) &&
    OccursAt(s, "function", 7) && s[15] == ' ' && !IsSpace(s[16]) &&
    (forall j :: 16 <= j < e ==> IsWordChar(s[j])) && (e == |s| || !IsWordChar(s[e]))
  }

  lemma ExportFunctionText(f: string, rest: string)
    requires IsName(f) && NameEnds(rest)
    ensures var s := "export function " + f + rest;
      ExportFunctionAt(s, 16 + |f|) && s[16..16 + |f|] == f && s[16 + |f|..] == rest
  {
    var s := "export function " + f + rest;
    NameAfter("export function ", f, rest);
    assert s[7] == 'f';
  }

  /** Without `async`, the pattern that expects it fails... */
  lemma AsyncPatternFails(p: seq<Elem>, s: string, e: nat)
    requires IsAsyncFunctionPattern(p) && ExportFunctionAt(s, e)
    ensures MatchPattern(p, s).None?
  {
    RunWordSpace(p, 0, "export", s, 0, 0, []);
    RunBegin(p, 2, s, 7, 0, []);
    RunLitFails(p, 3, "async", s, 7, 7, []);
  }

  /** ... and the one without it matches, group 1 capturing nothing. */
  lemma PlainFunctionMatches(p: seq<Elem>, s: string, e: nat)
    requires IsPlainFunctionPattern(p) && ExportFunctionAt(s, e)
    ensures MatchPattern(p, s) == Some(Match(e, [(7, 7), (16, e)]))
  {
    RunWordSpace(p, 0, "export", s, 0, 0, []);
    RunBegin(p, 2, s, 7, 0, []);
    RunEnd(p, 3, s, 7, 7, []);
    assert [] + [(7, 7)] == [(7, 7)];
    RunWordSpace(p, 4, "function", s, 7, 7, [(7, 7)]);
    RunName(p, 6, s, 16, e, 7, [(7, 7)]);
    assert [(7, 7)] + [(16, e)] == [(7, 7), (16, e)];
    RunDone(p, 9, s, e, 16, [(7, 7), (16, e)]);
  }

  lemma FunctionReplacement(s: string, mt: Match, a: nat, b: nat, c: nat, d: nat)
    requires mt.groups == [(a, b), (c, d)] && a <= b <= |s| && c <= d <= |s|
    ensures Replacement(ExportFunction, s, mt) == "exports." + s[c..d] + " = " + s[a..b] + "function"
  {
    assert Captured(s, mt.groups, 1) == s[a..b] && Captured(s, mt.groups, 2) == s[c..d];
    ExpandFive("exports.", 2, " = ", 1, "function", s, mt.groups);
  }

  lemma ExportFunctionMatch(s: string, e: nat)
    requires ExportFunctionAt(s, e)
    ensures MatchAt(ExportFunction, s) == Some(Match(e, [(7, 7), (16, e)]))
  {
    FunctionPatternShapes();
    AsyncPatternFails(ExportAsyncFunctionPattern, s, e);
    PlainFunctionMatches(ExportFunctionPattern, s, e);
  }

  /** The head `exports.f = ` followed by the (possibly empty) `async `
      group and `function`. */
  lemma FunctionHead(f: string)
    ensures "exports." + f + " = " + [] + "function" == "exports." + f + " = function"
    ensures "exports." + f + " = " + "async " + "function" == "exports." + f + " = async function"
  {
  }

  lemma ExportFunctionRewrite(s: string, e: nat, f: string, rest: string)
    requires ExportFunctionAt(s, e) && s[16..e] == f && s[e..] == rest
    ensures Rewrite(ExportFunction, s) == "exports." + f + " = function" + Rewrite(ExportFunction, rest)
  {
    var mt := Match(e, [(7, 7), (16, e)]);
    ExportFunctionMatch(s, e);
    FunctionReplacement(s, mt, 7, 7, 16, e);
    assert s[7..7] == [];
    FunctionHead(f);
    RewriteAtMatch(ExportFunction, s, mt, rest);
  }

  /** `export function f` becomes `exports.f = function`. */
  lemma ExportFunctionForm(f: string, rest: string)
    requires IsName(f) && NameEnds(rest)
    ensures Rewrite(ExportFunction, "export function " + f + rest) ==
      "exports." + f + " = function" + Rewrite(ExportFunction, rest)
  {
    ExportFunctionText(f, rest);
    ExportFunctionRewrite("export function " + f + rest, 16 + |f|, f, rest);
  }

  /** Where the parts of `export async function f` lie. */
  predicate ExportAsyncFunctionAt(s: string, e: nat) {
    22 < e <= |s| && OccursAt(s, "export", 0) && s[6] == ' ' && !IsSpace(s[7]) &&
    OccursAt(s, "async", 7) && s[12] == ' ' && !IsSpace(s[13]) &&
    OccursAt(s, "function", 13) && s[21] == ' ' && !IsSpace(s[22]) &&
    (forall j :: 22 <= j < e ==> IsWordChar(s[j])) && (e == |s| || !IsWordChar(s[e]))
  }

  lemma ExportAsyncFunctionText(f: string, rest: string)
    requires IsName(f) && NameEnds(rest)
    ensures var s := "export async function " + f + rest;
      ExportAsyncFunctionAt(s, 22 + |f|) && s[7..13] == "async " && s[22..22 + |f|] == f && s[22 + |f|..] == rest
  {
    var s := "export async function " + f + rest;
    NameAfter("export async function ", f, rest);
    assert s[7..13] == "async ";
  }

  lemma AsyncFunctionHead(p: seq<Elem>, s: string, e: nat)
    requires IsAsyncFunctionPattern(p) && ExportAsyncFunctionAt(s, e)
    ensures Run(p, 0, s, 0, 0, []) == Run(p, 6, s, 13, 7, [(7, 13)])
  {
    RunWordSpace(p, 0, "export", s, 0, 0, []);
    RunBegin(p, 2, s, 7, 0, []);
    RunWordSpace(p, 3, "async", s, 7, 7, []);
    RunEnd(p, 5, s, 13, 7, []);
    assert [] + [(7, 13)] == [(7, 13)];
  }

  lemma AsyncFunctionTail(p: seq<Elem>, s: string, e: nat)
    requires IsAsyncFunctionPattern(p) && ExportAsyncFunctionAt(s, e)
    ensures Run(p, 6, s, 13, 7, [(7, 13)]) == Some((e, [(7, 13), (22, e)]))
  {
    RunWordSpace(p, 6, "function", s, 13, 7, [(7, 13)]);
    RunName(p, 8, s, 22, e, 7, [(7, 13)]);
    assert [(7, 13)] + [(22, e)] == [(7, 13), (22, e)];
    RunDone(p, 11, s, e, 22, [(7, 13), (22, e)]);
  }

  lemma AsyncFunctionMatches(p: seq<Elem>, s: string, e: nat)
    requires IsAsyncFunctionPattern(p) && ExportAsyncFunctionAt(s, e)
    ensures MatchPattern(p, s) == Some(Match(e, [(7, 13), (22, e)]))
  {
    AsyncFunctionHead(p, s, e);
    AsyncFunctionTail(p, s, e);
  }

  lemma ExportAsyncFunctionMatch(s: string, e: nat)
    requires ExportAsyncFunctionAt(s, e)
    ensures MatchAt(ExportFunction, s) == Some(Match(e, [(7, 13), (22, e)]))
  {
    FunctionPatternShapes();
    AsyncFunctionMatches(ExportAsyncFunctionPattern, s, e);
  }

  lemma ExportAsyncFunctionRewrite(s: string, e: nat, f: string, rest: string)
    requires ExportAsyncFunctionAt(s, e) && s[7..13] == "async " && s[22..e] == f && s[e..] == rest
    ensures Rewrite(ExportFunction, s) == "exports." + f + " = async function" + Rewrite(ExportFunction, rest)
  {
    var mt := Match(e, [(7, 13), (22, e)]);
    ExportAsyncFunctionMatch(s, e);
    FunctionReplacement(s, mt, 7, 13, 22, e);
    FunctionHead(f);
    RewriteAtMatch(ExportFunction, s, mt, rest);
  }

  /** `export async function f` becomes `exports.f = async function`. */
  lemma ExportAsyncFunctionForm(f: string, rest: string)
    requires IsName(f) && NameEnds(rest)
    ensures Rewrite(ExportFunction, "export async function " + f + rest) ==
      "exports." + f + " = async function" + Rewrite(ExportFunction, rest)
  {
    ExportAsyncFunctionText(f, rest);
    ExportAsyncFunctionRewrite("export async function " + f + rest, 22 + |f|, f, rest);
  }

  // ---------------------------------------------------------------------
  // export const x

  predicate IsExportConstPattern(p: seq<Elem>) {
    |p| == 7 && KeywordAt(p, 0, "export") && KeywordAt(p, 2, "const") && NameGroupAt(p, 4)
  }

  lemma ExportConstPatternShape()
    ensures IsExportConstPattern(ExportConstPattern)
  {
  }

  /** Where the parts of `export const x` lie: the name ends at `e`. */
  predicate ExportConstAt(s: string, e: nat) {
    13 < e <= |s| && OccursAt(s, "export", 0) && s[6] == ' ' && !IsSpace(s[7]) &&
    OccursAt(s, "const", 7) && s[12] == ' ' && !IsSpace(s[13]) &&
    (forall j :: 13 <= j < e ==> IsWordChar(s[j])) && (e == |s| || !IsWordChar(s[e]))
  }

  lemma ExportConstText(x: string, rest: string)
    requires IsName(x) && NameEnds(rest)
    ensures var s := "export const " + x + rest;
      ExportConstAt(s, 13 + |x|) && s[13..13 + |x|] == x && s[13 + |x|..] == rest
  {
    NameAfter("export const ", x, rest);
  }

  lemma ExportConstMatches(p: seq<Elem>, s: string, e: nat)
    requires IsExportConstPattern(p) && ExportConstAt(s, e)
    ensures MatchPattern(p, s) == Some(Match(e, [(13, e)]))
  {
    RunWordSpace(p, 0, "export", s, 0, 0, []);
    RunWordSpace(p, 2, "const", s, 7, 0, []);
    RunName(p, 4, s, 13, e, 0, []);
    assert [] + [(13, e)] == [(13, e)];
    RunDone(p, 7, s, e, 13, [(13, e)]);
  }

  lemma ExportConstReplacement(s: string, mt: Match, a: nat, b: nat)
    requires mt.groups == [(a, b)] && a <= b <= |s|
    ensures Replacement(ExportConst, s, mt) == "const " + s[a..b] + " = exports." + s[a..b]
  {
    var t := Template(ExportConst);
    assert Expand(t[3..], s, mt.groups) == s[a..b];
    assert Expand(t[2..], s, mt.groups) == " = exports." + s[a..b];
    assert Expand(t[1..], s, mt.groups) == s[a..b] + " = exports." + s[a..b];
  }

  lemma ExportConstRewrite(s: string, e: nat, x: string, rest: string)
    requires ExportConstAt(s, e) && s[13..e] == x && s[e..] == rest
    ensures Rewrite(ExportConst, s) == "const " + x + " = exports." + x + Rewrite(ExportConst, rest)
  {
    var mt := Match(e, [(13, e)]);
    ExportConstPatternShape();
    ExportConstMatches(ExportConstPattern, s, e);
    ExportConstReplacement(s, mt, 13, e);
    RewriteAtMatch(ExportConst, s, mt, rest);
  }

  /** `export const x` becomes `const x = exports.x`. */
  lemma ExportConstForm(x: string, rest: string)
    requires IsName(x) && NameEnds(rest)
    ensures Rewrite(ExportConst, "export const " + x + rest) == "const " + x + " = exports." + x + Rewrite(ExportConst, rest)
  {
    ExportConstText(x, rest);
    ExportConstRewrite("export const " + x + rest, 13 + |x|, x, rest);
  }
}
