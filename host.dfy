/** Values and text helpers shared by the playground executor and the two
    example scripts: JavaScript values as the executor sees them, disposable
    handles, the outcome of a call into script or host code, and the
    character classes of the JavaScript regular expressions used by the
    source transformer and the scripts. */
module Host {

  datatype Option<+T> = None | Some(value: T) {
    predicate IsFailure() { None? }
    function PropagateFailure<U>(): Option<U> requires None? { None }
    function Extract(): T requires Some? { value }
  }

  /** A host or script resource whose `dispose()` either returns or throws. */
  datatype Handle = Handle(id: nat, onDispose: Outcome)

  /** A JavaScript value, as far as the executor inspects it.  An `Error`
      records whether it was made in the extension host's own realm (the
      script runs in a `vm` context, whose `Error` is a different
      constructor).  An `Object` carries what `JSON.stringify` gives for it
      (`None` when that throws), what `String(obj)` gives, its own `message`
      and `stack` properties when they are strings, and its `dispose` method
      when it has a callable one.  Numbers are integral. */
  datatype JsValue =
    | Undefined
    | Null
    | Bool(b: bool)
    | Num(n: int)
    | Str(s: string)
    | Func(source: string)
    | Error(name: string, message: string, stack: string, hostRealm: bool)
    | Object(json: Option<string>, display: string, ownMessage: Option<string>, ownStack: Option<string>, disposer: Option<Handle>)

  /** `v.message` of a value that is not `null` or `undefined`: a string, or
      `None` for `undefined`. */
  function MessageOf(v: JsValue): Option<string> {
    match v
    case Error(_, message, _, _) => Some(message)
    case Object(_, _, message, _, _) => message
    case _ => None
  }

  /** `v.stack` of a value that is not `null` or `undefined`. */
  function StackOf(v: JsValue): Option<string> {
    match v
    case Error(_, _, stack, _) => Some(stack)
    case Object(_, _, _, stack, _) => stack
    case _ => None
  }

  /** `a || b` where `a` is a string or `undefined`. */
  function OrElse(a: Option<string>, b: string): (r: string)
    ensures a.Some? && a.value != "" ==> r == a.value
    ensures a.None? || a.value == "" ==> r == b
  {
    if a.Some? && a.value != "" then a.value else b
  }

  /** What a call into script code (or into a `dispose`) did: it returned, or
      it threw a value. */
  datatype Outcome = Ok | Throw(thrown: JsValue)

  /** `value && typeof value.dispose === 'function'` */
  predicate IsDisposable(v: JsValue) {
    v.Object? && v.disposer.Some?
  }

  // ---------------------------------------------------------------------
  // Character classes of JavaScript regular expressions

  /** `\s`: WhiteSpace and LineTerminator code points. */
  predicate IsSpace(c: char) {
    c == ' ' || c == '\t' || c == '\n' || c == '\r' || c == '\U{B}' || c == '\U{C}'
    || c == '\U{A0}' || c == '\U{1680}' || ('\U{2000}' <= c <= '\U{200A}')
    || c == '\U{2028}' || c == '\U{2029}' || c == '\U{202F}' || c == '\U{205F}'
    || c == '\U{3000}' || c == '\U{FEFF}'
  }

  /** The characters `.` does not match (no `s` flag). */
  predicate IsLineTerminator(c: char) {
    c == '\n' || c == '\r' || c == '\U{2028}' || c == '\U{2029}'
  }

  predicate IsDigit(c: char) { '0' <= c <= '9' }

  /** `\w` */
  predicate IsWordChar(c: char) {
    ('a' <= c <= 'z') || ('A' <= c <= 'Z') || IsDigit(c) || c == '_'
  }

  /** Length of the longest prefix of `s` whose characters all satisfy `p`:
      what a greedy `[class]*` consumes. */
  function Span(p: char -> bool, s: string): (n: nat)
    ensures n <= |s|
    ensures forall i :: 0 <= i < n ==> p(s[i])
    ensures n < |s| ==> !p(s[n])
  {
    if s == [] || !p(s[0]) then 0 else 1 + Span(p, s[1..])
  }

  /** The span is the one length whose prefix satisfies `p` and is not
      followed by a character that does. */
  lemma SpanIs(p: char -> bool, s: string, n: nat)
    requires n <= |s| && (forall i :: 0 <= i < n ==> p(s[i])) && (n < |s| ==> !p(s[n]))
    ensures Span(p, s) == n
  {
  }

  // ---------------------------------------------------------------------
  // String helpers with JavaScript meaning

  predicate StartsWith(s: string, prefix: string) {
    |prefix| <= |s| && s[..|prefix|] == prefix
  }

  /** `parts.join(sep)` */
  function Join(parts: seq<string>, sep: string): string {
    if parts == [] then ""
    else if |parts| == 1 then parts[0]
    else parts[0] + sep + Join(parts[1..], sep)
  }

  /** Every character of `s` satisfies `p`. */
  predicate All(p: char -> bool, s: string) {
    forall i :: 0 <= i < |s| ==> p(s[i])
  }

  /** `s.trim()`: strips WhiteSpace and LineTerminator from both ends, so
      what remains is a slice of `s` with only white space around it. */
  function Trim(s: string): (r: string)
    ensures |r| <= |s|
    ensures Trimmed(r)
    ensures exists i :: OccursAt(s, r, i)
    ensures Leading(s) + |r| <= |s| && r == s[Leading(s)..Leading(s) + |r|]
    ensures All(IsSpace, s[..Leading(s)]) && All(IsSpace, s[Leading(s) + |r|..])
  {
    var a := Leading(s);
    var b := Trailing(s, a);
    assert OccursAt(s, s[a..b], a);
    s[a..b]
  }

  /** No white space at either end of `t`. */
  predicate Trimmed(t: string) {
    t != [] ==> !IsSpace(t[0]) && !IsSpace(t[|t| - 1])
  }

  /** Where the leading white space of `s` ends. */
  function Leading(s: string): (a: nat)
    ensures a <= |s| && All(IsSpace, s[..a])
    ensures a < |s| ==> !IsSpace(s[a])
  {
    var a := Span(IsSpace, s);
    assert forall i :: 0 <= i < a ==> s[..a][i] == s[i];
    a
  }

  /** Where the trailing white space of `s` after position `a` starts. */
  function Trailing(s: string, a: nat): (b: nat)
    requires a <= |s|
    ensures a <= b <= |s| && All(IsSpace, s[b..])
    ensures a < b ==> !IsSpace(s[b - 1])
  {
    var n := SpanBack(IsSpace, s[a..]);
    var t := s[a..];
    assert forall i :: |s| - n <= i < |s| ==> s[i] == t[i - a];
    assert forall i :: |s| - n <= i < |s| ==> s[|s| - n..][i - (|s| - n)] == s[i];
    |s| - n
  }

  /** Length of the longest suffix of `s` whose characters all satisfy `p`. */
  function SpanBack(p: char -> bool, s: string): (n: nat)
    ensures n <= |s|
    ensures forall i :: |s| - n <= i < |s| ==> p(s[i])
    ensures n < |s| ==> !p(s[|s| - n - 1])
  {
    if s == [] || !p(s[|s| - 1]) then 0 else 1 + SpanBack(p, s[..|s| - 1])
  }

  /** `s.split(c)` for a one-character separator. */
  function SplitOn(s: string, c: char): (r: seq<string>)
    ensures |r| >= 1
    ensures forall i :: 0 <= i < |r| ==> c !in r[i]
  {
    var n := Span(x => x != c, s);
    if n == |s| then [s] else [s[..n]] + SplitOn(s[n + 1..], c)
  }

  /** `t` occurs in `s` at position `j`. */
  predicate OccursAt(s: string, t: string, j: int) {
    0 <= j && j + |t| <= |s| && s[j..j + |t|] == t
  }

  /** `s.indexOf(t)`: the first position where `t` occurs in `s`, or -1. */
  function IndexOf(s: string, t: string): (r: int)
    ensures r == -1 || OccursAt(s, t, r)
    ensures forall j :: 0 <= j < r ==> !OccursAt(s, t, j)
    ensures r == -1 ==> forall j :: !OccursAt(s, t, j)
    decreases |s|
  {
    if |s| < |t| then -1
    else if s[..|t|] == t then 0
    else
      var k := IndexOf(s[1..], t);
      assert forall j :: 1 <= j ==> (OccursAt(s, t, j) <==> OccursAt(s[1..], t, j - 1));
      k + (if k == -1 then 0 else 1)
  }

  /** `String(n)` for a non-negative integral number. */
  function NatToString(n: nat): (r: string)
    ensures |r| >= 1
    ensures forall i :: 0 <= i < |r| ==> IsDigit(r[i])
    decreases n
  {
    var d := ['0' + (n % 10) as char];
    if n < 10 then d else NatToString(n / 10) + d
  }

  /** `String(n)` for an integral number. */
  function IntToString(n: int): string {
    if n < 0 then "-" + NatToString(-n) else NatToString(n)
  }

  lemma AppendAssoc<T>(a: seq<T>, b: seq<T>, c: seq<T>)
    ensures (a + b) + c == a + (b + c)
  {
  }

  /** The keys of a `Map` in insertion order list each key once. */
  predicate NoDuplicates(ids: seq<string>) {
    forall i, j :: 0 <= i < j < |ids| ==> ids[i] != ids[j]
  }

  /** Appending a key not yet listed keeps every key listed once. */
  lemma AppendFresh(ids: seq<string>, id: string)
    requires NoDuplicates(ids) && id !in ids
    ensures NoDuplicates(ids + [id])
  {
    forall i, j | 0 <= i < j < |ids| + 1 ensures (ids + [id])[i] != (ids + [id])[j] {
      assert (ids + [id])[i] == ids[i];
    }
  }

  // ---------------------------------------------------------------------
  // Disposing in turn

  /** Calling `dispose()` on each of `hs` in turn, with nothing to catch a
      throw: the handles whose `dispose` ran, and what the first throwing
      one threw. */
  function DisposeAll(hs: seq<Handle>): (r: (seq<Handle>, Option<JsValue>))
    ensures r.0 <= hs
    ensures r.1.None? ==> r.0 == hs
    ensures r.1.Some? ==> r.0 != [] && r.0[|r.0| - 1].onDispose == Throw(r.1.value)
  {
    if hs == [] then ([], None)
    else if hs[0].onDispose.Throw? then ([hs[0]], Some(hs[0].onDispose.thrown))
    else
      var rest := DisposeAll(hs[1..]);
      ([hs[0]] + rest.0, rest.1)
  }

  /** A loop calling `dispose()` on each handle in turn (`for ... of` or
      `forEach`), which a throw leaves. */
  method DisposeEach(hs: seq<Handle>) returns (disposed: seq<Handle>, thrown: Option<JsValue>)
    ensures disposed == DisposeAll(hs).0 && thrown == DisposeAll(hs).1
  {
    disposed := [];
    thrown := None;
    var i := 0;
    assert hs[0..] == hs;
    while i < |hs|
      invariant 0 <= i <= |hs|
      invariant DisposeAll(hs).0 == disposed + DisposeAll(hs[i..]).0
      invariant DisposeAll(hs).1 == DisposeAll(hs[i..]).1
      invariant thrown.None?
    {
      DisposeFrom(hs, i);
      AppendAssoc(disposed, [hs[i]], DisposeAll(hs[i + 1..]).0);
      disposed := disposed + [hs[i]];
      if hs[i].onDispose.Throw? {
        thrown := Some(hs[i].onDispose.thrown);
        return;
      }
      i := i + 1;
    }
    assert hs[i..] == [];
  }

  /** Disposing from handle `i` on: handle `i`, then the rest unless it
      throws. */
  lemma DisposeFrom(hs: seq<Handle>, i: nat)
    requires i < |hs|
    ensures hs[i].onDispose.Throw? ==> DisposeAll(hs[i..]) == ([hs[i]], Some(hs[i].onDispose.thrown))
    ensures hs[i].onDispose.Ok? ==> DisposeAll(hs[i..]) == ([hs[i]] + DisposeAll(hs[i + 1..]).0, DisposeAll(hs[i + 1..]).1)
  {
    assert hs[i..][0] == hs[i] && hs[i..][1..] == hs[i + 1..];
  }

  /** Disposing in turn disposes every handle when none throws; otherwise it
      disposes a prefix that ends with the first throwing handle and
      reports what that one threw. */
  lemma {:induction false} DisposeAllExactly(hs: seq<Handle>)
    ensures DisposeAll(hs).1.None? <==> forall i :: 0 <= i < |hs| ==> hs[i].onDispose.Ok?
    ensures DisposeAll(hs).1.None? ==> DisposeAll(hs).0 == hs
    ensures DisposeAll(hs).1.Some? ==>
      var d := DisposeAll(hs).0;
      0 < |d| <= |hs| && d == hs[..|d|] &&
      d[|d| - 1].onDispose == Throw(DisposeAll(hs).1.value) &&
      forall i :: 0 <= i < |d| - 1 ==> d[i].onDispose.Ok?
    decreases |hs|
  {
    if hs != [] && hs[0].onDispose.Ok? {
      DisposeAllExactly(hs[1..]);
      var (d, t) := DisposeAll(hs[1..]);
      assert DisposeAll(hs) == ([hs[0]] + d, t);
      if t.None? {
        forall i | 0 <= i < |hs| ensures hs[i].onDispose.Ok? {
          if i > 0 { assert hs[i] == hs[1..][i - 1]; }
        }
      } else {
        assert !hs[1..][|d| - 1].onDispose.Ok?;
        assert ([hs[0]] + d) == hs[..|d| + 1] by {
          assert hs[..|d| + 1] == [hs[0]] + hs[1..][..|d|];
        }
      }
    }
  }
}
