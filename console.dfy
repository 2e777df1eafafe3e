/** The console the executor hands to a playground script: five channels
    that turn their arguments into text with `stringify`, join them with a
    space and append the result, behind a channel tag, as one line of the
    output channel. */
module Console {
  import opened Host

  datatype Channel = Log | Error | Warn | Info | Debug

  /** The tag each channel puts before its message. */
  function Prefix(ch: Channel): (p: string)
    ensures ch == Log <==> p == ""
    ensures p != "" ==> |p| > 2 && p[0] == '[' && p[|p| - 2..] == "] "
  {
    match ch
    case Log => ""
    case Error => "[ERROR] "
    case Warn => "[WARN] "
    case Info => "[INFO] "
    case Debug => "[DEBUG] "
  }

  /** `Error.prototype.toString`: the name and the message, separated by
      `": "` when both are present. */
  function ErrorToString(name: string, message: string): string {
    if name == "" then message
    else if message == "" then name
    else name + ": " + message
  }

  /** `String(v)` */
  function JsToString(v: JsValue): string {
    match v
    case Undefined => "undefined"
    case Null => "null"
    case Bool(b) => if b then "true" else "false"
    case Num(n) => IntToString(n)
    case Str(s) => s
    case Func(source) => source
    case Error(name, message, _, _) => ErrorToString(name, message)
    case Object(_, display, _, _, _) => display
  }

  /** `stringify(obj)`: strings verbatim, errors of the host's realm by their
      stack (or their message when the stack is empty), other objects as
      indented JSON, and `String(obj)` when `JSON.stringify` throws.  An error
      made in the script's `vm` context fails `instanceof Error` and goes to
      `JSON.stringify`, which finds no enumerable property on it. */
  function Stringify(v: JsValue): (r: string)
    ensures !v.Error? && !(v.Object? && v.json.Some?) ==> r == JsToString(v)
    ensures v.Object? && v.json.Some? ==> r == v.json.value
    ensures v.Error? && !v.hostRealm ==> r == "{}"
    ensures v.Error? && v.hostRealm && v.stack != "" ==> r == v.stack
    ensures v.Error? && v.hostRealm && v.stack == "" ==> r == v.message
  {
    match v
    case Undefined => "undefined"
    case Null => "null"
    case Bool(b) => if b then "true" else "false"
    case Num(n) => IntToString(n)
    case Str(s) => s
    case Func(source) => source
    case Error(_, message, stack, hostRealm) => if !hostRealm then "{}" else if stack != "" then stack else message
    case Object(json, display, _, _, _) => if json.Some? then json.value else display
  }

  function Texts(args: seq<JsValue>): (r: seq<string>)
    ensures |r| == |args|
    ensures forall i :: 0 <= i < |args| ==> r[i] == Stringify(args[i])
  {
    if args == [] then [] else [Stringify(args[0])] + Texts(args[1..])
  }

  /** The line `console.<ch>(...args)` appends to the output channel. */
  function ConsoleLine(ch: Channel, args: seq<JsValue>): (r: string)
    ensures Prefix(ch) <= r
    ensures args == [] ==> r == Prefix(ch)
  {
    Prefix(ch) + Join(Texts(args), " ")
  }

  // ---------------------------------------------------------------------
  // Reading a line back

  function DigitValue(c: char): nat
    requires IsDigit(c)
  {
    (c - '0') as nat
  }

  /** The number a string of decimal digits denotes. */
  function ParseDigits(s: string): nat
    requires forall i :: 0 <= i < |s| ==> IsDigit(s[i])
  {
    if s == [] then 0 else 10 * ParseDigits(s[..|s| - 1]) + DigitValue(s[|s| - 1])
  }

  /** The integer an optional minus sign and decimal digits denote. */
  function ParseInt(s: string): Option<int> {
    if s != [] && s[0] == '-' then
      if s[1..] != [] && forall i :: 1 <= i < |s| ==> IsDigit(s[i]) then
        var magnitude: int := ParseDigits(s[1..]);
        Some(-magnitude)
      else None
    else if s != [] && forall i :: 0 <= i < |s| ==> IsDigit(s[i]) then Some(ParseDigits(s))
    else None
  }

  lemma {:induction false} ParseNatToString(n: nat)
    ensures ParseDigits(NatToString(n)) == n
    decreases n
  {
    var d := ['0' + (n % 10) as char];
    if n >= 10 {
      var r := NatToString(n);
      assert r == NatToString(n / 10) + d;
      assert r[..|r| - 1] == NatToString(n / 10);
      ParseNatToString(n / 10);
    }
  }

  /** A number logged to the console reads back as that number. */
  lemma ParseStringifiedNumber(n: int)
    ensures ParseInt(Stringify(Num(n))) == Some(n)
  {
    if n < 0 {
      var r := Stringify(Num(n));
      assert r[1..] == NatToString(-n);
      ParseNatToString(-n);
    } else {
      ParseNatToString(n);
    }
  }

  /** How far `s` runs before its first `c`. */
  lemma {:induction false} SpanBeforeSeparator(x: string, c: char, rest: string)
    requires c !in x
    ensures Span(y => y != c, x + [c] + rest) == |x|
    decreases |x|
  {
    var s := x + [c] + rest;
    if x != [] {
      assert s[1..] == x[1..] + [c] + rest;
      SpanBeforeSeparator(x[1..], c, rest);
    }
  }

  /** Splitting at `c` undoes joining with `c` when no part contains `c`. */
  lemma {:induction false} SplitJoin(parts: seq<string>, c: char)
    requires parts != []
    requires forall i :: 0 <= i < |parts| ==> c !in parts[i]
    ensures SplitOn(Join(parts, [c]), c) == parts
    decreases |parts|
  {
    if |parts| == 1 {
      assert Span(y => y != c, parts[0]) == |parts[0]| by {
        SpanAll(parts[0], c);
      }
    } else {
      var s := Join(parts, [c]);
      var rest := Join(parts[1..], [c]);
      assert s == parts[0] + [c] + rest;
      SpanBeforeSeparator(parts[0], c, rest);
      assert s[..|parts[0]|] == parts[0];
      assert s[|parts[0]| + 1..] == rest;
      SplitJoin(parts[1..], c);
      assert parts == [parts[0]] + parts[1..];
    }
  }

  lemma {:induction false} SpanAll(x: string, c: char)
    requires c !in x
    ensures Span(y => y != c, x) == |x|
    decreases |x|
  {
    if x != [] {
      SpanAll(x[1..], c);
    }
  }

  /** A console line consists of the channel's tag followed by the texts of
      the arguments; when no text contains a space, splitting the rest of the
      line at spaces gives those texts back. */
  lemma ConsoleLineReadsBack(ch: Channel, args: seq<JsValue>)
    requires args != []
    requires forall i :: 0 <= i < |args| ==> ' ' !in Stringify(args[i])
    ensures var line := ConsoleLine(ch, args);
      StartsWith(line, Prefix(ch)) && SplitOn(line[|Prefix(ch)|..], ' ') == Texts(args)
  {
    var line := ConsoleLine(ch, args);
    assert line[..|Prefix(ch)|] == Prefix(ch);
    assert line[|Prefix(ch)|..] == Join(Texts(args), [' ']);
    SplitJoin(Texts(args), ' ');
  }

  /** `console.error(e)` of an error the script made itself writes an empty
      JSON object, whatever the error's message and stack. */
  lemma ScriptErrorPrintsEmptyObject(name: string, message: string, stack: string)
    ensures ConsoleLine(Channel.Error, [JsValue.Error(name, message, stack, false)]) == "[ERROR] {}"
  {
    assert Texts([JsValue.Error(name, message, stack, false)]) == ["{}"];
  }

  /** `console.log` of one string appends exactly that string. */
  lemma LogOneString(s: string)
    ensures ConsoleLine(Log, [Str(s)]) == s
  {
  }
}
