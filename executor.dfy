/** The playground executor: it runs a playground file after turning its
    module syntax into `require` calls, calls the file's exported `activate`,
    tracks every disposable the script creates through the intercepted API,
    and on `stop` calls `deactivate` and then disposes everything tracked.

    The script itself is a parameter: `behave` says, for the transformed
    text, which effects running it has, whether it throws, which names it
    exports and what its `activate` and `deactivate` do.  Clock readings are
    the parameter `now`; reading the file is the parameter `read`. */
module Executor {
  import opened Host
  import opened Console
  import opened Intercept
  import Transform

  /** What calling an exported hook (`activate`, `deactivate`) does. */
  datatype Hook = Hook(effects: seq<Effect>, outcome: Outcome)

  /** What running the transformed script does. */
  datatype Script = Script(
    effects: seq<Effect>,
    outcome: Outcome,
    exportKeys: seq<string>,
    activate: Option<Hook>,
    deactivate: Option<Hook>)

  /** `fs.readFileSync(path, 'utf8')`: the text, or the value it throws. */
  datatype ReadResult = Read(code: string) | ReadFails(error: JsValue)

  /** The scope a script ran in, kept as the current playground. */
  datatype Playground = Playground(dirname: string, filename: string, exportKeys: seq<string>, deactivate: Option<Hook>)

  /** Everything the executor changes: the lines of its output channel, the
      error messages shown to the user, the messages it sends to the host's
      own console, the current playground, the tracked disposables and the
      `dispose` calls made so far. */
  datatype ExecState = ExecState(
    output: seq<string>,
    shown: seq<string>,
    hostErrors: seq<(string, JsValue)>,
    current: Option<Playground>,
    disposables: seq<Handle>,
    disposeCalls: seq<Handle>)

  const Initial := ExecState([], [], [], None, [], [])

  /** A line with a time stamp in front. */
  function Stamp(now: string, text: string): string {
    "[" + now + "] " + text
  }

  /** The state after the effects `es` of script code. */
  function WithEffects(s: ExecState, es: seq<Effect>): ExecState {
    s.(output := s.output + LinesAll(es), disposables := s.disposables + TrackedAll(es))
  }

  // ---------------------------------------------------------------------
  // stop()

  /** The host-console messages for the handles whose `dispose` throws. */
  function DisposeErrors(hs: seq<Handle>): seq<(string, JsValue)> {
    if hs == [] then []
    else
      var h := hs[|hs| - 1];
      DisposeErrors(hs[..|hs| - 1]) + (if h.onDispose.Throw? then [("Error disposing resource:", h.onDispose.thrown)] else [])
  }

  /** The state after `stop` called `deactivate`, if the current playground
      exports one. */
  function Deactivated(s: ExecState, now: string): (d: ExecState)
    ensures d.disposables == s.disposables + DeactivateTracked(s)
    ensures d.current == s.current && d.shown == s.shown && d.disposeCalls == s.disposeCalls
  {
    if s.current.Some? && s.current.value.deactivate.Some? then
      var h := s.current.value.deactivate.value;
      var s1 := WithEffects(s.(output := s.output + [Stamp(now, "Calling deactivate()")]), h.effects);
      match h.outcome
      case Ok => s1.(output := s1.output + [Stamp(now, "deactivate() completed")])
      case Throw(v) =>
        s1.(output := s1.output + [Stamp(now, "Error calling deactivate: " + JsToString(v))],
            hostErrors := s1.hostErrors + [("Error calling deactivate:", v)])
    else s
  }

  /** The handles `deactivate` makes the executor track while it runs. */
  function DeactivateTracked(s: ExecState): seq<Handle> {
    if s.current.Some? && s.current.value.deactivate.Some? then TrackedAll(s.current.value.deactivate.value.effects) else []
  }

  /** `stop`: after `deactivate`, every tracked handle is disposed and the
      count logged includes those `deactivate` registered. */
  function StopSpec(s: ExecState, now: string): (r: ExecState)
    ensures r.disposables == [] && r.current.None?
    ensures r.output != [] &&
      r.output[|r.output| - 1] == Stamp(now, "Disposing " + NatToString(|s.disposables| + |DeactivateTracked(s)|) + " tracked disposables")
  {
    var d := Deactivated(s, now);
    d.(output := d.output + [Stamp(now, "Disposing " + NatToString(|d.disposables|) + " tracked disposables")],
       hostErrors := d.hostErrors + DisposeErrors(d.disposables),
       disposeCalls := d.disposeCalls + d.disposables,
       disposables := [],
       current := None)
  }

  // ---------------------------------------------------------------------
  // execute()

  /** `createPlaygroundContext`: `__dirname` is the path of the first
      workspace folder, or empty; `__filename` is empty. */
  function CreatePlaygroundContext(folders: seq<string>, script: Script): (p: Playground)
    ensures p.filename == ""
    ensures p.dirname == "" <==> folders == [] || folders[0] == ""
    ensures folders != [] ==> p.dirname == folders[0]
    ensures p.exportKeys == script.exportKeys && p.deactivate == script.deactivate
  {
    Playground(if folders != [] then folders[0] else "", "", script.exportKeys, script.deactivate)
  }

  /** The error a property read on `null` or `undefined` throws in the
      executor's own code, so in the host's realm. */
  function TypeErrorReading(v: JsValue, prop: string): JsValue {
    var message := "Cannot read properties of " + JsToString(v) + " (reading '" + prop + "')";
    JsValue.Error("TypeError", message, "TypeError: " + message, true)
  }

  predicate Nullish(v: JsValue) {
    v.Null? || v.Undefined?
  }

  /** `${error.message}`; `None` when reading `message` throws. */
  function MessageText(v: JsValue): (r: Option<string>)
    ensures r.None? <==> Nullish(v)
    ensures r.Some? && MessageOf(v).Some? ==> r.value == MessageOf(v).value
    ensures r.Some? && MessageOf(v).None? ==> r.value == "undefined"
  {
    if Nullish(v) then None
    else if MessageOf(v).Some? then Some(MessageOf(v).value)
    else Some("undefined")
  }

  /** `error.stack || error.message || String(error)`; `None` when reading
      `stack` throws. */
  function FailureText(e: JsValue): (r: Option<string>)
    ensures r.None? <==> Nullish(e)
    ensures r.Some? && StackOf(e).Some? && StackOf(e).value != "" ==> r.value == StackOf(e).value
    ensures r.Some? && (StackOf(e).None? || StackOf(e).value == "") ==> r.value == ShownText(e)
  {
    if Nullish(e) then None
    else Some(OrElse(StackOf(e), OrElse(MessageOf(e), JsToString(e))))
  }

  /** `error.message || String(error)` for a value that is not nullish. */
  function ShownText(e: JsValue): (r: string)
    ensures MessageOf(e).Some? && MessageOf(e).value != "" ==> r == MessageOf(e).value
    ensures MessageOf(e).None? || MessageOf(e).value == "" ==> r == JsToString(e)
  {
    OrElse(MessageOf(e), JsToString(e))
  }

  /** How far an attempt got: to the end, or to a value thrown to the outer
      `catch`. */
  datatype Attempt = Completed(state: ExecState) | Failed(state: ExecState, error: JsValue)

  /** Calling `activate`, if the script exports one.  A value it throws is
      reported by its message; reading the message of `null` or `undefined`
      throws a `TypeError` that reaches the outer `catch`. */
  function ActivateSpec(s: ExecState, activate: Option<Hook>): (a: Attempt)
    ensures a.Failed? <==> activate.Some? && activate.value.outcome.Throw? && Nullish(activate.value.outcome.thrown)
    ensures a.Failed? ==> a.error == TypeErrorReading(activate.value.outcome.thrown, "message")
    ensures a.state.current == s.current && a.state.shown == s.shown
    ensures s.output <= a.state.output
  {
    if activate.None? then Completed(s)
    else
      var h := activate.value;
      var s1 := WithEffects(s, h.effects);
      match h.outcome
      case Ok => Completed(s1.(output := s1.output + ["Called activate() function"]))
      case Throw(v) =>
        match MessageText(v)
        case Some(m) => Completed(s1.(output := s1.output + ["Error calling activate: " + m]))
        case None => Failed(s1, TypeErrorReading(v, "message"))
  }

  function KeyLines(keys: seq<string>): (r: seq<string>)
    ensures |r| == |keys|
    ensures forall i :: 0 <= i < |keys| ==> r[i] == "  - " + keys[i]
  {
    if keys == [] then [] else KeyLines(keys[..|keys| - 1]) + ["  - " + keys[|keys| - 1]]
  }

  /** The export list and the success line, appended to the output. */
  function Listed(s: ExecState, now: string, keys: seq<string>): (r: ExecState)
    ensures r == s.(output := r.output)
    ensures |r.output| == |s.output| + |keys| + 2 && r.output[..|s.output|] == s.output
    ensures r.output[|s.output|] == "Exported functions available:"
    ensures forall k :: 0 <= k < |keys| ==> r.output[|s.output| + 1 + k] == "  - " + keys[k]
    ensures r.output[|r.output| - 1] == Stamp(now, "Playground executed successfully")
  {
    s.(output := s.output + ["Exported functions available:"] + KeyLines(keys) + [Stamp(now, "Playground executed successfully")])
  }

  /** The file once read and transformed: what running it does, or what
      reading it threw. */
  datatype Loaded = Loaded(script: Script) | Unreadable(error: JsValue)

  /** Reading the file and transforming its module syntax; `behave` says
      what the transformed text does when run. */
  function Load(read: ReadResult, behave: string -> Script): (l: Loaded)
    ensures read.ReadFails? <==> l.Unreadable?
    ensures read.ReadFails? ==> l.error == read.error
    ensures read.Read? ==> l == Loaded(behave(Transform.TransformESMToCommonJS(read.code)))
  {
    match read
    case ReadFails(e) => Unreadable(e)
    case Read(code) => Loaded(behave(Transform.TransformESMToCommonJS(code)))
  }

  /** The body of the outer `try`. */
  function RunSpec(s: ExecState, now: string, loaded: Loaded, folders: seq<string>): (a: Attempt)
    ensures loaded.Unreadable? ==> a == Failed(s, loaded.error)
    ensures a.Completed? ==> loaded.Loaded? && a.state.current == Some(CreatePlaygroundContext(folders, loaded.script))
    ensures s.output <= a.state.output
  {
    match loaded
    case Unreadable(e) => Failed(s, e)
    case Loaded(script) =>
      var s1 := WithEffects(s, script.effects);
      if script.outcome.Throw? then Failed(s1, script.outcome.thrown)
      else
        var a := ActivateSpec(s1.(current := Some(CreatePlaygroundContext(folders, script))), script.activate);
        if a.Failed? then a else Completed(Listed(a.state, now, script.exportKeys))
  }

  /** The outer `catch`: whether the promise `execute` returns is rejected
      comes second. */
  function ReportSpec(s: ExecState, now: string, e: JsValue): (r: (ExecState, bool))
    ensures r.1 <==> Nullish(e)
    ensures r.0.shown == if r.1 then s.shown else s.shown + ["Playground Error: " + ShownText(e)]
    ensures r.0.current == s.current && r.0.disposables == s.disposables
    ensures s.output <= r.0.output
  {
    var s1 := s.(output := s.output + [Stamp(now, "Playground execution failed:")]);
    match FailureText(e)
    case None => (s1, true)
    case Some(t) => (s1.(output := s1.output + [t], shown := s1.shown + ["Playground Error: " + ShownText(e)]), false)
  }

  /** The state once `execute` has stopped the previous run and cleared
      the output channel. */
  function Started(s: ExecState, path: string, now: string): ExecState {
    StopSpec(s, now).(output := [Stamp(now, "Executing playground: " + path)])
  }

  /** `execute(path)`: the new state, and whether the promise rejects. */
  function ExecuteSpec(s: ExecState, path: string, now: string, loaded: Loaded, folders: seq<string>): (r: (ExecState, bool))
    ensures r.0.output != [] && r.0.output[0] == Stamp(now, "Executing playground: " + path)
  {
    match RunSpec(Started(s, path, now), now, loaded, folders)
    case Completed(t) => (t, false)
    case Failed(t, e) => ReportSpec(t, now, e)
  }

  // ---------------------------------------------------------------------
  // The executor object

  class PlaygroundExecutor {
    var output: seq<string>
    var shown: seq<string>
    var hostErrors: seq<(string, JsValue)>
    var current: Option<Playground>
    var disposables: seq<Handle>
    var disposeCalls: seq<Handle>

    function State(): ExecState
      reads this
    {
      ExecState(output, shown, hostErrors, current, disposables, disposeCalls)
    }

    constructor ()
      ensures State() == Initial
    {
      output, shown, hostErrors, current, disposables, disposeCalls := [], [], [], None, [], [];
    }

    /** `outputChannel.appendLine` */
    method AppendLine(line: string)
      modifies this
      ensures State() == old(State()).(output := old(output) + [line])
    {
      output := output + [line];
    }

    /** `console.log`, `console.error`, ... of the playground console. */
    method ConsoleWrite(ch: Channel, args: seq<JsValue>)
      modifies this
      ensures State() == old(State()).(output := old(output) + [ConsoleLine(ch, args)])
    {
      var message := Join(Texts(args), " ");
      AppendLine(Prefix(ch) + message);
    }

    /** `trackDisposable`: tracks a value with a callable `dispose` and
        hands the value back. */
    method TrackDisposable(v: JsValue) returns (r: JsValue)
      modifies this
      ensures r == v
      ensures State() == old(State()).(disposables := old(disposables) + Disposer(v))
    {
      if IsDisposable(v) {
        disposables := disposables + [v.disposer.value];
      }
      r := v;
    }

    /** `wrappedRegisterCommand`, given what the real `registerCommand`
        returned. */
    method RegisterCommandWrapper(registered: JsValue) returns (r: JsValue)
      modifies this
      ensures r == registered
      ensures State() == old(State()).(disposables := old(disposables) + Disposer(registered))
    {
      r := TrackDisposable(registered);
    }

    /** The wrapper around a `window.on...` function, given what the
        original returned. */
    method EventSubscriptionWrapper(result: JsValue) returns (r: JsValue)
      modifies this
      ensures r == result
      ensures State() == old(State()).(disposables := old(disposables) + Disposer(result))
    {
      if IsDisposable(result) {
        r := TrackDisposable(result);
      } else {
        r := result;
      }
    }

    /** `subscriptions.push(...items)` of the context `activate` gets. */
    method SubscriptionsPush(items: seq<JsValue>)
      modifies this
      ensures State() == old(State()).(disposables := old(disposables) + Disposers(items))
    {
      var i := 0;
      while i < |items|
        invariant i <= |items|
        invariant State() == old(State()).(disposables := old(disposables) + Disposers(items[..i]))
      {
        DisposersSnoc(old(disposables), items, i);
        if IsDisposable(items[i]) {
          disposables := disposables + [items[i].disposer.value];
        }
        i := i + 1;
      }
      assert items[..i] == items;
    }

    /** One step of script code, routed through the console and the
        intercepted API. */
    method Perform(e: Effect)
      modifies this
      ensures State() == WithEffects(old(State()), [e])
    {
      assert TrackedAll([e]) == Tracked(e) && LinesAll([e]) == Lines(e) by {
        assert [e][1..] == [];
      }
      match e
      case ConsoleCall(ch, args) =>
        ConsoleWrite(ch, args);
      case ApiCall(required, ns, member, result) =>
        match RouteOf(Require(required), ns, member) {
          case WrappedRegisterCommand =>
            var _ := RegisterCommandWrapper(result);
          case WrappedEventSubscription =>
            var _ := EventSubscriptionWrapper(result);
          case PassThrough =>
        }
      case Push(items) =>
        SubscriptionsPush(items);
    }

    method PerformAll(es: seq<Effect>)
      modifies this
      ensures State() == WithEffects(old(State()), es)
    {
      ghost var s0 := State();
      for i := 0 to |es|
        invariant State() == WithEffects(s0, es[..i])
      {
        WithEffectsStep(s0, es, i);
        Perform(es[i]);
      }
      assert es[..|es|] == es;
    }

    /** `deactivate()` of the current playground, if it exports one. */
    method Deactivate(now: string)
      modifies this
      ensures State() == Deactivated(old(State()), now)
    {
      if current.Some? && current.value.deactivate.Some? {
        var h := current.value.deactivate.value;
        AppendLine(Stamp(now, "Calling deactivate()"));
        PerformAll(h.effects);
        match h.outcome
        case Ok =>
          AppendLine(Stamp(now, "deactivate() completed"));
        case Throw(v) =>
          AppendLine(Stamp(now, "Error calling deactivate: " + JsToString(v)));
          hostErrors := hostErrors + [("Error calling deactivate:", v)];
      }
    }

    /** `this.disposables.forEach(d => { try { d.dispose(); } catch ... })` */
    method DisposeTracked()
      modifies this
      ensures State() == old(State()).(hostErrors := old(hostErrors) + DisposeErrors(old(disposables)),
                                       disposeCalls := old(disposeCalls) + old(disposables))
    {
      var i := 0;
      while i < |disposables|
        invariant i <= |disposables| && disposables == old(disposables)
        invariant State() == old(State()).(hostErrors := old(hostErrors) + DisposeErrors(disposables[..i]),
                                           disposeCalls := old(disposeCalls) + disposables[..i])
      {
        var d := disposables[i];
        assert disposables[..i + 1][..i] == disposables[..i];
        disposeCalls := disposeCalls + [d];
        if d.onDispose.Throw? {
          hostErrors := hostErrors + [("Error disposing resource:", d.onDispose.thrown)];
        }
        i := i + 1;
      }
      assert disposables[..i] == disposables;
    }

    /** `stop()` */
    method Stop(now: string)
      modifies this
      ensures State() == StopSpec(old(State()), now)
    {
      Deactivate(now);
      AppendLine(Stamp(now, "Disposing " + NatToString(|disposables|) + " tracked disposables"));
      DisposeTracked();
      disposables := [];
      current := None;
    }

    /** The lines listing the exported names and the closing line. */
    method ListExports(now: string, keys: seq<string>)
      modifies this
      ensures State() == Listed(old(State()), now, keys)
    {
      AppendLine("Exported functions available:");
      var i := 0;
      while i < |keys|
        invariant i <= |keys|
        invariant State() == old(State()).(output := old(output) + ["Exported functions available:"] + KeyLines(keys[..i]))
      {
        assert keys[..i + 1][..i] == keys[..i];
        AppendLine("  - " + keys[i]);
        i := i + 1;
      }
      assert keys[..i] == keys;
      AppendLine(Stamp(now, "Playground executed successfully"));
    }

    /** Calling `activate` with the tracking context; the value that escapes
        to the outer `catch`, if any. */
    method Activate(activate: Option<Hook>) returns (error: Option<JsValue>)
      modifies this
      ensures var a := ActivateSpec(old(State()), activate);
        State() == a.state && (error.Some? <==> a.Failed?) && (a.Failed? ==> error.value == a.error)
    {
      error := None;
      if activate.Some? {
        var h := activate.value;
        PerformAll(h.effects);
        match h.outcome
        case Ok =>
          AppendLine("Called activate() function");
        case Throw(v) =>
          var m := MessageText(v);
          if m.Some? {
            AppendLine("Error calling activate: " + m.value);
          } else {
            error := Some(TypeErrorReading(v, "message"));
          }
      }
    }

    /** The body of the outer `try`; the value thrown to the `catch`, if
        any. */
    method Run(now: string, read: ReadResult, folders: seq<string>, behave: string -> Script) returns (error: Option<JsValue>)
      modifies this
      ensures var a := RunSpec(old(State()), now, Load(read, behave), folders);
        State() == a.state && (error.Some? <==> a.Failed?) && (a.Failed? ==> error.value == a.error)
    {
      match read
      case ReadFails(e) =>
        error := Some(e);
      case Read(code) =>
        var transformed := Transform.TransformESMToCommonJS(code);
        var script := behave(transformed);
        PerformAll(script.effects);
        if script.outcome.Throw? {
          error := Some(script.outcome.thrown);
        } else {
          current := Some(CreatePlaygroundContext(folders, script));
          error := Activate(script.activate);
          if error.None? {
            ListExports(now, script.exportKeys);
          }
        }
    }

    /** The outer `catch`; whether the returned promise is rejected. */
    method Report(now: string, e: JsValue) returns (rejected: bool)
      modifies this
      ensures (State(), rejected) == ReportSpec(old(State()), now, e)
    {
      AppendLine(Stamp(now, "Playground execution failed:"));
      var text := FailureText(e);
      if text.None? {
        rejected := true;
      } else {
        AppendLine(text.value);
        shown := shown + ["Playground Error: " + ShownText(e)];
        rejected := false;
      }
    }

    /** `execute(path)`: whether the returned promise is rejected. */
    method Execute(path: string, now: string, read: ReadResult, folders: seq<string>, behave: string -> Script) returns (rejected: bool)
      modifies this
      ensures (State(), rejected) == ExecuteSpec(old(State()), path, now, Load(read, behave), folders)
    {
      Stop(now);
      output := [Stamp(now, "Executing playground: " + path)];
      var error := Run(now, read, folders, behave);
      rejected := false;
      if error.Some? {
        rejected := Report(now, error.value);
      }
    }
  }

  /** The effects up to `i + 1` are those up to `i`, then effect `i`. */
  lemma WithEffectsStep(s: ExecState, es: seq<Effect>, i: nat)
    requires i < |es|
    ensures WithEffects(s, es[..i + 1]) == WithEffects(WithEffects(s, es[..i]), [es[i]])
  {
    assert es[..i + 1] == es[..i] + [es[i]];
    WithEffectsSnoc(s, es[..i], es[i]);
  }

  lemma WithEffectsSnoc(s: ExecState, es: seq<Effect>, e: Effect)
    ensures WithEffects(WithEffects(s, es), [e]) == WithEffects(s, es + [e])
  {
    LinesSnoc(s.output, es, e);
    TrackedSnoc(s.disposables, es, e);
  }

  lemma LinesSnoc(o: seq<string>, es: seq<Effect>, e: Effect)
    ensures (o + LinesAll(es)) + LinesAll([e]) == o + LinesAll(es + [e])
  {
    LinesAllAppend(es, [e]);
    AppendAssoc(o, LinesAll(es), LinesAll([e]));
  }

  lemma TrackedSnoc(o: seq<Handle>, es: seq<Effect>, e: Effect)
    ensures (o + TrackedAll(es)) + TrackedAll([e]) == o + TrackedAll(es + [e])
  {
    TrackedAllAppend(es, [e]);
    AppendAssoc(o, TrackedAll(es), TrackedAll([e]));
  }

  lemma DisposersSnoc(o: seq<Handle>, items: seq<JsValue>, i: nat)
    requires i < |items|
    ensures o + Disposers(items[..i + 1]) == (o + Disposers(items[..i])) + Disposer(items[i])
  {
    assert items[..i + 1] == items[..i] + [items[i]];
    DisposersAppend(items[..i], [items[i]]);
    assert Disposers([items[i]]) == Disposer(items[i]) by {
      assert [items[i]][1..] == [];
    }
    AppendAssoc(o, Disposers(items[..i]), Disposer(items[i]));
  }

  lemma {:induction false} DisposersAppend(a: seq<JsValue>, b: seq<JsValue>)
    ensures Disposers(a + b) == Disposers(a) + Disposers(b)
    decreases |a|
  {
    if a == [] {
      assert a + b == b;
    } else {
      assert (a + b)[0] == a[0] && (a + b)[1..] == a[1..] + b;
      DisposersAppend(a[1..], b);
      AppendAssoc(Disposer(a[0]), Disposers(a[1..]), Disposers(b));
    }
  }
}
