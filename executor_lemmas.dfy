/** What `stop` and `execute` promise: everything tracked is disposed,
    whatever the individual `dispose` calls do; a second `stop` has nothing
    left to do; `execute` starts from a stopped executor and a cleared output
    channel; and each way a run can end leaves a definite state. */
module ExecutorProperties {
  import opened Host
  import opened Console
  import opened Intercept
  import opened Executor

  /** The last of `lines` is `line`. */
  predicate EndsWith(lines: seq<string>, line: string) {
    lines != [] && lines[|lines| - 1] == line
  }

  /** `lines` ends with the lines of `tail`, in order. */
  predicate EndsWithAll(lines: seq<string>, tail: seq<string>) {
    |tail| <= |lines| && lines[|lines| - |tail|..] == tail
  }

  /** What a successful run writes last: the exported names, one per line,
      and the success line. */
  function Listing(now: string, keys: seq<string>): seq<string> {
    ["Exported functions available:"] + KeyLines(keys) + [Stamp(now, "Playground executed successfully")]
  }

  /** `Listed` appends exactly `Listing`. */
  lemma ListedAppends(s: ExecState, now: string, keys: seq<string>)
    ensures Listed(s, now, keys).output == s.output + Listing(now, keys)
    ensures EndsWithAll(Listed(s, now, keys).output, Listing(now, keys))
  {
    var o := s.output + ["Exported functions available:"] + KeyLines(keys) + [Stamp(now, "Playground executed successfully")];
    assert o == s.output + Listing(now, keys);
    assert o[|o| - |Listing(now, keys)|..] == Listing(now, keys);
  }

  // ---------------------------------------------------------------------
  // stop()

  /** The values the throwing `dispose` calls of `hs` throw, in order. */
  function ThrownValues(hs: seq<Handle>): seq<JsValue> {
    if hs == [] then []
    else (if hs[0].onDispose.Throw? then [hs[0].onDispose.thrown] else []) + ThrownValues(hs[1..])
  }

  lemma {:induction false} ThrownValuesSnoc(hs: seq<Handle>, h: Handle)
    ensures ThrownValues(hs + [h]) == ThrownValues(hs) + (if h.onDispose.Throw? then [h.onDispose.thrown] else [])
    decreases |hs|
  {
    if hs != [] {
      assert (hs + [h])[1..] == hs[1..] + [h];
      ThrownValuesSnoc(hs[1..], h);
      AppendAssoc(if hs[0].onDispose.Throw? then [hs[0].onDispose.thrown] else [], ThrownValues(hs[1..]),
        if h.onDispose.Throw? then [h.onDispose.thrown] else []);
    } else {
      assert [h][1..] == [];
    }
  }

  /** One host-console message per throwing `dispose`, in order, carrying
      what it threw; none exactly when every `dispose` returns. */
  lemma {:induction false} DisposeErrorsExactly(hs: seq<Handle>)
    ensures |DisposeErrors(hs)| == |ThrownValues(hs)| <= |hs|
    ensures forall k :: 0 <= k < |DisposeErrors(hs)| ==>
      DisposeErrors(hs)[k] == ("Error disposing resource:", ThrownValues(hs)[k])
    ensures DisposeErrors(hs) == [] <==> forall i :: 0 <= i < |hs| ==> hs[i].onDispose.Ok?
    decreases |hs|
  {
    if hs != [] {
      var init := hs[..|hs| - 1];
      var h := hs[|hs| - 1];
      DisposeErrorsExactly(init);
      assert hs == init + [h];
      ThrownValuesSnoc(init, h);
      assert forall i :: 0 <= i < |init| ==> init[i] == hs[i];
    }
  }

  /** Without a `deactivate` hook nothing happens; with one, its start is
      logged, then what it logs, then how it ended: on success the completion
      line and no host-console error; on a throw the thrown value, written
      both to the channel and, as exactly one message, to the host console. */
  lemma DeactivateReports(s: ExecState, now: string)
    ensures s.current.None? || s.current.value.deactivate.None? ==> Deactivated(s, now) == s
    ensures s.current.Some? && s.current.value.deactivate.Some? ==>
      var h := s.current.value.deactivate.value;
      var d := Deactivated(s, now);
      && |d.output| == |s.output| + 1 + |LinesAll(h.effects)| + 1
      && d.output[..|s.output| + 1] == s.output + [Stamp(now, "Calling deactivate()")]
      && (h.outcome.Ok? ==>
            EndsWith(d.output, Stamp(now, "deactivate() completed")) && d.hostErrors == s.hostErrors)
      && (h.outcome.Throw? ==>
            EndsWith(d.output, Stamp(now, "Error calling deactivate: " + JsToString(h.outcome.thrown))) &&
            d.hostErrors == s.hostErrors + [("Error calling deactivate:", h.outcome.thrown)])
  {
    if s.current.Some? && s.current.value.deactivate.Some? {
      var h := s.current.value.deactivate.value;
      var s0 := s.(output := s.output + [Stamp(now, "Calling deactivate()")]);
      var s1 := WithEffects(s0, h.effects);
      assert s1.output[..|s.output| + 1] == s0.output;
      var d := Deactivated(s, now);
      assert d.output[..|s.output| + 1] == s1.output[..|s.output| + 1];
    }
  }

  /** `stop` disposes every tracked handle once, in the order it was
      tracked, including those `deactivate` registered, even when some
      `dispose` throws; afterwards nothing is tracked and there is no
      current playground. */
  lemma StopDisposesEverything(s: ExecState, now: string)
    ensures var t := StopSpec(s, now);
      t.disposables == [] && t.current.None? && t.shown == s.shown &&
      t.disposeCalls == s.disposeCalls + s.disposables + DeactivateTracked(s)
  {
  }

  /** Registering a command and pushing its handle onto the mock
      context's subscriptions tracks it twice, so the next `stop` calls
      its `dispose` twice. */
  lemma StopDisposesRegisteredAndPushedTwice(s: ExecState, v: JsValue, now: string)
    requires IsDisposable(v)
    ensures var w := WithEffects(s, [ApiCall("vscode", "commands", "registerCommand", v), Push([v])]);
      StopSpec(w, now).disposeCalls ==
        s.disposeCalls + s.disposables + [v.disposer.value, v.disposer.value] + DeactivateTracked(w)
  {
    TrackedTwice(v);
  }

  lemma DisposingNone()
    ensures "Disposing " + NatToString(0) + " tracked disposables" == "Disposing 0 tracked disposables"
  {
    assert NatToString(0) == "0";
  }

  /** A second `stop` only logs that it disposes nothing. */
  lemma StopTwice(s: ExecState, now: string)
    ensures var t := StopSpec(s, now);
      StopSpec(t, now) == t.(output := t.output + [Stamp(now, "Disposing 0 tracked disposables")])
  {
    var t := StopSpec(s, now);
    assert t.current.None? && t.disposables == [];
    assert Deactivated(t, now) == t;
    assert |t.disposables| == 0;
    DisposingNone();
    assert t.hostErrors + DisposeErrors([]) == t.hostErrors;
    assert t.disposeCalls + [] == t.disposeCalls;
  }

  // ---------------------------------------------------------------------
  // execute()

  /** The state a run gets to keeps what `stop` did: no `dispose` call and
      no host-console message is added, and the output only grows. */
  lemma {:induction false} ActivateKeeps(s: ExecState, activate: Option<Hook>)
    ensures var t := ActivateSpec(s, activate).state;
      t.disposeCalls == s.disposeCalls && t.hostErrors == s.hostErrors && t.shown == s.shown &&
      t.current == s.current && s.output <= t.output
  {
  }

  lemma RunKeeps(s: ExecState, now: string, loaded: Loaded, folders: seq<string>)
    ensures var t := RunSpec(s, now, loaded, folders).state;
      t.disposeCalls == s.disposeCalls && t.hostErrors == s.hostErrors && t.shown == s.shown && s.output <= t.output
  {
    if loaded.Loaded? && loaded.script.outcome.Ok? {
      var script := loaded.script;
      var s1 := WithEffects(s, script.effects).(current := Some(CreatePlaygroundContext(folders, script)));
      ActivateKeeps(s1, script.activate);
    }
  }

  /** `execute` first stops whatever ran before (disposing all of it) and
      clears the output channel, whose first line then announces the run;
      a run reports at most one error to the user and calls no `dispose`. */
  lemma ExecuteStopsFirst(s: ExecState, path: string, now: string, loaded: Loaded, folders: seq<string>)
    ensures var t := ExecuteSpec(s, path, now, loaded, folders).0;
      t.output != [] && t.output[0] == Stamp(now, "Executing playground: " + path) &&
      t.disposeCalls == s.disposeCalls + s.disposables + DeactivateTracked(s) &&
      (t.shown == s.shown || (|t.shown| == |s.shown| + 1 && t.shown[..|s.shown|] == s.shown))
  {
    StopDisposesEverything(s, now);
    RunKeeps(Started(s, path, now), now, loaded, folders);
  }

  /** What reaches the outer `catch` is nullish exactly when reading the
      file or running the script threw a nullish value. */
  lemma RunFailsNullish(s: ExecState, now: string, loaded: Loaded, folders: seq<string>)
    ensures var a := RunSpec(s, now, loaded, folders);
      (a.Failed? && Nullish(a.error)) <==>
      (loaded.Unreadable? && Nullish(loaded.error)) ||
      (loaded.Loaded? && loaded.script.outcome.Throw? && Nullish(loaded.script.outcome.thrown))
  {
    if loaded.Loaded? && loaded.script.outcome.Ok? {
      var script := loaded.script;
      var s1 := WithEffects(s, script.effects).(current := Some(CreatePlaygroundContext(folders, script)));
      var a := ActivateSpec(s1, script.activate);
      assert a.Failed? ==> !Nullish(a.error);
    }
  }

  /** The promise `execute` returns is rejected exactly when the file
      cannot be read or the script throws, and the value thrown is `null` or
      `undefined`: reading its `stack` in the `catch` then throws.  A
      nullish value thrown by `activate` is reported instead. */
  lemma ExecuteRejectedExactly(s: ExecState, path: string, now: string, loaded: Loaded, folders: seq<string>)
    ensures ExecuteSpec(s, path, now, loaded, folders).1 <==>
      (loaded.Unreadable? && Nullish(loaded.error)) ||
      (loaded.Loaded? && loaded.script.outcome.Throw? && Nullish(loaded.script.outcome.thrown))
  {
    RunFailsNullish(Started(s, path, now), now, loaded, folders);
  }

  /** A script that throws after registering commands leaves them tracked
      (they are disposed by the next `stop`), does not become the current
      playground, and its error is written out and shown. */
  lemma ScriptFailureKeepsHandles(s: ExecState, path: string, now: string, script: Script, folders: seq<string>, v: JsValue)
    requires script.outcome == Throw(v) && !Nullish(v)
    ensures var (t, rejected) := ExecuteSpec(s, path, now, Loaded(script), folders);
      !rejected && t.current.None? &&
      t.disposables == TrackedAll(script.effects) &&
      EndsWith(t.output, FailureText(v).value) &&
      t.shown == s.shown + ["Playground Error: " + ShownText(v)]
  {
    StopDisposesEverything(s, now);
  }

  /** A file that cannot be read is reported like a script that throws:
      the channel holds the start line, the failure line and the error's
      text; the error is shown; nothing is tracked and nothing becomes
      current. */
  lemma ReadFailureReported(s: ExecState, path: string, now: string, e: JsValue, folders: seq<string>)
    requires !Nullish(e)
    ensures var (t, rejected) := ExecuteSpec(s, path, now, Unreadable(e), folders);
      && !rejected && t.current.None? && t.disposables == []
      && t.output == [Stamp(now, "Executing playground: " + path), Stamp(now, "Playground execution failed:"), FailureText(e).value]
      && t.shown == s.shown + ["Playground Error: " + ShownText(e)]
  {
    StopDisposesEverything(s, now);
  }

  /** The run of a script that completes, with an `activate` that returns
      if there is one. */
  lemma RunSucceeds(s: ExecState, now: string, script: Script, folders: seq<string>)
    requires script.outcome.Ok?
    requires script.activate.None? || script.activate.value.outcome.Ok?
    ensures var a := RunSpec(s, now, Loaded(script), folders);
      a.Completed? && a.state.shown == s.shown &&
      a.state.current == Some(CreatePlaygroundContext(folders, script)) &&
      a.state.disposables == s.disposables + TrackedAll(script.effects) +
        (if script.activate.Some? then TrackedAll(script.activate.value.effects) else []) &&
      EndsWithAll(a.state.output, Listing(now, script.exportKeys))
  {
    var s2 := WithEffects(s, script.effects).(current := Some(CreatePlaygroundContext(folders, script)));
    var a := ActivateSpec(s2, script.activate);
    ListedAppends(a.state, now, script.exportKeys);
  }

  /** A script that runs to the end becomes the current playground; its
      output ends with the list of its exports and the success line, and the
      executor tracks exactly what the script and its `activate`
      registered. */
  lemma ExecuteSucceeds(s: ExecState, path: string, now: string, script: Script, folders: seq<string>)
    requires script.outcome.Ok?
    requires script.activate.None? || script.activate.value.outcome.Ok?
    ensures var (t, rejected) := ExecuteSpec(s, path, now, Loaded(script), folders);
      !rejected && t.shown == s.shown &&
      t.current == Some(CreatePlaygroundContext(folders, script)) &&
      t.disposables == TrackedAll(script.effects) +
        (if script.activate.Some? then TrackedAll(script.activate.value.effects) else []) &&
      EndsWithAll(t.output, Listing(now, script.exportKeys))
  {
    var s1 := Started(s, path, now);
    assert s1.disposables == [] && s1.shown == s.shown by {
      StopDisposesEverything(s, now);
    }
    RunSucceeds(s1, now, script, folders);
    var a := RunSpec(s1, now, Loaded(script), folders);
    assert ExecuteSpec(s, path, now, Loaded(script), folders) == (a.state, false);
    var extra := if script.activate.Some? then TrackedAll(script.activate.value.effects) else [];
    assert a.state.disposables == TrackedAll(script.effects) + extra by {
      assert s1.disposables + TrackedAll(script.effects) == TrackedAll(script.effects);
    }
  }

  /** The message of the error that reading `message` of `null` throws. */
  lemma NullMessage()
    ensures FailureText(TypeErrorReading(Null, "message")).Some?
    ensures ShownText(TypeErrorReading(Null, "message")) == "Cannot read properties of " + "null" + " (reading 'message')"
  {
    var m := "Cannot read properties of " + JsToString(Null) + " (reading '" + "message" + "')";
    assert JsToString(Null) == "null";
    assert TypeErrorReading(Null, "message") == JsValue.Error("TypeError", m, "TypeError: " + m, true);
    assert " (reading '" + "message" + "')" == " (reading 'message')";
    AppendAssoc("Cannot read properties of " + "null", " (reading '" + "message", "')");
    AppendAssoc("Cannot read properties of " + "null", " (reading '", "message");
  }

  /** When `activate` throws `null`, reading its message throws a
      `TypeError` that the outer `catch` reports; the script stays the
      current playground, so the next `stop` still calls its
      `deactivate`. */
  lemma ActivateThrowsNull(s: ExecState, path: string, now: string, script: Script, folders: seq<string>)
    requires script.outcome.Ok? && script.activate.Some?
    requires script.activate.value.outcome == Throw(Null)
    ensures var (t, rejected) := ExecuteSpec(s, path, now, Loaded(script), folders);
      !rejected && t.current.Some? &&
      t.shown == s.shown + ["Playground Error: " + ShownText(TypeErrorReading(Null, "message"))]
  {
    var s1 := Started(s, path, now);
    assert s1.shown == s.shown by {
      StopDisposesEverything(s, now);
    }
    var s2 := WithEffects(s1, script.effects).(current := Some(CreatePlaygroundContext(folders, script)));
    var a := ActivateSpec(s2, script.activate);
    assert RunSpec(s1, now, Loaded(script), folders) == a;
    assert a.Failed? && a.error == TypeErrorReading(Null, "message") && a.state.current.Some? && a.state.shown == s.shown;
    assert FailureText(a.error).Some? by {
      NullMessage();
    }
    var r := ReportSpec(a.state, now, a.error);
    assert ExecuteSpec(s, path, now, Loaded(script), folders) == r;
    assert !r.1 && r.0.current == a.state.current && r.0.shown == a.state.shown + ["Playground Error: " + ShownText(a.error)];
  }

  /** A line followed by `rest`, appended after lines that end with it. */
  lemma EndsWithThenAll(o: seq<string>, line: string, rest: seq<string>)
    requires EndsWith(o, line)
    ensures EndsWithAll(o + rest, [line] + rest)
  {
    var n := |o| - 1;
    assert o == o[..n] + [line];
    assert o + rest == o[..n] + ([line] + rest);
  }

  /** The run of a script whose `activate` throws a value that is not
      nullish: the message is logged, then the exports are listed. */
  lemma RunActivateThrowsValue(s: ExecState, now: string, script: Script, folders: seq<string>, v: JsValue)
    requires script.outcome.Ok? && script.activate.Some?
    requires script.activate.value.outcome == Throw(v) && !Nullish(v)
    ensures var a := RunSpec(s, now, Loaded(script), folders);
      && a.Completed? && a.state.shown == s.shown
      && a.state.current == Some(CreatePlaygroundContext(folders, script))
      && a.state.disposables == s.disposables + TrackedAll(script.effects) + TrackedAll(script.activate.value.effects)
      && EndsWithAll(a.state.output, ["Error calling activate: " + MessageText(v).value] + Listing(now, script.exportKeys))
  {
    var s2 := WithEffects(s, script.effects).(current := Some(CreatePlaygroundContext(folders, script)));
    var a := ActivateSpec(s2, script.activate);
    var line := "Error calling activate: " + MessageText(v).value;
    assert a.state.output == WithEffects(s2, script.activate.value.effects).output + [line];
    ListedAppends(a.state, now, script.exportKeys);
    EndsWithThenAll(a.state.output, line, Listing(now, script.exportKeys));
  }

  /** Any other value `activate` throws is logged by its message and the
      run still completes. */
  lemma ActivateThrowsValue(s: ExecState, path: string, now: string, script: Script, folders: seq<string>, v: JsValue)
    requires script.outcome.Ok? && script.activate.Some?
    requires script.activate.value.outcome == Throw(v) && !Nullish(v)
    ensures var (t, rejected) := ExecuteSpec(s, path, now, Loaded(script), folders);
      !rejected && t.shown == s.shown &&
      t.current == Some(CreatePlaygroundContext(folders, script)) &&
      t.disposables == TrackedAll(script.effects) + TrackedAll(script.activate.value.effects) &&
      EndsWithAll(t.output, ["Error calling activate: " + MessageText(v).value] + Listing(now, script.exportKeys))
  {
    var s1 := Started(s, path, now);
    assert s1.shown == s.shown && s1.disposables == [] by {
      StopDisposesEverything(s, now);
    }
    RunActivateThrowsValue(s1, now, script, folders, v);
    var a := RunSpec(s1, now, Loaded(script), folders);
    assert ExecuteSpec(s, path, now, Loaded(script), folders) == (a.state, false);
    assert s1.disposables + TrackedAll(script.effects) == TrackedAll(script.effects);
  }

  /** Whatever a run tracked, the next `stop` disposes. */
  lemma NothingLeaks(s: ExecState, path: string, now: string, loaded: Loaded, folders: seq<string>, later: string)
    ensures var t := ExecuteSpec(s, path, now, loaded, folders).0;
      var u := StopSpec(t, later);
      u.disposables == [] && forall h :: h in t.disposables ==> h in u.disposeCalls[|t.disposeCalls|..]
  {
    var t := ExecuteSpec(s, path, now, loaded, folders).0;
    StopDisposesEverything(t, later);
    var u := StopSpec(t, later);
    assert u.disposeCalls[|t.disposeCalls|..] == t.disposables + DeactivateTracked(t);
  }
}
