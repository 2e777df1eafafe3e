/** What a playground script does that the executor observes: console calls,
    calls into the VS Code API reached through `require`, and pushes onto
    the `subscriptions` of the context `activate` receives.  `require` hands
    out a proxy for the module name `vscode` only; through it,
    `commands.registerCommand` is replaced by a wrapper that tracks the
    disposable it returns, and every function-valued `window` member whose
    name starts with `on` is replaced by one that tracks a disposable
    result.  Everything else reaches the real module untouched. */
module Intercept {
  import opened Host
  import opened Console

  /** One observable step of script code.  `ApiCall(required, ns, member,
      result)` calls function `member` of namespace `ns` of the module the
      script obtained with `require(required)`; `result` is what the real
      API returned. */
  datatype Effect =
    | ConsoleCall(ch: Channel, args: seq<JsValue>)
    | ApiCall(required: string, ns: string, member: string, result: JsValue)
    | Push(items: seq<JsValue>)

  /** What `require(name)` gives back. */
  datatype Module = VscodeProxy | NodeModule(name: string)

  function Require(name: string): (m: Module)
    ensures m.VscodeProxy? <==> name == "vscode"
    ensures m.NodeModule? ==> m.name == name
  {
    if name == "vscode" then VscodeProxy else NodeModule(name)
  }

  /** How the proxy routes a call of `ns.member`. */
  datatype Route = WrappedRegisterCommand | WrappedEventSubscription | PassThrough

  function RouteOf(m: Module, ns: string, member: string): (r: Route)
    ensures r == WrappedRegisterCommand <==> m.VscodeProxy? && ns == "commands" && member == "registerCommand"
    ensures r == WrappedEventSubscription <==> m.VscodeProxy? && ns == "window" && StartsWith(member, "on")
  {
    if m.NodeModule? then PassThrough
    else if ns == "commands" && member == "registerCommand" then WrappedRegisterCommand
    else if ns == "window" && StartsWith(member, "on") then WrappedEventSubscription
    else PassThrough
  }

  /** `trackDisposable`: the handle of a value with a callable `dispose`. */
  function Disposer(v: JsValue): (r: seq<Handle>)
    ensures |r| <= 1
    ensures r != [] <==> IsDisposable(v)
    ensures IsDisposable(v) ==> r == [v.disposer.value]
  {
    if IsDisposable(v) then [v.disposer.value] else []
  }

  /** `subscriptions.push(...items)`: the handles of the disposable items,
      in order. */
  function Disposers(items: seq<JsValue>): (r: seq<Handle>)
    ensures |r| <= |items|
    ensures r == [] <==> forall i :: 0 <= i < |items| ==> !IsDisposable(items[i])
  {
    if items == [] then [] else Disposer(items[0]) + Disposers(items[1..])
  }

  /** The handles the executor starts tracking because of effect `e`. */
  function Tracked(e: Effect): seq<Handle> {
    match e
    case ConsoleCall(_, _) => []
    case ApiCall(required, ns, member, result) =>
      if RouteOf(Require(required), ns, member) == PassThrough then [] else Disposer(result)
    case Push(items) => Disposers(items)
  }

  /** The output lines effect `e` appends. */
  function Lines(e: Effect): seq<string> {
    match e
    case ConsoleCall(ch, args) => [ConsoleLine(ch, args)]
    case _ => []
  }

  function TrackedAll(es: seq<Effect>): seq<Handle> {
    if es == [] then [] else Tracked(es[0]) + TrackedAll(es[1..])
  }

  function LinesAll(es: seq<Effect>): seq<string> {
    if es == [] then [] else Lines(es[0]) + LinesAll(es[1..])
  }

  // ---------------------------------------------------------------------
  // Properties

  /** A call is tracked exactly when it went through the proxy to
      `commands.registerCommand` or to a `window` member named `on...`, and
      returned something disposable. */
  lemma ApiCallTracked(required: string, ns: string, member: string, result: JsValue)
    ensures Tracked(ApiCall(required, ns, member, result)) != [] <==>
      required == "vscode" && IsDisposable(result) &&
      ((ns == "commands" && member == "registerCommand") || (ns == "window" && StartsWith(member, "on")))
  {
  }

  /** Event subscriptions outside `window` (`workspace.onDid...`, say) are
      not tracked, nor is anything reached through another module name. */
  lemma WorkspaceEventsNotTracked(member: string, result: JsValue)
    ensures Tracked(ApiCall("vscode", "workspace", member, result)) == []
    ensures forall required, ns :: required != "vscode" ==> Tracked(ApiCall(required, ns, member, result)) == []
  {
  }

  /** A command handle that the script also pushes onto
      `context.subscriptions` is tracked twice: once by the wrapped
      `registerCommand`, once by `push`. */
  lemma TrackedTwice(v: JsValue)
    requires IsDisposable(v)
    ensures TrackedAll([ApiCall("vscode", "commands", "registerCommand", v), Push([v])]) == [v.disposer.value, v.disposer.value]
  {
    var es := [ApiCall("vscode", "commands", "registerCommand", v), Push([v])];
    ApiCallTracked("vscode", "commands", "registerCommand", v);
    assert Tracked(es[0]) == [v.disposer.value];
    assert [v][1..] == [];
    assert Tracked(es[1]) == [v.disposer.value];
    assert es[1..][1..] == [];
    assert TrackedAll(es[1..]) == Tracked(es[1]);
    assert TrackedAll(es) == Tracked(es[0]) + TrackedAll(es[1..]);
  }

  /** Pushing tracks every disposable item and nothing else. */
  lemma {:induction false} DisposersExactly(items: seq<JsValue>, h: Handle)
    ensures h in Disposers(items) <==> exists i :: 0 <= i < |items| && IsDisposable(items[i]) && items[i].disposer.value == h
    decreases |items|
  {
    if items != [] {
      DisposersExactly(items[1..], h);
      if h in Disposers(items[1..]) {
        var i :| 0 <= i < |items[1..]| && IsDisposable(items[1..][i]) && items[1..][i].disposer.value == h;
        assert items[i + 1] == items[1..][i];
      }
      if exists i :: 0 <= i < |items| && IsDisposable(items[i]) && items[i].disposer.value == h {
        var i :| 0 <= i < |items| && IsDisposable(items[i]) && items[i].disposer.value == h;
        if i > 0 {
          assert items[1..][i - 1] == items[i];
        }
      }
    }
  }

  lemma {:induction false} TrackedAllAppend(a: seq<Effect>, b: seq<Effect>)
    ensures TrackedAll(a + b) == TrackedAll(a) + TrackedAll(b)
    decreases |a|
  {
    if a == [] {
      assert a + b == b;
    } else {
      assert (a + b)[1..] == a[1..] + b;
      TrackedAllAppend(a[1..], b);
    }
  }

  lemma {:induction false} LinesAllAppend(a: seq<Effect>, b: seq<Effect>)
    ensures LinesAll(a + b) == LinesAll(a) + LinesAll(b)
    decreases |a|
  {
    if a == [] {
      assert a + b == b;
    } else {
      assert (a + b)[1..] == a[1..] + b;
      LinesAllAppend(a[1..], b);
    }
  }
}
