/** The menu example: a playground script that keeps its own registry of
    commands, each with a title and a description, shows the number of
    registered commands in a status bar item and lists them in a quick-pick
    menu followed by two utility items.  Registering an id again disposes
    the old command first and replaces its entry in place; clearing and
    deactivating dispose every registered command in registration order. */
module Menu {
  import opened Host
  import Console

  /** A value of `registeredCommands`. */
  datatype CommandInfo = CommandInfo(title: string, description: JsValue, disposable: Handle, handler: JsValue)

  /** What `vscode.commands.registerCommand(id, handler)` did: returned a
      disposable, or threw (an id VS Code already knows, say). */
  datatype ApiResult = Registered(disposable: Handle) | Rejected(error: JsValue)

  /** The fields of `statusBarItem` the script sets, and whether its
      `dispose` was called. */
  datatype StatusBar = StatusBar(text: string, tooltip: string, command: string, visible: bool, disposed: bool)

  /** A quick-pick item (`text` is its `label`); the two utility items
      have no `description`. */
  datatype MenuItem = MenuItem(text: string, description: Option<JsValue>, command: string)

  /** Everything the script changes: the registry (`ids` is the key order
      of the `Map`), the status bar item, `context.subscriptions`, the
      handles whose `dispose` was called, in order, the console output and
      the information messages shown. */
  datatype MenuState = MenuState(
    ids: seq<string>,
    commands: map<string, CommandInfo>,
    status: StatusBar,
    subscriptions: seq<Handle>,
    disposed: seq<Handle>,
    output: seq<string>,
    messages: seq<string>)

  /** Every key in the key order has an entry. */
  predicate Keyed(s: MenuState) {
    forall i :: 0 <= i < |s.ids| ==> s.ids[i] in s.commands
  }

  /** The key order lists the keys of the map, each once. */
  ghost predicate WellFormed(s: MenuState) {
    KeyOrder(s.ids, s.commands)
  }

  ghost predicate KeyOrder(ids: seq<string>, commands: map<string, CommandInfo>) {
    NoDuplicates(ids) && forall id :: id in commands <==> id in ids
  }

  /** JavaScript truthiness of the values a description can be. */
  predicate Truthy(v: JsValue) {
    match v
    case Undefined => false
    case Null => false
    case Bool(b) => b
    case Num(n) => n != 0
    case Str(t) => t != ""
    case _ => true
  }

  /** `description || ''` */
  function Description(d: JsValue): (r: JsValue)
    ensures Truthy(r) || r == Str("")
  {
    if Truthy(d) then d else Str("")
  }

  function StatusText(count: nat): string {
    "$(beaker) Playground (" + NatToString(count) + ")"
  }

  function StatusTooltip(count: nat): string {
    NatToString(count) + " playground commands available\nClick to show menu"
  }

  /** `updateStatusBar()` */
  function UpdateStatus(s: MenuState): (r: MenuState)
    ensures r.status.text == StatusText(|r.commands|)
    ensures r == s.(status := r.status)
    ensures r.status.command == s.status.command && r.status.visible == s.status.visible && r.status.disposed == s.status.disposed
  {
    var count := |s.commands|;
    s.(status := s.status.(text := StatusText(count), tooltip := StatusTooltip(count)))
  }

  /** `activate` up to the example registrations (lines 7-47): the
      activation message, the status bar item and the menu command, both
      pushed to the subscriptions. */
  function Activated(showMenu: Handle, item: Handle): MenuState {
    MenuState([], map[],
      StatusBar("$(beaker) Playground", "Click to show playground commands", "playground.showMenu", true, false),
      [showMenu, item], [], [Console.ConsoleLine(Console.Log, [Str("Playground menu activated!")])], [])
  }

  /** The first step of `registerPlaygroundCommand`: an entry already
      registered under `id` has its disposable disposed, which may throw. */
  function DisposePrevious(s: MenuState, id: string): (r: (MenuState, Option<JsValue>))
    ensures r.0.ids == s.ids && r.0.commands == s.commands
  {
    if id !in s.commands then (s, None)
    else
      var previous := s.commands[id].disposable;
      (s.(disposed := s.disposed + [previous]), if previous.onDispose.Throw? then Some(previous.onDispose.thrown) else None)
  }

  /** The rest of `registerPlaygroundCommand` once `registerCommand`
      returned `h`: `Map.set` (a new key goes last, an existing one keeps
      its place), the push to the subscriptions and the log line, then the
      status bar update. */
  function Store(s: MenuState, id: string, title: string, handler: JsValue, description: JsValue, h: Handle): MenuState {
    UpdateStatus(Inserted(s, id, title, handler, description, h))
  }

  function Inserted(s: MenuState, id: string, title: string, handler: JsValue, description: JsValue, h: Handle): MenuState {
    s.(ids := if id in s.commands then s.ids else s.ids + [id],
       commands := s.commands[id := CommandInfo(title, Description(description), h, handler)],
       subscriptions := s.subscriptions + [h],
       output := s.output + [RegisteredLine(id, title)])
  }

  /** What `console.log` writes for a registration. */
  function RegisteredLine(id: string, title: string): string {
    Console.ConsoleLine(Console.Log, [Str("Registered command: " + id + " - " + title)])
  }

  /** `registerPlaygroundCommand(id, title, handler, description)` where
      `vscode.commands.registerCommand` does `api`: the new state and what
      escaped, if anything. */
  function RegisterSpec(s: MenuState, id: string, title: string, handler: JsValue, description: JsValue, api: ApiResult): (r: (MenuState, Option<JsValue>))
    ensures r.1.None? ==> api.Registered? && id in r.0.commands
    ensures r.1.None? ==> r.0.commands[id] == CommandInfo(title, Description(description), api.disposable, handler)
    ensures r.1.Some? ==> r.0.ids == s.ids && r.0.commands == s.commands
  {
    var d := DisposePrevious(s, id);
    if d.1.Some? then d
    else match api
      case Rejected(e) => (d.0, Some(e))
      case Registered(h) => (Store(d.0, id, title, handler, description, h), None)
  }

  /** `registeredCommands.values()`, in insertion order. */
  function Values(ids: seq<string>, commands: map<string, CommandInfo>): (hs: seq<Handle>)
    requires forall i :: 0 <= i < |ids| ==> ids[i] in commands
    ensures |hs| == |ids|
    ensures forall i :: 0 <= i < |ids| ==> hs[i] == commands[ids[i]].disposable
  {
    if ids == [] then [] else [commands[ids[0]].disposable] + Values(ids[1..], commands)
  }

  /** The `forEach` disposing every registered command, which a throwing
      `dispose` leaves. */
  function DisposeEntries(s: MenuState): (MenuState, Option<JsValue>)
    requires Keyed(s)
  {
    var d := DisposeAll(Values(s.ids, s.commands));
    (s.(disposed := s.disposed + d.0), d.1)
  }

  /** `clearAllCommands()` */
  function ClearSpec(s: MenuState): (r: (MenuState, Option<JsValue>))
    requires Keyed(s)
    ensures r.1.None? ==> r.0.ids == [] && r.0.commands == map[]
    ensures r.1.Some? ==> r.0.ids == s.ids && r.0.commands == s.commands
    ensures s.disposed <= r.0.disposed
  {
    var e := DisposeEntries(s);
    if e.1.Some? then e
    else
      var s2 := UpdateStatus(e.0.(ids := [], commands := map[]));
      (s2.(messages := s2.messages + ["All playground commands cleared"]), None)
  }

  /** `deactivate()`: the status bar item is set by `activate`, so it is
      disposed first. */
  function DeactivateSpec(s: MenuState): (r: (MenuState, Option<JsValue>))
    requires Keyed(s)
    ensures r.0.status.disposed
    ensures r.1.None? ==> r.0.ids == [] && r.0.commands == map[]
    ensures r.1.Some? ==> r.0.ids == s.ids && r.0.commands == s.commands
    ensures s.disposed <= r.0.disposed
  {
    var s0 := s.(status := s.status.(disposed := true));
    var e := DisposeEntries(s0);
    if e.1.Some? then e else (e.0.(ids := [], commands := map[]), None)
  }

  const RegisterNewItem := MenuItem("$(add) Register New Command", None, "_registerNew")
  const ClearAllItem := MenuItem("$(trash) Clear All Commands", None, "_clearAll")

  /** One item per registry entry, in insertion order. */
  function EntryItems(ids: seq<string>, commands: map<string, CommandInfo>): (items: seq<MenuItem>)
    requires forall i :: 0 <= i < |ids| ==> ids[i] in commands
    ensures |items| == |ids|
    ensures forall i :: 0 <= i < |ids| ==>
      items[i] == MenuItem(commands[ids[i]].title, Some(commands[ids[i]].description), ids[i])
  {
    if ids == [] then []
    else
      var info := commands[ids[0]];
      [MenuItem(info.title, Some(info.description), ids[0])] + EntryItems(ids[1..], commands)
  }

  /** One more entry adds its item at the end. */
  lemma EntryItemsSnoc(ids: seq<string>, commands: map<string, CommandInfo>, i: nat)
    requires i < |ids| && forall k :: 0 <= k < |ids| ==> ids[k] in commands
    ensures EntryItems(ids[..i + 1], commands) ==
      EntryItems(ids[..i], commands) + [MenuItem(commands[ids[i]].title, Some(commands[ids[i]].description), ids[i])]
  {
    var a := EntryItems(ids[..i + 1], commands);
    var b := EntryItems(ids[..i], commands) + [MenuItem(commands[ids[i]].title, Some(commands[ids[i]].description), ids[i])];
    assert |a| == |b|;
    forall k | 0 <= k < |a|
      ensures a[k] == b[k]
    {
      assert ids[..i + 1][k] == ids[k];
    }
  }

  /** The items the `playground.showMenu` handler offers (lines 19-29). */
  function Items(s: MenuState): (r: seq<MenuItem>)
    requires Keyed(s)
    ensures |r| == |s.ids| + 2
    ensures forall i :: 0 <= i < |s.ids| ==> r[i].command == s.ids[i] && r[i].text == s.commands[s.ids[i]].title
    ensures r[|s.ids|] == RegisterNewItem && r[|s.ids| + 1] == ClearAllItem
  {
    EntryItems(s.ids, s.commands) + [RegisterNewItem, ClearAllItem]
  }

  /** The script's module state and the functions of the example, with the
      VS Code calls they make as parameters. */
  class PlaygroundMenu {
    var ids: seq<string>
    var commands: map<string, CommandInfo>
    var status: StatusBar
    var subscriptions: seq<Handle>
    var disposed: seq<Handle>
    var output: seq<string>
    var messages: seq<string>

    function State(): MenuState
      reads this
    {
      MenuState(ids, commands, status, subscriptions, disposed, output, messages)
    }

    ghost predicate Valid()
      reads this
    {
      WellFormed(State())
    }

    /** `activate(context)` up to the example registrations; `showMenu`
        is what registering `playground.showMenu` returned and `item` the
        status bar item. */
    constructor(showMenu: Handle, item: Handle)
      ensures State() == Activated(showMenu, item)
      ensures Valid()
    {
      output := [Console.ConsoleLine(Console.Log, [Str("Playground menu activated!")])];
      status := StatusBar("$(beaker) Playground", "Click to show playground commands", "playground.showMenu", true, false);
      subscriptions := [showMenu, item];
      ids, commands := [], map[];
      disposed, messages := [], [];
    }

    method UpdateStatusBar()
      modifies this
      ensures State() == UpdateStatus(old(State()))
    {
      var count := |commands|;
      status := status.(text := StatusText(count), tooltip := StatusTooltip(count));
    }

    method RegisterPlaygroundCommand(id: string, title: string, handler: JsValue, description: JsValue, api: ApiResult)
      returns (disposable: Option<Handle>, thrown: Option<JsValue>)
      modifies this
      ensures State() == RegisterSpec(old(State()), id, title, handler, description, api).0
      ensures thrown == RegisterSpec(old(State()), id, title, handler, description, api).1
      ensures thrown.None? <==> disposable.Some?
      ensures disposable.Some? ==> api == Registered(disposable.value)
    {
      disposable := None;
      thrown := DisposePreviousCommand(id);
      if thrown.Some? {
        return;
      }
      if api.Rejected? {
        return None, Some(api.error);
      }
      StoreCommand(id, title, handler, description, api.disposable);
      disposable := Some(api.disposable);
    }

    method DisposePreviousCommand(id: string) returns (thrown: Option<JsValue>)
      modifies this
      ensures State() == DisposePrevious(old(State()), id).0
      ensures thrown == DisposePrevious(old(State()), id).1
    {
      thrown := None;
      if id in commands {
        var previous := commands[id].disposable;
        disposed := disposed + [previous];
        if previous.onDispose.Throw? {
          thrown := Some(previous.onDispose.thrown);
        }
      }
    }

    method StoreCommand(id: string, title: string, handler: JsValue, description: JsValue, h: Handle)
      modifies this
      ensures State() == Store(old(State()), id, title, handler, description, h)
    {
      InsertCommand(id, title, handler, description, h);
      UpdateStatusBar();
    }

    method InsertCommand(id: string, title: string, handler: JsValue, description: JsValue, h: Handle)
      modifies this
      ensures State() == Inserted(old(State()), id, title, handler, description, h)
    {
      if id !in commands {
        ids := ids + [id];
      }
      commands := commands[id := CommandInfo(title, Description(description), h, handler)];
      subscriptions := subscriptions + [h];
      output := output + [RegisteredLine(id, title)];
    }

    /** `registeredCommands.forEach(cmd => cmd.disposable.dispose())` */
    method DisposeCommands() returns (thrown: Option<JsValue>)
      requires Keyed(State())
      modifies this
      ensures State() == DisposeEntries(old(State())).0
      ensures thrown == DisposeEntries(old(State())).1
    {
      var d;
      d, thrown := DisposeEach(Values(ids, commands));
      disposed := disposed + d;
    }

    method ClearAllCommands() returns (thrown: Option<JsValue>)
      requires Keyed(State())
      modifies this
      ensures State() == ClearSpec(old(State())).0
      ensures thrown == ClearSpec(old(State())).1
    {
      thrown := DisposeCommands();
      if thrown.Some? {
        return;
      }
      ids, commands := [], map[];
      UpdateStatusBar();
      messages := messages + ["All playground commands cleared"];
    }

    method Deactivate() returns (thrown: Option<JsValue>)
      requires Keyed(State())
      modifies this
      ensures State() == DeactivateSpec(old(State())).0
      ensures thrown == DeactivateSpec(old(State())).1
    {
      status := status.(disposed := true);
      thrown := DisposeCommands();
      if thrown.Some? {
        return;
      }
      ids, commands := [], map[];
    }

    /** The item list the `playground.showMenu` handler builds. */
    method MenuItems() returns (items: seq<MenuItem>)
      requires Keyed(State())
      ensures items == Items(State())
    {
      items := [];
      for i := 0 to |ids|
        invariant items == EntryItems(ids[..i], commands)
      {
        var info := commands[ids[i]];
        EntryItemsSnoc(ids, commands, i);
        items := items + [MenuItem(info.title, Some(info.description), ids[i])];
      }
      assert ids[..|ids|] == ids;
      items := items + [RegisterNewItem, ClearAllItem];
    }
  }
}
