/** Properties of the menu example's registry: one entry per id, replace
    in place on re-registration after disposing the old command, a status
    text that always shows the number of entries, a clear and a deactivate
    that dispose everything in registration order, and a menu that lists
    every entry once before the two utility items. */
module MenuProperties {
  import opened Host
  import opened Menu

  // ---------------------------------------------------------------------
  // The registry

  lemma WellFormedKeyed(s: MenuState)
    requires WellFormed(s)
    ensures Keyed(s)
  {
  }

  lemma {:induction false} DistinctCount(ids: seq<string>)
    requires NoDuplicates(ids)
    ensures |set id | id in ids| == |ids|
    decreases |ids|
  {
    if ids != [] {
      var rest := ids[1..];
      assert NoDuplicates(rest) by {
        forall i, j | 0 <= i < j < |rest| ensures rest[i] != rest[j] {
          assert rest[i] == ids[i + 1] && rest[j] == ids[j + 1];
        }
      }
      DistinctCount(rest);
      assert (set id | id in ids) == (set id | id in rest) + {ids[0]};
      assert ids[0] !in (set id | id in rest) by {
        forall j | 0 <= j < |rest| ensures rest[j] != ids[0] {
          assert rest[j] == ids[j + 1];
        }
      }
    }
  }

  /** `registeredCommands.size` is the number of ids in the key order. */
  lemma SizeIsKeyCount(s: MenuState)
    requires WellFormed(s)
    ensures |s.commands| == |s.ids|
  {
    DistinctCount(s.ids);
    assert s.commands.Keys == set id | id in s.ids;
  }

  /** Registering keeps one entry per id and a key order that lists each
      key once, whether it succeeds or throws. */
  lemma RegisterKeepsWellFormed(s: MenuState, id: string, title: string, handler: JsValue, description: JsValue, api: ApiResult)
    requires WellFormed(s)
    ensures WellFormed(RegisterSpec(s, id, title, handler, description, api).0)
  {
    var d := DisposePrevious(s, id);
    if d.1.None? && api.Registered? {
      StoreKeepsWellFormed(d.0, id, title, handler, description, api.disposable);
    }
  }

  lemma StoreKeepsWellFormed(s: MenuState, id: string, title: string, handler: JsValue, description: JsValue, h: Handle)
    requires WellFormed(s)
    ensures WellFormed(Store(s, id, title, handler, description, h))
  {
    InsertKeepsKeyOrder(s.ids, s.commands, id, CommandInfo(title, Description(description), h, handler));
  }

  lemma InsertKeepsKeyOrder(ids: seq<string>, commands: map<string, CommandInfo>, id: string, info: CommandInfo)
    requires KeyOrder(ids, commands)
    ensures KeyOrder(if id in commands then ids else ids + [id], commands[id := info])
  {
    if id !in commands {
      AppendFresh(ids, id);
    }
  }

  /** Registering an id already present disposes the old command's
      disposable first; on success the entry keeps its place and holds the
      new title, handler and disposable, which is pushed to the
      subscriptions, and no other entry changes. */
  lemma ReRegisterReplaces(s: MenuState, id: string, title: string, handler: JsValue, description: JsValue, h: Handle)
    requires WellFormed(s) && id in s.commands && s.commands[id].disposable.onDispose.Ok?
    ensures var (r, t) := RegisterSpec(s, id, title, handler, description, Registered(h));
      t.None? &&
      r.disposed == s.disposed + [s.commands[id].disposable] &&
      r.ids == s.ids && |r.commands| == |s.commands| &&
      r.commands[id].title == title && r.commands[id].handler == handler && r.commands[id].disposable == h &&
      (forall other :: other != id ==> (other in r.commands <==> other in s.commands)) &&
      (forall other :: other != id && other in s.commands ==> r.commands[other] == s.commands[other]) &&
      r.subscriptions == s.subscriptions + [h]
  {
    var r := RegisterSpec(s, id, title, handler, description, Registered(h)).0;
    assert s.commands.Keys == r.commands.Keys;
  }

  /** Registering a new id puts it last in the key order and disposes
      nothing. */
  lemma RegisterNewAppends(s: MenuState, id: string, title: string, handler: JsValue, description: JsValue, h: Handle)
    requires WellFormed(s) && id !in s.commands
    ensures var (r, t) := RegisterSpec(s, id, title, handler, description, Registered(h));
      t.None? && r.ids == s.ids + [id] && |r.commands| == |s.commands| + 1 &&
      r.disposed == s.disposed && r.subscriptions == s.subscriptions + [h] &&
      r.commands[id] == CommandInfo(title, Description(description), h, handler) &&
      forall other :: other in s.commands ==> other in r.commands && r.commands[other] == s.commands[other]
  {
  }

  /** A missing or empty description is stored as `''`. */
  lemma MissingDescriptionIsEmpty(s: MenuState, id: string, title: string, handler: JsValue, description: JsValue, h: Handle)
    requires !Truthy(description)
    ensures var (r, t) := RegisterSpec(s, id, title, handler, description, Registered(h));
      t.None? ==> id in r.commands && r.commands[id].description == Str("")
  {
    var (s1, t1) := DisposePrevious(s, id);
    if t1.None? {
      var r := Store(s1, id, title, handler, description, h);
      assert r.commands == s1.commands[id := CommandInfo(title, Str(""), h, handler)];
    }
  }

  /** A registration that throws, because the old command's `dispose` or
      `registerCommand` threw, leaves the registry, the subscriptions and
      the status bar as they were: after a rejected re-registration the
      map still holds the entry whose disposable was just disposed. */
  lemma RegisterFailureKeepsRegistry(s: MenuState, id: string, title: string, handler: JsValue, description: JsValue, api: ApiResult)
    requires RegisterSpec(s, id, title, handler, description, api).1.Some?
    ensures var r := RegisterSpec(s, id, title, handler, description, api).0;
      r.ids == s.ids && r.commands == s.commands && r.subscriptions == s.subscriptions &&
      r.status == s.status && r.output == s.output &&
      r.disposed == s.disposed + (if id in s.commands then [s.commands[id].disposable] else [])
    ensures api.Rejected? && (id !in s.commands || s.commands[id].disposable.onDispose.Ok?) ==>
      RegisterSpec(s, id, title, handler, description, api).1 == Some(api.error)
  {
  }

  /** After a successful registration the status bar shows the number of
      registered commands, which is the number of ids in the key order. */
  lemma RegisterShowsCount(s: MenuState, id: string, title: string, handler: JsValue, description: JsValue, api: ApiResult)
    requires WellFormed(s)
    requires RegisterSpec(s, id, title, handler, description, api).1.None?
    ensures var r := RegisterSpec(s, id, title, handler, description, api).0;
      r.status.text == StatusText(|r.ids|) && r.status.tooltip == StatusTooltip(|r.ids|)
  {
    RegisterKeepsWellFormed(s, id, title, handler, description, api);
    SizeIsKeyCount(RegisterSpec(s, id, title, handler, description, api).0);
  }

  // ---------------------------------------------------------------------
  // Clearing and deactivating

  /** `clearAllCommands` disposes every registered command in registration
      order and empties the registry, the status bar showing 0, exactly
      when no `dispose` throws. */
  lemma ClearDisposesAll(s: MenuState)
    requires Keyed(s)
    ensures var c := ClearSpec(s);
      (c.1.None? <==> forall i :: 0 <= i < |s.ids| ==> s.commands[s.ids[i]].disposable.onDispose.Ok?) &&
      (c.1.None? ==>
        c.0.ids == [] && c.0.commands == map[] && WellFormed(c.0) &&
        c.0.disposed == s.disposed + Values(s.ids, s.commands) &&
        c.0.status.text == StatusText(0) &&
        c.0.messages == s.messages + ["All playground commands cleared"])
  {
    var hs := Values(s.ids, s.commands);
    DisposeAllExactly(hs);
    var c := ClearSpec(s);
    assert c.1 == DisposeAll(hs).1;
    if c.1.None? {
      forall i | 0 <= i < |s.ids| ensures s.commands[s.ids[i]].disposable.onDispose.Ok? {
        assert hs[i] == s.commands[s.ids[i]].disposable;
      }
      assert c.0.disposed == s.disposed + hs;
    } else {
      var d := DisposeAll(hs).0;
      assert !hs[|d| - 1].onDispose.Ok?;
    }
  }

  /** A throwing `dispose` stops `clearAllCommands` after the commands
      disposed so far, which come first in registration order, with the
      registry and the status bar unchanged. */
  lemma ClearStopsOnThrow(s: MenuState)
    requires Keyed(s) && ClearSpec(s).1.Some?
    ensures var r := ClearSpec(s).0;
      r.ids == s.ids && r.commands == s.commands && r.status == s.status &&
      s.disposed <= r.disposed && r.disposed[|s.disposed|..] <= Values(s.ids, s.commands)
  {
    var hs := Values(s.ids, s.commands);
    DisposeAllExactly(hs);
    var d := DisposeAll(hs).0;
    assert (s.disposed + d)[|s.disposed|..] == d;
  }

  /** `deactivate` disposes the status bar item and then every registered
      command in registration order, leaving the registry empty; a
      throwing `dispose` stops it, with the registry unchanged. */
  lemma DeactivateDisposesAll(s: MenuState)
    requires Keyed(s)
    ensures var (r, t) := DeactivateSpec(s);
      r.status == s.status.(disposed := true) &&
      (t.None? <==> forall i :: 0 <= i < |s.ids| ==> s.commands[s.ids[i]].disposable.onDispose.Ok?) &&
      (t.None? ==> r.ids == [] && r.commands == map[] && r.disposed == s.disposed + Values(s.ids, s.commands)) &&
      (t.Some? ==> r.ids == s.ids && r.commands == s.commands && s.disposed <= r.disposed)
  {
    var hs := Values(s.ids, s.commands);
    DisposeAllExactly(hs);
    var (d, t) := DisposeAll(hs);
    if t.None? {
      forall i | 0 <= i < |s.ids| ensures s.commands[s.ids[i]].disposable.onDispose.Ok? {
        assert hs[i] == s.commands[s.ids[i]].disposable;
      }
    } else {
      assert !hs[|d| - 1].onDispose.Ok?;
    }
  }

  // ---------------------------------------------------------------------
  // The menu

  /** The menu lists every registered command once, in registration order,
      labelled with its title and described by its description, and then
      exactly the "Register New Command" and "Clear All Commands" items. */
  lemma MenuListsEveryCommand(s: MenuState)
    requires WellFormed(s)
    ensures Keyed(s)
    ensures |Items(s)| == |s.commands| + 2
    ensures Items(s)[|s.ids|] == RegisterNewItem && Items(s)[|s.ids| + 1] == ClearAllItem
    ensures forall id :: id in s.commands ==>
      exists i :: 0 <= i < |s.ids| && Items(s)[i] == MenuItem(s.commands[id].title, Some(s.commands[id].description), id)
    ensures forall i, j :: 0 <= i < j < |s.ids| ==> Items(s)[i].command != Items(s)[j].command
  {
    SizeIsKeyCount(s);
    ItemsNameEveryCommand(s);
    ItemsCommandsDistinct(s);
  }

  lemma ItemsNameEveryCommand(s: MenuState)
    requires WellFormed(s) && Keyed(s)
    ensures forall id :: id in s.commands ==>
      exists i :: 0 <= i < |s.ids| && Items(s)[i] == MenuItem(s.commands[id].title, Some(s.commands[id].description), id)
  {
    var items := Items(s);
    forall id | id in s.commands
      ensures exists i :: 0 <= i < |s.ids| && items[i] == MenuItem(s.commands[id].title, Some(s.commands[id].description), id)
    {
      var i :| 0 <= i < |s.ids| && s.ids[i] == id;
      assert items[i] == EntryItems(s.ids, s.commands)[i];
    }
  }

  lemma ItemsCommandsDistinct(s: MenuState)
    requires NoDuplicates(s.ids) && Keyed(s)
    ensures forall i, j :: 0 <= i < j < |s.ids| ==> Items(s)[i].command != Items(s)[j].command
  {
    var items := Items(s);
    forall i, j | 0 <= i < j < |s.ids| ensures items[i].command != items[j].command {
      assert items[i] == EntryItems(s.ids, s.commands)[i] && items[j] == EntryItems(s.ids, s.commands)[j];
    }
  }
}
