/** The main menu's platform dispatch and keyboard shortcuts. Key tables
    are ordered lists of (key sequence, virtual event) pairs, as Python
    dicts keep insertion order; a binding made with `bind_all` is recorded
    as the virtual event its callback generates. */
module MainMenu {
  import opened Common

  datatype MenuClass = GenericMainMenu | WindowsMainMenu | LinuxMainMenu | MacOsMainMenu

  /** `get_main_menu_for_os`: a lookup in a four-entry table, the generic
      menu for any other name. */
  function MainMenuFor(osName: string): (r: MenuClass)
    ensures r == LinuxMainMenu <==> osName == "Linux" || osName == "freebsd7"
    ensures r == MacOsMainMenu <==> osName == "Darwin"
    ensures r == WindowsMainMenu <==> osName == "Windows"
    ensures r == GenericMainMenu <==> osName !in {"Linux", "freebsd7", "Darwin", "Windows"}
  {
    var menus := map["Linux" := LinuxMainMenu, "Darwin" := MacOsMainMenu,
                     "freebsd7" := LinuxMainMenu, "Windows" := WindowsMainMenu];
    if osName in menus then menus[osName] else GenericMainMenu
  }

  type Table = seq<(string, string)>

  const QuitKey := "<Control-q>"

  /** `GenericMainMenu.keybinds`, which the Windows and Linux menus inherit. */
  const GenericKeybinds: Table := [
    ("<Control-o>", "<<FileSelect>>"),
    (QuitKey, "<<FileQuit>>"),
    ("<Control-n>", "<<NewRecord>>"),
    ("<Control-l>", "<<ShowRecordlist>>")
  ]

  /** `MacOsMainMenu.keybinds`, the macOS menu's own table. */
  const MacKeybinds: Table := [
    ("<Command-o>", "<<FileSelect>>"),
    ("<Command-n>", "<<NewRecord>>"),
    ("<Command-l>", "<<ShowRecordlist>>")
  ]

  function Keys(table: Table): (r: seq<string>)
    ensures |r| == |table| && forall i :: 0 <= i < |r| ==> r[i] == table[i].0
  {
    seq(|table|, i requires 0 <= i < |table| => table[i].0)
  }

  function Events(table: Table): (r: seq<string>)
    ensures |r| == |table| && forall i :: 0 <= i < |r| ==> r[i] == table[i].1
  {
    seq(|table|, i requires 0 <= i < |table| => table[i].1)
  }

  /** `del table[key]`: the entry goes, the others keep their order. */
  function Without(table: Table, key: string): Table
    decreases |table|
  {
    if table == [] then []
    else if table[|table| - 1].0 == key then Without(table[..|table| - 1], key)
    else Without(table[..|table| - 1], key) + [table[|table| - 1]]
  }

  /** Deleting a key keeps exactly the entries with other keys, so the key
      is gone and the table is no longer. */
  lemma {:induction false} WithoutMeaning(table: Table, key: string)
    ensures forall e :: e in Without(table, key) <==> e in table && e.0 != key
    ensures key !in Keys(Without(table, key))
    ensures |Without(table, key)| <= |table|
    decreases |table|
  {
    if table != [] {
      var init := table[..|table| - 1];
      WithoutMeaning(init, key);
      assert table == init + [table[|table| - 1]];
      forall e ensures e in table <==> e in init || e == table[|table| - 1] {
      }
    }
  }

  /** The generic table holds four Control-key shortcuts for the file
      dialog, quitting, a new record and the record list. */
  lemma GenericKeybindsShape()
    ensures |GenericKeybinds| == 4 && Distinct(Keys(GenericKeybinds))
    ensures forall i :: 0 <= i < 4 ==> GenericKeybinds[i].0[..9] == "<Control-"
    ensures Events(GenericKeybinds) == ["<<FileSelect>>", "<<FileQuit>>", "<<NewRecord>>", "<<ShowRecordlist>>"]
  {
    assert Keys(GenericKeybinds) == ["<Control-o>", "<Control-q>", "<Control-n>", "<Control-l>"];
  }

  /** The bindings after binding every entry of the table in order. */
  function Bound(bindings: map<string, string>, table: Table): map<string, string>
    decreases |table|
  {
    if table == [] then bindings
    else Bound(bindings, table[..|table| - 1])[table[|table| - 1].0 := table[|table| - 1].1]
  }

  /** With distinct keys, every key of the table ends up bound to a
      callback generating exactly its own event, and every other key keeps
      what it had. */
  lemma {:induction false} BoundMeaning(bindings: map<string, string>, table: Table)
    requires Distinct(Keys(table))
    ensures forall i :: 0 <= i < |table| ==> table[i].0 in Bound(bindings, table) && Bound(bindings, table)[table[i].0] == table[i].1
    ensures forall k :: k !in Keys(table) ==> (k in Bound(bindings, table) <==> k in bindings)
    ensures forall k :: k !in Keys(table) && k in bindings ==> Bound(bindings, table)[k] == bindings[k]
    decreases |table|
  {
    if table != [] {
      var init := table[..|table| - 1];
      assert Keys(init) == Keys(table)[..|table| - 1];
      assert Distinct(Keys(init)) by {
        forall i, j | 0 <= i < j < |Keys(init)| ensures Keys(init)[i] != Keys(init)[j] {
          assert Keys(init)[i] == Keys(table)[i] && Keys(init)[j] == Keys(table)[j];
        }
      }
      BoundMeaning(bindings, init);
      forall i | 0 <= i < |init|
        ensures init[i].0 != table[|table| - 1].0
      {
        assert Keys(table)[i] != Keys(table)[|table| - 1];
      }
      forall k | k !in Keys(table)
        ensures k !in Keys(init) && k != table[|table| - 1].0
      {
        assert Keys(table)[|table| - 1] == table[|table| - 1].0;
      }
    }
  }

  /** The application root, where `bind_all` records its bindings. */
  class Root {
    var bindings: map<string, string>

    constructor ()
      ensures bindings == map[]
    {
      bindings := map[];
    }

    /** `_bind_accelerators` with `_event`: one binding per table entry, in
        order, each generating the entry's event. */
    method BindAccelerators(table: Table)
      modifies this
      ensures bindings == Bound(old(bindings), table)
    {
      var i := 0;
      while i < |table|
        invariant 0 <= i <= |table|
        invariant bindings == Bound(old(bindings), table[..i])
      {
        assert table[..i + 1][..i] == table[..i];
        bindings := bindings[table[i].0 := table[i].1];
        i := i + 1;
      }
      assert table[..|table|] == table;
    }
  }

  /** The class attributes the menu classes read and, on Windows, change. */
  class MenuClasses {
    /** `GenericMainMenu.keybinds`: one dict object, shared by the generic,
        Windows and Linux menus. */
    var genericKeybinds: Table

    constructor ()
      ensures genericKeybinds == GenericKeybinds
    {
      genericKeybinds := GenericKeybinds;
    }

    function KeybindsOf(cls: MenuClass): Table
      reads this
    {
      if cls == MacOsMainMenu then MacKeybinds else genericKeybinds
    }

    /** Constructing a menu as written: `WindowsMainMenu.__init__` deletes
        the quit shortcut from the shared table, raising `KeyError` when it
        is already gone; then the shortcuts of the class's table are bound. */
    method Construct(cls: MenuClass, root: Root) returns (err: Option<string>)
      modifies this, root
      ensures cls != WindowsMainMenu ==> err == None && genericKeybinds == old(genericKeybinds)
      ensures cls == WindowsMainMenu ==>
                && (err.Some? <==> QuitKey !in Keys(old(genericKeybinds)))
                && (err.Some? ==> err.value == "KeyError: " + QuitKey)
                && genericKeybinds == (if err.None? then Without(old(genericKeybinds), QuitKey) else old(genericKeybinds))
      ensures err.Some? ==> root.bindings == old(root.bindings)
      ensures err.None? ==> root.bindings == Bound(old(root.bindings), KeybindsOf(cls))
    {
      if cls == WindowsMainMenu {
        if QuitKey !in Keys(genericKeybinds) {
          return Some("KeyError: " + QuitKey);
        }
        genericKeybinds := Without(genericKeybinds, QuitKey);
      }
      root.BindAccelerators(KeybindsOf(cls));
      err := None;
    }

    /** Constructing a menu with the Windows table as its own copy: the
        shared table is left alone, so every construction succeeds. */
    method ConstructWithOwnTable(cls: MenuClass, root: Root) returns (table: Table)
      modifies root
      ensures table == if cls == WindowsMainMenu then Without(genericKeybinds, QuitKey) else KeybindsOf(cls)
      ensures root.bindings == Bound(old(root.bindings), table)
    {
      table := if cls == WindowsMainMenu then Without(genericKeybinds, QuitKey) else KeybindsOf(cls);
      root.BindAccelerators(table);
    }
  }

  /** As written, a second Windows menu raises, and a generic menu built
      after a Windows one has lost its quit shortcut. */
  method WindowsMenuTwice() returns (first: Option<string>, second: Option<string>, generic: Table)
    ensures first == None && second == Some("KeyError: " + QuitKey)
    ensures QuitKey !in Keys(generic) && QuitKey in Keys(GenericKeybinds)
  {
    GenericKeybindsShape();
    assert Keys(GenericKeybinds)[1] == QuitKey;
    WithoutMeaning(GenericKeybinds, QuitKey);
    var classes := new MenuClasses();
    var root := new Root();
    first := classes.Construct(WindowsMainMenu, root);
    second := classes.Construct(WindowsMainMenu, root);
    generic := classes.KeybindsOf(GenericMainMenu);
  }

  /** With its own copy, the Windows menu binds the three shortcuts other
      than quit however many times it is built, and the generic table keeps
      all four. */
  method WindowsMenuTwiceWithOwnTable() returns (first: Table, second: Table, generic: Table)
    ensures first == second == Without(GenericKeybinds, QuitKey)
    ensures generic == GenericKeybinds
    ensures |first| == 3 && QuitKey !in Keys(first)
  {
    GenericKeybindsShape();
    var classes := new MenuClasses();
    var root := new Root();
    first := classes.ConstructWithOwnTable(WindowsMainMenu, root);
    second := classes.ConstructWithOwnTable(WindowsMainMenu, root);
    generic := classes.KeybindsOf(GenericMainMenu);
    WindowsKeybinds();
  }

  /** The Windows menu's shortcuts: the generic ones without quit. */
  lemma WindowsKeybinds()
    ensures Without(GenericKeybinds, QuitKey) == [GenericKeybinds[0], GenericKeybinds[2], GenericKeybinds[3]]
  {
    var t := GenericKeybinds;
    assert t[..3][..2][..1][..0] == [];
    assert Without(t[..3][..2][..1], QuitKey) == [t[0]];
    assert Without(t[..3][..2], QuitKey) == [t[0]];
    assert Without(t[..3], QuitKey) == [t[0], t[2]];
  }
}
