/**
 * The settings screen of settings_menu.py: a cursor over seven items, key
 * actions on the selected item, and a "waiting for key" mode for rebinding.
 */
module SettingsMenus {
  import opened Wrappers
  import opened Input
  import opened SettingsStore

  const MenuItems: seq<string> :=
    ["resolution", "fullscreen", "color_scheme", "keybind_jump", "keybind_shield",
     "keybind_dash", "back"]

  const KeybindPrefix: string := "keybind_"

  /** The items whose selection starts a rebinding. */
  predicate IsKeybindItem(item: string)
  {
    item == "keybind_jump" || item == "keybind_shield" || item == "keybind_dash"
  }

  /** The action a keybind item rebinds: its name without the "keybind_" prefix. */
  function ActionOfItem(item: string): (action: string)
    requires IsKeybindItem(item)
    ensures KeybindPrefix + action == item
  {
    item[|KeybindPrefix|..]
  }

  /** The values of `nav_keys`. */
  datatype MenuAction = Up | Down | Increase | Decrease | Fullscreen | Select | Back
                      | Color(scheme: int)

  /** The keys of `nav_keys`; every other key does nothing on this screen. */
  const NavKeys: set<int> :=
    {KeyUp, KeyW, KeyDown, KeyS, KeyPlus, KeyEquals, KeyKeypadPlus, KeyMinus, KeyKeypadMinus,
     KeyX, KeyReturn, KeySpace, KeyEscape, Key1, Key2, Key3}

  /** `nav_keys.get(key)`. */
  function NavAction(key: int): (a: Option<MenuAction>)
    ensures a == Some(Up) <==> key == KeyUp || key == KeyW
    ensures a == Some(Down) <==> key == KeyDown || key == KeyS
    ensures a == Some(Increase) <==> key == KeyPlus || key == KeyEquals || key == KeyKeypadPlus
    ensures a == Some(Decrease) <==> key == KeyMinus || key == KeyKeypadMinus
    ensures a == Some(Fullscreen) <==> key == KeyX
    ensures a == Some(Select) <==> key == KeyReturn || key == KeySpace
    ensures a == Some(Back) <==> key == KeyEscape
    ensures a.None? <==> key !in NavKeys
    ensures a.Some? && a.value.Color? <==> Key1 <= key <= Key3
    ensures a.Some? && a.value.Color? ==> a.value.scheme == key - Key1 + 1
  {
    if key == KeyUp || key == KeyW then Some(Up)
    else if key == KeyDown || key == KeyS then Some(Down)
    else if key == KeyPlus || key == KeyEquals || key == KeyKeypadPlus then Some(Increase)
    else if key == KeyMinus || key == KeyKeypadMinus then Some(Decrease)
    else if key == KeyX then Some(Fullscreen)
    else if key == KeyReturn || key == KeySpace then Some(Select)
    else if key == KeyEscape then Some(Back)
    else if key == Key1 then Some(Color(1))
    else if key == Key2 then Some(Color(2))
    else if key == Key3 then Some(Color(3))
    else None
  }

  /** `selected_index` and `waiting_for_key`. */
  datatype MenuView = MenuView(selected: int, waiting: Option<string>)

  predicate MenuValid(m: MenuView)
  {
    0 <= m.selected < |MenuItems| && (m.waiting.Some? ==> IsKeybindItem(m.waiting.value))
  }

  /** `(i + delta) % len(menu_items)`: Python's `%` with a positive divisor never goes negative. */
  function Cycle(i: int, delta: int): (r: int)
    ensures 0 <= r < |MenuItems|
    ensures 0 <= i < |MenuItems| && delta == 1 ==> r == if i == |MenuItems| - 1 then 0 else i + 1
    ensures 0 <= i < |MenuItems| && delta == -1 ==> r == if i == 0 then |MenuItems| - 1 else i - 1
  {
    (i + delta) % |MenuItems|
  }

  /** The cursor after `n` presses of "down". */
  function DownPresses(i: int, n: nat): int
  {
    if n == 0 then i else Cycle(DownPresses(i, n - 1), 1)
  }

  /** One more step past `a mod 7` is `(a + 1) mod 7`. */
  lemma CycleSucc(a: int)
    ensures Cycle(a % |MenuItems|, 1) == (a + 1) % |MenuItems|
  {
    var k := |MenuItems|;
    var q, r := a / k, a % k;
    assert a == q * k + r;
    if r < k - 1 {
      assert a + 1 == q * k + (r + 1);
    } else {
      assert a + 1 == (q + 1) * k;
    }
  }

  /** `n` presses of "down" land on item `(i + n) mod 7`. */
  lemma {:induction false} DownPressesWrap(i: int, n: nat)
    ensures DownPresses(i, n) == if n == 0 then i else (i + n) % |MenuItems|
  {
    if n > 1 {
      DownPressesWrap(i, n - 1);
      CycleSucc(i + n - 1);
    }
  }

  /** Seven presses of "down" go all the way round to the item they started on. */
  lemma DownPressesRoundTrip(i: int)
    requires 0 <= i < |MenuItems|
    ensures DownPresses(i, |MenuItems|) == i
  {
    DownPressesWrap(i, |MenuItems|);
  }

  /** What a handler leaves behind: the menu fields, the settings and its return value. */
  datatype Outcome = Outcome(menu: MenuView, settings: SettingsState, result: Option<string>)

  /**
   * `handle_increase` / `handle_decrease`: only the resolution item reacts, and
   * "apply_resolution" is returned exactly when the resolution moved.
   */
  function Stepped(m: MenuView, s: SettingsState, direction: int): (r: Outcome)
    requires MenuValid(m)
    ensures r.menu == m
    ensures MenuItems[m.selected] != "resolution" ==> r == Outcome(m, s, None)
    ensures MenuItems[m.selected] == "resolution" ==>
              r.settings == ResolutionChanged(s, direction).1
              && (r.result == Some("apply_resolution") <==> ResolutionChanged(s, direction).0)
    ensures r.result == None || r.result == Some("apply_resolution")
  {
    if MenuItems[m.selected] == "resolution" then
      var (changed, s') := ResolutionChanged(s, direction);
      if changed then Outcome(m, s', Some("apply_resolution")) else Outcome(m, s', None)
    else Outcome(m, s, None)
  }

  /** `handle_select`. */
  function Selected(m: MenuView, s: SettingsState): (r: Outcome)
    requires MenuValid(m)
    ensures MenuValid(r.menu) && r.menu.selected == m.selected
    ensures IsKeybindItem(MenuItems[m.selected]) ==>
              r == Outcome(MenuView(m.selected, Some(MenuItems[m.selected])), s, None)
    ensures MenuItems[m.selected] == "back" ==> r == Outcome(m, s, Some("menu"))
    ensures MenuItems[m.selected] == "fullscreen" ==>
              r == Outcome(m, FullscreenToggled(s).1, Some("apply_fullscreen"))
    ensures MenuItems[m.selected] == "resolution" ==> r == Outcome(m, s, Some("apply_resolution"))
    ensures MenuItems[m.selected] == "color_scheme" ==> r == Outcome(m, s, None)
  {
    var item := MenuItems[m.selected];
    if item == "resolution" then Outcome(m, s, Some("apply_resolution"))
    else if item == "fullscreen" then Outcome(m, FullscreenToggled(s).1, Some("apply_fullscreen"))
    else if IsKeybindItem(item) then Outcome(m.(waiting := Some(item)), s, None)
    else if item == "back" then Outcome(m, s, Some("menu"))
    else Outcome(m, s, None)
  }

  /** `handle_action`. */
  function Acted(m: MenuView, s: SettingsState, a: MenuAction): (r: Outcome)
    requires MenuValid(m)
    ensures MenuValid(r.menu)
    ensures a == Up ==> r == Outcome(m.(selected := Cycle(m.selected, -1)), s, None)
    ensures a == Down ==> r == Outcome(m.(selected := Cycle(m.selected, 1)), s, None)
    ensures a == Back ==> r == Outcome(m, s, Some("menu"))
    ensures a == Fullscreen ==> r == Outcome(m, FullscreenToggled(s).1, Some("apply_fullscreen"))
    ensures a.Color? ==> r == Outcome(m, SchemeChanged(s, a.scheme), None)
    ensures a == Increase ==> r == Stepped(m, s, 1)
    ensures a == Decrease ==> r == Stepped(m, s, -1)
    ensures a == Select ==> r == Selected(m, s)
  {
    match a
    case Up => Outcome(m.(selected := Cycle(m.selected, -1)), s, None)
    case Down => Outcome(m.(selected := Cycle(m.selected, 1)), s, None)
    case Increase => Stepped(m, s, 1)
    case Decrease => Stepped(m, s, -1)
    case Fullscreen => Outcome(m, FullscreenToggled(s).1, Some("apply_fullscreen"))
    case Select => Selected(m, s)
    case Back => Outcome(m, s, Some("menu"))
    case Color(n) => Outcome(m, SchemeChanged(s, n), None)
  }

  /**
   * `handle_event`: while a rebinding waits, every key press is consumed (ESC
   * cancels, any other key becomes the binding) and the wheel does nothing;
   * otherwise keys go through `nav_keys` and the wheel moves the cursor.
   */
  function OnEvent(m: MenuView, s: SettingsState, e: Event): (r: Outcome)
    requires MenuValid(m)
    ensures MenuValid(r.menu)
    ensures m.waiting.Some? && e.KeyPress? ==>
              r.result == None && r.menu == MenuView(m.selected, None)
              && r.settings == (if e.key == KeyEscape then s
                                else Rebound(s, ActionOfItem(m.waiting.value), e.key))
    ensures m.waiting.Some? && !e.KeyPress? ==> r == Outcome(m, s, None)
    ensures m.waiting.None? && e.KeyPress? ==>
              r == (if NavAction(e.key).Some? then Acted(m, s, NavAction(e.key).value)
                    else Outcome(m, s, None))
    ensures m.waiting.None? && e.MouseWheel? ==>
              r.result == None && r.settings == s
              && r.menu.selected == (if e.y > 0 then Cycle(m.selected, -1)
                                     else if e.y < 0 then Cycle(m.selected, 1)
                                     else m.selected)
  {
    match e
    case KeyPress(k) =>
      if m.waiting.Some? then
        if k == KeyEscape then Outcome(m.(waiting := None), s, None)
        else Outcome(m.(waiting := None), Rebound(s, ActionOfItem(m.waiting.value), k), None)
      else
        var a := NavAction(k);
        if a.Some? then Acted(m, s, a.value) else Outcome(m, s, None)
    case MouseWheel(y) =>
      if m.waiting.None? then
        if y > 0 then Outcome(m.(selected := Cycle(m.selected, -1)), s, None)
        else if y < 0 then Outcome(m.(selected := Cycle(m.selected, 1)), s, None)
        else Outcome(m, s, None)
      else Outcome(m, s, None)
    case _ => Outcome(m, s, None)
  }

  /** "up" undoes "down": the cursor comes back to the item it left. */
  lemma UpUndoesDown(m: MenuView, s: SettingsState)
    requires MenuValid(m)
    ensures Acted(Acted(m, s, Down).menu, s, Up).menu == m
  {
  }

  /** Keys 1, 2, 3 pick colour schemes 1, 2, 3 and return nothing, when no rebinding waits. */
  lemma ColorKeys(m: MenuView, s: SettingsState, n: int)
    requires MenuValid(m) && m.waiting.None? && 1 <= n <= 3
    ensures OnEvent(m, s, KeyPress(Key1 + n - 1)).settings.data.colorScheme == n
    ensures OnEvent(m, s, KeyPress(Key1 + n - 1)).result == None
  {
  }

  /** Selecting a keybind item and then pressing a key other than ESC binds that key. */
  lemma SelectThenBind(m: MenuView, s: SettingsState, key: int)
    requires MenuValid(m) && m.waiting.None? && IsKeybindItem(MenuItems[m.selected])
    requires key != KeyEscape
    requires ActionOfItem(MenuItems[m.selected]) in s.data.keybinds
    ensures var waiting := OnEvent(m, s, KeyPress(KeySpace));
            var bound := OnEvent(waiting.menu, waiting.settings, KeyPress(key));
            && waiting.menu.waiting == Some(MenuItems[m.selected])
            && bound.menu == m
            && Lookup(bound.settings.data.keybinds, ActionOfItem(MenuItems[m.selected])) == key
  {
  }

  /** Selecting a keybind item and then pressing ESC leaves everything as it was. */
  lemma SelectThenCancel(m: MenuView, s: SettingsState)
    requires MenuValid(m) && m.waiting.None? && IsKeybindItem(MenuItems[m.selected])
    ensures var waiting := OnEvent(m, s, KeyPress(KeySpace));
            OnEvent(waiting.menu, waiting.settings, KeyPress(KeyEscape)) == Outcome(m, s, None)
  {
  }

  /** `int(800 * scale)` and `int(400 * scale)` for one of the scale options. */
  function ScaledSize(scale: real): (size: (int, int))
    requires scale > 0.0
    ensures size.0 == 2 * size.1 || size.0 == 2 * size.1 + 1
  {
    ((800.0 * scale).Floor, (400.0 * scale).Floor)
  }

  /** How Python writes each scale option (`str` of the float). */
  function ScaleText(scale: real): string
  {
    if scale == 0.5 then "0.5" else if scale == 0.75 then "0.75"
    else if scale == 1.0 then "1.0" else if scale == 1.25 then "1.25"
    else if scale == 1.5 then "1.5" else if scale == 2.0 then "2.0"
    else if scale == 2.5 then "2.5" else "3.0"
  }

  /** `action_names.get(action, action)`. */
  function ActionLabel(action: string): (name: string)
    ensures action == "jump" ==> name == "Jump"
    ensures action == "shield" ==> name == "Shield"
    ensures action == "dash" ==> name == "Air Dash"
    ensures action != "jump" && action != "shield" && action != "dash" ==> name == action
  {
    if action == "jump" then "Jump"
    else if action == "shield" then "Shield"
    else if action == "dash" then "Air Dash"
    else action
  }

  /** `get_item_display`: the label and the value shown for one menu item. */
  function ItemDisplay(m: MenuView, s: SettingsState, item: string): (d: (string, string))
    requires item in MenuItems && Consistent(s)
    ensures item == "resolution" ==>
              var (w, h) := ScaledSize(s.data.resolutionScale);
              d == ("Resolution", IntText(w) + "x" + IntText(h) + " (" + ScaleText(s.data.resolutionScale) + "x)")
    ensures item == "fullscreen" ==> d == ("Fullscreen", if s.data.fullscreen then "ON" else "OFF")
    ensures item == "color_scheme" ==> d == ("Color Scheme", SchemeName(s.data.colorScheme))
    ensures IsKeybindItem(item) ==> d.0 == ActionLabel(ActionOfItem(item))
    ensures item == "keybind_dash" ==> d.0 == "Air Dash"
    ensures IsKeybindItem(item) && m.waiting == Some(item) ==> d.1 == "Press key..."
    ensures IsKeybindItem(item) && m.waiting != Some(item) ==>
              d.1 == KeyName(Lookup(s.data.keybinds, ActionOfItem(item)))
    ensures item == "back" ==> d == ("Back to Menu", "")
  {
    if item == "resolution" then
      var scale := s.data.resolutionScale;
      var (w, h) := ScaledSize(scale);
      ("Resolution", IntText(w) + "x" + IntText(h) + " (" + ScaleText(scale) + "x)")
    else if item == "fullscreen" then
      ("Fullscreen", if s.data.fullscreen then "ON" else "OFF")
    else if item == "color_scheme" then
      ("Color Scheme", SchemeName(s.data.colorScheme))
    else if IsKeybindItem(item) then
      var action := ActionOfItem(item);
      var keyName := KeyName(Lookup(s.data.keybinds, action));
      if m.waiting == Some(item) then (ActionLabel(action), "Press key...")
      else (ActionLabel(action), keyName)
    else ("Back to Menu", "")
  }

  /** While an item is being rebound, its display shows the prompt, never a key name. */
  lemma PromptOnlyWhileWaiting(m: MenuView, s: SettingsState, item: string)
    requires item in MenuItems && Consistent(s) && IsKeybindItem(item)
    ensures ItemDisplay(m, s, item).1 == "Press key..." <==> m.waiting == Some(item)
  {
    var name := KeyName(Lookup(s.data.keybinds, ActionOfItem(item)));
    if m.waiting != Some(item) {
      assert name != "Press key..." by {
        var key := Lookup(s.data.keybinds, ActionOfItem(item));
        if key in NamedKeys() {
        } else if KeyA <= key <= KeyZ || Key0 <= key <= Key9 {
          assert |name| == 1;
        } else {
          assert name[..4] == "KEY_";
          assert "Press key..."[..4] == "Pres";
        }
      }
    }
  }

  /** `SettingsMenu`: the cursor and rebinding fields, acting on a settings system. */
  class SettingsMenu {
    const settings: SettingsSystem
    var selectedIndex: int
    var waitingForKey: Option<string>

    function View(): MenuView
      reads this
    {
      MenuView(selectedIndex, waitingForKey)
    }

    ghost predicate Valid()
      reads this
    {
      MenuValid(View())
    }

    constructor (settings: SettingsSystem)
      ensures this.settings == settings && View() == MenuView(0, None) && Valid()
    {
      this.settings := settings;
      selectedIndex := 0;
      waitingForKey := None;
    }

    method HandleEvent(e: Event) returns (r: Option<string>)
      requires Valid()
      modifies this, settings
      ensures Valid()
      ensures Outcome(View(), settings.State(), r) == OnEvent(old(View()), old(settings.State()), e)
    {
      if e.KeyPress? {
        if waitingForKey.Some? {
          if e.key == KeyEscape {
            waitingForKey := None;
          } else {
            var action := ActionOfItem(waitingForKey.value);
            settings.SetKeybind(action, e.key);
            waitingForKey := None;
          }
          return None;
        }
        var action := NavAction(e.key);
        if action.Some? {
          r := HandleAction(action.value);
          return r;
        }
      } else if e.MouseWheel? {
        if waitingForKey.None? {
          if e.y > 0 {
            selectedIndex := (selectedIndex - 1) % |MenuItems|;
          } else if e.y < 0 {
            selectedIndex := (selectedIndex + 1) % |MenuItems|;
          }
        }
      }
      return None;
    }

    method HandleAction(a: MenuAction) returns (r: Option<string>)
      requires Valid()
      modifies this, settings
      ensures Valid()
      ensures Outcome(View(), settings.State(), r) == Acted(old(View()), old(settings.State()), a)
    {
      match a {
        case Up =>
          selectedIndex := (selectedIndex - 1) % |MenuItems|;
        case Down =>
          selectedIndex := (selectedIndex + 1) % |MenuItems|;
        case Increase =>
          r := HandleIncrease();
          return r;
        case Decrease =>
          r := HandleDecrease();
          return r;
        case Fullscreen =>
          var _ := settings.ToggleFullscreen();
          return Some("apply_fullscreen");
        case Select =>
          r := HandleSelect();
          return r;
        case Back =>
          return Some("menu");
        case Color(n) =>
          settings.ChangeColorScheme(n);
      }
      return None;
    }

    method HandleIncrease() returns (r: Option<string>)
      requires Valid()
      modifies settings
      ensures Outcome(View(), settings.State(), r) == Stepped(View(), old(settings.State()), 1)
    {
      var item := MenuItems[selectedIndex];
      if item == "resolution" {
        var changed := settings.ChangeResolution(1);
        if changed {
          return Some("apply_resolution");
        }
      }
      return None;
    }

    method HandleDecrease() returns (r: Option<string>)
      requires Valid()
      modifies settings
      ensures Outcome(View(), settings.State(), r) == Stepped(View(), old(settings.State()), -1)
    {
      var item := MenuItems[selectedIndex];
      if item == "resolution" {
        var changed := settings.ChangeResolution(-1);
        if changed {
          return Some("apply_resolution");
        }
      }
      return None;
    }

    method HandleSelect() returns (r: Option<string>)
      requires Valid()
      modifies this, settings
      ensures Valid()
      ensures Outcome(View(), settings.State(), r) == Selected(old(View()), old(settings.State()))
    {
      var item := MenuItems[selectedIndex];
      if item == "resolution" {
        return Some("apply_resolution");
      } else if item == "fullscreen" {
        var _ := settings.ToggleFullscreen();
        return Some("apply_fullscreen");
      } else if IsKeybindItem(item) {
        waitingForKey := Some(item);
      } else if item == "back" {
        return Some("menu");
      }
      return None;
    }

    function GetItemDisplay(item: string): (string, string)
      requires item in MenuItems && settings.Valid()
      reads this, settings
    {
      ItemDisplay(View(), settings.State(), item)
    }
  }
}
