/**
 * The settings record of settings_system.py: resolution choice, fullscreen
 * flag, colour scheme and key bindings, and the key-name display rule.
 */
module SettingsStore {
  import opened Input

  /** The resolution scale factors the settings screen steps through. */
  const ResolutionOptions: seq<real> := [0.5, 0.75, 1.0, 1.25, 1.5, 2.0, 2.5, 3.0]

  /** `SettingsSystem.data`. */
  datatype SettingsData = SettingsData(resolutionScale: real, fullscreen: bool,
                                       colorScheme: int, keybinds: map<string, int>)

  /** The whole state of a `SettingsSystem`: its data and `current_resolution_index`. */
  datatype SettingsState = SettingsState(data: SettingsData, resolutionIndex: int)

  /** The index is a valid option and the stored scale is that option. */
  predicate Consistent(s: SettingsState)
  {
    0 <= s.resolutionIndex < |ResolutionOptions|
    && s.data.resolutionScale == ResolutionOptions[s.resolutionIndex]
  }

  /** The settings before any file is read. */
  function DefaultSettings(): (s: SettingsState)
    ensures s.resolutionIndex == 2 && !s.data.fullscreen && s.data.colorScheme == 1
    ensures s.data.keybinds == map["jump" := KeySpace, "shield" := KeyS, "dash" := KeyD,
                                   "menu" := KeyEscape, "shop" := KeyS]
    ensures Consistent(s)
  {
    SettingsState(
      SettingsData(1.0, false, 1, map["jump" := KeySpace, "shield" := KeyS, "dash" := KeyD,
                                      "menu" := KeyEscape, "shop" := KeyS]),
      2)
  }

  /** `max(0, min(len(options) - 1, i))`. */
  function ClampIndex(i: int): (r: int)
    ensures 0 <= r < |ResolutionOptions|
    ensures 0 <= i < |ResolutionOptions| ==> r == i
    ensures i < 0 ==> r == 0
    ensures i >= |ResolutionOptions| ==> r == |ResolutionOptions| - 1
  {
    if i < 0 then 0 else if i > |ResolutionOptions| - 1 then |ResolutionOptions| - 1 else i
  }

  /**
   * `change_resolution`: moves the index by `direction`, clamped to the
   * options; reports whether it moved, and only then stores the new scale.
   */
  function ResolutionChanged(s: SettingsState, direction: int): (r: (bool, SettingsState))
    ensures 0 <= r.1.resolutionIndex < |ResolutionOptions|
    ensures r.1.resolutionIndex == ClampIndex(s.resolutionIndex + direction)
    ensures r.0 <==> r.1.resolutionIndex != s.resolutionIndex
    ensures r.0 ==> r.1.data == s.data.(resolutionScale := ResolutionOptions[r.1.resolutionIndex])
    ensures !r.0 ==> r.1 == s
    ensures Consistent(s) ==> Consistent(r.1)
  {
    var index := ClampIndex(s.resolutionIndex + direction);
    if index != s.resolutionIndex then
      (true, SettingsState(s.data.(resolutionScale := ResolutionOptions[index]), index))
    else
      (false, s)
  }

  /** Stepping past either end of the options reports no change. */
  lemma ResolutionStopsAtEnds(s: SettingsState)
    requires Consistent(s)
    ensures s.resolutionIndex == |ResolutionOptions| - 1 ==> ResolutionChanged(s, 1) == (false, s)
    ensures s.resolutionIndex == 0 ==> ResolutionChanged(s, -1) == (false, s)
  {
  }

  /** Away from the top end, one step up and one step down give back the same settings. */
  lemma ResolutionUpThenDown(s: SettingsState)
    requires Consistent(s) && s.resolutionIndex < |ResolutionOptions| - 1
    ensures ResolutionChanged(s, 1).0
    ensures ResolutionChanged(ResolutionChanged(s, 1).1, -1) == (true, s)
  {
    var up := ResolutionChanged(s, 1).1;
    var down := ResolutionChanged(up, -1).1;
    assert down.data == s.data;
  }

  /** `toggle_fullscreen`: flips the flag and returns its new value. */
  function FullscreenToggled(s: SettingsState): (r: (bool, SettingsState))
    ensures r.0 == r.1.data.fullscreen && r.0 != s.data.fullscreen
    ensures r.1 == s.(data := s.data.(fullscreen := r.0))
  {
    var on := !s.data.fullscreen;
    (on, s.(data := s.data.(fullscreen := on)))
  }

  /** Two toggles give back the settings the first one started from. */
  lemma ToggleTwiceRestores(s: SettingsState)
    ensures FullscreenToggled(FullscreenToggled(s).1).1 == s
  {
    var twice := FullscreenToggled(FullscreenToggled(s).1).1;
    assert twice.data == s.data;
  }

  /** `change_color_scheme`: only schemes 1 to 3 are taken; anything else is ignored. */
  function SchemeChanged(s: SettingsState, scheme: int): (r: SettingsState)
    ensures 1 <= scheme <= 3 ==> r.data.colorScheme == scheme
    ensures !(1 <= scheme <= 3) ==> r == s
    ensures r.resolutionIndex == s.resolutionIndex
    ensures r.data.(colorScheme := s.data.colorScheme) == s.data
  {
    if 1 <= scheme <= 3 then s.(data := s.data.(colorScheme := scheme)) else s
  }

  /** A stored scheme is always one of 1, 2, 3 once it started as one. */
  lemma SchemeStaysValid(s: SettingsState, scheme: int)
    requires 1 <= s.data.colorScheme <= 3
    ensures 1 <= SchemeChanged(s, scheme).data.colorScheme <= 3
  {
  }

  /** `get_color_scheme_name`. */
  function SchemeName(scheme: int): (name: string)
    ensures scheme == 2 ==> name == "Old Paper"
    ensures scheme == 3 ==> name == "Inverted"
    ensures scheme != 2 && scheme != 3 ==> name == "Normal"
  {
    if scheme == 1 then "Normal"
    else if scheme == 2 then "Old Paper"
    else if scheme == 3 then "Inverted"
    else "Normal"
  }

  /** `set_keybind`: rebinds an action that already has a binding; an unknown action is ignored. */
  function Rebound(s: SettingsState, action: string, key: int): (r: SettingsState)
    ensures r.data.keybinds.Keys == s.data.keybinds.Keys
    ensures action in s.data.keybinds ==> r.data.keybinds[action] == key
    ensures forall a :: a in s.data.keybinds && a != action ==> r.data.keybinds[a] == s.data.keybinds[a]
    ensures r.data.(keybinds := s.data.keybinds) == s.data && r.resolutionIndex == s.resolutionIndex
  {
    if action in s.data.keybinds then
      s.(data := s.data.(keybinds := s.data.keybinds[action := key]))
    else s
  }

  /** `get_keybind`: the bound key, or K_UNKNOWN for an action without a binding. */
  function Lookup(keybinds: map<string, int>, action: string): (key: int)
    ensures action in keybinds ==> key == keybinds[action]
    ensures action !in keybinds ==> key == KeyUnknown
  {
    if action in keybinds then keybinds[action] else KeyUnknown
  }

  /** After a rebind, looking the action up gives the new key; every other action keeps its key. */
  lemma RebindThenLookup(s: SettingsState, action: string, key: int, other: string)
    requires action in s.data.keybinds && other != action
    ensures Lookup(Rebound(s, action, key).data.keybinds, action) == key
    ensures Lookup(Rebound(s, action, key).data.keybinds, other) == Lookup(s.data.keybinds, other)
  {
  }

  /** The keys `get_key_name` names from its table. */
  function NamedKeys(): map<int, string>
  {
    map[KeySpace := "SPACE", KeyReturn := "ENTER", KeyEscape := "ESC",
        KeyLeftShift := "L-SHIFT", KeyRightShift := "R-SHIFT",
        KeyLeftCtrl := "L-CTRL", KeyRightCtrl := "R-CTRL",
        KeyLeftAlt := "L-ALT", KeyRightAlt := "R-ALT",
        KeyUp := "UP", KeyDown := "DOWN", KeyLeft := "LEFT", KeyRight := "RIGHT",
        KeyTab := "TAB", KeyBackspace := "BACKSPACE", KeyDelete := "DELETE"]
  }

  function DigitChar(d: int): char
    requires 0 <= d < 10
  {
    (48 + d) as char
  }

  /** The decimal digits of `n`, as Python's `str` writes a non-negative integer. */
  function NatText(n: nat): (s: string)
    ensures |s| >= 1
    ensures n < 10 <==> |s| == 1
    ensures forall i :: 0 <= i < |s| ==> '0' <= s[i] <= '9'
    decreases n
  {
    if n < 10 then [DigitChar(n)] else NatText(n / 10) + [DigitChar(n % 10)]
  }

  /** `str(n)` for any integer: a minus sign before the digits of a negative number. */
  function IntText(n: int): (s: string)
    ensures |s| >= 1
    ensures n >= 0 ==> '0' <= s[0] <= '9'
    ensures n < 0 ==> s[0] == '-'
  {
    if n < 0 then "-" + NatText(-n) else NatText(n)
  }

  /** Different numbers have different decimal texts. */
  lemma {:induction false} NatTextInjective(a: nat, b: nat)
    requires NatText(a) == NatText(b)
    ensures a == b
    decreases a
  {
    var s, t := NatText(a), NatText(b);
    if a >= 10 {
      assert b >= 10;
      assert s[..|s| - 1] == NatText(a / 10);
      assert t[..|t| - 1] == NatText(b / 10);
      NatTextInjective(a / 10, b / 10);
      assert s[|s| - 1] == DigitChar(a % 10) && t[|t| - 1] == DigitChar(b % 10);
    }
  }

  /** Different integers have different `str` texts. */
  lemma IntTextInjective(a: int, b: int)
    requires IntText(a) == IntText(b)
    ensures a == b
  {
    if a < 0 && b < 0 {
      assert IntText(a)[1..] == NatText(-a);
      assert IntText(b)[1..] == NatText(-b);
      NatTextInjective(-a, -b);
    } else if a >= 0 && b >= 0 {
      NatTextInjective(a, b);
    }
  }

  /**
   * `get_key_name`: the table's name first, then the upper-case letter for
   * codes 97 to 122, the digit for codes 48 to 57, and "KEY_<code>" otherwise.
   */
  function KeyName(key: int): (name: string)
    ensures key in NamedKeys() ==> name == NamedKeys()[key]
    ensures key !in NamedKeys() && KeyA <= key <= KeyZ ==> name == [(key - 32) as char]
    ensures key !in NamedKeys() && Key0 <= key <= Key9 ==> name == [key as char]
    ensures key !in NamedKeys() && !(KeyA <= key <= KeyZ) && !(Key0 <= key <= Key9) ==>
              name == "KEY_" + IntText(key)
  {
    var named := NamedKeys();
    if key in named then named[key]
    else if KeyA <= key <= KeyZ then [(key - 32) as char]
    else if Key0 <= key <= Key9 then [key as char]
    else "KEY_" + IntText(key)
  }

  /** The table's names have at least two characters and none starts with 'K'. */
  lemma NamedKeyShape(key: int)
    requires key in NamedKeys()
    ensures |NamedKeys()[key]| >= 2 && NamedKeys()[key][0] != 'K'
  {
  }

  /** The table gives different codes different names. */
  lemma NamedKeysDistinct(a: int, b: int)
    requires a in NamedKeys() && b in NamedKeys() && NamedKeys()[a] == NamedKeys()[b]
    ensures a == b
  {
  }

  /** A code outside the table is shown as one character, or as "KEY_" and its number. */
  lemma UnnamedKeyShape(key: int)
    requires key !in NamedKeys()
    ensures |KeyName(key)| == 1 || (|KeyName(key)| >= 5 && KeyName(key)[0] == 'K')
  {
  }

  /** Two codes outside the table with the same name are equal. */
  lemma UnnamedKeyNameInjective(a: int, b: int)
    requires a !in NamedKeys() && b !in NamedKeys() && KeyName(a) == KeyName(b)
    ensures a == b
  {
    var na := KeyName(a);
    UnnamedKeyShape(a);
    UnnamedKeyShape(b);
    if |na| != 1 {
      assert !(KeyA <= a <= KeyZ) && !(Key0 <= a <= Key9);
      assert !(KeyA <= b <= KeyZ) && !(Key0 <= b <= Key9);
      assert na[4..] == IntText(a) && KeyName(b)[4..] == IntText(b);
      IntTextInjective(a, b);
    }
  }

  /** No two key codes are shown under the same name. */
  lemma KeyNameInjective(a: int, b: int)
    requires KeyName(a) == KeyName(b)
    ensures a == b
  {
    var named := NamedKeys();
    if a in named && b in named {
      NamedKeysDistinct(a, b);
    } else if a in named {
      NamedKeyShape(a);
      UnnamedKeyShape(b);
    } else if b in named {
      NamedKeyShape(b);
      UnnamedKeyShape(a);
    } else {
      UnnamedKeyNameInjective(a, b);
    }
  }

  /** `SettingsSystem`: holds `data` and `current_resolution_index` and changes them in place. */
  class SettingsSystem {
    var data: SettingsData
    var resolutionIndex: int

    function State(): SettingsState
      reads this
    {
      SettingsState(data, resolutionIndex)
    }

    ghost predicate Valid()
      reads this
    {
      Consistent(State())
    }

    /** Default settings; reading the settings file is not part of this model. */
    constructor ()
      ensures State() == DefaultSettings() && Valid()
    {
      data := SettingsData(1.0, false, 1, map["jump" := KeySpace, "shield" := KeyS,
                                              "dash" := KeyD, "menu" := KeyEscape,
                                              "shop" := KeyS]);
      resolutionIndex := 2;
    }

    method ChangeResolution(direction: int) returns (changed: bool)
      modifies this
      ensures (changed, State()) == ResolutionChanged(old(State()), direction)
    {
      var oldIndex := resolutionIndex;
      resolutionIndex := resolutionIndex + direction;
      resolutionIndex := ClampIndex(resolutionIndex);
      if resolutionIndex != oldIndex {
        data := data.(resolutionScale := ResolutionOptions[resolutionIndex]);
        return true;
      }
      return false;
    }

    method ToggleFullscreen() returns (on: bool)
      modifies this
      ensures (on, State()) == FullscreenToggled(old(State()))
    {
      data := data.(fullscreen := !data.fullscreen);
      return data.fullscreen;
    }

    method ChangeColorScheme(scheme: int)
      modifies this
      ensures State() == SchemeChanged(old(State()), scheme)
    {
      if 1 <= scheme <= 3 {
        data := data.(colorScheme := scheme);
      }
    }

    function ColorSchemeName(): string
      reads this
    {
      SchemeName(data.colorScheme)
    }

    method SetKeybind(action: string, key: int)
      modifies this
      ensures State() == Rebound(old(State()), action, key)
    {
      if action in data.keybinds {
        data := data.(keybinds := data.keybinds[action := key]);
      }
    }

    function GetKeybind(action: string): int
      reads this
    {
      Lookup(data.keybinds, action)
    }
  }
}
