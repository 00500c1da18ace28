/** The hotkey field (`HotkeyLineEdit` in core/gui/widgets.py): a key press
    turns the held modifiers and the key into a text such as `ctrl+shift+f5`. */
module Widgets {
  import opened PyStr
  import opened Py

  // Qt key codes (`Qt.Key`).
  const KEY_SPACE: int := 0x20
  const KEY_0: int := 0x30
  const KEY_9: int := 0x39
  const KEY_A: int := 0x41
  const KEY_Z: int := 0x5a
  const KEY_ESCAPE: int := 0x0100_0000
  const KEY_TAB: int := 0x0100_0001
  const KEY_RETURN: int := 0x0100_0004
  const KEY_ENTER: int := 0x0100_0005
  const KEY_SHIFT: int := 0x0100_0020
  const KEY_CONTROL: int := 0x0100_0021
  const KEY_META: int := 0x0100_0022
  const KEY_ALT: int := 0x0100_0023
  const KEY_F1: int := 0x0100_0030
  const KEY_F24: int := 0x0100_0047

  // Qt modifier flags (`Qt.KeyboardModifier`).
  const SHIFT_MODIFIER: bv32 := 0x0200_0000
  const CONTROL_MODIFIER: bv32 := 0x0400_0000
  const ALT_MODIFIER: bv32 := 0x0800_0000
  const META_MODIFIER: bv32 := 0x1000_0000

  /** The modifier names in the order the combo lists them. */
  const MODIFIER_ORDER: seq<string> := ["ctrl", "alt", "shift", "meta"]

  /** A key that is only a modifier. */
  predicate IsModifierKey(key: int) {
    key == KEY_CONTROL || key == KEY_SHIFT || key == KEY_ALT || key == KEY_META
  }

  /** A key with a name of its own rather than its text. */
  predicate IsNamedKey(key: int) {
    (KEY_A <= key <= KEY_Z) || (KEY_0 <= key <= KEY_9) || (KEY_F1 <= key <= KEY_F24) ||
    key == KEY_SPACE || key == KEY_TAB
  }

  function DigitChar(d: nat): (c: char)
    requires d < 10
    ensures IsDigit(c)
  {
    ('0' as int + d) as char
  }

  /** `str(n)` */
  function NatText(n: nat): (r: string)
    ensures r != [] && forall i :: 0 <= i < |r| ==> IsDigit(r[i])
    ensures r[0] == '0' <==> n == 0
    decreases n
  {
    if n < 10 then [DigitChar(n)] else NatText(n / 10) + [DigitChar(n % 10)]
  }

  /** `int(s)` on a string of decimal digits. */
  function DecimalValue(s: string): int
    decreases |s|
  {
    if s == [] then 0 else DecimalValue(s[..|s| - 1]) * 10 + (s[|s| - 1] as int - '0' as int)
  }

  lemma {:induction false} DecimalRoundTrip(n: nat)
    ensures DecimalValue(NatText(n)) == n
    decreases n
  {
    var s := NatText(n);
    if n < 10 {
      assert s[..0] == [];
    } else {
      DecimalRoundTrip(n / 10);
      assert s[..|s| - 1] == NatText(n / 10);
    }
  }

  /** The modifier names for the held modifier flags, in the fixed order. */
  function ModifierNames(mods: bv32): seq<string> {
    FlagNames(mods & CONTROL_MODIFIER != 0, mods & ALT_MODIFIER != 0,
              mods & SHIFT_MODIFIER != 0, mods & META_MODIFIER != 0)
  }

  /** The names of the held modifiers, given as one boolean per modifier. */
  function FlagNames(ctrl: bool, alt: bool, shift: bool, meta: bool): seq<string> {
    (if ctrl then ["ctrl"] else []) + (if alt then ["alt"] else []) +
    (if shift then ["shift"] else []) + (if meta then ["meta"] else [])
  }

  /** Each modifier name is listed exactly when its flag is held, and every
      listed name is a modifier name without `+`. */
  lemma ModifierNamesFlags(mods: bv32)
    ensures var r := ModifierNames(mods);
      && ("ctrl" in r <==> mods & CONTROL_MODIFIER != 0) && ("alt" in r <==> mods & ALT_MODIFIER != 0)
      && ("shift" in r <==> mods & SHIFT_MODIFIER != 0) && ("meta" in r <==> mods & META_MODIFIER != 0)
      && forall i :: 0 <= i < |r| ==> r[i] in MODIFIER_ORDER && '+' !in r[i]
  {
    FlagNamesListed(mods & CONTROL_MODIFIER != 0, mods & ALT_MODIFIER != 0,
                    mods & SHIFT_MODIFIER != 0, mods & META_MODIFIER != 0);
  }

  /** ModifierNamesFlags, on the four flags as booleans. */
  lemma FlagNamesListed(ctrl: bool, alt: bool, shift: bool, meta: bool)
    ensures var r := FlagNames(ctrl, alt, shift, meta);
      && ("ctrl" in r <==> ctrl) && ("alt" in r <==> alt) && ("shift" in r <==> shift) && ("meta" in r <==> meta)
      && forall i :: 0 <= i < |r| ==> r[i] in MODIFIER_ORDER && '+' !in r[i]
  {
  }

  /** Position of a modifier name in `MODIFIER_ORDER`. */
  function ModifierRank(m: string): nat {
    if m == "ctrl" then 0 else if m == "alt" then 1 else if m == "shift" then 2 else 3
  }

  /** Every name ranks strictly below the names after it. */
  predicate RankOrdered(r: seq<string>) {
    forall i, j :: 0 <= i < j < |r| ==> ModifierRank(r[i]) < ModifierRank(r[j])
  }

  /** The modifiers come in the order ctrl, alt, shift, meta, none twice. */
  lemma ModifierNamesOrdered(mods: bv32)
    ensures RankOrdered(ModifierNames(mods))
  {
    FlagNamesOrdered(mods & CONTROL_MODIFIER != 0, mods & ALT_MODIFIER != 0,
                     mods & SHIFT_MODIFIER != 0, mods & META_MODIFIER != 0);
  }

  /** ModifierNamesOrdered, on the four flags as booleans. */
  lemma FlagNamesOrdered(ctrl: bool, alt: bool, shift: bool, meta: bool)
    ensures RankOrdered(FlagNames(ctrl, alt, shift, meta))
  {
    var c := if ctrl then ["ctrl"] else [];
    var a := if alt then ["alt"] else [];
    var s := if shift then ["shift"] else [];
    var m := if meta then ["meta"] else [];
    var r := c + a + s + m;
    forall i, j | 0 <= i < j < |r| ensures ModifierRank(r[i]) < ModifierRank(r[j]) {
      assert forall k :: 0 <= k < |c| ==> r[k] == "ctrl";
      assert forall k :: |c| <= k < |c| + |a| ==> r[k] == "alt";
      assert forall k :: |c| + |a| <= k < |c| + |a| + |s| ==> r[k] == "shift";
      assert forall k :: |c| + |a| + |s| <= k < |r| ==> r[k] == "meta";
    }
  }

  /** The name given to a key, from the key code and the event text. */
  function KeyName(key: int, eventText: string): (r: Option<string>)
    ensures KEY_A <= key <= KEY_Z ==> r == Some([LowerChar(key as char)])
    ensures KEY_0 <= key <= KEY_9 ==> r == Some([key as char])
    ensures KEY_F1 <= key <= KEY_F24 ==> r == Some("f" + NatText(key - KEY_F1 + 1))
    ensures KEY_F1 <= key <= KEY_F24 ==>
      r.Some? && |r.value| >= 2 && r.value[0] == 'f' && DecimalValue(r.value[1..]) == key - KEY_F1 + 1 &&
      (forall i :: 1 <= i < |r.value| ==> IsDigit(r.value[i])) && r.value[1] != '0'
    ensures key == KEY_SPACE ==> r == Some("space")
    ensures key == KEY_TAB ==> r == Some("tab")
    ensures !IsNamedKey(key) ==> (r.Some? <==> Strip(eventText) != [])
    ensures !IsNamedKey(key) && r.Some? ==> r.value == Lower(Strip(eventText))
    ensures IsNamedKey(key) ==> r.Some? && r.value != [] && '+' !in r.value
  {
    if KEY_A <= key <= KEY_Z then Some([('a' as int + (key - KEY_A)) as char])
    else if KEY_0 <= key <= KEY_9 then Some([('0' as int + (key - KEY_0)) as char])
    else if KEY_F1 <= key <= KEY_F24 then
      DecimalRoundTrip(1 + (key - KEY_F1));
      Some("f" + NatText(1 + (key - KEY_F1)))
    else if key == KEY_SPACE then Some("space")
    else if key == KEY_TAB then Some("tab")
    else
      var t := Strip(eventText);
      if t != [] then Some(Lower(t)) else None
  }

  /** The combo text for the held modifiers and a key name. */
  function Combo(mods: bv32, name: string): string {
    Join("+", ModifierNames(mods) + [name])
  }

  /** Splitting a combo on `+` gives back the modifiers and the key name,
      whenever the name itself has no `+`. */
  lemma ComboSplits(mods: bv32, name: string)
    requires '+' !in name
    ensures Split(Combo(mods, name), '+') == ModifierNames(mods) + [name]
  {
    ModifierNamesFlags(mods);
    var parts := ModifierNames(mods) + [name];
    assert forall i :: 0 <= i < |parts| ==> '+' !in parts[i] by {
      forall i | 0 <= i < |parts| ensures '+' !in parts[i] {
        if i < |parts| - 1 { assert parts[i] == ModifierNames(mods)[i]; }
      }
    }
    SplitJoin(parts, '+');
  }

  /** The `parts` list after the modifier tests. */
  method ModifierParts(mods: bv32) returns (parts: seq<string>)
    ensures parts == ModifierNames(mods)
  {
    parts := [];
    if mods & CONTROL_MODIFIER != 0 { parts := parts + ["ctrl"]; }
    if mods & ALT_MODIFIER != 0 { parts := parts + ["alt"]; }
    if mods & SHIFT_MODIFIER != 0 { parts := parts + ["shift"]; }
    if mods & META_MODIFIER != 0 { parts := parts + ["meta"]; }
  }

  /** The `name` the key tests leave. */
  method NameOf(key: int, eventText: string) returns (name: Option<string>)
    ensures name == KeyName(key, eventText)
  {
    name := None;
    if KEY_A <= key <= KEY_Z {
      name := Some([('a' as int + (key - KEY_A)) as char]);
    } else if KEY_0 <= key <= KEY_9 {
      name := Some([('0' as int + (key - KEY_0)) as char]);
    } else if KEY_F1 <= key <= KEY_F24 {
      name := Some("f" + NatText(1 + (key - KEY_F1)));
    } else if key == KEY_SPACE {
      name := Some("space");
    } else if key == KEY_TAB {
      name := Some("tab");
    } else {
      var t := Strip(eventText);
      if t != [] {
        name := Some(Lower(t));
      }
    }
  }

  class HotkeyLineEdit {
    var text: string
    var focused: bool

    constructor()
      ensures text == "" && !focused
    {
      text, focused := "", false;
    }

    /** `keyPressEvent` */
    method KeyPress(key: int, mods: bv32, eventText: string)
      modifies this
      ensures key == KEY_RETURN || key == KEY_ENTER ==> text == old(text) && !focused
      ensures key == KEY_ESCAPE ==> text == "" && focused == old(focused)
      ensures IsModifierKey(key) ==> text == old(text) && focused == old(focused)
      ensures key != KEY_RETURN && key != KEY_ENTER && key != KEY_ESCAPE && !IsModifierKey(key) ==>
        focused == old(focused) &&
        match KeyName(key, eventText)
        case None => text == old(text)
        case Some(name) => text == Combo(mods, name)
    {
      if key == KEY_RETURN || key == KEY_ENTER {
        focused := false;
        return;
      }
      if key == KEY_ESCAPE {
        text := "";
        return;
      }
      if IsModifierKey(key) {
        return;
      }
      var parts := ModifierParts(mods);
      var name := NameOf(key, eventText);
      if name.None? || name.value == [] {
        return;
      }
      parts := parts + [name.value];
      text := Join("+", parts);
    }
  }
}
