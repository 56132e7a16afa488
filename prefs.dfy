/**
 * The preferences page's "Modifier key for other monitors" row: a fixed
 * table of (stored value, label) pairs, the lookup that turns the stored
 * `other-monitors-modifier-key` string into the row's selected index, and
 * the write-back that turns a selected index into the stored string.
 */
module Prefs {
  import opened JsArray

  /** One entry of the drop-down: the string stored in the setting and its caption. */
  datatype ModifierKey = ModifierKey(value: string, caption: string)

  /** The drop-down's entries, in display order; `""` means the feature is off. */
  const ModifierKeys: seq<ModifierKey> := [
    ModifierKey("", "Disabled"),
    ModifierKey("Shift", "Shift"),
    ModifierKey("Control", "Control"),
    ModifierKey("Alt", "Alt"),
    ModifierKey("Super", "Super"),
    ModifierKey("Hyper", "Hyper"),
    ModifierKey("Caps Lock", "Caps Lock"),
    ModifierKey("Meta", "Meta")
  ]

  /** The `findIndex` callback `([value, _]) => value === stored`. */
  function HasValue(stored: string): ModifierKey -> bool
  {
    (k: ModifierKey) => k.value == stored
  }

  /** `modifierKeys.findIndex(…)`: the entry holding `stored`, or -1 when none does. */
  function ModifierIndex(stored: string): (i: int)
    ensures -1 <= i < |ModifierKeys|
    ensures 0 <= i ==> ModifierKeys[i].value == stored
    ensures i == -1 <==> forall j :: 0 <= j < |ModifierKeys| ==> ModifierKeys[j].value != stored
  {
    FindIndex(ModifierKeys, HasValue(stored))
  }

  /** The table's shape: eight entries, these stored names, `""` at index 0. */
  lemma ModifierTableShape()
    ensures |ModifierKeys| == 8
    ensures ModifierKeys[0] == ModifierKey("", "Disabled")
    ensures forall i :: 0 <= i < |ModifierKeys| ==>
              ModifierKeys[i].value ==
              ["", "Shift", "Control", "Alt", "Super", "Hyper", "Caps Lock", "Meta"][i]
    ensures ModifierIndex("") == 0
  {
  }

  /** No two entries store the same string. */
  lemma ModifierValuesDistinct(i: int, j: int)
    requires 0 <= i < |ModifierKeys| && 0 <= j < |ModifierKeys|
    requires ModifierKeys[i].value == ModifierKeys[j].value
    ensures i == j
  {
  }

  /** Writing the entry for index `i` and looking it up again gives `i`. */
  lemma ModifierRoundTrip(i: int)
    requires 0 <= i < |ModifierKeys|
    ensures ModifierIndex(ModifierKeys[i].value) == i
  {
    var k := ModifierIndex(ModifierKeys[i].value);
    ModifierValuesDistinct(k, i);
  }

  /** The drop-down row together with the setting it edits. */
  class ModifierKeyRow {
    var selected: int      // the row's `selected` position
    var setting: string    // the `other-monitors-modifier-key` value

    constructor (setting: string, selected: int)
      ensures this.setting == setting && this.selected == selected
    {
      this.setting := setting;
      this.selected := selected;
    }

    /** Shows the stored value: selects its entry, or keeps the selection when no entry holds it. */
    method LoadSelected()
      modifies this`selected
      ensures 0 <= ModifierIndex(setting) ==>
                0 <= selected < |ModifierKeys| && ModifierKeys[selected].value == setting
      ensures ModifierIndex(setting) == -1 ==> selected == old(selected)
    {
      var modifierIndex := ModifierIndex(setting);
      if modifierIndex != -1 {
        selected := modifierIndex;
      }
    }

    /**
     * The `notify::selected` handler: stores the selected entry's value when
     * the position is inside the table and leaves the setting alone otherwise.
     * What it stores reads back as the same position.
     */
    method OnSelectedNotify()
      modifies this`setting
      ensures 0 <= selected < |ModifierKeys| ==>
                setting == ModifierKeys[selected].value && ModifierIndex(setting) == selected
      ensures !(0 <= selected < |ModifierKeys|) ==> setting == old(setting)
    {
      if selected >= 0 && selected < |ModifierKeys| {
        setting := ModifierKeys[selected].value;
        ModifierRoundTrip(selected);
      }
    }
  }
}
