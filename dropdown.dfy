/** The dropdown of app-zone/src/components/dropdown/dropdown.tsx: opening
    and closing the list, and choosing an option, which marks it as the only
    selected one in the caller's option list, closes the list and reports it
    to `onSelect`.

    The caller's options are an array the dropdown writes into, and the
    chosen option is given by its position in that array. */
module Dropdown {
  import opened Common

  /** One option of the list; `caption` is the option's `label`. */
  datatype DropdownOption = DropdownOption(caption: string, value: string, selected: bool)

  /** The options after the one at position `i` is chosen: the same
      captions and values, with only position `i` selected. */
  function SelectedOnly(options: seq<DropdownOption>, i: int): (r: seq<DropdownOption>)
    ensures |r| == |options|
  {
    seq(|options|, k requires 0 <= k < |options| => options[k].(selected := k == i))
  }

  class Menu {
    const options: array<DropdownOption>
    const disabled: bool
    var open: bool
    var selected: Option<DropdownOption>

    constructor (options: array<DropdownOption>, disabled: bool)
      ensures this.options == options && this.disabled == disabled
      ensures !open && selected == None
    {
      this.options := options;
      this.disabled := disabled;
      open := false;
      selected := None;
    }

    /** `toggleOpen()`. */
    method ToggleOpen()
      modifies this`open
      ensures open == if disabled then old(open) else !old(open)
    {
      if !disabled {
        open := !open;
      }
    }

    /** `handleSelect(options[i])`: nothing when disabled; otherwise every
        option is unselected, the chosen one selected, the list closed, and
        the chosen option passed to `onSelect` when there is one. */
    method HandleSelect(i: int, hasOnSelect: bool) returns (reported: Option<DropdownOption>)
      requires 0 <= i < options.Length
      modifies options, this`selected, this`open
      ensures disabled ==>
                options[..] == old(options[..]) && selected == old(selected) && open == old(open) && reported == None
      ensures !disabled ==>
                options[..] == SelectedOnly(old(options[..]), i) &&
                selected == Some(options[i]) && !open &&
                reported == if hasOnSelect then Some(options[i]) else None
    {
      if disabled {
        return None;
      }
      var k := 0;
      while k < options.Length
        invariant 0 <= k <= options.Length
        invariant forall j :: 0 <= j < k ==> options[j] == old(options[j]).(selected := false)
        invariant forall j :: k <= j < options.Length ==> options[j] == old(options[j])
      {
        options[k] := options[k].(selected := false);
        k := k + 1;
      }
      options[i] := options[i].(selected := true);
      selected := Some(options[i]);
      open := false;
      reported := if hasOnSelect then Some(options[i]) else None;
    }
  }

  // -----------------------------------------------------------------------
  // Properties
  // -----------------------------------------------------------------------

  /** After a choice exactly one option is selected, the chosen one, and no
      caption or value changes. */
  lemma ExactlyOneSelected(options: seq<DropdownOption>, i: int)
    requires 0 <= i < |options|
    ensures var r := SelectedOnly(options, i);
            (forall k :: 0 <= k < |r| ==> (r[k].selected <==> k == i)) &&
            (forall k :: 0 <= k < |r| ==> r[k].caption == options[k].caption && r[k].value == options[k].value)
  {
  }

  /** A choice forgets the earlier ones: choosing `j` after `i` is the same
      as choosing `j` alone, and choosing twice is choosing once. */
  lemma LastChoiceWins(options: seq<DropdownOption>, i: int, j: int)
    requires 0 <= i < |options| && 0 <= j < |options|
    ensures SelectedOnly(SelectedOnly(options, i), j) == SelectedOnly(options, j)
    ensures SelectedOnly(SelectedOnly(options, j), j) == SelectedOnly(options, j)
  {
  }
}
