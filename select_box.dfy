// The drop-down used for sorting: picking an option selects it with its own
// direction, and picking the selected option again reverses the direction.
module SelectBox {
  import opened Common
  import opened GameFilter

  /** `value: string | number`; a JavaScript number is an integer here. */
  datatype OptionValue = TextValue(text: string) | NumberValue(number: int)

  /** An entry of the list: `{ caption, value, direction }`. */
  datatype Choice = Choice(caption: string, value: OptionValue, direction: Direction)

  /** The option the list shows at a place: the selection itself where the values are the same. */
  function RenderedOption(selected: Choice, option: Choice): (r: Choice)
    ensures r.value == option.value
    ensures selected.value == option.value ==> r == selected
    ensures selected.value != option.value ==> r == option
  {
    if selected.value == option.value then selected else option
  }

  /** `handleOptionClick(option)`: the new selection, which is also what `onChange` receives. */
  function Chosen(selected: Choice, option: Choice): (r: Choice)
    ensures r.caption == option.caption && r.value == option.value
    ensures option.value != selected.value ==> r.direction == option.direction
    ensures option.value == selected.value ==> r.direction != option.direction
  {
    var direction := if option.value != selected.value then None else Some(Flipped(option.direction));
    option.(direction := direction.GetOr(option.direction))
  }

  /** What a click on a place of the list selects. */
  function Clicked(selected: Choice, option: Choice): Choice {
    Chosen(selected, RenderedOption(selected, option))
  }

  /** A click on another option selects it as listed; a click on the selected one reverses its direction. */
  lemma ClickMeaning(selected: Choice, option: Choice)
    ensures selected.value != option.value ==> Clicked(selected, option) == option
    ensures selected.value == option.value ==>
      Clicked(selected, option) == selected.(direction := Flipped(selected.direction))
  {
  }

  /** Two clicks on the selected option bring back the direction it had. */
  lemma TwoClicksRestore(selected: Choice, option: Choice)
    requires selected.value == option.value
    ensures Clicked(Clicked(selected, option), option) == selected
  {
  }

  /** After a click on another option, a second click on it reverses that option's own direction. */
  lemma SecondClickReverses(selected: Choice, option: Choice)
    requires selected.value != option.value
    ensures Clicked(Clicked(selected, option), option) == option.(direction := Flipped(option.direction))
  {
  }

  /** The component's `selected` state. */
  class SelectBoxState {
    var selected: Choice

    constructor (defaultOption: Choice)
      ensures selected == defaultOption
    {
      selected := defaultOption;
    }

    /** `handleOptionClick`: `emitted` is what `onChange` receives. */
    method HandleOptionClick(option: Choice) returns (emitted: Choice)
      modifies this
      ensures selected == Chosen(old(selected), option) && emitted == selected
    {
      var direction: Option<Direction> := None;
      if option.value == selected.value {
        direction := Some(if option.direction == Ascending then Descending else Ascending);
      }
      selected := option.(direction := direction.GetOr(option.direction));
      emitted := selected;
    }

    /** A click on the `i`-th entry of `options`, which passes the entry as rendered. */
    method ClickEntry(options: seq<Choice>, i: nat) returns (emitted: Choice)
      requires i < |options|
      modifies this
      ensures selected == Clicked(old(selected), options[i]) && emitted == selected
    {
      emitted := HandleOptionClick(RenderedOption(selected, options[i]));
    }
  }
}
