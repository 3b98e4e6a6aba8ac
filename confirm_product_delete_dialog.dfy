/**
 * `ConfirmProductDeleteDialog`: the Delete button is enabled exactly while the
 * stripped input equals the product's current stock text, and pressing it
 * confirms on that same match.
 */
module ConfirmProductDeleteDialog {
  import opened Text

  class Dialog {
    const currentStock: string
    var input: string
    var deleteEnabled: bool
    var confirmed: bool
    var accepted: bool

    /** The button follows the input (`validate_input` runs on every text change), and only an accepted dialog is confirmed. */
    predicate Valid()
      reads this
    {
      && deleteEnabled == (Strip(input) == currentStock)
      && confirmed == accepted
    }

    /** The button starts disabled, which agrees with the empty input for any non-empty stock text. */
    constructor (currentStock: string)
      ensures this.currentStock == currentStock
      ensures input == [] && !deleteEnabled && !confirmed && !accepted
      ensures currentStock != [] ==> Valid()
    {
      this.currentStock := currentStock;
      input := [];
      deleteEnabled := false;
      confirmed := false;
      accepted := false;
    }

    /** `validate_input(text)`, connected to `textChanged`. */
    method ValidateInput(text: string)
      modifies this
      ensures input == text
      ensures deleteEnabled <==> Strip(text) == currentStock
      ensures confirmed == old(confirmed) && accepted == old(accepted)
    {
      input := text;
      deleteEnabled := Strip(text) == currentStock;
    }

    /** `on_confirm()`: accept on a match, otherwise clear the input (which re-validates it). */
    method OnConfirm()
      requires Valid()
      modifies this
      ensures Valid()
      ensures Strip(old(input)) == currentStock ==> confirmed && accepted && input == old(input)
      ensures Strip(old(input)) != currentStock ==>
        input == [] && confirmed == old(confirmed) && accepted == old(accepted)
    {
      if Strip(input) == currentStock {
        confirmed := true;
        accepted := true;
      } else if input != [] {
        // `clear()` emits `textChanged("")` only when the text was not already empty.
        ValidateInput([]);
      }
    }

    function IsConfirmed(): (c: bool)
      reads this
      requires Valid()
      ensures c <==> accepted
    {
      confirmed
    }
  }
}
