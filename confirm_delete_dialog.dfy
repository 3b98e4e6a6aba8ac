/**
 * `ConfirmDeleteDialog`: a deletion goes ahead only when the user types the
 * confirmation text (a batch's quantity, say) and presses Delete. A mismatch
 * clears the input and keeps the dialog open.
 */
module ConfirmDeleteDialog {
  import opened Text

  /** Whether a Delete press with `input` in the field confirms. */
  predicate Matches(confirmationText: string, input: string) {
    Strip(input) == confirmationText
  }

  /**
   * A session of the dialog: the user presses Delete with each of `attempts`
   * in the field, in order, then closes it unless it has already accepted.
   * The result says whether it was accepted with `confirmed` set.
   */
  function SessionConfirms(confirmationText: string, attempts: seq<string>): (ok: bool)
    ensures ok <==> exists i | 0 <= i < |attempts| :: Matches(confirmationText, attempts[i])
  {
    if attempts == [] then false
    else if Matches(confirmationText, attempts[0]) then true
    else
      var rest := SessionConfirms(confirmationText, attempts[1..]);
      assert forall i | 1 <= i < |attempts| :: attempts[i] == attempts[1..][i - 1];
      assert forall i | 0 <= i < |attempts| - 1 :: attempts[1..][i] == attempts[i + 1];
      rest
  }

  /** Only a text without surrounding whitespace can ever be confirmed, since the input is stripped. */
  lemma OnlyStrippedTextConfirms(confirmationText: string, attempts: seq<string>)
    requires SessionConfirms(confirmationText, attempts)
    ensures Strip(confirmationText) == confirmationText
  {
    var i :| 0 <= i < |attempts| && Matches(confirmationText, attempts[i]);
    StripIdempotent(attempts[i]);
  }

  class Dialog {
    const confirmationText: string
    var input: string
    var confirmed: bool
    /** Whether `accept()` has closed the dialog. */
    var accepted: bool

    /** Only an accepted dialog is confirmed. */
    predicate Valid()
      reads this
    {
      confirmed == accepted
    }

    constructor (confirmationText: string)
      ensures this.confirmationText == confirmationText
      ensures input == [] && !confirmed && !accepted && Valid()
    {
      this.confirmationText := confirmationText;
      input := [];
      confirmed := false;
      accepted := false;
    }

    /** The user edits the input field. */
    method SetInput(text: string)
      modifies this
      ensures input == text && confirmed == old(confirmed) && accepted == old(accepted)
    {
      input := text;
    }

    /** `on_confirm()`: accept on an exact match of the stripped input, otherwise clear the field. */
    method OnConfirm()
      requires Valid()
      modifies this
      ensures Valid()
      ensures Matches(confirmationText, old(input)) ==> confirmed && accepted && input == old(input)
      ensures !Matches(confirmationText, old(input)) ==>
        input == [] && confirmed == old(confirmed) && accepted == old(accepted)
    {
      if Strip(input) == confirmationText {
        confirmed := true;
        accepted := true;
      } else {
        input := [];
      }
    }

    /** `is_confirmed()`. */
    function IsConfirmed(): (c: bool)
      reads this
      requires Valid()
      ensures c <==> accepted
    {
      confirmed
    }
  }
}
