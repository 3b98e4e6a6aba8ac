/**
 * The MFA window: six one-digit fields with Google-style focus movement, a
 * Verify button that sends the six digits, and a Resend button that stays
 * disabled for a 60-second countdown.
 *
 * Every field's `textChanged` signal drives the focus slots, and the signal
 * also fires when the window itself clears a field; the model follows those
 * signal chains (`HandleBackspace` calls itself exactly where clearing a
 * non-empty field re-emits `textChanged`).
 */
module Mfa {
  import opened Wrappers
  import opened Text
  import Login

  const FieldCount: nat := 6
  const CountdownSeconds: int := 60

  /** `get_entered_code()`: the fields' texts joined. */
  function EnteredCode(codes: seq<string>): (code: string)
    ensures |code| <= SumLengths(codes)
  {
    if codes == [] then [] else EnteredCode(codes[..|codes| - 1]) + codes[|codes| - 1]
  }

  function SumLengths(codes: seq<string>): nat {
    if codes == [] then 0 else SumLengths(codes[..|codes| - 1]) + |codes[|codes| - 1]|
  }

  /** Each field holds at most one character (`setMaxLength(1)`). */
  predicate OneCharFields(codes: seq<string>) {
    forall i | 0 <= i < |codes| :: |codes[i]| <= 1
  }

  predicate AllFilled(codes: seq<string>) {
    forall i | 0 <= i < |codes| :: codes[i] != []
  }

  lemma {:induction false} EnteredCodeLength(codes: seq<string>)
    requires OneCharFields(codes)
    ensures |EnteredCode(codes)| <= |codes|
    ensures |EnteredCode(codes)| == |codes| <==> AllFilled(codes)
  {
    if codes != [] {
      var init := codes[..|codes| - 1];
      assert OneCharFields(init) by {
        forall i | 0 <= i < |init| ensures |init[i]| <= 1 {
          assert init[i] == codes[i];
        }
      }
      EnteredCodeLength(init);
      if AllFilled(codes) {
        assert AllFilled(init) by {
          forall i | 0 <= i < |init| ensures init[i] != [] {
            assert init[i] == codes[i];
          }
        }
      }
      if |EnteredCode(codes)| == |codes| {
        forall i | 0 <= i < |codes| ensures codes[i] != [] {
          if i < |init| {
            assert init[i] == codes[i];
          }
        }
      }
    }
  }

  /** The code has six digits exactly when all six fields are filled, and then some field is empty otherwise. */
  lemma SixDigitsIffAllFilled(codes: seq<string>)
    requires |codes| == FieldCount && OneCharFields(codes)
    ensures |EnteredCode(codes)| == FieldCount <==> AllFilled(codes)
    ensures |EnteredCode(codes)| != FieldCount ==> exists i | 0 <= i < FieldCount :: codes[i] == []
  {
    EnteredCodeLength(codes);
  }

  /** The index of the first empty field, or `|codes|` when there is none. */
  function FirstEmpty(codes: seq<string>): (i: nat)
    ensures i <= |codes|
    ensures i < |codes| ==> codes[i] == []
    ensures forall k | 0 <= k < i :: codes[k] != []
  {
    if codes == [] then 0
    else if codes[0] == [] then 0
    else
      var rest := FirstEmpty(codes[1..]);
      assert forall k | 1 <= k < 1 + rest :: codes[k] == codes[1..][k - 1];
      1 + rest
  }

  /**
   * Where a chain of `handle_backspace` calls started by field `idx` turning
   * empty comes to rest: it moves to `idx - 1`, clears it, and goes on only
   * if that field held a digit; it cannot go below field 0.
   */
  function CascadeStop(codes: seq<string>, idx: nat): (stop: nat)
    requires idx <= |codes|
    ensures stop <= idx
    ensures idx > 0 ==> stop < idx
    ensures forall k | stop < k < idx :: codes[k] != []
    ensures 0 < stop ==> codes[stop] == []
  {
    if idx == 0 then 0
    else if codes[idx - 1] == [] then idx - 1
    else CascadeStop(codes, idx - 1)
  }

  /** `after` is `before` with the fields `lo` up to `hi` (exclusive) emptied. */
  predicate Wiped(before: seq<string>, after: seq<string>, lo: int, hi: int) {
    |after| == |before| && forall k | 0 <= k < |before| :: after[k] == (if lo <= k < hi then [] else before[k])
  }

  /** The answer of `verify_mfa_code`: the call raises, or the `user` entry of its dictionary (an empty dict is falsy, like None). */
  datatype VerifyResponse = VerifyRaised(message: string) | VerifyResult(user: Option<Login.UserDict>)

  /** What a Verify press leads to. */
  datatype VerifyOutcome = IncompleteCode | Verified | Rejected | VerifyFailed(message: string)

  /** Messages shown without the warning prefix. */
  const MsgIncomplete: string := "Please enter all 6 digits."
  const MsgInvalid: string := "Invalid or expired MFA code. Please try again."

  /** `show_error_message(m)`. */
  function ErrorLabel(message: string): string {
    "⚠️ " + message
  }

  /** `update_resend_button_text()`. */
  function ResendText(countdown: int): (t: string)
    ensures countdown <= 0 <==> t == "Resend Code"
  {
    if countdown > 0 then "Resend Code (" + IntToString(countdown) + "s)" else "Resend Code"
  }

  /** The Resend button and its one-second timer. */
  datatype Resend = Resend(countdown: int, enabled: bool, text: string, timerActive: bool)

  /** `start_resend_countdown()`. */
  function StartCountdown(): (r: Resend)
    ensures r.countdown == CountdownSeconds && !r.enabled && r.timerActive
  {
    Resend(CountdownSeconds, false, ResendText(CountdownSeconds), true)
  }

  /** `update_resend_countdown()`, run on each timeout of the running timer. */
  function Tick(r: Resend): (s: Resend)
    requires r.timerActive
    ensures s.countdown == r.countdown - 1
    ensures s.countdown <= 0 ==> s.enabled && !s.timerActive && s.text == "Resend Code"
    ensures s.countdown > 0 ==> s.enabled == r.enabled && s.timerActive && s.text == ResendText(s.countdown)
  {
    var c := r.countdown - 1;
    if c <= 0 then Resend(c, true, ResendText(c), false)
    else Resend(c, r.enabled, ResendText(c), true)
  }

  /** The button after `n` timeouts, or None if the timer stopped before the n-th. */
  function Ticks(r: Resend, n: nat): Option<Resend> {
    if n == 0 then Some(r)
    else match Ticks(r, n - 1)
      case None => None
      case Some(p) => if p.timerActive then Some(Tick(p)) else None
  }

  /** A running countdown at `c` seconds keeps the button disabled until its c-th timeout, which enables it and stops the timer. */
  lemma {:induction false} CountdownRuns(r: Resend, n: nat)
    requires r.timerActive && !r.enabled && r.countdown > 0 && 0 < n <= r.countdown
    ensures Ticks(r, n).Some?
    ensures var p := Ticks(r, n).value;
      && p.countdown == r.countdown - n
      && p.text == ResendText(r.countdown - n)
      && (p.enabled <==> n == r.countdown)
      && (p.timerActive <==> n < r.countdown)
  {
    if n > 1 {
      CountdownRuns(r, n - 1);
    }
  }

  /** During the first 59 seconds the button stays disabled and shows the seconds left; the 60th timeout enables it and stops the timer. */
  lemma CountdownEnablesResend(n: nat)
    requires 0 < n <= CountdownSeconds
    ensures Ticks(StartCountdown(), n).Some?
    ensures var p := Ticks(StartCountdown(), n).value;
      && p.countdown == CountdownSeconds - n
      && p.text == ResendText(CountdownSeconds - n)
      && (p.enabled <==> n == CountdownSeconds)
      && (p.timerActive <==> n < CountdownSeconds)
  {
    var r := StartCountdown();
    assert r.timerActive && !r.enabled && r.countdown == CountdownSeconds;
    CountdownRuns(r, n);
  }

  /** The timer stops on the 60th timeout, so no further timeout arrives. */
  lemma NoTickAfterEnabled()
    ensures Ticks(StartCountdown(), CountdownSeconds + 1).None?
  {
    CountdownEnablesResend(CountdownSeconds);
  }

  class Window {
    const username: string
    const email: string
    /** The six fields' texts. */
    var codes: seq<string>
    /** The index of the field holding the keyboard focus. */
    var focus: int
    var verifyEnabled: bool
    /** The error label's text while it is shown. */
    var errorText: Option<string>
    var userData: Option<Login.UserDict>
    var accepted: bool
    /** Whether `on_last_digit` has scheduled an automatic Verify. */
    var verifyScheduled: bool
    var resend: Resend

    /** Six fields of at most one character and a focus on one of them. */
    predicate Valid()
      reads this
    {
      |codes| == FieldCount && OneCharFields(codes) && 0 <= focus < FieldCount
    }

    /** `__init__` and `init_ui()`: empty fields, focus on the first, countdown running. */
    constructor (username: string, email: string)
      ensures this.username == username && this.email == email
      ensures Valid() && codes == seq(FieldCount, _ => []) && focus == 0
      ensures verifyEnabled && errorText.None? && userData.None? && !accepted && !verifyScheduled
      ensures resend == StartCountdown()
    {
      this.username := username;
      this.email := email;
      codes := seq(FieldCount, _ => []);
      focus := 0;
      verifyEnabled := true;
      errorText := None;
      userData := None;
      accepted := false;
      verifyScheduled := false;
      resend := StartCountdown();
    }

    /** `move_to_next(text, idx)`. */
    method MoveToNext(text: string, idx: int)
      requires Valid() && 0 <= idx < FieldCount
      modifies this
      ensures Valid()
      ensures focus == (if text != [] && idx < FieldCount - 1 then idx + 1 else old(focus))
      ensures codes == old(codes) && resend == old(resend) && errorText == old(errorText)
      ensures verifyEnabled == old(verifyEnabled) && accepted == old(accepted)
      ensures userData == old(userData) && verifyScheduled == old(verifyScheduled)
    {
      if text != [] && idx < FieldCount - 1 {
        focus := idx + 1;
      }
    }

    /**
     * `handle_backspace(text, idx)` with the signal it sets off: clearing
     * the previous field emits `textChanged("")` there when it held a digit,
     * which runs `handle_backspace` again one field further left. So the whole
     * run of filled fields before `idx` is wiped, not just the previous one.
     */
    method HandleBackspace(text: string, idx: int)
      requires Valid() && 0 <= idx < FieldCount
      modifies this
      decreases idx
      ensures Valid()
      ensures text != [] || idx == 0 ==> codes == old(codes) && focus == old(focus)
      ensures text == [] && idx > 0 ==>
        var stop := CascadeStop(old(codes), idx);
        && focus == stop
        && Wiped(old(codes), codes, stop, idx)
      ensures resend == old(resend) && errorText == old(errorText)
      ensures verifyEnabled == old(verifyEnabled) && accepted == old(accepted)
      ensures userData == old(userData) && verifyScheduled == old(verifyScheduled)
    {
      if text == [] && idx > 0 {
        focus := idx - 1;
        if codes[idx - 1] != [] {
          ghost var before := codes;
          codes := codes[idx - 1 := []];
          CascadeAgrees(codes, before, idx - 1);
          // textChanged("") on field idx - 1: move_to_next does nothing, handle_backspace recurs
          HandleBackspace([], idx - 1);
        }
      }
    }

    /** `handle_backspace` as its docstring intends: focus and clear the previous field only. */
    method HandleBackspaceCorrected(text: string, idx: int)
      requires Valid() && 0 <= idx < FieldCount
      modifies this
      ensures Valid()
      ensures text != [] || idx == 0 ==> codes == old(codes) && focus == old(focus)
      ensures text == [] && idx > 0 ==> focus == idx - 1 && codes == old(codes)[idx - 1 := []]
      ensures resend == old(resend) && errorText == old(errorText)
      ensures verifyEnabled == old(verifyEnabled) && accepted == old(accepted)
      ensures userData == old(userData) && verifyScheduled == old(verifyScheduled)
    {
      if text == [] && idx > 0 {
        focus := idx - 1;
        codes := codes[idx - 1 := []];
      }
    }

    /** `on_last_digit(text)`: a digit in the last field with all six filled schedules a Verify. */
    method OnLastDigit(text: string)
      requires Valid()
      modifies this
      ensures Valid()
      ensures verifyScheduled == (old(verifyScheduled) || (text != [] && AllFilled(codes)))
      ensures codes == old(codes) && focus == old(focus) && resend == old(resend)
      ensures errorText == old(errorText) && verifyEnabled == old(verifyEnabled)
      ensures accepted == old(accepted) && userData == old(userData)
    {
      SixDigitsIffAllFilled(codes);
      if text != [] && |EnteredCode(codes)| == FieldCount {
        verifyScheduled := true;
      }
    }

    /** The user sets field `idx` to `text` (a digit or nothing); a change emits `textChanged`, which runs the field's slots in the order they were connected. */
    method Edit(idx: int, text: string)
      requires Valid() && 0 <= idx < FieldCount && |text| <= 1
      modifies this
      ensures Valid()
      ensures old(codes)[idx] == text ==> codes == old(codes) && focus == old(focus)
      ensures old(codes)[idx] != text && text != [] ==>
        && codes == old(codes)[idx := text]
        && focus == (if idx < FieldCount - 1 then idx + 1 else old(focus))
      ensures old(codes)[idx] != text && text == [] && idx > 0 ==>
        var stop := CascadeStop(old(codes), idx);
        && focus == stop
        && Wiped(old(codes), codes, stop, idx + 1)
      ensures old(codes)[idx] != text && text == [] && idx == 0 ==>
        codes == old(codes)[0 := []] && focus == old(focus)
      ensures resend == old(resend) && errorText == old(errorText)
      ensures verifyEnabled == old(verifyEnabled) && accepted == old(accepted) && userData == old(userData)
      ensures verifyScheduled == (old(verifyScheduled)
        || (old(codes)[idx] != text && idx == FieldCount - 1 && text != [] && AllFilled(old(codes)[idx := text])))
    {
      if codes[idx] == text {
        return;
      }
      codes := codes[idx := text];
      if idx < FieldCount - 1 {
        MoveToNext(text, idx);
      }
      ghost var edited := codes;
      HandleBackspace(text, idx);
      if text == [] && idx > 0 {
        assert forall k | 0 <= k < idx :: edited[k] == old(codes)[k];
        CascadeAgrees(edited, old(codes), idx);
      }
      if idx == FieldCount - 1 {
        OnLastDigit(text);
      }
    }

    /** `Edit` with the corrected backspace slot: deleting a digit clears it and at most the one before it. */
    method EditCorrected(idx: int, text: string)
      requires Valid() && 0 <= idx < FieldCount && |text| <= 1
      modifies this
      ensures Valid()
      ensures old(codes)[idx] == text ==> codes == old(codes) && focus == old(focus)
      ensures old(codes)[idx] != text && text != [] ==>
        && codes == old(codes)[idx := text]
        && focus == (if idx < FieldCount - 1 then idx + 1 else old(focus))
      ensures old(codes)[idx] != text && text == [] && idx > 0 ==>
        focus == idx - 1 && codes == old(codes)[idx := []][idx - 1 := []]
      ensures old(codes)[idx] != text && text == [] && idx == 0 ==>
        focus == old(focus) && codes == old(codes)[idx := []]
      ensures resend == old(resend) && errorText == old(errorText)
      ensures verifyEnabled == old(verifyEnabled) && accepted == old(accepted) && userData == old(userData)
      ensures verifyScheduled == (old(verifyScheduled)
        || (old(codes)[idx] != text && idx == FieldCount - 1 && text != [] && AllFilled(old(codes)[idx := text])))
    {
      if codes[idx] == text {
        return;
      }
      codes := codes[idx := text];
      if idx < FieldCount - 1 {
        MoveToNext(text, idx);
      }
      HandleBackspaceCorrected(text, idx);
      if idx == FieldCount - 1 {
        OnLastDigit(text);
      }
    }

    /** `clear_code_inputs()`: each field is cleared in turn; the signals this sends only clear fields that are already empty. */
    method ClearCodeInputs()
      requires Valid()
      modifies this
      ensures Valid() && codes == seq(FieldCount, _ => [])
      ensures resend == old(resend) && errorText == old(errorText)
      ensures verifyEnabled == old(verifyEnabled) && accepted == old(accepted)
      ensures userData == old(userData) && verifyScheduled == old(verifyScheduled)
    {
      var i := 0;
      while i < FieldCount
        invariant 0 <= i <= FieldCount && Valid()
        invariant forall k | 0 <= k < i :: codes[k] == []
        invariant resend == old(resend) && errorText == old(errorText)
        invariant verifyEnabled == old(verifyEnabled) && accepted == old(accepted)
        invariant userData == old(userData) && verifyScheduled == old(verifyScheduled)
      {
        if codes[i] != [] {
          codes := codes[i := []];
          HandleBackspace([], i);
        }
        i := i + 1;
      }
    }

    /** `on_verify()`, with the API's answer as a parameter. */
    method OnVerify(response: VerifyResponse) returns (o: VerifyOutcome)
      requires Valid()
      modifies this
      ensures Valid()
      ensures !AllFilled(old(codes)) ==>
        && o == IncompleteCode && errorText == Some(ErrorLabel(MsgIncomplete))
        && codes == old(codes) && focus == FirstEmpty(codes) && verifyEnabled == old(verifyEnabled)
        && accepted == old(accepted) && userData == old(userData)
      ensures AllFilled(old(codes)) && response.VerifyResult? && response.user.Some? && response.user.value != map[] ==>
        && o == Verified && accepted && userData == response.user && !verifyEnabled
        && errorText.None? && codes == old(codes)
      ensures AllFilled(old(codes)) && response.VerifyResult? && (response.user.None? || response.user.value == map[]) ==>
        && o == Rejected && errorText == Some(ErrorLabel(MsgInvalid))
        && codes == seq(FieldCount, _ => []) && focus == 0 && verifyEnabled
        && accepted == old(accepted) && userData == old(userData)
      ensures AllFilled(old(codes)) && response.VerifyRaised? ==>
        && o == VerifyFailed(response.message) && errorText == Some(ErrorLabel(response.message))
        && codes == seq(FieldCount, _ => []) && focus == 0 && verifyEnabled
        && accepted == old(accepted) && userData == old(userData)
      ensures resend == old(resend) && verifyScheduled == old(verifyScheduled)
    {
      SixDigitsIffAllFilled(codes);
      if |EnteredCode(codes)| != FieldCount {
        errorText := Some(ErrorLabel(MsgIncomplete));
        focus := FirstEmpty(codes);
        return IncompleteCode;
      }
      verifyEnabled := false;
      errorText := None;
      match response
      case VerifyResult(user) =>
        if user.Some? && user.value != map[] {
          userData := user;
          accepted := true;
          o := Verified;
        } else {
          errorText := Some(ErrorLabel(MsgInvalid));
          ClearCodeInputs();
          verifyEnabled := true;
          focus := 0;
          o := Rejected;
        }
      case VerifyRaised(message) =>
        errorText := Some(ErrorLabel(message));
        ClearCodeInputs();
        verifyEnabled := true;
        focus := 0;
        o := VerifyFailed(message);
    }

    /** `resend_code()`: possible only once the button is enabled; the countdown starts again. */
    method ResendCode()
      requires Valid() && resend.enabled
      modifies this
      ensures Valid() && resend == StartCountdown()
      ensures codes == old(codes) && focus == old(focus) && errorText == old(errorText)
      ensures verifyEnabled == old(verifyEnabled) && accepted == old(accepted)
      ensures userData == old(userData) && verifyScheduled == old(verifyScheduled)
    {
      resend := StartCountdown();
    }

    /** A timeout of the running resend timer. */
    method UpdateResendCountdown()
      requires Valid() && resend.timerActive
      modifies this
      ensures Valid() && resend == Tick(old(resend))
      ensures codes == old(codes) && focus == old(focus) && errorText == old(errorText)
      ensures verifyEnabled == old(verifyEnabled) && accepted == old(accepted)
      ensures userData == old(userData) && verifyScheduled == old(verifyScheduled)
    {
      resend := Tick(resend);
    }
  }

  /** The cascade's stopping point depends only on the fields before `idx`. */
  lemma {:induction false} CascadeAgrees(a: seq<string>, b: seq<string>, idx: nat)
    requires idx <= |a| && idx <= |b|
    requires forall k | 0 <= k < idx :: a[k] == b[k]
    ensures CascadeStop(a, idx) == CascadeStop(b, idx)
  {
    if idx > 0 && a[idx - 1] != [] {
      CascadeAgrees(a, b, idx - 1);
    }
  }

  /** Deleting the fifth digit of a code typed up to there stops the cascade only at field 0, so `Edit` wipes all five digits. */
  lemma BackspaceWipesEarlierDigits()
    ensures CascadeStop(["1", "2", "3", "4", "5", ""], 4) == 0
  {
    var codes := ["1", "2", "3", "4", "5", ""];
    assert CascadeStop(codes, 1) == 0;
    assert CascadeStop(codes, 2) == 0;
    assert CascadeStop(codes, 3) == 0;
  }
}
