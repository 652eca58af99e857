/** The four-slot PIN pad every PIN prompt of the dashboard uses. */
module PinModal {
  import opened Wrappers
  import opened Text

  const PIN_SLOTS := 4
  const PIN_LENGTH_ERROR := "Please enter a 4-digit PIN"

  /** What `handlePinChange` lets into a slot: at most one character, and only digits (`/^\d*$/`). */
  predicate AcceptedInput(value: string) {
    |value| <= 1 && AllDigits(value)
  }

  /**
   * Slots that each hold nothing or one digit join to a digit string no longer than the
   * number of slots, and it reaches that length only when every slot is filled.
   */
  lemma {:induction false} JoinedSlots(slots: seq<string>)
    requires forall i | 0 <= i < |slots| :: AcceptedInput(slots[i])
    ensures AllDigits(Join(slots)) && |Join(slots)| <= |slots|
    ensures |Join(slots)| == |slots| ==> forall i | 0 <= i < |slots| :: |slots[i]| == 1
  {
    JoinShortParts(slots);
    if slots != [] {
      var init := slots[..|slots| - 1];
      JoinedSlots(init);
      var last := slots[|slots| - 1];
      assert Join(slots) == Join(init) + last;
      forall k | 0 <= k < |Join(slots)| ensures IsDigit(Join(slots)[k]) {
        if k < |Join(init)| {
          assert Join(slots)[k] == Join(init)[k];
        } else {
          assert Join(slots)[k] == last[k - |Join(init)|];
        }
      }
    }
  }

  class PinPad {
    /** The `pin` state: one string per input box. */
    const pin: array<string>
    var error: string

    ghost predicate Valid()
      reads this, pin
    {
      pin.Length == PIN_SLOTS && forall i | 0 <= i < PIN_SLOTS :: AcceptedInput(pin[i])
    }

    constructor ()
      ensures Valid() && fresh(pin)
      ensures pin[..] == ["", "", "", ""] && error == ""
    {
      pin := new string[PIN_SLOTS](_ => "");
      error := "";
      new;
      assert pin[..] == ["", "", "", ""];
    }

    /** `handlePinChange`: a rejected value leaves every slot alone; an accepted one fills slot `index` only. */
    method HandlePinChange(index: nat, value: string)
      requires Valid() && index < PIN_SLOTS
      modifies pin
      ensures Valid()
      ensures AcceptedInput(value) ==> pin[..] == old(pin[..])[index := value]
      ensures !AcceptedInput(value) ==> pin[..] == old(pin[..])
    {
      if !AcceptedInput(value) {
        return;
      }
      pin[index] := value;
    }

    /**
     * `handleSubmit`: fewer than four digits sets the error and submits nothing; four digits
     * are handed to `onSuccess` (the result), after which the pad is cleared.
     */
    method HandleSubmit() returns (submitted: Option<string>)
      requires Valid()
      modifies this, pin
      ensures Valid()
      ensures |Join(old(pin[..]))| != PIN_SLOTS ==>
        submitted.None? && error == PIN_LENGTH_ERROR && pin[..] == old(pin[..])
      ensures |Join(old(pin[..]))| == PIN_SLOTS ==>
        submitted == Some(Join(old(pin[..]))) && pin[..] == ["", "", "", ""] && error == ""
      ensures submitted.Some? ==> |submitted.value| == PIN_SLOTS && AllDigits(submitted.value)
    {
      var pinValue := Join(pin[..]);
      JoinedSlots(pin[..]);
      if |pinValue| != PIN_SLOTS {
        error := PIN_LENGTH_ERROR;
        submitted := None;
        return;
      }
      submitted := Some(pinValue);
      Clear();
    }

    /** `handleClose`: the pad is emptied and the error cleared before `onClose`. */
    method HandleClose()
      requires Valid()
      modifies this, pin
      ensures Valid()
      ensures pin[..] == ["", "", "", ""] && error == ""
    {
      Clear();
    }

    method Clear()
      requires pin.Length == PIN_SLOTS
      modifies this, pin
      ensures Valid()
      ensures pin[..] == ["", "", "", ""] && error == ""
    {
      pin[0], pin[1], pin[2], pin[3] := "", "", "", "";
      error := "";
    }
  }
}
