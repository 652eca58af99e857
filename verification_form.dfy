/** The six-box e-mail verification code form with its ten-minute resend countdown. */
module VerificationForm {
  import opened Wrappers
  import opened Text

  const CODE_LENGTH := 6
  const RESEND_SECONDS := 600
  const INCOMPLETE_CODE := "Please enter the complete 6-digit code"
  const VERIFICATION_FAILED := "Verification failed"
  const RESEND_FAILED := "Failed to resend code"

  /** What a `fetch` to the auth server comes back with: a reply with its `ok` flag and message, or a thrown error. */
  datatype Reply = Answered(ok: bool, message: string) | Thrown(message: string)

  // ---------------------------------------------------------------- formatTime

  /** `formatTime`: whole minutes, a colon, and the remaining seconds padded to two digits. */
  function FormatTime(seconds: nat): (t: string)
    ensures ':' in t
  {
    Decimal(seconds / 60) + ":" + PadStart2(Decimal(seconds % 60))
  }

  /** Reads `m:ss` back: digits, a colon, then exactly two digits below 60. */
  function ParseTime(t: string): Option<nat> {
    match IndexOf(t, ':')
    case None => None
    case Some(k) =>
      var mins := ParseDecimal(t[..k]);
      var secs := ParseDecimal(t[k + 1..]);
      if mins.Some? && secs.Some? && |t| - (k + 1) == 2 && secs.value < 60
      then Some(mins.value * 60 + secs.value) else None
  }

  /** The padded seconds field is two digits and reads back as the seconds. */
  lemma PaddedSeconds(secs: nat)
    requires secs < 60
    ensures |PadStart2(Decimal(secs))| == 2
    ensures ParseDecimal(PadStart2(Decimal(secs))) == Some(secs)
  {
    DecimalRoundTrip(secs);
    if secs < 10 {
      var s := PadStart2(Decimal(secs));
      assert s == "0" + [DigitChar(secs)];
      assert s[..1] == "0" && s[..1][..0] == [];
      assert DigitsValue(s) == DigitsValue(s[..1]) * 10 + DigitValue(s[1]);
    }
  }

  /** In a run of digits followed by a colon, the first colon is the one after the digits. */
  lemma ColonAfterDigits(mins: string, rest: string)
    requires AllDigits(mins)
    ensures IndexOf(mins + ":" + rest, ':') == Some(|mins|)
  {
    var t := mins + ":" + rest;
    assert t[..|mins|] == mins;
    assert ':' !in mins by {
      forall i | 0 <= i < |mins| ensures mins[i] != ':' {
        assert IsDigit(mins[i]);
      }
    }
    assert t[|mins|] == ':';
  }

  /** The countdown display loses nothing: reading it back gives the seconds it was made from. */
  lemma FormatTimeRoundTrip(seconds: nat)
    ensures ParseTime(FormatTime(seconds)) == Some(seconds)
  {
    var q, r := seconds / 60, seconds % 60;
    assert q * 60 + r == seconds;
    var mins := Decimal(q);
    var secs := PadStart2(Decimal(r));
    var t := mins + ":" + secs;
    assert FormatTime(seconds) == t;
    ColonAfterDigits(mins, secs);
    assert t[..|mins|] == mins;
    assert t[|mins| + 1..] == secs;
    DecimalRoundTrip(q);
    PaddedSeconds(r);
    assert ParseDecimal(t[..|mins|]) == Some(q);
    assert ParseDecimal(t[|mins| + 1..]) == Some(r);
    assert |t| - (|mins| + 1) == 2;
  }

  // ---------------------------------------------------------------- form state

  class CodeForm {
    /** The `code` state: one string per box. */
    const code: array<string>
    var timeLeft: nat
    var canResend: bool
    var error: string

    /** Every box holds at most one character; resending is offered exactly when the countdown is at zero. */
    ghost predicate Valid()
      reads this, code
    {
      code.Length == CODE_LENGTH
      && (forall i | 0 <= i < CODE_LENGTH :: |code[i]| <= 1)
      && timeLeft <= RESEND_SECONDS
      && (canResend <==> timeLeft == 0)
    }

    constructor ()
      ensures Valid() && fresh(code)
      ensures code[..] == ["", "", "", "", "", ""] && timeLeft == RESEND_SECONDS && !canResend && error == ""
    {
      code := new string[CODE_LENGTH](_ => "");
      timeLeft := RESEND_SECONDS;
      canResend := false;
      error := "";
      new;
      assert code[..] == ["", "", "", "", "", ""];
    }

    /** One second of the countdown: it stops at zero, and reaching zero enables resending. */
    method Tick()
      requires Valid()
      modifies this`timeLeft, this`canResend
      ensures Valid()
      ensures old(timeLeft) <= 1 ==> timeLeft == 0 && canResend
      ensures old(timeLeft) > 1 ==> timeLeft == old(timeLeft) - 1 && canResend == old(canResend)
      ensures timeLeft <= old(timeLeft)
    {
      if timeLeft <= 1 {
        canResend := true;
        timeLeft := 0;
      } else {
        timeLeft := timeLeft - 1;
      }
    }

    /** `handleCodeChange`: a value of more than one character is ignored; any other, digit or not, fills box `index`. */
    method HandleCodeChange(index: nat, value: string)
      requires Valid() && index < CODE_LENGTH
      modifies code
      ensures Valid()
      ensures |value| > 1 ==> code[..] == old(code[..])
      ensures |value| <= 1 ==> code[..] == old(code[..])[index := value]
    {
      if |value| > 1 {
        return;
      }
      code[index] := value;
    }

    /**
     * `handleSubmit`: an incomplete code sets the error and sends nothing; a complete one is sent
     * (`sent`) and the reply decides: accepted, or its message (or a fallback) becomes the error.
     */
    method HandleSubmit(reply: Reply) returns (sent: Option<string>, verified: bool)
      requires Valid()
      modifies this`error
      ensures Valid()
      ensures |Join(code[..])| != CODE_LENGTH ==> sent.None? && !verified && error == INCOMPLETE_CODE
      ensures |Join(code[..])| == CODE_LENGTH ==> sent == Some(Join(code[..]))
      ensures sent.Some? ==> forall i | 0 <= i < CODE_LENGTH :: |code[i]| == 1
      ensures sent.Some? && reply.Answered? && reply.ok ==> verified && error == ""
      ensures sent.Some? && !(reply.Answered? && reply.ok) ==>
        !verified && error == (if reply.message == "" then VERIFICATION_FAILED else reply.message)
    {
      var verificationCode := Join(code[..]);
      JoinShortParts(code[..]);
      if |verificationCode| != CODE_LENGTH {
        error := INCOMPLETE_CODE;
        return None, false;
      }
      sent := Some(verificationCode);
      error := "";
      if reply.Answered? && reply.ok {
        verified := true;
      } else {
        verified := false;
        error := if reply.message == "" then VERIFICATION_FAILED else reply.message;
      }
    }

    /**
     * `handleResendCode`: nothing happens before the countdown has run out; an accepted resend
     * restarts it, a refused one changes nothing, a thrown one only sets the error.
     */
    method HandleResendCode(reply: Reply) returns (requested: bool)
      requires Valid()
      modifies this`timeLeft, this`canResend, this`error
      ensures Valid()
      ensures requested == old(canResend)
      ensures !requested || (reply.Answered? && !reply.ok) ==>
        timeLeft == old(timeLeft) && canResend == old(canResend) && error == old(error)
      ensures requested && reply.Answered? && reply.ok ==> timeLeft == RESEND_SECONDS && !canResend && error == ""
      ensures requested && reply.Thrown? ==> timeLeft == old(timeLeft) && canResend == old(canResend) && error == RESEND_FAILED
    {
      if !canResend {
        return false;
      }
      requested := true;
      match reply {
        case Answered(ok, _) =>
          if ok {
            timeLeft := RESEND_SECONDS;
            canResend := false;
            error := "";
          }
        case Thrown(_) =>
          error := RESEND_FAILED;
      }
    }
  }

  /** The countdown runs for exactly ten minutes: 599 ticks leave one second, the 600th enables resending. */
  lemma CountdownLength(start: nat, ticks: nat)
    requires start == RESEND_SECONDS && ticks <= RESEND_SECONDS
    ensures Countdown(start, ticks) == RESEND_SECONDS - ticks
    ensures Countdown(start, ticks) == 0 <==> ticks == RESEND_SECONDS
  {
    CountdownSteps(start, ticks);
  }

  /** `timeLeft` after `ticks` ticks from `start`. */
  function Countdown(start: nat, ticks: nat): nat {
    if ticks == 0 then start
    else var prev := Countdown(start, ticks - 1); if prev <= 1 then 0 else prev - 1
  }

  lemma {:induction false} CountdownSteps(start: nat, ticks: nat)
    ensures Countdown(start, ticks) == if ticks <= start then start - ticks else 0
  {
    if ticks > 0 {
      CountdownSteps(start, ticks - 1);
    }
  }
}
