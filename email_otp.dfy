/** The email verification widget of app/components/EmailOTP.tsx. Each button
    press and the arrival of its result are separate events, so the two
    loading flags are observable in between. Results come from the gateway
    and are parameters. */
module EmailOtp {
  import opened Js
  import opened AgentsRoute

  class EmailOtpWidget {
    var sent: bool
    var verified: bool
    var code: string
    var sendLoading: bool
    var verifyLoading: bool
    /** How many times `onVerificationComplete` has been called. */
    ghost var completions: nat

    ghost predicate Valid()
      reads this
    {
      && (verified ==> sent)
      && (sendLoading ==> !sent)
      && (verifyLoading ==> sent && !verified)
      && completions == (if verified then 1 else 0)
    }

    /** `!emailOtpSent && !emailOtpVerified`: the send button is rendered. */
    predicate SendButtonShown()
      reads this
    {
      !sent && !verified
    }

    /** `emailOtpSent && !emailOtpVerified`: the code input and verify button are rendered. */
    predicate OtpEntryShown()
      reads this
    {
      sent && !verified
    }

    predicate SendButtonDisabled()
      reads this
    {
      sendLoading
    }

    predicate VerifyButtonDisabled()
      reads this
    {
      verifyLoading
    }

    predicate EmailInputDisabled()
      reads this
    {
      verified
    }

    constructor ()
      ensures Valid()
      ensures !sent && !verified && code == "" && !sendLoading && !verifyLoading
    {
      sent := false;
      verified := false;
      code := "";
      sendLoading := false;
      verifyLoading := false;
      completions := 0;
    }

    /** At most one of the two controls is rendered, and once sent the send
        button never comes back. */
    lemma ControlsExclusive()
      requires Valid()
      ensures !(SendButtonShown() && OtpEntryShown())
      ensures sent ==> !SendButtonShown()
    {
    }

    /** A press of the enabled send button: a blank email does nothing,
        any other email starts a request (`started`). */
    method BeginSend(email: string) returns (started: bool)
      requires Valid() && SendButtonShown() && !SendButtonDisabled()
      modifies this
      ensures Valid()
      ensures started <==> !IsBlank(email)
      ensures sendLoading == started
      ensures sent == old(sent) && verified == old(verified) && code == old(code)
      ensures verifyLoading == old(verifyLoading) && completions == old(completions)
    {
      if IsBlank(email) {
        return false;
      }
      sendLoading := true;
      started := true;
    }

    /** The send result arrives: only a success marks the code as sent, and
        nothing but the loading flag changes otherwise. */
    method FinishSend(result: ApiResult)
      requires Valid() && sendLoading
      modifies this
      ensures Valid()
      ensures !sendLoading
      ensures sent <==> result.success
      ensures verified == old(verified) && code == old(code)
      ensures verifyLoading == old(verifyLoading) && completions == old(completions)
    {
      if result.success {
        sent := true;
      }
      sendLoading := false;
    }

    /** Typing in the code input, which is rendered only while the code is awaited. */
    method SetCode(c: string)
      requires Valid() && OtpEntryShown()
      modifies this
      ensures Valid()
      ensures code == c
      ensures sent == old(sent) && verified == old(verified)
      ensures sendLoading == old(sendLoading) && verifyLoading == old(verifyLoading)
      ensures completions == old(completions)
    {
      code := c;
    }

    /** A press of the enabled verify button: a blank code does nothing. */
    method BeginVerify() returns (started: bool)
      requires Valid() && OtpEntryShown() && !VerifyButtonDisabled()
      modifies this
      ensures Valid()
      ensures started <==> !IsBlank(old(code))
      ensures verifyLoading == started
      ensures sent == old(sent) && verified == old(verified) && code == old(code)
      ensures sendLoading == old(sendLoading) && completions == old(completions)
    {
      if IsBlank(code) {
        return false;
      }
      verifyLoading := true;
      started := true;
    }

    /** The verify result arrives: a success verifies the email and calls
        `onVerificationComplete` (`notify`) for the first and only time; a
        failure changes nothing but the loading flag. */
    method FinishVerify(result: ApiResult) returns (notify: bool)
      requires Valid() && verifyLoading
      modifies this
      ensures Valid()
      ensures !verifyLoading
      ensures notify == result.success
      ensures verified == result.success
      ensures completions == old(completions) + (if notify then 1 else 0)
      ensures sent == old(sent) && code == old(code) && sendLoading == old(sendLoading)
    {
      notify := result.success;
      if notify {
        verified := true;
        completions := completions + 1;
      }
      verifyLoading := false;
    }
  }

  /** A complete exchange from a fresh widget: the email is verified only
      when both the send and the verify calls succeed, and then the
      completion callback has been called exactly once and the email input
      is locked. */
  method SendThenVerify(email: string, sendResult: ApiResult, c: string, verifyResult: ApiResult)
    returns (w: EmailOtpWidget)
    ensures w.Valid() && !w.sendLoading && !w.verifyLoading
    ensures w.sent <==> !IsBlank(email) && sendResult.success
    ensures w.verified <==> w.sent && !IsBlank(c) && verifyResult.success
    ensures w.completions == (if w.verified then 1 else 0)
    ensures w.verified ==> w.EmailInputDisabled() && !w.SendButtonShown() && !w.OtpEntryShown()
  {
    w := new EmailOtpWidget();
    var started := w.BeginSend(email);
    if !started {
      return;
    }
    w.FinishSend(sendResult);
    if !w.sent {
      return;
    }
    w.SetCode(c);
    started := w.BeginVerify();
    if started {
      var _ := w.FinishVerify(verifyResult);
    }
  }
}
