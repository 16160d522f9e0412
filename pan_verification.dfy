/** The PAN verification widget of app/components/PANVerification.tsx. A click
    on the button and the arrival of the result are two separate events, so
    the loading flag is observable in between. The result is the one
    `verifyPAN` computes for the PAN the click sent. */
module PanVerification {
  import opened Js
  import opened Patterns
  import opened AgentsRoute

  class PanWidget {
    var verified: bool
    var loading: bool
    /** The PAN sent with the pending request. */
    ghost var pending: string

    /** Once verified, the button is disabled, so no request can be in flight. */
    ghost predicate Valid()
      reads this
    {
      loading ==> !verified
    }

    /** `disabled={panVerified}` on the input. */
    predicate InputDisabled()
      reads this
    {
      verified
    }

    /** `disabled={panVerificationLoading || panVerified}` on the button. */
    predicate ButtonDisabled()
      reads this
    {
      loading || verified
    }

    constructor ()
      ensures Valid() && !verified && !loading
    {
      verified := false;
      loading := false;
      pending := "";
    }

    /** The click on the enabled button: a blank PAN does nothing, any other
        PAN starts a request (`started`) and sets the loading flag. */
    method BeginVerify(pan: string) returns (started: bool)
      requires Valid() && !ButtonDisabled()
      modifies this
      ensures Valid()
      ensures started <==> !IsBlank(pan)
      ensures verified == old(verified)
      ensures loading == started
      ensures started ==> pending == pan
    {
      if IsBlank(pan) {
        return false;
      }
      loading := true;
      pending := pan;
      started := true;
    }

    /** The result arrives: a success verifies the PAN, a failure changes
        nothing but the loading flag, and its message is not kept. */
    method FinishVerify(result: ApiResult)
      requires Valid() && loading
      requires result == VerifyPan(pending)
      modifies this
      ensures Valid()
      ensures !loading
      ensures verified <==> PanPattern(old(pending))
      ensures verified == result.success
      ensures pending == old(pending)
    {
      if result.success {
        verified := true;
      }
      loading := false;
    }
  }

  /** A whole attempt from the enabled button: the widget ends up not loading,
      verified exactly when the PAN has the right shape, and once verified
      both the input and the button are disabled. */
  method VerifyOnce(w: PanWidget, pan: string)
    requires w.Valid() && !w.ButtonDisabled()
    modifies w
    ensures w.Valid() && !w.loading
    ensures w.verified <==> !IsBlank(pan) && PanPattern(pan)
    ensures w.verified ==> w.InputDisabled() && w.ButtonDisabled()
  {
    var started := w.BeginVerify(pan);
    if started {
      w.FinishVerify(VerifyPan(pan));
    }
  }
}
