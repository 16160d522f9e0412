/** The wizard controller of app/components/AgentForm.tsx: flow selection from
    the referral parameter, field edits, the validated step navigation, and the
    two-phase submission (create the agent, then set its password). The React
    state is a class; the results of the two service calls are parameters. */
module AgentForm {
  import opened Js
  import opened AgentRecord
  import opened FormValidator
  import opened AgentsRoute

  const SelfOnboard := "self-onboard"

  // ---------------------------------------------------------------------------
  // Flow selection

  /** The referral effect: a non-empty `referredby` parameter becomes the parent
      agent, and without one the agent onboards itself. */
  function ParentAgentIdFor(referredBy: Option<string>): (p: string)
    ensures referredBy.Some? && referredBy.value != "" ==> p == referredBy.value
    ensures referredBy.None? || referredBy.value == "" ==> p == SelfOnboard
  {
    if referredBy.Some? && referredBy.value != "" then referredBy.value else SelfOnboard
  }

  /** `isReferred`: every parent id except the literal "self-onboard". */
  predicate IsReferredId(parentAgentId: string) {
    parentAgentId != SelfOnboard
  }

  /** The referred flow is chosen exactly when the parameter holds a non-empty
      value other than "self-onboard"; `?referredby=self-onboard` therefore
      selects self-onboarding. */
  lemma ReferredFlowIff(referredBy: Option<string>)
    ensures IsReferredId(ParentAgentIdFor(referredBy))
        <==> referredBy.Some? && referredBy.value != "" && referredBy.value != SelfOnboard
  {
  }

  /** `steps.length`: the number of entries of the step list of each flow. */
  function StepCount(isReferred: bool): nat {
    if isReferred then 4 else 6
  }

  /** The bound `nextStep` clamps at, one past the step list. */
  function LastStep(isReferred: bool): (n: nat)
    ensures n == StepCount(isReferred) + 1
  {
    if isReferred then 5 else 7
  }

  // ---------------------------------------------------------------------------
  // Navigation

  /** `Math.min(step + 1, last)`. */
  function Advance(step: int, isReferred: bool): (next: int)
    ensures next <= LastStep(isReferred)
    ensures step < LastStep(isReferred) ==> next == step + 1
    ensures step >= LastStep(isReferred) ==> next == LastStep(isReferred)
  {
    var last := LastStep(isReferred);
    if step + 1 < last then step + 1 else last
  }

  /** `Math.max(step - 1, 1)`. */
  function Retreat(step: int): (prev: int)
    ensures prev >= 1
    ensures step > 1 ==> prev == step - 1
    ensures step <= 1 ==> prev == 1
  {
    if step - 1 > 1 then step - 1 else 1
  }

  /** A press of Next (whether its checks passed) or of Previous. */
  datatype NavEvent = Next(passes: bool) | Prev

  function StepAfter(step: int, isReferred: bool, e: NavEvent): int {
    match e
    case Next(passes) => if passes then Advance(step, isReferred) else step
    case Prev => Retreat(step)
  }

  /** The step after a run of presses, each handled as the wizard handles it. */
  function Navigate(step: int, isReferred: bool, events: seq<NavEvent>): int
    decreases |events|
  {
    if events == [] then step else Navigate(StepAfter(step, isReferred, events[0]), isReferred, events[1..])
  }

  /** The step after a run of presses on the rendered buttons: on the last
      entry of the step list the Create Agent button stands where Next was,
      so a Next press there does nothing. */
  function NavigateOnButtons(step: int, isReferred: bool, events: seq<NavEvent>): int
    decreases |events|
  {
    if events == [] then step
    else
      var e := events[0];
      var next := if e.Next? && step == StepCount(isReferred) then step else StepAfter(step, isReferred, e);
      NavigateOnButtons(next, isReferred, events[1..])
  }

  /** Whatever the handlers are asked, the step stays between 1 and the clamp. */
  lemma {:induction false} NavigateStaysInRange(step: int, isReferred: bool, events: seq<NavEvent>)
    requires 1 <= step <= LastStep(isReferred)
    ensures 1 <= Navigate(step, isReferred, events) <= LastStep(isReferred)
    decreases |events|
  {
    if events != [] {
      NavigateStaysInRange(StepAfter(step, isReferred, events[0]), isReferred, events[1..]);
    }
  }

  /** Through the rendered buttons the step never passes the last entry of the
      step list: the review step (5 when referred, 7 otherwise) is never shown. */
  lemma {:induction false} ReviewStepNeverReached(step: int, isReferred: bool, events: seq<NavEvent>)
    requires 1 <= step <= StepCount(isReferred)
    ensures 1 <= NavigateOnButtons(step, isReferred, events) <= StepCount(isReferred)
    ensures NavigateOnButtons(step, isReferred, events) != LastStep(isReferred)
    decreases |events|
  {
    if events != [] {
      var e := events[0];
      var next := if e.Next? && step == StepCount(isReferred) then step else StepAfter(step, isReferred, e);
      ReviewStepNeverReached(next, isReferred, events[1..]);
    }
  }

  // ---------------------------------------------------------------------------
  // The wizard's own step check

  /** The wizard's `validateStep`: the step validator's map, plus the
      confirmation error on step 2. */
  function StepErrors(step: int, d: AgentData, confirmPassword: string, isReferred: bool): ValidationErrors {
    var e := FormValidator.ValidateStep(step, d, isReferred);
    if step == 2 then
      match ValidateConfirmPassword(d.password, confirmPassword)
      case Some(m) => e[ConfirmPasswordKey := m]
      case None => e
    else e
  }

  /** The step passes exactly when each field it checks passes and, on step 2,
      the confirmation matches; the confirmation key appears only on step 2. */
  lemma StepErrorsEmptyIff(step: int, d: AgentData, confirmPassword: string, isReferred: bool)
    ensures StepErrors(step, d, confirmPassword, isReferred) == map[]
        <==> && (forall f | f in StepFields(step, isReferred) :: FieldCheck(f, d) == None)
             && (step == 2 ==> ValidateConfirmPassword(d.password, confirmPassword) == None)
    ensures ConfirmPasswordKey in StepErrors(step, d, confirmPassword, isReferred) ==> step == 2
  {
    ValidateStepEmptyIff(step, d, isReferred);
    var e := FormValidator.ValidateStep(step, d, isReferred);
    assert ConfirmPasswordKey !in e;
    if step == 2 && ValidateConfirmPassword(d.password, confirmPassword).Some? {
      assert ConfirmPasswordKey in StepErrors(step, d, confirmPassword, isReferred);
    }
  }

  /** Passing step 2 means an acceptable password, confirmed exactly. */
  lemma PasswordStepPasses(d: AgentData, confirmPassword: string, isReferred: bool)
    requires StepErrors(2, d, confirmPassword, isReferred) == map[]
    ensures |d.password| >= 6 && confirmPassword == d.password
  {
    StepErrorsEmptyIff(2, d, confirmPassword, isReferred);
    assert Password in StepFields(2, isReferred);
    AcceptedPasswords(d.password, confirmPassword);
  }

  // ---------------------------------------------------------------------------
  // Field edits

  /** `value === '' ? 0 : parseInt(value, 10) || 0` for the two PIN inputs. */
  function ParsePinInput(value: string): (n: int)
    ensures ParseInt(value).None? ==> n == 0
    ensures ParseInt(value).Some? ==> n == ParseInt(value).value
  {
    if value == "" then 0
    else match ParseInt(value)
      case Some(k) => k
      case None => 0
  }

  /** Typing the decimal form of a number gives that number back. */
  lemma PinInputOfDecimal(n: int)
    ensures ParsePinInput(IntToDecimal(n)) == n
  {
    ParseIntOfDecimal(n);
  }

  /** Leading whitespace is skipped and a leading minus sign is kept: "-5" is
      stored as -5 and then passes the PIN check, which only rejects 0. */
  lemma PinInputSigned()
    ensures ParsePinInput("-5") == -5
    ensures ParsePinInput(" 12") == 12
  {
    PinInputOfDecimal(-5);
    assert IntToDecimal(-5) == "-5";
    assert TrimStart(" 12") == TrimStart("12");
    PinInputOfDecimal(12);
    assert IntToDecimal(12) == "12";
  }

  /** An empty input, or one that does not start with a digit, stores 0. */
  lemma PinInputWithoutDigits()
    ensures ParsePinInput("") == 0
    ensures ParsePinInput("abc") == 0
  {
    assert DigitPrefix("abc") == "";
  }

  /** The value a change handler stores: a parsed number for the PIN codes,
      the text as typed for every other field. */
  function InputValue(f: Field, value: string): (v: Value)
    ensures Fits(f, v)
    ensures !IsPinField(f) ==> v == Text(value)
    ensures IsPinField(f) ==> v == Number(ParsePinInput(value))
  {
    if IsPinField(f) then Number(ParsePinInput(value)) else Text(value)
  }

  /** `if (errors[name]) errors[name] = ''`: a non-empty message is blanked,
      the key stays, and every other entry is kept. */
  function ClearError(errors: ValidationErrors, k: ErrorKey): (r: ValidationErrors)
    ensures r.Keys == errors.Keys
    ensures k in errors ==> r[k] == ""
    ensures forall j | j in errors && j != k :: r[j] == errors[j]
  {
    if k in errors && errors[k] != "" then errors[k := ""] else errors
  }

  // ---------------------------------------------------------------------------
  // The create payload

  /** `Male` becomes M, `Female` becomes F, anything else (the empty string
      among them) becomes O. */
  function GenderCode(gender: string): (c: string)
    ensures c == "M" || c == "F" || c == "O"
    ensures c == "M" <==> gender == "Male"
    ensures c == "F" <==> gender == "Female"
  {
    if gender == "Male" then "M" else if gender == "Female" then "F" else "O"
  }

  /** A key of the payload before the clean-up: a JSON value, or `undefined`. */
  datatype Slot = Defined(json: Json) | Undefined

  /** `n || undefined` style: the optional text fields are dropped when empty. */
  predicate IsOptionalText(f: Field) {
    f == MName || f == HomeAddress2 || f == OfficeAddress1 || f == OfficeAddress2
    || f == OfficeDistrict || f == OfficeState
  }

  function AllFields(): set<Field> {
    { MobNum, FName, MName, LName, Dob, Gender, HomeAddress1, HomeAddress2, HomeDistrict, HomeState,
      HomePinCode, OfficeAddress1, OfficeAddress2, OfficeDistrict, OfficeState, OfficePinCode, Email,
      OnboardingDate, Pan, Ifsc, AccNum, BeneficiaryName, FosOrDsa, ContractOrCommission, ParentAgentId,
      Password }
  }

  /** `parseInt(n.toString())` as JSON: NaN is written as `null`. */
  function NumberJson(p: Option<int>): Json {
    if p.Some? then JNum(p.value) else JNull
  }

  function OptionalText(s: string): Slot {
    if s == "" then Undefined else Defined(JStr(s))
  }

  /** The value `cleanedData` gives a field: the spread copy of the record,
      with the PIN codes, the gender and the optional text fields overridden. */
  function CleanedValue(f: Field, d: AgentData): Slot {
    if f == HomePinCode then
      var p := ParseInt(IntToDecimal(d.homePinCode));
      Defined(JNum(if p.Some? then p.value else 0))
    else if f == OfficePinCode then
      if d.officePinCode != 0 then Defined(NumberJson(ParseInt(IntToDecimal(d.officePinCode)))) else Undefined
    else if f == Gender then Defined(JStr(GenderCode(d.gender)))
    else if IsOptionalText(f) then OptionalText(Get(d, f).text)
    else Defined(JStr(Get(d, f).text))
  }

  /** `cleanedData`: every field but the password, before `undefined` keys are removed. */
  function CleanedData(d: AgentData): map<Field, Slot> {
    map f | f in AllFields() && f != Password :: CleanedValue(f, d)
  }

  /** The map without its `undefined` keys. */
  function DropUndefined(m: map<Field, Slot>): (r: map<Field, Slot>)
    ensures forall f | f in r :: r[f].Defined?
  {
    map f | f in m && m[f].Defined? :: m[f]
  }

  /** The payload sent to the create call. */
  function CreatePayload(d: AgentData): map<Field, Slot> {
    DropUndefined(CleanedData(d))
  }

  /** The clean-up loop: a snapshot of the keys is walked, and each key whose
      value is `undefined` is deleted from the map. */
  method RemoveUndefinedKeys(data: map<Field, Slot>) returns (cleaned: map<Field, Slot>)
    ensures cleaned == DropUndefined(data)
  {
    cleaned := data;
    var keys := data.Keys;
    while keys != {}
      invariant keys <= data.Keys
      invariant cleaned.Keys <= data.Keys
      invariant forall f | f in cleaned :: cleaned[f] == data[f]
      invariant forall f | f in data && f !in keys :: (f in cleaned <==> data[f].Defined?)
      invariant forall f | f in keys :: f in cleaned
      decreases |keys|
    {
      var key :| key in keys;
      if cleaned[key].Undefined? {
        cleaned := cleaned - {key};
      }
      keys := keys - {key};
    }
    assert cleaned.Keys == DropUndefined(data).Keys;
  }

  lemma EveryFieldListed(f: Field)
    ensures f in AllFields()
  {
  }

  /** A field is in the payload exactly when it is not the password and its
      cleaned value is defined, and then it holds that value. */
  lemma PayloadAt(d: AgentData, f: Field)
    ensures f in CreatePayload(d) <==> f != Password && CleanedValue(f, d).Defined?
    ensures f in CreatePayload(d) ==> CreatePayload(d)[f] == CleanedValue(f, d)
  {
    EveryFieldListed(f);
  }

  /** Both PIN codes survive the `toString`/`parseInt` round trip, and an
      office PIN code of 0 is dropped. */
  lemma CleanedPinCodes(d: AgentData)
    ensures CleanedValue(HomePinCode, d) == Defined(JNum(d.homePinCode))
    ensures CleanedValue(OfficePinCode, d) == if d.officePinCode != 0 then Defined(JNum(d.officePinCode)) else Undefined
  {
    ParseIntOfDecimal(d.homePinCode);
    ParseIntOfDecimal(d.officePinCode);
  }

  /** The create payload leaves the password out and sends the gender as a
      one-letter code and both PIN codes as the numbers stored, the office one
      only when it is not 0. */
  lemma CreatePayloadFixedFields(d: AgentData)
    ensures Password !in CreatePayload(d)
    ensures Gender in CreatePayload(d) && CreatePayload(d)[Gender] == Defined(JStr(GenderCode(d.gender)))
    ensures HomePinCode in CreatePayload(d) && CreatePayload(d)[HomePinCode] == Defined(JNum(d.homePinCode))
    ensures OfficePinCode in CreatePayload(d) <==> d.officePinCode != 0
    ensures OfficePinCode in CreatePayload(d) ==> CreatePayload(d)[OfficePinCode] == Defined(JNum(d.officePinCode))
  {
    PayloadAt(d, Password);
    GenderSent(d);
    PinCodesSent(d);
  }

  lemma GenderSent(d: AgentData)
    ensures Gender in CreatePayload(d) && CreatePayload(d)[Gender] == Defined(JStr(GenderCode(d.gender)))
  {
    assert CleanedValue(Gender, d) == Defined(JStr(GenderCode(d.gender)));
    PayloadAt(d, Gender);
  }

  lemma PinCodesSent(d: AgentData)
    ensures HomePinCode in CreatePayload(d) && CreatePayload(d)[HomePinCode] == Defined(JNum(d.homePinCode))
    ensures OfficePinCode in CreatePayload(d) <==> d.officePinCode != 0
    ensures OfficePinCode in CreatePayload(d) ==> CreatePayload(d)[OfficePinCode] == Defined(JNum(d.officePinCode))
  {
    CleanedPinCodes(d);
    PayloadAt(d, HomePinCode);
    PayloadAt(d, OfficePinCode);
  }

  lemma OptionalTextAt(d: AgentData, f: Field)
    requires IsOptionalText(f)
    ensures f in CreatePayload(d) <==> Get(d, f).text != ""
    ensures f in CreatePayload(d) ==> CreatePayload(d)[f] == Defined(JStr(Get(d, f).text))
  {
    assert f != HomePinCode && f != OfficePinCode && f != Gender && f != Password;
    assert CleanedValue(f, d) == OptionalText(Get(d, f).text);
    PayloadAt(d, f);
  }

  lemma PlainTextAt(d: AgentData, f: Field)
    requires f != Password && f != Gender && !IsPinField(f) && !IsOptionalText(f)
    ensures f in CreatePayload(d) && CreatePayload(d)[f] == Defined(JStr(Get(d, f).text))
  {
    PayloadAt(d, f);
  }

  /** The optional text fields are sent only when non-empty; every other text
      field is sent as typed. */
  lemma CreatePayloadTextFields(d: AgentData)
    ensures forall f | IsOptionalText(f) ::
              && (f in CreatePayload(d) <==> Get(d, f).text != "")
              && (f in CreatePayload(d) ==> CreatePayload(d)[f] == Defined(JStr(Get(d, f).text)))
    ensures forall f | f != Password && f != Gender && !IsPinField(f) && !IsOptionalText(f) ::
              f in CreatePayload(d) && CreatePayload(d)[f] == Defined(JStr(Get(d, f).text))
  {
    forall f | IsOptionalText(f)
      ensures && (f in CreatePayload(d) <==> Get(d, f).text != "")
              && (f in CreatePayload(d) ==> CreatePayload(d)[f] == Defined(JStr(Get(d, f).text)))
    {
      OptionalTextAt(d, f);
    }
    forall f | f != Password && f != Gender && !IsPinField(f) && !IsOptionalText(f)
      ensures f in CreatePayload(d) && CreatePayload(d)[f] == Defined(JStr(Get(d, f).text))
    {
      PlainTextAt(d, f);
    }
  }

  // ---------------------------------------------------------------------------
  // The two-phase submission

  datatype PasswordRequest = PasswordRequest(email: string, agentId: string, password: string)

  /** What an awaited call gave: its result, or an exception. */
  datatype CallOutcome<T> = Returned(value: T) | Threw

  /** The message shown, the password update sent (if any), and whether the
      form is reset afterwards. */
  datatype SubmitOutcome = SubmitOutcome(message: string, passwordRequest: Option<PasswordRequest>, reset: bool)

  const UnexpectedError := "An unexpected error occurred." + " Please try again."
  const SuccessPrefix := "Success!"
  const CreatedLead := "Agent created with ID: "

  /** `createResult.success && createResult.agent_id`. */
  predicate CreatedWithId(r: AgentResult) {
    r.success && r.agentId.Some? && r.agentId.value != ""
  }

  /** The body of `handleSubmit` after its step check: the create call
      answered `create`, and the password call, if made, answered `update`. */
  function Submission(d: AgentData, create: CallOutcome<AgentResult>, update: CallOutcome<ApiResult>): (o: SubmitOutcome)
    ensures o.passwordRequest.Some? <==> create.Returned? && CreatedWithId(create.value)
    ensures o.passwordRequest.Some? ==>
              o.passwordRequest.value == PasswordRequest(d.email, create.value.agentId.value, d.password)
    ensures o.reset <==> o.passwordRequest.Some? && update.Returned?
    ensures create.Threw? ==> o.message == UnexpectedError
    ensures create.Returned? && !CreatedWithId(create.value) ==> o.message == "Error: " + create.value.message
    ensures o.passwordRequest.Some? && update.Threw? ==> o.message == UnexpectedError
  {
    match create
    case Threw => SubmitOutcome(UnexpectedError, None, false)
    case Returned(created) =>
      if CreatedWithId(created) then
        var id := created.agentId.value;
        var request := Some(PasswordRequest(d.email, id, d.password));
        match update
        case Threw => SubmitOutcome(UnexpectedError, request, false)
        case Returned(updated) =>
          if updated.success then
            SubmitOutcome(SuccessPrefix + " " + CreatedLead + id + ". Password updated successfully.", request, true)
          else
            SubmitOutcome(CreatedLead + id + ", but password update failed: " + updated.message, request, true)
      else SubmitOutcome("Error: " + created.message, None, false)
  }


  /** The two messages of a created agent whose password call answered: the
      success text with the id, or the id followed by the update's failure
      message. */
  lemma SubmissionMessages(d: AgentData, create: CallOutcome<AgentResult>, update: CallOutcome<ApiResult>)
    requires create.Returned? && CreatedWithId(create.value) && update.Returned?
    ensures var m := Submission(d, create, update).message;
            var id := create.value.agentId.value;
            && (update.value.success ==> m == SuccessPrefix + " " + CreatedLead + id + ". Password updated successfully.")
            && (!update.value.success ==> m == CreatedLead + id + ", but password update failed: " + update.value.message)
  {
  }

  /** `mid` sits in `pre + mid + post` right after `pre`. */
  lemma Finds(pre: string, mid: string, post: string)
    ensures var s := pre + mid + post; |pre| + |mid| <= |s| && s[|pre|..|pre| + |mid|] == mid
  {
  }

  /** Once the agent is created and the password call answers, the message
      names the new agent's id right after "Agent created with ID: " (behind
      "Success! " when the update succeeded), and a failed update's own
      message closes it. */
  lemma SubmissionNamesAgent(d: AgentData, create: CallOutcome<AgentResult>, update: CallOutcome<ApiResult>)
    requires create.Returned? && CreatedWithId(create.value) && update.Returned?
    ensures var m := Submission(d, create, update).message;
            var id := create.value.agentId.value;
            var at := if update.value.success then |SuccessPrefix| + 1 else 0;
            at + |CreatedLead| + |id| <= |m| &&
            m[at..at + |CreatedLead|] == CreatedLead &&
            m[at + |CreatedLead|..at + |CreatedLead| + |id|] == id
    ensures !update.value.success ==>
              var m := Submission(d, create, update).message;
              var reason := update.value.message;
              |reason| <= |m| && m[|m| - |reason|..] == reason
  {
    var m := Submission(d, create, update).message;
    var id := create.value.agentId.value;
    SubmissionMessages(d, create, update);
    if update.value.success {
      var head := SuccessPrefix + " ";
      assert m == head + CreatedLead + id + ". Password updated successfully.";
      Finds(head, CreatedLead, id + ". Password updated successfully.");
      Finds(head + CreatedLead, id, ". Password updated successfully.");
    } else {
      var reason := update.value.message;
      var tail := ", but password update failed: " + reason;
      assert m == CreatedLead + id + tail;
      Finds("", CreatedLead, id + tail);
      Finds(CreatedLead, id, tail);
      assert m == (CreatedLead + id + ", but password update failed: ") + reason;
    }
  }

  /** The message opens with "Success!" exactly when the agent was created
      with an id and the password update succeeded; a failed update is still
      followed by the reset. */
  lemma SubmissionSucceedsIff(d: AgentData, create: CallOutcome<AgentResult>, update: CallOutcome<ApiResult>)
    ensures var o := Submission(d, create, update);
            ((|o.message| >= |SuccessPrefix| && o.message[..|SuccessPrefix|] == SuccessPrefix)
             <==> create.Returned? && CreatedWithId(create.value) && update.Returned? && update.value.success)
    ensures create.Returned? && CreatedWithId(create.value) && update.Returned? && !update.value.success ==>
              Submission(d, create, update).reset
  {
    var o := Submission(d, create, update);
    if create.Returned? && CreatedWithId(create.value) && update.Returned? && update.value.success {
      assert o.message[..|SuccessPrefix|] == SuccessPrefix;
    } else {
      assert |o.message| > 0 && o.message[0] != 'S' by {
        if create.Threw? || (CreatedWithId(create.value) && update.Threw?) {
          assert o.message == UnexpectedError;
          assert UnexpectedError[0] == 'A';
        } else if !CreatedWithId(create.value) {
          assert o.message == "Error: " + create.value.message;
          assert o.message[0] == 'E';
        } else {
          var id := create.value.agentId.value;
          assert o.message == "Agent created with ID: " + id + ", but password update failed: " + update.value.message;
          assert o.message[0] == 'A';
        }
      }
      assert SuccessPrefix[0] == 'S';
    }
  }

  /** A create call the service answers on a successful status without an
      `agent_id` is reported as an error carrying the success message, and no
      password update is made. */
  lemma CreatedWithoutIdReportedAsError(d: AgentData, status: int, s: Option<Json>, update: CallOutcome<ApiResult>)
    requires 200 <= status <= 299
    ensures var created := CreateAgent(Responded(Response(status, Parsed(Body(s, None, None)))));
            var o := Submission(d, Returned(created), update);
            && created.success
            && o.message == "Error: " + AgentCreated
            && o.passwordRequest.None? && !o.reset
  {
  }

  // ---------------------------------------------------------------------------
  // The component state

  class Wizard {
    var currentStep: int
    var emailOtpVerified: bool
    var errors: ValidationErrors
    var formData: AgentData
    var confirmPassword: string
    var submitMessage: string

    /** The step is always one the handlers can produce. */
    ghost predicate Valid()
      reads this
    {
      1 <= currentStep <= 7
    }

    predicate IsReferred()
      reads this
    {
      IsReferredId(formData.parentAgentId)
    }

    /** The initial state: the empty record (whose empty parent id counts as
        referred until the referral effect runs), step 1, nothing verified. */
    constructor ()
      ensures Valid()
      ensures currentStep == 1 && !emailOtpVerified && errors == map[]
      ensures formData == EmptyAgentData() && confirmPassword == "" && submitMessage == ""
      ensures IsReferred()
    {
      currentStep := 1;
      emailOtpVerified := false;
      errors := map[];
      formData := EmptyAgentData();
      confirmPassword := "";
      submitMessage := "";
    }

    /** The mount effect: the parent agent from the URL and today's date
        (`today` stands for the clock). */
    method ApplyReferral(referredBy: Option<string>, today: string)
      requires Valid()
      modifies this
      ensures Valid()
      ensures formData == old(formData).(parentAgentId := ParentAgentIdFor(referredBy), onboardingDate := today)
      ensures IsReferred() <==> referredBy.Some? && referredBy.value != "" && referredBy.value != SelfOnboard
      ensures currentStep == old(currentStep) && emailOtpVerified == old(emailOtpVerified)
      ensures errors == old(errors) && confirmPassword == old(confirmPassword) && submitMessage == old(submitMessage)
    {
      formData := formData.(parentAgentId := ParentAgentIdFor(referredBy));
      formData := formData.(onboardingDate := today);
      ReferredFlowIff(referredBy);
    }

    /** `handleInputChange`: only the named field changes, and its error, if
        any, is blanked. */
    method HandleInputChange(f: Field, value: string)
      requires Valid()
      modifies this
      ensures Valid()
      ensures formData == With(old(formData), f, InputValue(f, value))
      ensures Get(formData, f) == InputValue(f, value)
      ensures forall g | g != f :: Get(formData, g) == Get(old(formData), g)
      ensures errors == ClearError(old(errors), FieldKey(f))
      ensures currentStep == old(currentStep) && emailOtpVerified == old(emailOtpVerified)
      ensures confirmPassword == old(confirmPassword) && submitMessage == old(submitMessage)
    {
      formData := With(formData, f, InputValue(f, value));
      errors := ClearError(errors, FieldKey(f));
    }

    /** `handlePanChange`: the PAN as typed, and its error blanked. */
    method HandlePanChange(pan: string)
      requires Valid()
      modifies this
      ensures Valid()
      ensures formData == old(formData).(pan := pan)
      ensures errors == ClearError(old(errors), FieldKey(Pan))
      ensures currentStep == old(currentStep) && emailOtpVerified == old(emailOtpVerified)
      ensures confirmPassword == old(confirmPassword) && submitMessage == old(submitMessage)
    {
      formData := formData.(pan := pan);
      errors := ClearError(errors, FieldKey(Pan));
    }

    method SetConfirmPassword(c: string)
      requires Valid()
      modifies this
      ensures Valid()
      ensures confirmPassword == c
      ensures formData == old(formData) && errors == old(errors) && currentStep == old(currentStep)
      ensures emailOtpVerified == old(emailOtpVerified) && submitMessage == old(submitMessage)
    {
      confirmPassword := c;
    }

    /** The `onVerificationComplete` callback of the email widget. */
    method OnVerificationComplete()
      requires Valid()
      modifies this
      ensures Valid()
      ensures emailOtpVerified
      ensures formData == old(formData) && errors == old(errors) && currentStep == old(currentStep)
      ensures confirmPassword == old(confirmPassword) && submitMessage == old(submitMessage)
    {
      emailOtpVerified := true;
    }

    /** `validateStep(step)`: the errors are replaced by the step's errors,
        and the step passes when there are none. */
    method ValidateStep(step: int) returns (ok: bool)
      requires Valid()
      modifies this
      ensures Valid()
      ensures errors == StepErrors(step, formData, confirmPassword, IsReferred())
      ensures ok <==> errors == map[]
      ensures formData == old(formData) && currentStep == old(currentStep) && emailOtpVerified == old(emailOtpVerified)
      ensures confirmPassword == old(confirmPassword) && submitMessage == old(submitMessage)
    {
      errors := StepErrors(step, formData, confirmPassword, IsReferred());
      ok := |errors| == 0;
    }

    /** `nextStep`: on a passing step the wizard moves on, except that step 1
        first insists on a verified email, and then the errors say exactly that. */
    method NextStep()
      requires Valid()
      modifies this
      ensures Valid()
      ensures var passed := StepErrors(old(currentStep), formData, confirmPassword, IsReferred()) == map[];
              var gated := passed && old(currentStep) == 1 && !emailOtpVerified;
              && currentStep == StepAfter(old(currentStep), IsReferred(), Next(passed && !gated))
              && (gated ==> errors == map[FieldKey(Email) := "Please verify your email first"])
              && (!gated ==> errors == StepErrors(old(currentStep), formData, confirmPassword, IsReferred()))
      ensures formData == old(formData) && emailOtpVerified == old(emailOtpVerified)
      ensures confirmPassword == old(confirmPassword) && submitMessage == old(submitMessage)
    {
      var ok := ValidateStep(currentStep);
      if ok {
        if currentStep == 1 && !emailOtpVerified {
          errors := map[FieldKey(Email) := "Please verify your email first"];
          return;
        }
        currentStep := Advance(currentStep, IsReferred());
      }
    }

    /** `prevStep`: one step back, never below 1, with no check. */
    method PrevStep()
      requires Valid()
      modifies this
      ensures Valid()
      ensures currentStep == Retreat(old(currentStep))
      ensures formData == old(formData) && errors == old(errors) && emailOtpVerified == old(emailOtpVerified)
      ensures confirmPassword == old(confirmPassword) && submitMessage == old(submitMessage)
    {
      currentStep := Retreat(currentStep);
    }

    /** `handleSubmit`: the current step is checked; when it passes, the
        payload is built and sent, the outcome decides the message, and a
        created agent with an id resets the form (the reset timer is taken
        as immediate). */
    method HandleSubmit(create: CallOutcome<AgentResult>, update: CallOutcome<ApiResult>)
      returns (payload: Option<map<Field, Slot>>, request: Option<PasswordRequest>)
      requires Valid()
      modifies this
      ensures Valid()
      ensures var before := StepErrors(old(currentStep), old(formData), old(confirmPassword), IsReferredId(old(formData).parentAgentId));
              && (before != map[] ==>
                    && payload.None? && request.None? && errors == before
                    && formData == old(formData) && currentStep == old(currentStep)
                    && emailOtpVerified == old(emailOtpVerified) && confirmPassword == old(confirmPassword)
                    && submitMessage == old(submitMessage))
              && (before == map[] ==>
                    var o := Submission(old(formData), create, update);
                    && payload == Some(CreatePayload(old(formData)))
                    && request == o.passwordRequest
                    && submitMessage == o.message
                    && errors == map[]
                    && (o.reset ==>
                          && formData == EmptyAgentData() && currentStep == 1
                          && !emailOtpVerified && confirmPassword == "" && IsReferred())
                    && (!o.reset ==>
                          && formData == old(formData) && currentStep == old(currentStep)
                          && emailOtpVerified == old(emailOtpVerified) && confirmPassword == old(confirmPassword)))
    {
      var ok := ValidateStep(currentStep);
      if !ok {
        return None, None;
      }
      submitMessage := "";
      var cleaned := RemoveUndefinedKeys(CleanedData(formData));
      payload := Some(cleaned);
      var o := Submission(formData, create, update);
      request := o.passwordRequest;
      submitMessage := o.message;
      if o.reset {
        formData := EmptyAgentData();
        currentStep := 1;
        emailOtpVerified := false;
        confirmPassword := "";
      }
    }
  }
}
