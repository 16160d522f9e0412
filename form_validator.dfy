/** The field validators and the per-step validator of app/utils/formValidator.ts.
    A validator returns None for a valid value (the source's `null`) or the
    message to show. */
module FormValidator {
  import opened Js
  import opened Patterns
  import opened AgentRecord

  /** The keys of an error map: a field of the record, or the confirmation
      password, which is not part of the record. */
  datatype ErrorKey = FieldKey(field: Field) | ConfirmPasswordKey

  type ValidationErrors = map<ErrorKey, string>

  function ValidateEmail(email: string): (r: Option<string>)
    ensures r == Some("Email is required") <==> IsBlank(email)
    ensures r == None <==> WellFormedEmail(email)
    ensures r != None && !IsBlank(email) ==> r == Some("Please enter a valid email address")
  {
    EmailPatternIff(email);
    if IsBlank(email) then
      PatternsRejectBlank(email);
      Some("Email is required")
    else if !EmailPattern(email) then Some("Please enter a valid email address")
    else None
  }

  function ValidatePassword(password: string): (r: Option<string>)
    ensures r == None <==> !IsBlank(password) && |password| >= 6
    ensures IsBlank(password) ==> r == Some("Password is required")
    ensures !IsBlank(password) && |password| < 6 ==> r == Some("Password must be at least 6 characters")
  {
    if IsBlank(password) then Some("Password is required")
    else if |password| < 6 then Some("Password must be at least 6 characters")
    else None
  }

  function ValidateConfirmPassword(password: string, confirmPassword: string): (r: Option<string>)
    ensures r == None <==> !IsBlank(confirmPassword) && confirmPassword == password
    ensures IsBlank(confirmPassword) ==> r == Some("Please confirm your password")
    ensures !IsBlank(confirmPassword) && confirmPassword != password ==> r == Some("Passwords do not match")
  {
    if IsBlank(confirmPassword) then Some("Please confirm your password")
    else if password != confirmPassword then Some("Passwords do not match")
    else None
  }

  function ValidateMobile(mobile: string): (r: Option<string>)
    ensures r == None <==> MobilePattern(mobile)
    ensures IsBlank(mobile) ==> r == Some("Mobile number is required")
    ensures !IsBlank(mobile) && !MobilePattern(mobile) ==> r == Some("Please enter a valid 10-digit mobile number")
  {
    if IsBlank(mobile) then
      PatternsRejectBlank(mobile);
      Some("Mobile number is required")
    else if !MobilePattern(mobile) then Some("Please enter a valid 10-digit mobile number")
    else None
  }

  function ValidatePan(pan: string): (r: Option<string>)
    ensures r == None <==> PanPattern(pan)
    ensures IsBlank(pan) ==> r == Some("PAN is required")
    ensures !IsBlank(pan) && !PanPattern(pan) ==> r == Some("Please enter a valid PAN number")
  {
    if IsBlank(pan) then
      PatternsRejectBlank(pan);
      Some("PAN is required")
    else if !PanPattern(pan) then Some("Please enter a valid PAN number")
    else None
  }

  function ValidateRequired(value: string, fieldName: string): (r: Option<string>)
    ensures r == None <==> !IsBlank(value)
    ensures r != None ==> r == Some(fieldName + " is required")
  {
    if IsBlank(value) then Some(fieldName + " is required") else None
  }

  /** The PAN numbers the validator is meant to accept and reject. */
  lemma PanExamples()
    ensures ValidatePan("ABCDE1234F") == None
    ensures ValidatePan("ABCDE12345") == Some("Please enter a valid PAN number")
    ensures ValidatePan("abcde1234f") == Some("Please enter a valid PAN number")
    ensures ValidatePan("") == Some("PAN is required")
  {
    NotBlankWhenHeadNotSpace("ABCDE12345");
    NotBlankWhenHeadNotSpace("abcde1234f");
    assert !IsUpper("abcde1234f"[0]);
  }

  /** The mobile numbers the validator is meant to accept and reject. */
  lemma MobileExamples()
    ensures ValidateMobile("9876543210") == None
    ensures ValidateMobile("5876543210") == Some("Please enter a valid 10-digit mobile number")
    ensures ValidateMobile("98765432") == Some("Please enter a valid 10-digit mobile number")
  {
    NotBlankWhenHeadNotSpace("5876543210");
    NotBlankWhenHeadNotSpace("98765432");
  }

  /** An accepted password is at least six characters long, and a confirmation
      that is accepted alongside it is the very same string. */
  lemma AcceptedPasswords(password: string, confirmPassword: string)
    requires ValidatePassword(password) == None
    requires ValidateConfirmPassword(password, confirmPassword) == None
    ensures |password| >= 6 && confirmPassword == password
  {
  }

  // ---------------------------------------------------------------------------
  // The step validator

  /** `if (error) errors.<field> = error`. */
  function Flag(errors: ValidationErrors, f: Field, error: Option<string>): ValidationErrors {
    if error.Some? then errors[FieldKey(f) := error.value] else errors
  }

  /** `!value.trim()` reported with a fixed message. */
  function Required(value: string, message: string): Option<string> {
    if IsBlank(value) then Some(message) else None
  }

  function PersonalErrors(d: AgentData): ValidationErrors {
    var e := Flag(map[], FName, Required(d.fname, "First name is required"));
    var e := Flag(e, LName, Required(d.lname, "Last name is required"));
    var e := Flag(e, Gender, Required(d.gender, "Gender is required"));
    Flag(e, Dob, Required(d.dob, "Date of birth is required"))
  }

  function ConfigurationErrors(d: AgentData): ValidationErrors {
    var e := Flag(map[], FosOrDsa, Required(d.fosOrDsa, "FOS or DSA is required"));
    Flag(e, ContractOrCommission, Required(d.contractOrCommission, "Contract or Commission is required"))
  }

  function AddressErrors(d: AgentData): ValidationErrors {
    var e := Flag(map[], HomeAddress1, Required(d.homeAddress1, "Address is required"));
    var e := Flag(e, HomeDistrict, Required(d.homeDistrict, "District is required"));
    var e := Flag(e, HomeState, Required(d.homeState, "State is required"));
    Flag(e, HomePinCode, if d.homePinCode == 0 then Some("PIN code is required") else None)
  }

  function FinancialErrors(d: AgentData): ValidationErrors {
    var e := Flag(map[], Pan, ValidatePan(d.pan));
    var e := Flag(e, Ifsc, Required(d.ifsc, "IFSC is required"));
    var e := Flag(e, AccNum, Required(d.accNum, "Account number is required"));
    Flag(e, BeneficiaryName, Required(d.beneficiaryName, "Beneficiary name is required"))
  }

  /** `FormValidator.validateStep`: the switch over the step, one per flow. */
  function ValidateStep(step: int, d: AgentData, isReferred: bool): (errors: ValidationErrors)
    ensures forall k | k in errors :: k.FieldKey? && k.field in StepFields(step, isReferred)
  {
    if isReferred then
      if step == 1 then Flag(map[], Email, ValidateEmail(d.email))
      else if step == 2 then Flag(map[], Password, ValidatePassword(d.password))
      else if step == 3 then PersonalErrors(d)
      else if step == 4 then ConfigurationErrors(d)
      else map[]
    else
      if step == 1 then Flag(map[], Email, ValidateEmail(d.email))
      else if step == 2 then Flag(map[], Password, ValidatePassword(d.password))
      else if step == 3 then PersonalErrors(d)
      else if step == 4 then AddressErrors(d)
      else if step == 5 then FinancialErrors(d)
      else if step == 6 then ConfigurationErrors(d)
      else map[]
  }

  // ---------------------------------------------------------------------------
  // A declarative reference for the step validator: which fields each step
  // checks, and what check each field gets.

  function StepFields(step: int, isReferred: bool): seq<Field> {
    if step == 1 then [Email]
    else if step == 2 then [Password]
    else if step == 3 then [FName, LName, Gender, Dob]
    else if isReferred then
      if step == 4 then [FosOrDsa, ContractOrCommission] else []
    else if step == 4 then [HomeAddress1, HomeDistrict, HomeState, HomePinCode]
    else if step == 5 then [Pan, Ifsc, AccNum, BeneficiaryName]
    else if step == 6 then [FosOrDsa, ContractOrCommission]
    else []
  }

  function FieldCheck(f: Field, d: AgentData): Option<string> {
    match f
    case Email => ValidateEmail(d.email)
    case Password => ValidatePassword(d.password)
    case FName => Required(d.fname, "First name is required")
    case LName => Required(d.lname, "Last name is required")
    case Gender => Required(d.gender, "Gender is required")
    case Dob => Required(d.dob, "Date of birth is required")
    case HomeAddress1 => Required(d.homeAddress1, "Address is required")
    case HomeDistrict => Required(d.homeDistrict, "District is required")
    case HomeState => Required(d.homeState, "State is required")
    case HomePinCode => if d.homePinCode == 0 then Some("PIN code is required") else None
    case Pan => ValidatePan(d.pan)
    case Ifsc => Required(d.ifsc, "IFSC is required")
    case AccNum => Required(d.accNum, "Account number is required")
    case BeneficiaryName => Required(d.beneficiaryName, "Beneficiary name is required")
    case FosOrDsa => Required(d.fosOrDsa, "FOS or DSA is required")
    case ContractOrCommission => Required(d.contractOrCommission, "Contract or Commission is required")
    case _ => None
  }

  /** `errors` flags exactly the fields of `fields` whose check fails, each with
      that check's message, and nothing else. */
  ghost predicate FlagsExactly(errors: ValidationErrors, fields: seq<Field>, d: AgentData) {
    && (forall k | k in errors :: k.FieldKey? && k.field in fields)
    && (forall f | f in fields ::
          && (FieldKey(f) in errors <==> FieldCheck(f, d).Some?)
          && (FieldKey(f) in errors ==> errors[FieldKey(f)] == FieldCheck(f, d).value))
  }

  /** Flagging one more field with its own check keeps the two in agreement. */
  lemma FlagExtends(errors: ValidationErrors, fields: seq<Field>, f: Field, d: AgentData)
    requires FlagsExactly(errors, fields, d) && f !in fields
    ensures FlagsExactly(Flag(errors, f, FieldCheck(f, d)), fields + [f], d)
  {
    var e := Flag(errors, f, FieldCheck(f, d));
    forall g | g in fields + [f]
      ensures && (FieldKey(g) in e <==> FieldCheck(g, d).Some?)
              && (FieldKey(g) in e ==> e[FieldKey(g)] == FieldCheck(g, d).value)
    {
      if g != f { assert g in fields; }
    }
  }

  /** Four checks in a row, as the personal, address and financial steps make them. */
  lemma FourFlagsAgree(d: AgentData, f1: Field, f2: Field, f3: Field, f4: Field)
    requires f1 != f2 && f1 != f3 && f1 != f4 && f2 != f3 && f2 != f4 && f3 != f4
    ensures FlagsExactly(Flag(Flag(Flag(Flag(map[], f1, FieldCheck(f1, d)), f2, FieldCheck(f2, d)),
                                   f3, FieldCheck(f3, d)), f4, FieldCheck(f4, d)),
                         [f1, f2, f3, f4], d)
  {
    ThreeFlagsAgree(d, f1, f2, f3);
    var e3 := Flag(Flag(Flag(map[], f1, FieldCheck(f1, d)), f2, FieldCheck(f2, d)), f3, FieldCheck(f3, d));
    FlagExtends(e3, [f1, f2, f3], f4, d);
    assert [f1, f2, f3] + [f4] == [f1, f2, f3, f4];
  }

  lemma ThreeFlagsAgree(d: AgentData, f1: Field, f2: Field, f3: Field)
    requires f1 != f2 && f1 != f3 && f2 != f3
    ensures FlagsExactly(Flag(Flag(Flag(map[], f1, FieldCheck(f1, d)), f2, FieldCheck(f2, d)), f3, FieldCheck(f3, d)),
                         [f1, f2, f3], d)
  {
    var e1 := Flag(map[], f1, FieldCheck(f1, d));
    FlagExtends(map[], [], f1, d);
    assert [] + [f1] == [f1];
    var e2 := Flag(e1, f2, FieldCheck(f2, d));
    FlagExtends(e1, [f1], f2, d);
    FlagExtends(e2, [f1, f2], f3, d);
    assert [f1, f2] + [f3] == [f1, f2, f3];
  }

  lemma EmailAgrees(d: AgentData)
    ensures FlagsExactly(Flag(map[], Email, ValidateEmail(d.email)), [Email], d)
  {
    assert FieldCheck(Email, d) == ValidateEmail(d.email);
    FlagExtends(map[], [], Email, d);
    assert [] + [Email] == [Email];
  }

  lemma PasswordAgrees(d: AgentData)
    ensures FlagsExactly(Flag(map[], Password, ValidatePassword(d.password)), [Password], d)
  {
    assert FieldCheck(Password, d) == ValidatePassword(d.password);
    FlagExtends(map[], [], Password, d);
    assert [] + [Password] == [Password];
  }

  lemma PersonalAgrees(d: AgentData)
    ensures FlagsExactly(PersonalErrors(d), [FName, LName, Gender, Dob], d)
  {
    assert FieldCheck(FName, d) == Required(d.fname, "First name is required");
    assert FieldCheck(LName, d) == Required(d.lname, "Last name is required");
    assert FieldCheck(Gender, d) == Required(d.gender, "Gender is required");
    assert FieldCheck(Dob, d) == Required(d.dob, "Date of birth is required");
    FourFlagsAgree(d, FName, LName, Gender, Dob);
  }

  lemma ConfigurationAgrees(d: AgentData)
    ensures FlagsExactly(ConfigurationErrors(d), [FosOrDsa, ContractOrCommission], d)
  {
    assert FieldCheck(FosOrDsa, d) == Required(d.fosOrDsa, "FOS or DSA is required");
    assert FieldCheck(ContractOrCommission, d) == Required(d.contractOrCommission, "Contract or Commission is required");
    FlagExtends(map[], [], FosOrDsa, d);
    assert [] + [FosOrDsa] == [FosOrDsa];
    FlagExtends(Flag(map[], FosOrDsa, FieldCheck(FosOrDsa, d)), [FosOrDsa], ContractOrCommission, d);
  }

  lemma AddressAgrees(d: AgentData)
    ensures FlagsExactly(AddressErrors(d), [HomeAddress1, HomeDistrict, HomeState, HomePinCode], d)
  {
    assert FieldCheck(HomeAddress1, d) == Required(d.homeAddress1, "Address is required");
    assert FieldCheck(HomeDistrict, d) == Required(d.homeDistrict, "District is required");
    assert FieldCheck(HomeState, d) == Required(d.homeState, "State is required");
    assert FieldCheck(HomePinCode, d) == if d.homePinCode == 0 then Some("PIN code is required") else None;
    FourFlagsAgree(d, HomeAddress1, HomeDistrict, HomeState, HomePinCode);
  }

  lemma FinancialAgrees(d: AgentData)
    ensures FlagsExactly(FinancialErrors(d), [Pan, Ifsc, AccNum, BeneficiaryName], d)
  {
    FinancialChecks(d);
    FourFlagsAgree(d, Pan, Ifsc, AccNum, BeneficiaryName);
  }

  lemma FinancialChecks(d: AgentData)
    ensures FieldCheck(Pan, d) == ValidatePan(d.pan)
    ensures FieldCheck(Ifsc, d) == Required(d.ifsc, "IFSC is required")
    ensures FieldCheck(AccNum, d) == Required(d.accNum, "Account number is required")
    ensures FieldCheck(BeneficiaryName, d) == Required(d.beneficiaryName, "Beneficiary name is required")
  {
    PanChecked(d);
    IfscChecked(d);
    AccNumChecked(d);
    BeneficiaryNameChecked(d);
  }

  lemma PanChecked(d: AgentData)
    ensures FieldCheck(Pan, d) == ValidatePan(d.pan)
  {
  }

  lemma IfscChecked(d: AgentData)
    ensures FieldCheck(Ifsc, d) == Required(d.ifsc, "IFSC is required")
  {
  }

  lemma AccNumChecked(d: AgentData)
    ensures FieldCheck(AccNum, d) == Required(d.accNum, "Account number is required")
  {
  }

  lemma BeneficiaryNameChecked(d: AgentData)
    ensures FieldCheck(BeneficiaryName, d) == Required(d.beneficiaryName, "Beneficiary name is required")
  {
  }

  /** The switch agrees with the table for every step of both flows. */
  lemma ValidateStepAgreesWithTable(step: int, d: AgentData, isReferred: bool)
    ensures FlagsExactly(ValidateStep(step, d, isReferred), StepFields(step, isReferred), d)
  {
    if step == 1 {
      EmailAgrees(d);
    } else if step == 2 {
      PasswordAgrees(d);
    } else if step == 3 {
      PersonalAgrees(d);
    } else if step == 4 {
      if isReferred { ConfigurationAgrees(d); } else { AddressAgrees(d); }
    } else if step == 5 && !isReferred {
      FinancialAgrees(d);
    } else if step == 6 && !isReferred {
      ConfigurationAgrees(d);
    }
  }

  /** A step passes exactly when every field it checks passes. */
  lemma ValidateStepEmptyIff(step: int, d: AgentData, isReferred: bool)
    ensures ValidateStep(step, d, isReferred) == map[]
       <==> forall f | f in StepFields(step, isReferred) :: FieldCheck(f, d) == None
  {
    ValidateStepAgreesWithTable(step, d, isReferred);
    var errors := ValidateStep(step, d, isReferred);
    if errors != map[] {
      var k :| k in errors;
      assert FieldCheck(k.field, d).Some?;
    }
  }

  /** Steps outside the flow, the review steps 5 (referred) and 7 (self-onboarding)
      among them, report no error. */
  lemma StepsOutsideFlowPass(step: int, d: AgentData, isReferred: bool)
    requires step < 1 || step > (if isReferred then 4 else 6)
    ensures ValidateStep(step, d, isReferred) == map[]
  {
  }

  /** Steps 1 to 3 check the same fields in both flows. */
  lemma SharedSteps(step: int, d: AgentData)
    requires 1 <= step <= 3
    ensures ValidateStep(step, d, true) == ValidateStep(step, d, false)
  {
  }

  /** The mobile number, the middle name, the second home address line and the
      whole office address are never checked, in any step of either flow. */
  lemma UncheckedFields(step: int, d: AgentData, isReferred: bool, f: Field)
    requires || f == MobNum || f == MName || f == HomeAddress2 || f == OfficeAddress1
             || f == OfficeAddress2 || f == OfficeDistrict || f == OfficeState || f == OfficePinCode
    ensures FieldKey(f) !in ValidateStep(step, d, isReferred)
  {
    var fields := StepFields(step, isReferred);
    assert forall g | g in fields :: g != f;
  }

  /** In the address step of self-onboarding the PIN code is flagged exactly when it is 0. */
  lemma PinFlaggedIffZero(d: AgentData)
    ensures FieldKey(HomePinCode) in ValidateStep(4, d, false) <==> d.homePinCode == 0
  {
  }
}
