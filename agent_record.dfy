/** The agent record the wizard builds (the AgentData interface of
    app/api/agents/route.ts), with a typed name for each of its fields. */
module AgentRecord {
  datatype AgentData = AgentData(
    mobNum: string,
    fname: string,
    mname: string,
    lname: string,
    dob: string,
    gender: string,
    homeAddress1: string,
    homeAddress2: string,
    homeDistrict: string,
    homeState: string,
    homePinCode: int,
    officeAddress1: string,
    officeAddress2: string,
    officeDistrict: string,
    officeState: string,
    officePinCode: int,
    email: string,
    onboardingDate: string,
    pan: string,
    ifsc: string,
    accNum: string,
    beneficiaryName: string,
    fosOrDsa: string,
    contractOrCommission: string,
    parentAgentId: string,
    password: string)

  /** The name of one field of the record, as the generic change handler receives it. */
  datatype Field =
    MobNum | FName | MName | LName | Dob | Gender | HomeAddress1 | HomeAddress2
    | HomeDistrict | HomeState | HomePinCode | OfficeAddress1 | OfficeAddress2 | OfficeDistrict | OfficeState | OfficePinCode
    | Email | OnboardingDate | Pan | Ifsc | AccNum | BeneficiaryName | FosOrDsa | ContractOrCommission | ParentAgentId | Password

  /** The two numeric fields; every other field holds a string. */
  predicate IsPinField(f: Field) {
    f == HomePinCode || f == OfficePinCode
  }

  /** What a field holds. */
  datatype Value = Text(text: string) | Number(number: int)

  /** A value of the right kind for its field. */
  predicate Fits(f: Field, v: Value) {
    IsPinField(f) <==> v.Number?
  }

  /** The value one field of the record holds. */
  function Get(d: AgentData, f: Field): (v: Value)
    ensures Fits(f, v)
  {
    match f
    case MobNum => Text(d.mobNum)
    case FName => Text(d.fname)
    case MName => Text(d.mname)
    case LName => Text(d.lname)
    case Dob => Text(d.dob)
    case Gender => Text(d.gender)
    case HomeAddress1 => Text(d.homeAddress1)
    case HomeAddress2 => Text(d.homeAddress2)
    case HomeDistrict => Text(d.homeDistrict)
    case HomeState => Text(d.homeState)
    case HomePinCode => Number(d.homePinCode)
    case OfficeAddress1 => Text(d.officeAddress1)
    case OfficeAddress2 => Text(d.officeAddress2)
    case OfficeDistrict => Text(d.officeDistrict)
    case OfficeState => Text(d.officeState)
    case OfficePinCode => Number(d.officePinCode)
    case Email => Text(d.email)
    case OnboardingDate => Text(d.onboardingDate)
    case Pan => Text(d.pan)
    case Ifsc => Text(d.ifsc)
    case AccNum => Text(d.accNum)
    case BeneficiaryName => Text(d.beneficiaryName)
    case FosOrDsa => Text(d.fosOrDsa)
    case ContractOrCommission => Text(d.contractOrCommission)
    case ParentAgentId => Text(d.parentAgentId)
    case Password => Text(d.password)
  }

  /** The record with one field replaced: that field now holds `v`, and every
      other field is as it was. Each group of fields is handled by its own
      function, which keeps each frame proof small. */
  function With(d: AgentData, f: Field, v: Value): (r: AgentData)
    requires Fits(f, v)
    ensures Get(r, f) == v
    ensures forall g :: g != f ==> Get(r, g) == Get(d, g)
  {
    if IsIdentityField(f) then WithIdentity(d, f, v)
    else if IsHomeField(f) then WithHome(d, f, v)
    else if IsOfficeField(f) then WithOffice(d, f, v)
    else if IsAccountField(f) then WithAccount(d, f, v)
    else if IsConfigurationField(f) then WithConfiguration(d, f, v)
    else WithPassword(d, f, v)
  }

  predicate IsIdentityField(f: Field) {
    f == MobNum || f == FName || f == MName || f == LName || f == Dob || f == Gender
  }

  predicate IsHomeField(f: Field) {
    f == HomeAddress1 || f == HomeAddress2 || f == HomeDistrict || f == HomeState || f == HomePinCode
  }

  predicate IsOfficeField(f: Field) {
    f == OfficeAddress1 || f == OfficeAddress2 || f == OfficeDistrict || f == OfficeState || f == OfficePinCode
  }

  predicate IsAccountField(f: Field) {
    f == Email || f == OnboardingDate || f == Pan || f == Ifsc || f == AccNum || f == BeneficiaryName
  }

  predicate IsConfigurationField(f: Field) {
    f == FosOrDsa || f == ContractOrCommission || f == ParentAgentId
  }

  function WithIdentity(d: AgentData, f: Field, v: Value): (r: AgentData)
    requires IsIdentityField(f) && Fits(f, v)
    ensures Get(r, f) == v
    ensures forall g :: g != f ==> Get(r, g) == Get(d, g)
  {
    match f
    case MobNum => d.(mobNum := v.text)
    case FName => d.(fname := v.text)
    case MName => d.(mname := v.text)
    case LName => d.(lname := v.text)
    case Dob => d.(dob := v.text)
    case Gender => d.(gender := v.text)
  }

  function WithHome(d: AgentData, f: Field, v: Value): (r: AgentData)
    requires IsHomeField(f) && Fits(f, v)
    ensures Get(r, f) == v
    ensures forall g :: g != f ==> Get(r, g) == Get(d, g)
  {
    match f
    case HomeAddress1 => d.(homeAddress1 := v.text)
    case HomeAddress2 => d.(homeAddress2 := v.text)
    case HomeDistrict => d.(homeDistrict := v.text)
    case HomeState => d.(homeState := v.text)
    case HomePinCode => d.(homePinCode := v.number)
  }

  function WithOffice(d: AgentData, f: Field, v: Value): (r: AgentData)
    requires IsOfficeField(f) && Fits(f, v)
    ensures Get(r, f) == v
    ensures forall g :: g != f ==> Get(r, g) == Get(d, g)
  {
    match f
    case OfficeAddress1 => d.(officeAddress1 := v.text)
    case OfficeAddress2 => d.(officeAddress2 := v.text)
    case OfficeDistrict => d.(officeDistrict := v.text)
    case OfficeState => d.(officeState := v.text)
    case OfficePinCode => d.(officePinCode := v.number)
  }

  function WithAccount(d: AgentData, f: Field, v: Value): (r: AgentData)
    requires IsAccountField(f) && Fits(f, v)
    ensures Get(r, f) == v
    ensures forall g :: g != f ==> Get(r, g) == Get(d, g)
  {
    match f
    case Email => d.(email := v.text)
    case OnboardingDate => d.(onboardingDate := v.text)
    case Pan => d.(pan := v.text)
    case Ifsc => d.(ifsc := v.text)
    case AccNum => d.(accNum := v.text)
    case BeneficiaryName => d.(beneficiaryName := v.text)
  }

  function WithConfiguration(d: AgentData, f: Field, v: Value): (r: AgentData)
    requires IsConfigurationField(f) && Fits(f, v)
    ensures Get(r, f) == v
    ensures forall g :: g != f ==> Get(r, g) == Get(d, g)
  {
    match f
    case FosOrDsa => d.(fosOrDsa := v.text)
    case ContractOrCommission => d.(contractOrCommission := v.text)
    case ParentAgentId => d.(parentAgentId := v.text)
  }

  function WithPassword(d: AgentData, f: Field, v: Value): (r: AgentData)
    requires f == Password && Fits(f, v)
    ensures Get(r, f) == v
    ensures forall g :: g != f ==> Get(r, g) == Get(d, g)
  {
    d.(password := v.text)
  }

  /** The record the form starts from, and the one it is reset to after a
      submission: every string empty and both PIN codes 0. */
  function EmptyAgentData(): (d: AgentData)
    ensures forall f :: Get(d, f) == if IsPinField(f) then Number(0) else Text("")
  {
    AgentData("", "", "", "", "", "", "", "", "", "", 0, "", "", "", "", 0, "", "", "", "", "", "", "", "", "", "")
  }
}
