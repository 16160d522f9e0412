# Agent onboarding wizard — a Dafny model

This project models the core of a multi-step web wizard that onboards sales
agents. An agent is either *referred* (the page URL carries
`?referredby=<parent id>`) or *self-onboarding* (`parent_agent_id` is the
sentinel `"self-onboard"`). The model covers these parts:

- **`Js`** (`js.dfy`) holds the JavaScript semantics the core relies on:
  - `String.prototype.trim` and the `\s` whitespace set;
  - `parseInt(s, 10)`: leading whitespace, an optional sign, then the longest run of decimal digits (`None` stands for `NaN` when there is none);
  - integer `toString`, with a round-trip lemma;
  - JSON truthiness and `v || fallback`.
- **`Patterns`** (`patterns.dfy`) holds the three regular expressions of the validator: email, Indian mobile number and PAN. The email pattern is also given a field-by-field characterisation, and the two are proved equal.
- **`AgentRecord`** (`agent_record.dfy`) is the 26-field `AgentData` record of the form. It has a `Field` enumeration and `Get`/`With` accessors that have frame properties.
- **`FormValidator`** (`form_validator.dfy`):
  - the six validators return `Option<string>` (`None` for `null`);
  - `validateStep` is stated in both flows;
  - it is proved against a table (`StepFields`, `FieldCheck`). The table says which field each step checks and with which message; the proof shows that a step flags exactly the fields that fail, and nothing else.
- **`AgentsRoute`** (`agents_route.dfy`) covers the gateway functions of `app/api/agents/route.ts`. Each takes the outcome of its `fetch` as a parameter: a network error, or a status with a parsed, null or unparseable JSON body. The module also covers the `POST /api/agents` handler.
- **`PasswordRoute`** (`password_route.dfy`) is the `POST /api/agents/password` handler.
- **`PasswordCreation`** (`password_creation.dfy`) is the strength meter: four bars, lit by length thresholds, and a five-step label. The meter is rendered only for a non-empty password (`IndicatorShown`).
- **`PanVerification`** (`pan_verification.dfy`) is the PAN widget, a class with its flags. A click and the arrival of its result are separate methods.
- **`EmailOtp`** (`email_otp.dfy`) is the email verification widget, also a class. It holds the sent/verified/loading flags and the code, and has a ghost count of completion callbacks.
- **`AgentForm`** (`agent_form.dfy`):
  - how the flow and step count are chosen, and navigation clamping;
  - per-step errors, input handling, and the create payload, including the loop that removes `undefined` keys;
  - the outcome of a submission;
  - the `Wizard` class, whose state is that of the page component.

Network calls, JSON parsing and the clock are parameters. The thrown/caught
control flow of the TypeScript code is modelled as explicit outcome
datatypes (`Fetched`, `Payload`, `CallOutcome`).

## Behaviour as written

The model follows the code as written. The points below are where that behaviour is easy to misread.

- **No review step.** `nextStep` clamps at 5 (referred) or 7 (self-onboarding), one past the number of step entries (4 or 6). The submit button replaces "Next" on step 4 or 6, the configuration step, because the step list has 4 or 6 entries. So the review step is never reached from the buttons: `ReviewStepNeverReached` proves it.
- **Failure message prefix.** A create call that fails sets `"Error: " + message`.
- **Created but no id.** A create call that succeeds without an `agent_id` is also reported as `"Error: Agent created successfully!"` (`CreatedWithoutIdReportedAsError`).
- **PIN input.** It goes through `parseInt(value, 10) || 0`:
  - `"-5"` is stored as -5 and passes the PIN check, which only rejects 0;
  - `" 12"` is stored as 12;
  - `"abc"` is stored as 0.
- **Reset after success.** After a successful creation the form resets `parent_agent_id` to `""`, not `"self-onboard"`. So after the reset the wizard is in the referred flow (`Wizard.HandleSubmit`). The reset happens 3 seconds later with `setTimeout`; here it takes effect at once.
- **OTP success check.** The email OTP call counts any 2xx JSON response as verified unless its `success` field is literally `false` (`VerifyEmailOtpPermissive`).
- **Referral sentinel.** `?referredby=self-onboard` selects the self-onboarding flow (`ReferredFlowIff`).
- **Password route import.** `app/api/agents/password/route.ts` imports from `'../agents/route'`. From that file, the path names `app/api/agents/agents/route`, which is not among the repository's files as given. The model takes it to mean `app/api/agents/route.ts`.

## Model

| member | source | states |
|---|---|---|
| Js.TrimStart | app/utils/formValidator.ts:9 | trimming the front leaves a string that is empty or starts with a non-space character |
| Js.TrimStartDropsSpace | app/utils/formValidator.ts:9 | every character the front trim removes is whitespace |
| Js.TrimStartIsSuffix | app/utils/formValidator.ts:9 | trimming the front only drops characters from the front: the result is a suffix of the input |
| Js.TrimEnd | app/utils/formValidator.ts:9 | trimming the end leaves a string that is empty or ends with a non-space character |
| Js.TrimEndDropsSpace | app/utils/formValidator.ts:9 | every character the end trim removes is whitespace |
| Js.TrimEndIsPrefix | app/utils/formValidator.ts:9 | trimming the end only drops characters from the end: the result is a prefix of the input |
| Js.Trim | app/utils/formValidator.ts:9 | `trim()` gives a string no longer than the input that is empty or starts and ends with a non-space character |
| Js.TrimDropsOnlySpace | app/utils/formValidator.ts:9 | `trim()` is the slice `s[a..b]` of its input with only whitespace before `a` and after `b`: with the row above, exactly the leading and trailing whitespace is removed |
| Js.IsBlank | app/utils/formValidator.ts:9 | `!s.trim()`, defined as "trimming leaves nothing"; `Js.BlankIffAllSpace` characterises it |
| Js.TrimStartEmpty | app/utils/formValidator.ts:9 | trimming the front leaves nothing exactly when every character is `\s` whitespace, and otherwise leaves a non-space first character |
| Js.TrimEndKeepsNonSpaceHead | app/utils/formValidator.ts:9 | trimming the end of a string that starts with a non-space character leaves it non-empty |
| Js.BlankIffAllSpace | app/utils/formValidator.ts:9 | `!s.trim()` holds exactly when every character of `s` is whitespace |
| Js.NotBlankWhenHeadNotSpace | app/utils/formValidator.ts:9 | a string whose first character is not whitespace is not blank |
| Js.DigitChar | app/components/AgentForm.tsx:218 | the digit written for a value below ten is a decimal digit with that value |
| Js.DigitPrefix | app/components/AgentForm.tsx:140 | what `parseInt` reads is a prefix of its input made only of digits, and the longest one: the next character, if any, is not a digit |
| Js.ParseInt | app/components/AgentForm.tsx:140 | `parseInt(s, 10)` of a blank string is NaN; a string whose first non-space character is a digit gives a non-negative number; a negative result needs a leading `-` |
| Js.ParseIntReadsLeadingDigits | app/components/AgentForm.tsx:140 | a run of digits followed by nothing or by a non-digit parses to the value of the digits; the rest is ignored |
| Js.ParseIntOfDigitHead | app/components/AgentForm.tsx:140 | a string starting with a digit parses to the value of its longest digit prefix |
| Js.DigitPrefixStops | app/components/AgentForm.tsx:140 | the digit prefix of digits followed by a non-digit is exactly those digits |
| Js.ParseIntExamples | app/components/AgentForm.tsx:140 | `parseInt("12abc")` is 12 and `parseInt("abc")` is NaN |
| Js.NatToDecimal | app/components/AgentForm.tsx:218 | `toString` of a natural number is a non-empty string of digits |
| Js.DigitPrefixOfDigits | app/components/AgentForm.tsx:218 | on a string of digits, `parseInt` reads the whole string |
| Js.DigitsValueOfDecimal | app/components/AgentForm.tsx:218 | the digits `toString` writes for n have the value n |
| Js.ParseIntOfNatDecimal | app/components/AgentForm.tsx:218 | `parseInt(m.toString())` is m for every natural m |
| Js.ParseIntOfDecimal | app/components/AgentForm.tsx:218 | `parseInt(n.toString())` is n for every integer n, negative ones included |
| Js.StringOr | app/api/agents/route.ts:130 | JavaScript `or` on an optional string gives the string when it is non-empty, and the fallback otherwise |
| Patterns.EmailPattern | app/utils/formValidator.ts:11-12 | a string the email regex accepts has at least five characters and holds an `@` and a `.` |
| Patterns.MobilePattern | app/utils/formValidator.ts:34-35 | a string the mobile regex accepts is made only of digits |
| Patterns.PanPattern | app/utils/formValidator.ts:45-46 | a string the PAN regex accepts is made only of upper-case letters and digits |
| Patterns.EmailPatternIff | app/utils/formValidator.ts:11-12 | the email regex accepts exactly the strings with no whitespace, exactly one `@` that is not first, and a `.` after it that is neither right after the `@` nor last |
| Patterns.PatternsRejectBlank | app/utils/formValidator.ts:31-51 | no blank string matches the email, mobile or PAN pattern, so the "required" message always comes first |
| AgentRecord.Get | app/api/agents/route.ts:4-31 | every field holds a value of its own kind: the two PIN codes are numbers, the rest text |
| AgentRecord.With | app/components/AgentForm.tsx:143-146 | updating one field sets it to the new value and leaves every other field unchanged |
| AgentRecord.EmptyAgentData | app/components/AgentForm.tsx:25-52 | the initial record has every text field empty and both PIN codes 0 |
| FormValidator.ValidateEmail | app/utils/formValidator.ts:8-17 | "Email is required" exactly for a blank email; accepted exactly when well formed; otherwise "Please enter a valid email address" |
| FormValidator.ValidatePassword | app/utils/formValidator.ts:19-23 | accepted exactly when not blank and at least 6 characters long, with the message of each failing case |
| FormValidator.ValidateConfirmPassword | app/utils/formValidator.ts:25-29 | accepted exactly when the confirmation is not blank and equals the password, with its two messages |
| FormValidator.ValidateMobile | app/utils/formValidator.ts:31-40 | accepted exactly when the mobile is 10 digits starting with 6 to 9; a blank one reports "required", any other reject the format message |
| FormValidator.ValidatePan | app/utils/formValidator.ts:42-51 | accepted exactly on five capitals, four digits and a capital; a blank one reports "required", any other reject the format message |
| FormValidator.ValidateRequired | app/utils/formValidator.ts:53-56 | accepted exactly when not blank, and otherwise "<fieldName> is required" |
| FormValidator.PanExamples | app/utils/formValidator.ts:42-51 | `ABCDE1234F` passes; `ABCDE12345` and lower case fail the format; `""` is required |
| FormValidator.MobileExamples | app/utils/formValidator.ts:31-40 | `9876543210` passes; a leading 5 or only 8 digits fail the format |
| FormValidator.AcceptedPasswords | app/utils/formValidator.ts:19-29 | a password and confirmation both accepted means at least 6 characters and equal |
| FormValidator.ValidateStep | app/utils/formValidator.ts:58-130 | every key reported is a field that the step checks in its flow |
| FormValidator.FlagExtends | app/utils/formValidator.ts:58-130 | flagging one more field with its own check keeps "flags exactly the failing fields" |
| FormValidator.FourFlagsAgree | app/utils/formValidator.ts:99-125 | four distinct field checks in a row flag exactly the failing ones among the four |
| FormValidator.EmailAgrees | app/utils/formValidator.ts:64-67 | the email step flags the email exactly when it fails, with its message |
| FormValidator.PasswordAgrees | app/utils/formValidator.ts:69-72 | the password step flags the password exactly when it fails, with its message |
| FormValidator.PersonalAgrees | app/utils/formValidator.ts:74-79 | the personal step flags exactly the blank ones among first name, last name, gender and date of birth |
| FormValidator.ConfigurationAgrees | app/utils/formValidator.ts:81-84 | the configuration step flags exactly the blank ones among FOS/DSA and contract/commission |
| FormValidator.AddressAgrees | app/utils/formValidator.ts:106-111 | the address step flags exactly the blank address, district and state, and a PIN code of 0 |
| FormValidator.FinancialAgrees | app/utils/formValidator.ts:113-120 | the financial step flags an invalid PAN with its own message and exactly the blank IFSC, account number and beneficiary |
| FormValidator.ValidateStepAgreesWithTable | app/utils/formValidator.ts:58-130 | for every step and flow, the errors flag exactly the failing fields of that step, each with its check's message, and nothing else |
| FormValidator.ValidateStepEmptyIff | app/utils/formValidator.ts:58-130 | a step reports no error exactly when every field it checks passes |
| FormValidator.StepsOutsideFlowPass | app/utils/formValidator.ts:63-85 | steps outside 1..4 (referred) or 1..6 (self-onboarding), including review step 7, report nothing |
| FormValidator.SharedSteps | app/utils/formValidator.ts:64-104 | steps 1 to 3 check the same things in both flows |
| FormValidator.UncheckedFields | app/utils/formValidator.ts:58-130 | the mobile number, middle name, second home address line, office address and office PIN are never checked at any step |
| FormValidator.PinFlaggedIffZero | app/utils/formValidator.ts:110 | the self-onboarding address step flags the home PIN code exactly when it is 0 |
| AgentsRoute.SendOtpRequestFor | app/api/agents/route.ts:104-113 | the OTP request goes by email notification with the verification template, to exactly the one recipient, with the user's name and id |
| AgentsRoute.SendEmailOtp | app/api/agents/route.ts:123-154 | success exactly on a 2xx whose body parses, then the fixed "sent" message; a 400 fails with the body's message or "Bad Request"; anything else fails with the generic message |
| AgentsRoute.SendEmailOtpIgnoresOkBody | app/api/agents/route.ts:142-147 | the body of a successful response never affects the result |
| AgentsRoute.VerifyEmailOtp | app/api/agents/route.ts:175-199 | verified exactly on a 2xx with a parsed body whose `success` is not literally `false`; a rejection carries the body's message or the invalid-OTP text; anything else fails with the generic message |
| AgentsRoute.VerifyEmailOtpPermissive | app/api/agents/route.ts:182 | a 2xx body whose `success` is missing, 0, null or a string still counts as verified |
| AgentsRoute.VerifyEmailOtpRejected | app/api/agents/route.ts:187-192 | `success: false` is a rejection carrying the body's non-empty message, or else the invalid-OTP text |
| AgentsRoute.VerifyPan | app/api/agents/route.ts:202-219 | PAN verification succeeds exactly when the PAN matches the pattern, with the matching message |
| AgentsRoute.CreateAgent | app/api/agents/route.ts:221-259 | created exactly on a 2xx with a parsed body, passing the body's `agent_id` through and its non-empty message or the default; every failure is the fixed failure result with no id |
| AgentsRoute.UpdateAgentPassword | app/api/agents/route.ts:261-291 | updated exactly on a 2xx with a parsed body, with the body's non-empty message or the default; every failure is the fixed failure result |
| AgentsRoute.CreateAgentSucceedsWithoutId | app/api/agents/route.ts:247-251 | a 2xx body without `agent_id` still counts as a successful creation, with no id |
| AgentsRoute.PostAgents | app/api/agents/route.ts:294-324 | a body that does not parse, or parses to null, gives 500; a missing or falsy mobile, first name, last name or email gives 400 and forwards nothing; otherwise the body is forwarded unchanged and the create result comes back with 200 |
| AgentsRoute.PostAgentsGate | app/api/agents/route.ts:301-316 | the request is forwarded exactly when it is an object with the four fields present; when it is not, the upstream cannot affect the reply; the status is always 200, 400 or 500 |
| AgentsRoute.FalsyFieldIsMissing | app/api/agents/route.ts:301 | an empty string, 0, false or null in any of the four required fields counts as missing (400) |
| PasswordRoute.PostPassword | app/api/agents/password/route.ts:4-25 | 500 for a body that does not parse, or is null; 400 with the fixed message when email, agent id or password is missing or falsy; otherwise the body is forwarded and the update result comes back with 200 |
| PasswordRoute.PostPasswordGate | app/api/agents/password/route.ts:9-16 | the request is forwarded exactly when the three fields are present; when it is not, the upstream cannot affect the reply |
| PasswordRoute.PostPasswordPassesThrough | app/api/agents/password/route.ts:16-18 | with the fields present the reply is 200; it succeeds exactly when the upstream answers 2xx with a parsed body, and otherwise carries the fixed failure message |
| PasswordCreation.Bars | app/components/PasswordCreation.tsx:98-101 | four bars; bar i is lit exactly when the length reaches the i-th threshold of 6, 8, 10 and 12 |
| PasswordCreation.LitCount | app/components/PasswordCreation.tsx:98-101 | proof helper: counts the lit bars, at most the number of bars |
| PasswordCreation.CountAtMost | app/components/PasswordCreation.tsx:98-101 | proof helper: counts the thresholds a length reaches, at most the number of thresholds |
| PasswordCreation.LitCountOfFour | app/components/PasswordCreation.tsx:98-101 | proof helper: unrolls the count of four bars into the sum of their individual counts |
| PasswordCreation.CountAtMostThresholds | app/components/PasswordCreation.tsx:98-101 | proof helper: unrolls the count of thresholds reached into one term per threshold |
| PasswordCreation.LitCountIsThresholdsReached | app/components/PasswordCreation.tsx:98-101 | the number of lit bars is the number of thresholds the length reaches |
| PasswordCreation.LitCountClosedForm | app/components/PasswordCreation.tsx:98-101 | the lit count is 0 to 4 by length band, and the lit bars are exactly the first ones |
| PasswordCreation.HiddenMeterIsEmpty | app/components/PasswordCreation.tsx:94-107 | the meter is hidden only for a password that lights no bar and would read "Too short", so a lit bar implies a shown meter |
| PasswordCreation.LabelNamesLitCount | app/components/PasswordCreation.tsx:98-107 | the label is the lit count's entry in Too short, Weak, Fair, Good, Strong |
| PasswordCreation.StrengthLabel | app/components/PasswordCreation.tsx:98-107 | the label is one of the five labels, and it is "Too short" exactly when the password is shorter than the first threshold |
| PasswordCreation.StrengthMonotone | app/components/PasswordCreation.tsx:98-107 | a longer password never lights fewer bars, and each label names its count |
| PasswordCreation.TooShortIffNoBars | app/components/PasswordCreation.tsx:98-107 | "Too short" is shown exactly when no bar is lit |
| PanVerification.PanWidget.constructor | app/components/PANVerification.tsx:13-14 | a fresh widget is neither verified nor loading |
| PanVerification.PanWidget.BeginVerify | app/components/PANVerification.tsx:16-19 | a click on the enabled button with a blank PAN does nothing; any other PAN starts a request and sets loading |
| PanVerification.PanWidget.FinishVerify | app/components/PANVerification.tsx:20-29 | the result clears loading and verifies exactly when the PAN sent matches the pattern; a failure changes nothing else |
| PanVerification.VerifyOnce | app/components/PANVerification.tsx:16-53 | one click ends not loading, verified exactly on a non-blank valid PAN; once verified, input and button are disabled |
| EmailOtp.EmailOtpWidget.constructor | app/components/EmailOTP.tsx:25-29 | a fresh widget has nothing sent, nothing verified, no code and no loading |
| EmailOtp.EmailOtpWidget.ControlsExclusive | app/components/EmailOTP.tsx:133-156 | the send button and the code entry are never shown together, and after sending the send button is gone |
| EmailOtp.EmailOtpWidget.BeginSend | app/components/EmailOTP.tsx:31-34 | a blank email does nothing; otherwise sending starts, and nothing else changes |
| EmailOtp.EmailOtpWidget.FinishSend | app/components/EmailOTP.tsx:36-44 | the result clears loading and marks the code as sent exactly on success |
| EmailOtp.EmailOtpWidget.SetCode | app/components/EmailOTP.tsx:163-167 | typing sets the code and nothing else |
| EmailOtp.EmailOtpWidget.BeginVerify | app/components/EmailOTP.tsx:47-50 | a blank code does nothing; otherwise verification starts |
| EmailOtp.EmailOtpWidget.FinishVerify | app/components/EmailOTP.tsx:51-61 | the result clears loading; a success verifies and calls the completion callback once, and a failure changes nothing else |
| EmailOtp.SendThenVerify | app/components/EmailOTP.tsx:31-62 | from a fresh widget, the email is verified exactly when the email and code are non-blank and both calls succeed; then the callback has run exactly once and the input is locked |
| AgentForm.ParentAgentIdFor | app/components/AgentForm.tsx:56-68 | a non-empty `referredby` becomes the parent id; an absent or empty one gives `"self-onboard"` |
| AgentForm.IsReferredId | app/components/AgentForm.tsx:78 | `isReferred`: every parent id except the literal `"self-onboard"`, the empty one included; `AgentForm.ReferredFlowIff` ties it to the URL parameter |
| AgentForm.StepCount | app/components/AgentForm.tsx:80-92 | `steps.length`: four step entries in the referred flow, six in self-onboarding |
| AgentForm.LastStep | app/components/AgentForm.tsx:192-196 | the bound `nextStep` clamps at is one past the number of step entries |
| AgentForm.ReferredFlowIff | app/components/AgentForm.tsx:57-78 | the referred flow is chosen exactly for a non-empty `referredby` other than `"self-onboard"` |
| AgentForm.Advance | app/components/AgentForm.tsx:192-196 | next adds one step, up to 5 (referred) or 7 (self-onboarding) |
| AgentForm.Retreat | app/components/AgentForm.tsx:200-202 | previous goes back one step, never below 1 |
| AgentForm.NavigateStaysInRange | app/components/AgentForm.tsx:186-202 | any run of next and previous presses keeps the step within 1 and the clamp bound |
| AgentForm.ReviewStepNeverReached | app/components/AgentForm.tsx:482-506 | when next is offered only below the last step entry, the step stays within 1..4 or 1..6, and the clamp bound is never reached |
| AgentForm.StepErrors | app/components/AgentForm.tsx:171-184 | `validateStep`: the step validator's map, plus the confirmation error on step 2; `AgentForm.StepErrorsEmptyIff` characterises it |
| AgentForm.StepErrorsEmptyIff | app/components/AgentForm.tsx:171-184 | a step passes exactly when its fields pass and, on step 2, the confirmation is accepted; the confirmation key appears only on step 2 |
| AgentForm.PasswordStepPasses | app/components/AgentForm.tsx:171-184 | passing step 2 means the password has at least 6 characters and equals its confirmation |
| AgentForm.ParsePinInput | app/components/AgentForm.tsx:139-141 | a PIN input becomes what `parseInt` reads, or 0 when it reads no digits |
| AgentForm.PinInputOfDecimal | app/components/AgentForm.tsx:140 | typing the decimal form of any integer stores that integer |
| AgentForm.PinInputSigned | app/components/AgentForm.tsx:140 | `"-5"` is stored as -5 and `" 12"` as 12 |
| AgentForm.PinInputWithoutDigits | app/components/AgentForm.tsx:140 | an empty input and `"abc"` are stored as 0 |
| AgentForm.InputValue | app/components/AgentForm.tsx:137-141 | PIN fields get the parsed number; every other field gets the raw text |
| AgentForm.ClearError | app/components/AgentForm.tsx:148-154 | the field's error is emptied, its key kept, and all other errors unchanged |
| AgentForm.GenderCode | app/components/AgentForm.tsx:221 | gender is sent as M exactly for Male and F exactly for Female; anything else is O |
| AgentForm.DropUndefined | app/components/AgentForm.tsx:231-236 | what remains has no `undefined` value |
| AgentForm.RemoveUndefinedKeys | app/components/AgentForm.tsx:231-236 | the loop over a snapshot of the keys, deleting `undefined` entries, leaves exactly the defined entries |
| AgentForm.EveryFieldListed | app/api/agents/route.ts:4-31 | proof helper for `AgentForm.PayloadAt`: the field list used for the payload has every field of the record |
| AgentForm.PayloadAt | app/components/AgentForm.tsx:212-236 | a field is in the payload exactly when it is not the password and its cleaned value is defined, and then it carries that value |
| AgentForm.CleanedValue | app/components/AgentForm.tsx:212-221 | the value `cleanedData` gives each field; the lemmas below state it field by field |
| AgentForm.CleanedData | app/components/AgentForm.tsx:212-221 | `cleanedData`: every field but the password, before the `undefined` values are removed |
| AgentForm.CreatePayload | app/components/AgentForm.tsx:212-236 | the payload sent to the create call; `AgentForm.CreatePayloadFixedFields` and `AgentForm.CreatePayloadTextFields` state its contents |
| AgentForm.CleanedPinCodes | app/components/AgentForm.tsx:218-219 | the home PIN is sent as its number; the office PIN is sent as its number when non-zero, and left out when it is 0 |
| AgentForm.CreatePayloadFixedFields | app/components/AgentForm.tsx:212-221 | the payload never holds the password, always holds the gender code and the home PIN, and holds the office PIN exactly when non-zero |
| AgentForm.GenderSent | app/components/AgentForm.tsx:221 | the payload always holds the gender, as its one-letter code |
| AgentForm.PinCodesSent | app/components/AgentForm.tsx:217-219 | the payload always holds the home PIN as the number stored, and holds the office PIN, as stored, exactly when it is not 0 |
| AgentForm.OptionalTextAt | app/components/AgentForm.tsx:223-228 | an optional text field is in the payload exactly when non-empty, with its text |
| AgentForm.PlainTextAt | app/components/AgentForm.tsx:212-216 | every other text field is always in the payload with its text unchanged |
| AgentForm.CreatePayloadTextFields | app/components/AgentForm.tsx:212-236 | the two statements above for all text fields at once |
| AgentForm.Submission | app/components/AgentForm.tsx:241-297 | the password call is made exactly after a creation with an id, with the email, that id and the password; the form resets exactly when that call returns; an exception or a creation without an id gives its error message |
| AgentForm.SubmissionMessages | app/components/AgentForm.tsx:252-256 | after a creation with an id, a successful update gives the success text with that id, and a failed one gives the id followed by the update's message |
| AgentForm.SubmissionNamesAgent | app/components/AgentForm.tsx:252-256 | the message names the new agent's id right after "Agent created with ID: ", and a failed update's message closes it |
| AgentForm.SubmissionSucceedsIff | app/components/AgentForm.tsx:244-256 | the message starts with "Success!" exactly when the creation returned an id and the password update succeeded; a failed update still resets the form |
| AgentForm.CreatedWithoutIdReportedAsError | app/components/AgentForm.tsx:244-293 | a successful creation without `agent_id` is reported as "Error: Agent created successfully!", with no password call and no reset |
| AgentForm.Wizard.constructor | app/components/AgentForm.tsx:19-53 | the wizard starts on step 1, unverified, with no errors, an empty record and no message |
| AgentForm.Wizard.ApplyReferral | app/components/AgentForm.tsx:56-76 | the mount effect sets the parent id from `referredby` and the onboarding date, and changes nothing else |
| AgentForm.Wizard.HandleInputChange | app/components/AgentForm.tsx:134-155 | the field gets its processed value, every other field is unchanged, and its error is cleared |
| AgentForm.Wizard.HandlePanChange | app/components/AgentForm.tsx:157-169 | the PAN is set and its error cleared; nothing else changes |
| AgentForm.Wizard.SetConfirmPassword | app/components/AgentForm.tsx:53 | the confirmation is set and nothing else changes |
| AgentForm.Wizard.OnVerificationComplete | app/components/AgentForm.tsx:312 | the email is marked verified and nothing else changes |
| AgentForm.Wizard.ValidateStep | app/components/AgentForm.tsx:171-184 | the errors become the step's errors, and the result is true exactly when there are none |
| AgentForm.Wizard.NextStep | app/components/AgentForm.tsx:186-198 | the step advances (clamped) exactly when it passes and, on step 1, the email is verified; otherwise it stays; an unverified email on step 1 replaces the errors with the verify message |
| AgentForm.Wizard.PrevStep | app/components/AgentForm.tsx:200-202 | the step goes back one, never below 1, and nothing else changes |
| AgentForm.Wizard.HandleSubmit | app/components/AgentForm.tsx:204-300 | a failing step sets its errors and sends nothing; otherwise the cleaned payload is sent, the message is the submission's, and on reset the form is emptied at step 1 in the referred flow |

## Left out

- Rendering is left out: markup, styling, step titles and icons, the card width chosen by `getCardWidth`, the success/error banner colour, and the presentational step components (`PersonalDetails`, `AddressDetails`, `FinancialDetails`, `AgentConfiguration`, `ReviewStep`). They hold no logic that this model states.
- Network I/O, the endpoint URLs built from `STAGE`, request serialisation and console logging are left out. Every `fetch` outcome is a parameter (`Fetched`), and `response.json()` is modelled as a parsed, null or unparseable body.
- The client services in `app/services/` are not part of this model. Their results reach the widgets and the wizard as parameters (`ApiResult`, `AgentResult`, `CallOutcome`). In the source, the agent service turns a non-2xx answer into a generic failure, so the route's 400 message never reaches the user. The verification service passes only the email, so `userName` is always the default `"User"`.
- The clock is left out. The onboarding date (`new Date().toISOString()`) and the OTP `user_id` (`Date.now()`) are parameters.
- Timers are left out. The 3-second delay before the reset is taken as immediate. The simulated 1-second delay of `verifyPAN` is the gap between `BeginVerify` and `FinishVerify`.
- Concurrency is left out. Each event runs to completion. `isSubmitting`, which only disables the submit button while a submission is in flight, is not modelled, and neither are overlapping submissions.
- EmailOTP remounting is left out. The wizard's `emailOtpVerified` flag and the email widget's own flags are not linked. Going back to step 1 mounts a fresh widget, so the email becomes editable again while the wizard still counts it as verified.
- String lengths are counted in Dafny characters, not UTF-16 code units, for the 6-character password minimum and the strength bars.
- Numbers are unbounded integers. Floating-point PIN values, precision loss in `parseInt` of very long digit strings, and `NaN` stored in the record are left out. `NaN` cannot arise, because the change handler maps it to 0.
- JSON bodies are records of optional fields. A non-string `message` or `agent_id` is not modelled. An array or scalar body has none of the fields read, so it is modelled as a body without them: `Body(None, None, None)` for a response, an object without keys for a request. Request bodies are objects with scalar values.
- The `maxLength` attributes (6 for the OTP, 10 for the PAN) are left out, because they only limit typing.
- The password props of the email widget are left out; they have no effect on its state.
- The JSON key names of the record (`mob_num`, `home_pin_code`, …) are left out. The payload is keyed by `Field`.
