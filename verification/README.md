# Login screen controller: a Dafny model

This project models the login screen of a point-of-sale web client
(`LoginComponent`, in `src/app/pages/login/login.component.ts`). The screen holds
a two-field credential form: a CPF/CNPJ `document` and a `password`. On submit it
raises a loading flag. If the form is invalid, it shows one toast per validation
error. If the form is valid, it sends a fixed-shape login request. After a
successful login it asks for the user's establishments. The answer decides the
route: the establishment-selection screen for more than one, the index screen
for one or none; a null answer navigates nowhere. A failed service call lowers the flag and shows one generic toast;
a failed lookup also logs the user out.

Files:

- `wrappers.dfy`: `Option`, for TypeScript's `null`.
- `seqs.dfy`: mapping a function over a sequence and concatenating the results,
  with the append laws the logs need.
- `decimal.dfy`: the decimal numeral interpolated into the minimum-length message,
  with its inverse.
- `form.dfy`: the form's controls, their validators, validity, and the messages
  `invalidFields` reports.
- `login.dfy`: the `LoginComponent` class. It holds the control values, the
  `isLoading` flag, an ordered log of every call made on a collaborator (login,
  lookup, logout, toast, navigation) and the counts of service calls still
  awaiting their answer. Each asynchronous completion is its own event method.
- `submission.dfy`: one submission from start to settled state, as a
  specification function over the services' outcome. `RunSubmission` drives a
  fresh component through the events and is proved to produce exactly that log
  and flag. Lemmas state the properties of each path.

A toast is logged as the message it shows (`Message` for the field errors,
`Notice` for every toast), and `Text` / `NoticeText` give the exact Portuguese
string of each.

The CPF/CNPJ check is a parameter `isCpfCnpj: string -> bool`, held by the
component as a constant. Its checksum (`src/app/utils/cpfCnpjValidator`) is not
part of this model.

The required message names the field "Senha" for the password and "Documento"
otherwise (login.component.ts:117-118). The loading flag is raised on submit
(:53) and only a failed service call lowers it (:80, :86): it stays raised on an
invalid form (:90-92), after a successful lookup, and after a null lookup result
(:68-77).

## Model

| member | source | states |
|---|---|---|
| `Decimal.NatToDecimal` | src/app/pages/login/login.component.ts:125 | the interpolated number is a non-empty string of digits with no leading zero except for 0 |
| `Decimal.DecimalRoundTrip` | src/app/pages/login/login.component.ts:125 | reading the interpolated numeral back gives the required length: the rendering loses nothing |
| `Decimal.DecimalInjective` | src/app/pages/login/login.component.ts:125 | different required lengths give different numerals |
| `FormModel.MinLength` | src/app/pages/login/login.component.ts:47 | the minimum-length validator fires exactly for a non-empty value shorter than the minimum, and records the required and actual lengths |
| `FormModel.DocumentErrors` | src/app/pages/login/login.component.ts:44 | the document control is valid iff its value is non-empty and passes the CPF/CNPJ check; its required tag (Angular's required validator) is raised exactly on the empty string |
| `FormModel.PasswordErrors` | src/app/pages/login/login.component.ts:45-48 | the password control is valid iff its value is non-empty and at least 6 long; its required tag is raised exactly on the empty string; a minlength error carries required length 6 |
| `FormModel.FormControls` | src/app/pages/login/login.component.ts:42-49 | the form group has two controls, `document` first, then `password` |
| `FormModel.FormValid` | src/app/pages/login/login.component.ts:42-49 | the form is valid iff document non-empty, CPF/CNPJ check holds, password non-empty and length >= 6 |
| `FormModel.Text` | src/app/pages/login/login.component.ts:109-126 | every field message has a non-empty text not starting like a service error; the required text starts with "Senha" exactly for the password field; the minimum-length text carries the required length as digits that read back to it |
| `FormModel.TextInjective` | src/app/pages/login/login.component.ts:109-126 | two messages the form can report have the same text only when they are the same message: rule, field and required length |
| `FormModel.ControlMessages` | src/app/pages/login/login.component.ts:103-128 | a valid control reports nothing; an invalid one reports one message per tag present: the CPF/CNPJ message iff that tag is present and then first, the required message naming the control iff that tag is present and then next, the minimum-length message with its required length last |
| `FormModel.FieldErrorMessages` | src/app/pages/login/login.component.ts:100-130 | the messages of a list of controls, control by control: none exactly when every control is valid |
| `FormModel.FieldErrorMessagesAppend` | src/app/pages/login/login.component.ts:100-130 | reporting is control by control in control order: two runs of controls report the first run's messages, then the second's |
| `FormModel.MessageCount` | src/app/pages/login/login.component.ts:108-127 | the tags are independent: the number of messages equals the number of tags present |
| `FormModel.NoMessagesIffAllValid` | src/app/pages/login/login.component.ts:100-103 | nothing is reported iff every control is valid |
| `FormModel.FormMessages` | src/app/pages/login/login.component.ts:99-131 | the login form's messages in full, in order: the CPF/CNPJ message, then the document's required message, then the password's required message or else the 6-character message |
| `FormModel.InvalidFormIsReported` | src/app/pages/login/login.component.ts:90-92 | an invalid form always reports at least one message, a valid one none |
| `LoginPage.NoticeText` | src/app/pages/login/login.component.ts:81-87 | a field toast shows its message's text; exactly the two service-failure toasts start with "Erro ao " |
| `LoginPage.NoticeTextInjective` | src/app/pages/login/login.component.ts:81-126 | any two toasts the screen can show differ in text unless they are the same toast |
| `LoginPage.BuildRequest` | src/app/pages/login/login.component.ts:55-63 | the request carries the document as userLogin and the password, with empty two-factor codes, both cookie flags true and a null service provider |
| `LoginPage.RequestDeterminedByCredentials` | src/app/pages/login/login.component.ts:55-63 | only the credentials vary: a fixed-shape request is the one built from given credentials iff it carries them |
| `LoginPage.LookupRouting` | src/app/pages/login/login.component.ts:68-76 | a lookup answer adds only navigations: none for null, one to /estabelecimentos iff more than one establishment, one to /index iff one or none |
| `LoginPage.LoginComponent.constructor` | src/app/pages/login/login.component.ts:34-50 | empty controls, loading flag down, nothing called, nothing pending |
| `LoginPage.LoginComponent.SetDocument` | src/app/pages/login/login.component.ts:44 | the view's input becomes the document control's value; nothing else changes |
| `LoginPage.LoginComponent.SetPassword` | src/app/pages/login/login.component.ts:45 | the view's input becomes the password control's value; nothing else changes |
| `LoginPage.LoginComponent.Submit` | src/app/pages/login/login.component.ts:52-93 | raises the loading flag; a valid form appends one login call with the built request and one pending login; an invalid form appends the field toasts and calls no service |
| `LoginPage.LoginComponent.OnLoginOk` | src/app/pages/login/login.component.ts:65-67 | a successful login appends exactly one lookup call and moves one pending call from login to lookup |
| `LoginPage.LoginComponent.OnLoginErr` | src/app/pages/login/login.component.ts:85-88 | a failed login lowers the flag and appends exactly the login-error toast |
| `LoginPage.LoginComponent.OnLookupOk` | src/app/pages/login/login.component.ts:68-77 | a lookup answer appends the route its count selects, or nothing for null; the flag is untouched |
| `LoginPage.LoginComponent.OnLookupErr` | src/app/pages/login/login.component.ts:78-82 | a failed lookup appends a logout call, then the lookup-error toast, and lowers the flag |
| `LoginPage.LoginComponent.Navigate` | src/app/pages/login/login.component.ts:95-97 | appends exactly one navigation, to /signup, and changes nothing else |
| `LoginPage.LoginComponent.InvalidFields` | src/app/pages/login/login.component.ts:99-131 | appends one toast per message of the given controls, in control order, and nothing else |
| `LoginPage.LoginComponent.ReportControl` | src/app/pages/login/login.component.ts:101-129 | for one control, appends the toasts of its messages: CPF/CNPJ, then required, then minlength |
| `LoginPage.LoginComponent.ShowMessage` | src/app/pages/login/login.component.ts:111-126 | appends exactly one error toast showing the given field message, which extends the toasts of the messages already shown by that message |
| `Submission.RunSubmission` | src/app/pages/login/login.component.ts:52-93 | driving a fresh component through submit and the services' answers yields exactly the specified log and loading flag |
| `Submission.Answer` | src/app/pages/login/login.component.ts:64-89 | the services' answers to a pending login add the completion effects of the outcome, consume the pending login, and lower the flag only on a failure; they never touch the form values; with no login pending nothing changes |
| `Submission.ValidSubmissionLog` | src/app/pages/login/login.component.ts:54-89 | a valid form's log is the login call with its credentials, then the effects of the services' answers |
| `Submission.InvalidFormSubmission` | src/app/pages/login/login.component.ts:90-92 | an invalid form: no login, lookup or navigation; one toast per violated rule, at least one; the loading flag stays up |
| `Submission.ValidFormSendsRequest` | src/app/pages/login/login.component.ts:54-64 | a valid form: exactly one login call, first in the log, carrying the built request |
| `Submission.LoginFailureSubmission` | src/app/pages/login/login.component.ts:85-88 | login fails: exactly one toast, the login error, last; no lookup, logout or navigation; the flag is down |
| `Submission.LookupFailureSubmission` | src/app/pages/login/login.component.ts:78-82 | lookup fails: one lookup, one logout, exactly one toast (the lookup error), no navigation; the flag is down |
| `Submission.SuccessfulSubmission` | src/app/pages/login/login.component.ts:64-77 | both succeed: one lookup, no toast or logout; no navigation for null, else exactly one, to /estabelecimentos iff more than one establishment and to /index iff one or none |

## Left out

- The CPF/CNPJ checksum: `src/app/utils/cpfCnpjValidator` is not part of this model. It is the parameter `isCpfCnpj`. The model assumes it raises only the `invalidDocument` tag.
- The establishments the lookup returns: only whether the result is null and its length are modelled (`Option<nat>`), since nothing else is read.
- Angular's `FormGroup` machinery: value changes, status bookkeeping and the `control &&` null check on a control key. The controls are given as a sequence in key order.
- RxJS subscriptions: each completion is an event method that may run only while a call of its kind is pending. The order in which several pending calls complete is left to the caller.
- Decimal rendering: numbers from 10^21 on, which JavaScript writes in exponent form; the only number interpolated is 6.
- `console.log` calls: debug output only.
- String length: `|password|` counts characters, while JavaScript counts UTF-16 code units. The two differ only for characters outside the Basic Multilingual Plane.
- `LoginRequest.serviceProvider` is modelled as `Option<string>`. Its declared type (`src/app/types/login-request.type`) is not part of this model.
- Templates, styles and the bottom menu component (`src/app/components/bottom-menu/bottom-menu.component.ts`): presentational only.
