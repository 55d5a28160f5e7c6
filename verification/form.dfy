/**
 * The credential form of the login screen and its error reporting.
 *
 * The form group holds two controls, in this order: `document` (required, and a
 * CPF or CNPJ) and `password` (required, at least six characters). Each control
 * carries an errors record with the tags its validators raised; a control is
 * invalid when some tag is present, the form is valid when no control is invalid.
 * The CPF/CNPJ check is a parameter `isCpfCnpj` of every function that needs it:
 * its checksum is not part of this model.
 */
module FormModel {
  import opened Wrappers
  import opened Seqs
  import Decimal

  /** The `minlength` error of Angular's length validator. */
  datatype MinLengthError = MinLengthError(requiredLength: nat, actualLength: nat)

  /** The errors of one control; no tag present stands for Angular's `errors == null`. */
  datatype ControlErrors = ControlErrors(
    invalidDocument: bool,
    required: bool,
    minlength: Option<MinLengthError>)

  /** A control of the form group: its key and its current errors. */
  datatype Control = Control(name: string, errors: ControlErrors)

  const MinPasswordLength: nat := 6

  const DocumentField := "document"
  const PasswordField := "password"

  predicate IsInvalid(e: ControlErrors) {
    e.invalidDocument || e.required || e.minlength.Some?
  }

  /** The number of tags present in one errors record. */
  function TagCount(e: ControlErrors): nat {
    (if e.invalidDocument then 1 else 0) + (if e.required then 1 else 0)
      + (if e.minlength.Some? then 1 else 0)
  }

  // ---------------------------------------------------------------------------
  // Validators and the form rules

  /** Angular's minimum-length validator: silent on an empty value, which is the
      required validator's business, and otherwise raised below `min`. */
  function MinLength(min: nat, value: string): (r: Option<MinLengthError>)
    ensures r.Some? <==> 0 < |value| < min
    ensures r.Some? ==> r.value.requiredLength == min && r.value.actualLength == |value|
  {
    if value == "" || |value| >= min then None else Some(MinLengthError(min, |value|))
  }

  /** Errors of the `document` control: Angular's required validator, which raises
      its tag exactly on the empty string, then the CPF/CNPJ check. */
  function DocumentErrors(isCpfCnpj: string -> bool, value: string): (e: ControlErrors)
    ensures !IsInvalid(e) <==> value != "" && isCpfCnpj(value)
    ensures e.required <==> value == ""
  {
    ControlErrors(!isCpfCnpj(value), value == "", None)
  }

  /** Errors of the `password` control: required (the empty string), then minimum
      length six. */
  function PasswordErrors(value: string): (e: ControlErrors)
    ensures !IsInvalid(e) <==> value != "" && |value| >= MinPasswordLength
    ensures e.required <==> value == ""
    ensures e.minlength.Some? ==> e.minlength.value.requiredLength == MinPasswordLength
  {
    ControlErrors(false, value == "", MinLength(MinPasswordLength, value))
  }

  /** The form group's controls, in declaration order. */
  function FormControls(isCpfCnpj: string -> bool, document: string, password: string): (cs: seq<Control>)
    ensures |cs| == 2
    ensures cs[0].name == DocumentField && cs[1].name == PasswordField
  {
    [Control(DocumentField, DocumentErrors(isCpfCnpj, document)),
     Control(PasswordField, PasswordErrors(password))]
  }

  /** The form is valid when none of its controls is invalid; for this form that
      is: a non-empty CPF/CNPJ document and a password of at least six characters. */
  function FormValid(isCpfCnpj: string -> bool, document: string, password: string): (r: bool)
    ensures r <==> document != "" && isCpfCnpj(document) && password != "" && |password| >= 6
  {
    var cs := FormControls(isCpfCnpj, document, password);
    forall i :: 0 <= i < |cs| ==> !IsInvalid(cs[i].errors)
  }

  // ---------------------------------------------------------------------------
  // Error messages

  /** The three kinds of message `invalidFields` shows. */
  datatype Message =
    | InvalidDocument
    | Required(field: string)
    | TooShort(requiredLength: nat)

  const TooShortPrefix := "A senha deve ter no mínimo "
  const TooShortSuffix := " caracteres."

  /** The text of each message. The required message names the password field
      "Senha" and any other field "Documento"; the minimum-length message speaks of
      the password whatever the field, and the required length can be read back
      from its digits. No text starts as the service errors do, with 'E'. */
  function Text(m: Message): (t: string)
    ensures |t| > 0 && t[0] != 'E'
    ensures m.Required? ==> |t| >= 5 && (t[..5] == "Senha" <==> m.field == PasswordField)
    ensures m.TooShort? ==>
      && |t| >= |TooShortPrefix| + |TooShortSuffix|
      && t[..|TooShortPrefix|] == TooShortPrefix
      && Decimal.AllDigits(t[|TooShortPrefix|..|t| - |TooShortSuffix|])
      && Decimal.DecimalValue(t[|TooShortPrefix|..|t| - |TooShortSuffix|]) == m.requiredLength
  {
    match m
    case InvalidDocument => "CPF/CNPJ inválido."
    case Required(field) => (if field == PasswordField then "Senha" else "Documento") + " é obrigatório."
    case TooShort(n) =>
      var digits := Decimal.NatToDecimal(n);
      var t := TooShortPrefix + digits + TooShortSuffix;
      assert t[|TooShortPrefix|..|t| - |TooShortSuffix|] == digits;
      assert t[..|TooShortPrefix|] == TooShortPrefix;
      Decimal.DecimalRoundTrip(n);
      t
  }

  /** The messages the login form can report: a required message names one of its
      two fields. */
  predicate Reportable(m: Message) {
    m.Required? ==> m.field == DocumentField || m.field == PasswordField
  }

  /** Different reportable messages have different texts: each toast tells which
      rule failed, for which field, and with which required length. */
  lemma TextInjective(m: Message, n: Message)
    requires Reportable(m) && Reportable(n)
    requires Text(m) == Text(n)
    ensures m == n
  {
    var t := Text(m);
    if m.TooShort? || n.TooShort? {
      assert t[0] == 'A' <==> m.TooShort?;
      assert t[0] == 'A' <==> n.TooShort?;
    } else if m.InvalidDocument? || n.InvalidDocument? {
      assert t[0] == 'C' <==> m.InvalidDocument?;
      assert t[0] == 'C' <==> n.InvalidDocument?;
    }
  }

  /** The messages reported for one control: none for a valid one; otherwise one
      per tag present, the document message first, then required, then minlength. */
  function ControlMessages(c: Control): (ms: seq<Message>)
    ensures |ms| == TagCount(c.errors)
    ensures ms == [] <==> !IsInvalid(c.errors)
    ensures InvalidDocument in ms <==> c.errors.invalidDocument
    ensures Required(c.name) in ms <==> c.errors.required
    ensures c.errors.invalidDocument ==> ms[0] == InvalidDocument
    ensures c.errors.required ==> ms[if c.errors.invalidDocument then 1 else 0] == Required(c.name)
    ensures c.errors.minlength.Some? ==> ms[|ms| - 1] == TooShort(c.errors.minlength.value.requiredLength)
  {
    if !IsInvalid(c.errors) then []
    else
      (if c.errors.invalidDocument then [InvalidDocument] else [])
      + (if c.errors.required then [Required(c.name)] else [])
      + (match c.errors.minlength
         case None => []
         case Some(m) => [TooShort(m.requiredLength)])
  }

  /** The messages reported for a list of controls, control by control: none
      exactly when every control is valid. */
  function FieldErrorMessages(cs: seq<Control>): (ms: seq<Message>)
    ensures ms == [] <==> forall i :: 0 <= i < |cs| ==> !IsInvalid(cs[i].errors)
  {
    NoMessagesIffAllValid(cs);
    ConcatMap(ControlMessages, cs)
  }

  function TagTotal(cs: seq<Control>): nat {
    if cs == [] then 0 else TagTotal(cs[..|cs| - 1]) + TagCount(cs[|cs| - 1].errors)
  }

  /** Reporting two runs of controls reports the first run's messages, then the second's. */
  lemma FieldErrorMessagesAppend(a: seq<Control>, b: seq<Control>)
    ensures FieldErrorMessages(a + b) == FieldErrorMessages(a) + FieldErrorMessages(b)
  {
    ConcatMapAppend(ControlMessages, a, b);
  }

  /** One message per tag present: the tags are independent of each other. */
  lemma {:induction false} MessageCount(cs: seq<Control>)
    ensures |FieldErrorMessages(cs)| == TagTotal(cs)
    decreases |cs|
  {
    if cs != [] {
      MessageCount(cs[..|cs| - 1]);
    }
  }

  /** Nothing is reported exactly when every control is valid. */
  lemma {:induction false} NoMessagesIffAllValid(cs: seq<Control>)
    ensures ConcatMap(ControlMessages, cs) == [] <==> forall i :: 0 <= i < |cs| ==> !IsInvalid(cs[i].errors)
    decreases |cs|
  {
    if cs != [] {
      var init := cs[..|cs| - 1];
      NoMessagesIffAllValid(init);
      assert forall i :: 0 <= i < |init| ==> init[i] == cs[i];
    }
  }

  /** The messages for the login form, in full: the document's (CPF/CNPJ, then
      required), then the password's (required, or else minimum length six). */
  lemma FormMessages(isCpfCnpj: string -> bool, document: string, password: string)
    ensures FieldErrorMessages(FormControls(isCpfCnpj, document, password))
         == (if !isCpfCnpj(document) then [InvalidDocument] else [])
          + (if document == "" then [Required(DocumentField)] else [])
          + (if password == "" then [Required(PasswordField)]
             else if |password| < 6 then [TooShort(6)]
             else [])
  {
    var cs := FormControls(isCpfCnpj, document, password);
    assert cs == [cs[0]] + [cs[1]];
    ConcatMapSnoc(ControlMessages, [cs[0]], cs[1]);
    ConcatMapSnoc(ControlMessages, [], cs[0]);
    assert [] + [cs[0]] == [cs[0]];
  }

  /** An invalid form always reports at least one message, a valid one none. */
  lemma InvalidFormIsReported(isCpfCnpj: string -> bool, document: string, password: string)
    ensures !FormValid(isCpfCnpj, document, password)
        <==> FieldErrorMessages(FormControls(isCpfCnpj, document, password)) != []
  {
    NoMessagesIffAllValid(FormControls(isCpfCnpj, document, password));
  }
}
