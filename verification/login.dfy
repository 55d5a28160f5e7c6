/**
 * The login screen controller.
 *
 * Everything the controller does to its collaborators (the login service, the
 * establishment lookup, the toast service, the router) is recorded, in order, in
 * an effect log. The asynchronous completions of the two service calls are
 * separate event methods; each may run only for a call that is still pending.
 */
module LoginPage {
  import opened Wrappers
  import opened Seqs
  import opened FormModel

  /** The payload sent to the login service. */
  datatype LoginRequest = LoginRequest(
    userLogin: string,
    password: string,
    twoFactorCode: string,
    twoFactorRecoveryCode: string,
    useCookies: bool,
    useSessionCookies: bool,
    serviceProvider: Option<string>)

  /** One call the controller makes on a collaborator. */
  datatype Effect =
    | LoginCall(request: LoginRequest)  // loginService.login
    | LookupCall                        // establishmentUserService.getEstablishmentsUser
    | LogoutCall                        // loginService.logout
    | Toast(notice: Notice)             // toastrService.error
    | Navigation(route: string)         // router.navigate

  /** What a toast shows: a field message, or one of the two service failures. */
  datatype Notice = FieldMessage(message: Message) | LoginFailed | LookupFailed

  const ErrorPrefix := "Erro ao "

  /** The text of each toast: a field message shows its own text; the two service
      failures, and only they, start with "Erro ao ". */
  function NoticeText(n: Notice): (t: string)
    ensures n.FieldMessage? ==> t == Text(n.message)
    ensures !n.FieldMessage? <==> |t| >= |ErrorPrefix| && t[..|ErrorPrefix|] == ErrorPrefix
  {
    match n
    case FieldMessage(m) =>
      var t := Text(m);
      assert |t| >= |ErrorPrefix| ==> t[..|ErrorPrefix|][0] == t[0];
      t
    case LoginFailed =>
      var t := ErrorPrefix + "realizar login!";
      assert t[..|ErrorPrefix|] == ErrorPrefix;
      t
    case LookupFailed =>
      var t := ErrorPrefix + "carregar estabelecimentos do usuário.";
      assert t[..|ErrorPrefix|] == ErrorPrefix;
      t
  }

  /** Different toasts the login screen can show have different texts. */
  lemma NoticeTextInjective(n: Notice, o: Notice)
    requires n.FieldMessage? ==> Reportable(n.message)
    requires o.FieldMessage? ==> Reportable(o.message)
    requires NoticeText(n) == NoticeText(o)
    ensures n == o
  {
    var t := NoticeText(n);
    if n.FieldMessage? && o.FieldMessage? {
      TextInjective(n.message, o.message);
    } else if !n.FieldMessage? && !o.FieldMessage? {
      assert t[8] == 'r' <==> n.LoginFailed?;
      assert t[8] == 'r' <==> o.LoginFailed?;
    }
  }

  /** The kinds of effect, for counting them. */
  datatype Kind = LoginKind | LookupKind | LogoutKind | ToastKind | NavigationKind

  function KindOf(e: Effect): Kind {
    match e
    case LoginCall(_) => LoginKind
    case LookupCall => LookupKind
    case LogoutCall => LogoutKind
    case Toast(_) => ToastKind
    case Navigation(_) => NavigationKind
  }

  const SelectionRoute := "/estabelecimentos"
  const IndexRoute := "/index"
  const SignupRoute := "/signup"

  // ---------------------------------------------------------------------------
  // The login request

  /** The fixed part of every request: no two-factor codes, both cookie flags set,
      no service provider. */
  predicate FixedShape(r: LoginRequest) {
    r.twoFactorCode == "" && r.twoFactorRecoveryCode == ""
    && r.useCookies && r.useSessionCookies && r.serviceProvider.None?
  }

  /** The request built from the form's values. */
  function BuildRequest(document: string, password: string): (r: LoginRequest)
    ensures FixedShape(r)
    ensures r.userLogin == document && r.password == password
  {
    LoginRequest(document, password, "", "", true, true, None)
  }

  /** Only the credentials vary: every fixed-shape request is the one built from
      its own credentials, and different credentials give different requests. */
  lemma RequestDeterminedByCredentials(r: LoginRequest, document: string, password: string)
    requires FixedShape(r)
    ensures r == BuildRequest(document, password) <==> r.userLogin == document && r.password == password
  {
  }

  // ---------------------------------------------------------------------------
  // Effect logs

  /** The toast that shows one message. */
  function ToastOf(m: Message): seq<Effect> {
    [Toast(FieldMessage(m))]
  }

  /** One toast per message, showing its text, in order. */
  function Toasts(ms: seq<Message>): seq<Effect> {
    ConcatMap(ToastOf, ms)
  }

  /** The number of effects of kind `k` in a log. */
  function Count(log: seq<Effect>, k: Kind): nat {
    if log == [] then 0 else Count(log[..|log| - 1], k) + (if KindOf(log[|log| - 1]) == k then 1 else 0)
  }

  lemma {:induction false} CountAppend(a: seq<Effect>, b: seq<Effect>, k: Kind)
    ensures Count(a + b, k) == Count(a, k) + Count(b, k)
    decreases |b|
  {
    if b == [] {
      assert a + b == a;
    } else {
      assert (a + b)[..|a + b| - 1] == a + b[..|b| - 1];
      CountAppend(a, b[..|b| - 1], k);
    }
  }

  lemma CountOne(e: Effect, k: Kind)
    ensures Count([e], k) == if KindOf(e) == k then 1 else 0
  {
    assert [e][..0] == [];
  }

  /** A run of toasts holds one toast per message and nothing else. */
  lemma {:induction false} CountToasts(ms: seq<Message>, k: Kind)
    ensures Count(Toasts(ms), k) == if k == ToastKind then |ms| else 0
    decreases |ms|
  {
    if ms != [] {
      var init, last := ms[..|ms| - 1], ms[|ms| - 1];
      assert Toasts(ms) == Toasts(init) + ToastOf(last);
      CountAppend(Toasts(init), ToastOf(last), k);
      CountOne(Toast(FieldMessage(last)), k);
      CountToasts(init, k);
    }
  }

  // ---------------------------------------------------------------------------
  // What each event appends to the log

  /** Submitting: the login call for a valid form, the field messages otherwise. */
  function SubmitEffects(isCpfCnpj: string -> bool, document: string, password: string): seq<Effect> {
    if FormValid(isCpfCnpj, document, password) then [LoginCall(BuildRequest(document, password))]
    else Toasts(FieldErrorMessages(FormControls(isCpfCnpj, document, password)))
  }

  /** The lookup answered: a route chosen by the number of establishments, none for null. */
  function LookupOkEffects(establishments: Option<nat>): seq<Effect> {
    match establishments
    case None => []
    case Some(n) => if n > 1 then [Navigation(SelectionRoute)] else [Navigation(IndexRoute)]
  }

  /** The route depends only on the lookup's result: at most one navigation, to the
      selection screen exactly for more than one establishment, to the index exactly
      for one or none, and nothing but that navigation. */
  lemma LookupRouting(establishments: Option<nat>)
    ensures Count(LookupOkEffects(establishments), NavigationKind) == |LookupOkEffects(establishments)|
    ensures LookupOkEffects(establishments) == [] <==> establishments.None?
    ensures LookupOkEffects(establishments) == [Navigation(SelectionRoute)]
        <==> establishments.Some? && establishments.value > 1
    ensures LookupOkEffects(establishments) == [Navigation(IndexRoute)]
        <==> establishments.Some? && establishments.value <= 1
  {
    var log := LookupOkEffects(establishments);
    if log != [] {
      assert log[..0] == [];
    }
  }

  // ---------------------------------------------------------------------------
  // The controller

  class LoginComponent {
    /** The CPF/CNPJ validator attached to the document control. */
    const isCpfCnpj: string -> bool

    /** The values of the form's two controls. */
    var document: string
    var password: string

    var isLoading: bool

    /** Every call made on a collaborator, oldest first. */
    var effects: seq<Effect>

    /** Service calls whose completion has not run yet. */
    var pendingLogins: nat
    var pendingLookups: nat

    /** The form starts with two empty controls; nothing has been called yet. */
    constructor (isCpfCnpj: string -> bool)
      ensures this.isCpfCnpj == isCpfCnpj
      ensures document == "" && password == "" && !isLoading
      ensures effects == [] && pendingLogins == 0 && pendingLookups == 0
    {
      this.isCpfCnpj := isCpfCnpj;
      document, password := "", "";
      isLoading := false;
      effects := [];
      pendingLogins, pendingLookups := 0, 0;
    }

    /** The view writes the document input into its control. */
    method SetDocument(value: string)
      modifies this`document
      ensures document == value
    {
      document := value;
    }

    /** The view writes the password input into its control. */
    method SetPassword(value: string)
      modifies this`password
      ensures password == value
    {
      password := value;
    }

    function Controls(): seq<Control>
      reads this
    {
      FormControls(isCpfCnpj, document, password)
    }

    /** Raises the loading flag; then either sends the login request for a valid
        form, or reports the form's errors and calls no service. */
    method Submit()
      modifies this`isLoading, this`effects, this`pendingLogins
      ensures isLoading
      ensures effects == old(effects) + SubmitEffects(isCpfCnpj, document, password)
      ensures pendingLogins == old(pendingLogins) + (if FormValid(isCpfCnpj, document, password) then 1 else 0)
    {
      isLoading := true;
      if FormValid(isCpfCnpj, document, password) {
        var request := BuildRequest(document, password);
        effects := effects + [LoginCall(request)];
        pendingLogins := pendingLogins + 1;
      } else {
        InvalidFields(Controls());
      }
    }

    /** The login succeeded: ask for the user's establishments. */
    method OnLoginOk()
      requires pendingLogins > 0
      modifies this`effects, this`pendingLogins, this`pendingLookups
      ensures effects == old(effects) + [LookupCall]
      ensures pendingLogins == old(pendingLogins) - 1 && pendingLookups == old(pendingLookups) + 1
    {
      effects := effects + [LookupCall];
      pendingLogins := pendingLogins - 1;
      pendingLookups := pendingLookups + 1;
    }

    /** The login failed: drop the loading flag and show one generic message. */
    method OnLoginErr()
      requires pendingLogins > 0
      modifies this`isLoading, this`effects, this`pendingLogins
      ensures !isLoading
      ensures effects == old(effects) + [Toast(LoginFailed)]
      ensures pendingLogins == old(pendingLogins) - 1
    {
      isLoading := false;
      effects := effects + [Toast(LoginFailed)];
      pendingLogins := pendingLogins - 1;
    }

    /** The lookup answered with `establishments` (null, or an array of that length). */
    method OnLookupOk(establishments: Option<nat>)
      requires pendingLookups > 0
      modifies this`effects, this`pendingLookups
      ensures effects == old(effects) + LookupOkEffects(establishments)
      ensures pendingLookups == old(pendingLookups) - 1
    {
      pendingLookups := pendingLookups - 1;
      if establishments.Some? {
        var route := if establishments.value > 1 then SelectionRoute else IndexRoute;
        effects := effects + [Navigation(route)];
      }
    }

    /** The lookup failed: log out, drop the loading flag, show one generic message. */
    method OnLookupErr()
      requires pendingLookups > 0
      modifies this`isLoading, this`effects, this`pendingLookups
      ensures !isLoading
      ensures effects == old(effects) + [LogoutCall, Toast(LookupFailed)]
      ensures pendingLookups == old(pendingLookups) - 1
    {
      effects := effects + [LogoutCall];
      isLoading := false;
      effects := effects + [Toast(LookupFailed)];
      pendingLookups := pendingLookups - 1;
    }

    /** The sign-up link: one navigation, nothing else. */
    method Navigate()
      modifies this`effects
      ensures effects == old(effects) + [Navigation(SignupRoute)]
    {
      effects := effects + [Navigation(SignupRoute)];
    }

    /** Shows one toast per error tag of each invalid control, control by control. */
    method InvalidFields(controls: seq<Control>)
      modifies this`effects
      ensures effects == old(effects) + Toasts(FieldErrorMessages(controls))
    {
      var i := 0;
      while i < |controls|
        invariant 0 <= i <= |controls|
        invariant effects == old(effects) + Toasts(FieldErrorMessages(controls[..i]))
      {
        ReportControl(controls[i]);
        ConcatMapLogStep(ControlMessages, ToastOf, old(effects), controls, i, effects);
        i := i + 1;
      }
      assert controls[..|controls|] == controls;
    }

    /** The body of the loop over the controls: for an invalid control, the
        CPF/CNPJ message, then the required message, then the minimum-length one. */
    method ReportControl(control: Control)
      modifies this`effects
      ensures effects == old(effects) + Toasts(ControlMessages(control))
    {
      if IsInvalid(control.errors) {
        var errors := control.errors;
        ghost var shown: seq<Message> := [];
        assert effects == old(effects) + Toasts(shown);
        if errors.invalidDocument {
          ShowMessage(InvalidDocument, old(effects), shown);
          shown := shown + [InvalidDocument];
        }
        assert shown == (if errors.invalidDocument then [InvalidDocument] else []);
        if errors.required {
          ShowMessage(Required(control.name), old(effects), shown);
          shown := shown + [Required(control.name)];
        }
        assert shown == (if errors.invalidDocument then [InvalidDocument] else [])
                      + (if errors.required then [Required(control.name)] else []);
        if errors.minlength.Some? {
          var message := TooShort(errors.minlength.value.requiredLength);
          ShowMessage(message, old(effects), shown);
          shown := shown + [message];
        }
        assert shown == ControlMessages(control);
      }
    }

    /** One error toast showing the text of `m`, after the toasts of `shown`. */
    method ShowMessage(m: Message, ghost before: seq<Effect>, ghost shown: seq<Message>)
      requires effects == before + Toasts(shown)
      modifies this`effects
      ensures effects == old(effects) + [Toast(FieldMessage(m))]
      ensures effects == before + Toasts(shown + [m])
    {
      effects := effects + [Toast(FieldMessage(m))];
      ConcatMapLogSnoc(ToastOf, before, shown, m, effects);
    }
  }
}
