/**
 * One submission of the login form from start to end, with the two services'
 * answers given as an outcome: what the controller calls, shows and navigates
 * to, and where it leaves its loading flag.
 */
module Submission {
  import opened Wrappers
  import opened FormModel
  import opened LoginPage
  import Seqs

  /** How the services answer one submission of a valid form. */
  datatype Outcome =
    | LoginRejected
    | LookupRejected
    | LookupReturned(establishments: Option<nat>)

  /** What the services' answers add to the log after the login call of a valid form. */
  function CompletionEffects(outcome: Outcome): seq<Effect> {
    match outcome
    case LoginRejected => [Toast(LoginFailed)]
    case LookupRejected => [LookupCall] + [LogoutCall, Toast(LookupFailed)]
    case LookupReturned(r) => [LookupCall] + LookupOkEffects(r)
  }

  /** The whole effect log of one submission on a fresh controller. */
  function SubmissionEffects(isCpfCnpj: string -> bool, document: string, password: string, outcome: Outcome): seq<Effect> {
    SubmitEffects(isCpfCnpj, document, password)
    + if FormValid(isCpfCnpj, document, password) then CompletionEffects(outcome) else []
  }

  /** The loading flag once the submission has settled: only a failed service call lowers it. */
  function SubmissionLoading(isCpfCnpj: string -> bool, document: string, password: string, outcome: Outcome): bool {
    !(FormValid(isCpfCnpj, document, password) && (outcome.LoginRejected? || outcome.LookupRejected?))
  }

  /** Drives a fresh controller through one submission, the services answering as
      `outcome` says, and returns its effect log and final loading flag. */
  method RunSubmission(isCpfCnpj: string -> bool, document: string, password: string, outcome: Outcome)
    returns (log: seq<Effect>, loading: bool)
    ensures log == SubmissionEffects(isCpfCnpj, document, password, outcome)
    ensures loading == SubmissionLoading(isCpfCnpj, document, password, outcome)
  {
    var page := new LoginComponent(isCpfCnpj);
    page.SetDocument(document);
    page.SetPassword(password);
    page.Submit();
    ghost var submitted := SubmitEffects(isCpfCnpj, document, password);
    Seqs.AppendFacts(submitted, [], []);
    Answer(page, outcome);
    log, loading := page.effects, page.isLoading;
  }

  /** The services answer the controller's pending login call as `outcome` says,
      and then its lookup call if the login succeeded; with no login call
      pending nothing happens. */
  method Answer(page: LoginComponent, outcome: Outcome)
    modifies page`isLoading, page`effects, page`pendingLogins, page`pendingLookups
    ensures page.effects == old(page.effects)
      + if old(page.pendingLogins) > 0 then CompletionEffects(outcome) else []
    ensures page.isLoading
      == (old(page.isLoading) && !(old(page.pendingLogins) > 0 && (outcome.LoginRejected? || outcome.LookupRejected?)))
    ensures page.pendingLogins == old(page.pendingLogins) - (if old(page.pendingLogins) > 0 then 1 else 0)
    ensures page.pendingLookups == old(page.pendingLookups)
  {
    Seqs.AppendFacts(page.effects, [], []);
    if page.pendingLogins > 0 {
      ghost var before := page.effects;
      match outcome {
        case LoginRejected =>
          page.OnLoginErr();
        case LookupRejected =>
          page.OnLoginOk();
          page.OnLookupErr();
          Seqs.AppendFacts(before, [LookupCall], [LogoutCall, Toast(LookupFailed)]);
        case LookupReturned(r) =>
          page.OnLoginOk();
          page.OnLookupOk(r);
          Seqs.AppendFacts(before, [LookupCall], LookupOkEffects(r));
      }
    }
  }

  // ---------------------------------------------------------------------------
  // Properties of one submission

  /** An invalid form: no service is called and nothing navigates; one toast per
      violated rule, in field order; at least one toast; the loading flag stays up. */
  lemma InvalidFormSubmission(isCpfCnpj: string -> bool, document: string, password: string, outcome: Outcome)
    requires !FormValid(isCpfCnpj, document, password)
    ensures var log := SubmissionEffects(isCpfCnpj, document, password, outcome);
      && log == Toasts(FieldErrorMessages(FormControls(isCpfCnpj, document, password)))
      && Count(log, LoginKind) == 0 && Count(log, LookupKind) == 0
      && Count(log, NavigationKind) == 0
      && Count(log, ToastKind) == TagTotal(FormControls(isCpfCnpj, document, password)) > 0
      && SubmissionLoading(isCpfCnpj, document, password, outcome)
  {
    var ms := FieldErrorMessages(FormControls(isCpfCnpj, document, password));
    assert SubmissionEffects(isCpfCnpj, document, password, outcome) == Toasts(ms);
    CountToasts(ms, LoginKind);
    CountToasts(ms, LookupKind);
    CountToasts(ms, NavigationKind);
    CountToasts(ms, ToastKind);
    MessageCount(FormControls(isCpfCnpj, document, password));
    InvalidFormIsReported(isCpfCnpj, document, password);
  }

  /** A valid form: the log is the login call with the form's credentials, then
      what the services' answers add. */
  lemma ValidSubmissionLog(isCpfCnpj: string -> bool, document: string, password: string, outcome: Outcome)
    requires FormValid(isCpfCnpj, document, password)
    ensures SubmissionEffects(isCpfCnpj, document, password, outcome)
         == [LoginCall(BuildRequest(document, password))] + CompletionEffects(outcome)
  {
  }

  /** A valid form: exactly one login call, first, carrying the form's credentials
      in the fixed-shape request. */
  lemma ValidFormSendsRequest(isCpfCnpj: string -> bool, document: string, password: string, outcome: Outcome)
    requires FormValid(isCpfCnpj, document, password)
    ensures var log := SubmissionEffects(isCpfCnpj, document, password, outcome);
      && |log| > 0 && log[0] == LoginCall(BuildRequest(document, password))
      && Count(log, LoginKind) == 1
  {
    ValidSubmissionLog(isCpfCnpj, document, password, outcome);
    var login := LoginCall(BuildRequest(document, password));
    var rest := CompletionEffects(outcome);
    CountAppend([login], rest, LoginKind);
    CountOne(login, LoginKind);
    match outcome
    case LoginRejected =>
      CountOne(Toast(LoginFailed), LoginKind);
    case LookupRejected =>
      CountAppend([LookupCall], [LogoutCall, Toast(LookupFailed)], LoginKind);
      CountAppend([LogoutCall], [Toast(LookupFailed)], LoginKind);
      assert [LogoutCall, Toast(LookupFailed)] == [LogoutCall] + [Toast(LookupFailed)];
      CountOne(LookupCall, LoginKind);
      CountOne(LogoutCall, LoginKind);
      CountOne(Toast(LookupFailed), LoginKind);
    case LookupReturned(r) =>
      CountAppend([LookupCall], LookupOkEffects(r), LoginKind);
      CountOne(LookupCall, LoginKind);
      LookupRouting(r);
  }

  /** The login fails: one toast, the login error; no lookup, no logout, no
      navigation; the loading flag comes down. */
  lemma LoginFailureSubmission(isCpfCnpj: string -> bool, document: string, password: string)
    requires FormValid(isCpfCnpj, document, password)
    ensures var log := SubmissionEffects(isCpfCnpj, document, password, LoginRejected);
      && log[|log| - 1] == Toast(LoginFailed)
      && Count(log, ToastKind) == 1
      && Count(log, LookupKind) == 0 && Count(log, LogoutKind) == 0
      && Count(log, NavigationKind) == 0
      && !SubmissionLoading(isCpfCnpj, document, password, LoginRejected)
  {
    ValidSubmissionLog(isCpfCnpj, document, password, LoginRejected);
    var login := LoginCall(BuildRequest(document, password));
    var log := [login] + [Toast(LoginFailed)];
    forall k
      ensures Count(log, k) == (if k == LoginKind || k == ToastKind then 1 else 0)
    {
      CountAppend([login], [Toast(LoginFailed)], k);
      CountOne(login, k);
      CountOne(Toast(LoginFailed), k);
    }
  }

  /** The login succeeds and the lookup fails: one lookup, then one logout and one
      toast, the lookup error; no navigation; the loading flag comes down. */
  lemma LookupFailureSubmission(isCpfCnpj: string -> bool, document: string, password: string)
    requires FormValid(isCpfCnpj, document, password)
    ensures var log := SubmissionEffects(isCpfCnpj, document, password, LookupRejected);
      && log[1..] == [LookupCall, LogoutCall, Toast(LookupFailed)]
      && Count(log, LookupKind) == 1 && Count(log, LogoutKind) == 1
      && Count(log, ToastKind) == 1 && Count(log, NavigationKind) == 0
      && !SubmissionLoading(isCpfCnpj, document, password, LookupRejected)
  {
    ValidSubmissionLog(isCpfCnpj, document, password, LookupRejected);
    var login := LoginCall(BuildRequest(document, password));
    var toast := Toast(LookupFailed);
    var log := [login] + ([LookupCall] + [LogoutCall, toast]);
    assert log == [login] + [LookupCall] + [LogoutCall] + [toast];
    forall k
      ensures Count(log, k) == (if k == NavigationKind then 0 else 1)
    {
      CountAppend([login] + [LookupCall] + [LogoutCall], [toast], k);
      CountAppend([login] + [LookupCall], [LogoutCall], k);
      CountAppend([login], [LookupCall], k);
      CountOne(login, k);
      CountOne(LookupCall, k);
      CountOne(LogoutCall, k);
      CountOne(toast, k);
    }
  }

  /** Both calls succeed: the route depends only on the lookup's result. Null gives
      no navigation; more than one establishment gives one navigation, to the
      selection screen; one or none gives one navigation, to the index. No toast,
      no logout, and the loading flag stays up. */
  lemma SuccessfulSubmission(isCpfCnpj: string -> bool, document: string, password: string, establishments: Option<nat>)
    requires FormValid(isCpfCnpj, document, password)
    ensures var log := SubmissionEffects(isCpfCnpj, document, password, LookupReturned(establishments));
      && Count(log, LookupKind) == 1
      && Count(log, NavigationKind) == (if establishments.Some? then 1 else 0)
      && (Navigation(SelectionRoute) in log <==> establishments.Some? && establishments.value > 1)
      && (Navigation(IndexRoute) in log <==> establishments.Some? && establishments.value <= 1)
      && Count(log, ToastKind) == 0 && Count(log, LogoutKind) == 0
      && SubmissionLoading(isCpfCnpj, document, password, LookupReturned(establishments))
  {
    ValidSubmissionLog(isCpfCnpj, document, password, LookupReturned(establishments));
    var login := LoginCall(BuildRequest(document, password));
    var routed := LookupOkEffects(establishments);
    var head := [login, LookupCall];
    assert SubmissionEffects(isCpfCnpj, document, password, LookupReturned(establishments)) == head + routed;
    LookupRouting(establishments);
    forall k
      ensures Count(head + routed, k) == Count([login], k) + Count([LookupCall], k) + Count(routed, k)
    {
      assert head == [login] + [LookupCall];
      CountAppend(head, routed, k);
      CountAppend([login], [LookupCall], k);
    }
    forall k
      ensures Count([login], k) == (if k == LoginKind then 1 else 0)
      ensures Count([LookupCall], k) == (if k == LookupKind then 1 else 0)
    {
      CountOne(login, k);
      CountOne(LookupCall, k);
    }
    if establishments.Some? {
      forall k
        ensures Count(routed, k) == (if k == NavigationKind then 1 else 0)
      {
        assert routed == [routed[0]];
        CountOne(routed[0], k);
      }
    }
  }
}
