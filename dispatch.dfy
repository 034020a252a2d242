/** The dispatch facade (sendEmail/sendEmail.js): `sendEmail` validates its
    input, creates the registry and the failover controller on first use,
    loads the providers, renders the template, hands the mail to the
    controller and turns every outcome into `{success, result | error}`.

    The clock, the credential store, the template renderer and the providers'
    `send` are parameters; `SendEmailSpec` states the whole call as a value
    and `Dispatcher.SendEmail` is proved to produce it. */
module Dispatch {
  import opened Common
  import opened Helper
  import Validator
  import Registry
  import Failover

  /** The retry delay the facade gives the controller: `{ retryDelay: 3000 }`. */
  const DispatchRetryDelay: int := 3000

  /** `emailHooks`: the monitoring hooks the package installs by default. */
  const DefaultHooks: Hooks := map[
    OnSendStart := "emailHooks.onSendStart",
    OnSendSuccess := "emailHooks.onSendSuccess",
    OnRetry := "emailHooks.onRetry",
    OnProviderSwitch := "emailHooks.onProviderSwitch",
    OnFinalSuccess := "emailHooks.onFinalSuccess",
    OnFinalFailure := "emailHooks.onFinalFailure"]

  /** `{ ...defaults, ...caller }`: a caller hook replaces the default of the
      same name, and the defaults fill in the other names. */
  function MergeHooks(defaults: Hooks, caller: Hooks): (r: Hooks)
    ensures forall n :: n in r <==> n in defaults || n in caller
    ensures forall n :: n in caller ==> r[n] == caller[n]
    ensures forall n :: n in defaults && n !in caller ==> r[n] == defaults[n]
  {
    defaults + caller
  }

  /** The argument object of `sendEmail`; `None` is an omitted field. */
  datatype Request = Request(
    to: Option<string>,
    template: Option<string>,
    templateData: Option<map<string, string>>,
    cc: Option<seq<string>>,
    bcc: Option<seq<string>>,
    attachments: Option<seq<string>>,
    source: Option<string>,
    hooks: Option<Hooks>)

  /** What `renderTemplate` returns. */
  datatype Rendered = Rendered(subject: string, html: string, text: string)

  /** `renderTemplate(template, data)`: the rendered parts, or the message of
      the error it throws. */
  type Renderer = (Option<string>, Option<map<string, string>>) -> Result<Rendered>

  /** What `sendEmail` resolves with: `{success: true, result}` or
      `{success: false, error}`. It never rejects. */
  datatype EmailResult = Sent(result: Receipt) | NotSent(error: string)

  /** One call of `sendEmail`: its result, the hooks it fired and its I/O. */
  datatype Dispatched = Dispatched(result: EmailResult, events: seq<Event>, io: seq<Io>)

  /** `{to, cc, bcc, subject, html, text, attachments}`, where an omitted
      `cc`, `bcc` or `attachments` is `[]`. */
  function BuildMailOptions(req: Request, r: Rendered): (mail: Mail)
    ensures mail.to == req.to
    ensures mail.subject == r.subject && mail.html == r.html && mail.text == r.text
    ensures mail.cc == (if req.cc.Some? then req.cc else Some([]))
    ensures mail.bcc == (if req.bcc.Some? then req.bcc else Some([]))
    ensures mail.attachments == (if req.attachments.Some? then req.attachments else Some([]))
  {
    Mail(req.to, Some(req.cc.GetOr([])), Some(req.bcc.GetOr([])), r.subject, r.html, r.text,
         Some(req.attachments.GetOr([])))
  }

  // ---------------------------------------------------------------------------
  // The registry as the facade sees it
  // ---------------------------------------------------------------------------

  /** The fields of a `ProviderManager`. */
  datatype RegistryState = RegistryState(providers: seq<Provider>, lastLoaded: int, initPromise: Registry.LoadState,
                                         cacheTTL: int)

  /** A registry as `new ProviderManager()` leaves it. */
  const FreshRegistry := RegistryState([], 0, Registry.Idle, Registry.DefaultCacheTTL)

  /** What one awaited `init()` does to a registry. */
  datatype Loaded = Loaded(state: RegistryState, outcome: Outcome, queried: bool)

  /** `await providerManager.init()` at time `now`, with the store answering
      `reply` at `loadTime`: a fresh cache is kept; a failed earlier load is
      rethrown; otherwise the load (started here when none is in flight)
      replaces the providers or fails and is remembered as failed. */
  function Load(st: RegistryState, now: int, reply: Result<seq<Credential>>, loadTime: int): Loaded
  {
    if |st.providers| > 0 && now - st.lastLoaded < st.cacheTTL then Loaded(st, Pass, false)
    else if st.initPromise.Failed? then Loaded(st, Fail(st.initPromise.error), false)
    else
      var queried := st.initPromise == Registry.Idle;
      if reply.Ok? then
        Loaded(st.(providers := MapProviders(reply.value), lastLoaded := loadTime, initPromise := Registry.Idle), Pass, queried)
      else
        Loaded(st.(initPromise := Registry.Failed(reply.error)), Fail(reply.error), queried)
  }

  // ---------------------------------------------------------------------------
  // The call
  // ---------------------------------------------------------------------------

  /** The catch block: `onError` with `{to, error, provider: source}`, then
      `{success: false, error: err.message}`. */
  function Failed(req: Request, hooks: Hooks, error: string, events: seq<Event>, io: seq<Io>): Dispatched
  {
    Dispatched(NotSent(error), events + FireHook(hooks, OnError, Failure(req.to, req.source, error)), io)
  }

  /** `sendEmail(req)` against a registry in state `st` (the fresh one when no
      instance exists yet). */
  function SendEmailSpec(req: Request, st: RegistryState, now: int, reply: Result<seq<Credential>>, loadTime: int,
                         render: Renderer, transport: Transport): Dispatched
  {
    var hooks := MergeHooks(DefaultHooks, req.hooks.GetOr(map[]));
    var checked := Validator.ValidateEmailInput(req.to, req.template, req.source);
    if checked.Fail? then Failed(req, hooks, checked.error, [], [])
    else
      var load := Load(st, now, reply, loadTime);
      var queried: seq<Io> := if load.queried then [StoreQuery] else [];
      if load.outcome.Fail? then Failed(req, hooks, load.outcome.error, [], queried)
      else
        var loaded := FireHook(hooks, OnProvidersLoaded, ProvidersLoaded(req.source));
        var data := Some(req.templateData.GetOr(map[]));
        var rendered := render(req.template, data);
        var io := queried + [Render(req.template, data)];
        if rendered.Err? then Failed(req, hooks, rendered.error, loaded, io)
        else
          var run := Failover.SendSpec(load.state.providers, req.source, BuildMailOptions(req, rendered.value), hooks,
                                       transport, IsProviderError, DispatchRetryDelay);
          if run.outcome.Err? then Failed(req, hooks, run.outcome.error, loaded + run.events, io + run.io)
          else
            var delivery := run.outcome.value;
            Dispatched(Sent(delivery.result),
                       loaded + run.events + FireHook(hooks, OnSuccess, Delivered(req.to, delivery.result, delivery.provider)),
                       io + run.io)
  }

  /** Input that fails validation is answered with the validator's message
      after `onError` alone: nothing is loaded, rendered or sent. */
  lemma InvalidInputStops(req: Request, st: RegistryState, now: int, reply: Result<seq<Credential>>, loadTime: int,
                          render: Renderer, transport: Transport)
    requires Validator.ValidateEmailInput(req.to, req.template, req.source).Fail?
    ensures var d := SendEmailSpec(req, st, now, reply, loadTime, render, transport);
            var hooks := MergeHooks(DefaultHooks, req.hooks.GetOr(map[]));
            var message := Validator.ValidateEmailInput(req.to, req.template, req.source).error;
            && d.result == NotSent(message)
            && d.io == []
            && (forall n :: Calls(d.events, n)
                            == if n == OnError && OnError in hooks then [Failure(req.to, req.source, message)] else [])
  {
    var hooks := MergeHooks(DefaultHooks, req.hooks.GetOr(map[]));
    var message := Validator.ValidateEmailInput(req.to, req.template, req.source).error;
    forall n
      ensures Calls(FireHook(hooks, OnError, Failure(req.to, req.source, message)), n)
              == if n == OnError && OnError in hooks then [Failure(req.to, req.source, message)] else []
    {
      CallsOfFireHook(hooks, OnError, Failure(req.to, req.source, message), n);
    }
    assert [] + FireHook(hooks, OnError, Failure(req.to, req.source, message))
           == FireHook(hooks, OnError, Failure(req.to, req.source, message));
  }

  /** The call succeeds exactly when the input is valid, the providers load,
      the template renders and the controller delivers; it then resolves with
      the controller's result, without the provider. Otherwise it resolves
      with the message of the first step that failed. */
  lemma Outcomes(req: Request, st: RegistryState, now: int, reply: Result<seq<Credential>>, loadTime: int,
                 render: Renderer, transport: Transport)
    ensures var d := SendEmailSpec(req, st, now, reply, loadTime, render, transport);
            var checked := Validator.ValidateEmailInput(req.to, req.template, req.source);
            var load := Load(st, now, reply, loadTime);
            var rendered := render(req.template, Some(req.templateData.GetOr(map[])));
            && (checked.Fail? ==> d.result == NotSent(checked.error))
            && (checked.Pass? && load.outcome.Fail? ==> d.result == NotSent(load.outcome.error))
            && (checked.Pass? && load.outcome.Pass? && rendered.Err? ==> d.result == NotSent(rendered.error))
            && (checked.Pass? && load.outcome.Pass? && rendered.Ok? ==>
                  var hooks := MergeHooks(DefaultHooks, req.hooks.GetOr(map[]));
                  var run := Failover.SendSpec(load.state.providers, req.source, BuildMailOptions(req, rendered.value),
                                               hooks, transport, IsProviderError, DispatchRetryDelay);
                  d.result == if run.outcome.Ok? then Sent(run.outcome.value.result) else NotSent(run.outcome.error))
  {
  }

  /** When the input is valid and the providers load, the template is
      rendered with `templateData`, or `{}` when it is omitted, and every
      provider send carries the mail built from the rendered parts. */
  lemma RenderedMail(req: Request, st: RegistryState, now: int, reply: Result<seq<Credential>>, loadTime: int,
                     render: Renderer, transport: Transport)
    requires Validator.ValidateEmailInput(req.to, req.template, req.source).Pass?
    requires Load(st, now, reply, loadTime).outcome.Pass?
    ensures var d := SendEmailSpec(req, st, now, reply, loadTime, render, transport);
            var data := Some(req.templateData.GetOr(map[]));
            var rendered := render(req.template, data);
            var io := if Load(st, now, reply, loadTime).queried then [StoreQuery] else [];
            && |d.io| > |io| && d.io[..|io| + 1] == io + [Render(req.template, data)]
            && (rendered.Ok? ==> SameMail(d.io, BuildMailOptions(req, rendered.value)))
  {
    var data := Some(req.templateData.GetOr(map[]));
    var rendered := render(req.template, data);
    var load := Load(st, now, reply, loadTime);
    var io: seq<Io> := if load.queried then [StoreQuery] else [];
    var head := io + [Render(req.template, data)];
    if rendered.Ok? {
      var hooks := MergeHooks(DefaultHooks, req.hooks.GetOr(map[]));
      var mail := BuildMailOptions(req, rendered.value);
      var run := Failover.SendSpec(load.state.providers, req.source, mail, hooks, transport, IsProviderError, DispatchRetryDelay);
      RunMail(load.state.providers, req.source, mail, hooks, transport);
      SameMailSplit3(io, [Render(req.template, data)], run.io, mail);
      assert (head + run.io)[..|io| + 1] == head;
    }
  }

  /** Every provider send of the controller carries the mail it was given. */
  lemma RunMail(ps: seq<Provider>, source: Option<string>, mail: Mail, hooks: Hooks, transport: Transport)
    ensures SameMail(Failover.SendSpec(ps, source, mail, hooks, transport, IsProviderError, DispatchRetryDelay).io, mail)
  {
    if |ps| > 0 && FindBySource(ps, source).Some? {
      Failover.SendOrder(ps, source, mail, hooks, transport, IsProviderError, DispatchRetryDelay);
    }
  }

  /** A delivered mail fires `onProvidersLoaded` before the controller's
      hooks and `onSuccess` after them, with the recipient, the result and
      the provider that sent it. */
  lemma SuccessHooks(req: Request, st: RegistryState, now: int, reply: Result<seq<Credential>>, loadTime: int,
                     render: Renderer, transport: Transport)
    requires SendEmailSpec(req, st, now, reply, loadTime, render, transport).result.Sent?
    requires OnProvidersLoaded in MergeHooks(DefaultHooks, req.hooks.GetOr(map[]))
    requires OnSuccess in MergeHooks(DefaultHooks, req.hooks.GetOr(map[]))
    ensures var d := SendEmailSpec(req, st, now, reply, loadTime, render, transport);
            var hooks := MergeHooks(DefaultHooks, req.hooks.GetOr(map[]));
            var rendered := render(req.template, Some(req.templateData.GetOr(map[])));
            var run := Failover.SendSpec(Load(st, now, reply, loadTime).state.providers, req.source,
                                         BuildMailOptions(req, rendered.value), hooks, transport, IsProviderError,
                                         DispatchRetryDelay);
            && |d.events| >= 2
            && d.events[0] == Fired(OnProvidersLoaded, hooks[OnProvidersLoaded], ProvidersLoaded(req.source))
            && d.events[|d.events| - 1]
               == Fired(OnSuccess, hooks[OnSuccess], Delivered(req.to, d.result.result, run.outcome.value.provider))
            && d.events[1..|d.events| - 1] == run.events
  {
  }

  /** The catch block's hook: whatever step failed (validation, loading,
      rendering or the controller), `onError` is the last hook called, with
      the recipient, the failure's message and the requested source, and
      `onSuccess` is never called. */
  lemma FailureHooks(req: Request, st: RegistryState, now: int, reply: Result<seq<Credential>>, loadTime: int,
                     render: Renderer, transport: Transport)
    requires SendEmailSpec(req, st, now, reply, loadTime, render, transport).result.NotSent?
    requires OnError in MergeHooks(DefaultHooks, req.hooks.GetOr(map[]))
    ensures var d := SendEmailSpec(req, st, now, reply, loadTime, render, transport);
            var hooks := MergeHooks(DefaultHooks, req.hooks.GetOr(map[]));
            && |d.events| > 0
            && d.events[|d.events| - 1] == Fired(OnError, hooks[OnError], Failure(req.to, req.source, d.result.error))
            && Calls(d.events, OnSuccess) == []
  {
    var hooks := MergeHooks(DefaultHooks, req.hooks.GetOr(map[]));
    var checked := Validator.ValidateEmailInput(req.to, req.template, req.source);
    if checked.Fail? {
      FailedHooks(req, hooks, checked.error, [], []);
      return;
    }
    var load := Load(st, now, reply, loadTime);
    var queried: seq<Io> := if load.queried then [StoreQuery] else [];
    if load.outcome.Fail? {
      FailedHooks(req, hooks, load.outcome.error, [], queried);
      return;
    }
    var loaded := FireHook(hooks, OnProvidersLoaded, ProvidersLoaded(req.source));
    CallsOfFireHook(hooks, OnProvidersLoaded, ProvidersLoaded(req.source), OnSuccess);
    var data := Some(req.templateData.GetOr(map[]));
    var rendered := render(req.template, data);
    var io := queried + [Render(req.template, data)];
    if rendered.Err? {
      FailedHooks(req, hooks, rendered.error, loaded, io);
      return;
    }
    var ps := load.state.providers;
    var mail := BuildMailOptions(req, rendered.value);
    var run := Failover.SendSpec(ps, req.source, mail, hooks, transport, IsProviderError, DispatchRetryDelay);
    if FindBySource(ps, req.source).Some? {
      Failover.SendOtherHooks(ps, req.source, mail, hooks, transport, IsProviderError, DispatchRetryDelay, OnSuccess);
    } else {
      Failover.GuardFacts(ps, req.source, mail, hooks, transport, IsProviderError, DispatchRetryDelay);
    }
    CallsAppend(loaded, run.events, OnSuccess);
    FailedHooks(req, hooks, run.outcome.error, loaded + run.events, io + run.io);
  }

  /** `Failed` ends with the `onError` call and adds no `onSuccess` call. */
  lemma FailedHooks(req: Request, hooks: Hooks, error: string, events: seq<Event>, io: seq<Io>)
    requires OnError in hooks && Calls(events, OnSuccess) == []
    ensures var d := Failed(req, hooks, error, events, io);
            && |d.events| > 0
            && d.events[|d.events| - 1] == Fired(OnError, hooks[OnError], Failure(req.to, req.source, error))
            && Calls(d.events, OnSuccess) == []
  {
    CallsAppend(events, FireHook(hooks, OnError, Failure(req.to, req.source, error)), OnSuccess);
    CallsOfFireHook(hooks, OnError, Failure(req.to, req.source, error), OnSuccess);
  }

  /** Once the input is valid, the providers are loaded and the template is
      rendered, the facade answers what the controller decides: no provider
      or an unknown source is a failure with the controller's message; else
      the mail is sent by the first source of the failover order whose
      attempt succeeds, and `onSuccess` names that source, or it fails with
      "All providers failed to send the email" when none succeeds. */
  lemma DeliveryOutcome(req: Request, st: RegistryState, now: int, reply: Result<seq<Credential>>, loadTime: int,
                        render: Renderer, transport: Transport)
    requires Validator.ValidateEmailInput(req.to, req.template, req.source).Pass?
    requires Load(st, now, reply, loadTime).outcome.Pass?
    requires render(req.template, Some(req.templateData.GetOr(map[]))).Ok?
    ensures var d := SendEmailSpec(req, st, now, reply, loadTime, render, transport);
            var ps := Load(st, now, reply, loadTime).state.providers;
            var hooks := MergeHooks(DefaultHooks, req.hooks.GetOr(map[]));
            && (|ps| == 0 ==> d.result == NotSent(Failover.NoProvidersAvailable))
            && (|ps| > 0 && FindBySource(ps, req.source).None? ==> d.result == NotSent(NotFoundMessage(req.source)))
            && (FindBySource(ps, req.source).Some? ==>
                  var O := FailoverOrder(ps, FindBySource(ps, req.source).value.source);
                  var j := Failover.Stop(O, 0, transport, IsProviderError);
                  && (forall i :: 0 <= i < j ==> Failover.LastReply(transport, IsProviderError, O[i], i == 0).Err?)
                  && (j < |O| ==>
                        && d.result == Sent(Failover.LastReply(transport, IsProviderError, O[j], j == 0).value)
                        && Calls(d.events, OnSuccess)
                           == (if OnSuccess in hooks then [Delivered(req.to, d.result.result, O[j])] else []))
                  && (j == |O| ==> d.result == NotSent(Failover.AllProvidersFailed)))
  {
    var ps := Load(st, now, reply, loadTime).state.providers;
    var hooks := MergeHooks(DefaultHooks, req.hooks.GetOr(map[]));
    var mail := BuildMailOptions(req, render(req.template, Some(req.templateData.GetOr(map[]))).value);
    var run := Failover.SendSpec(ps, req.source, mail, hooks, transport, IsProviderError, DispatchRetryDelay);
    Outcomes(req, st, now, reply, loadTime, render, transport);
    Failover.GuardFacts(ps, req.source, mail, hooks, transport, IsProviderError, DispatchRetryDelay);
    if FindBySource(ps, req.source).Some? {
      Failover.SendOutcome(ps, req.source, mail, hooks, transport, IsProviderError, DispatchRetryDelay);
      if run.outcome.Ok? {
        SuccessCall(req, st, now, reply, loadTime, render, transport);
      }
    }
  }

  /** A delivered mail calls `onSuccess` once, naming the provider the
      controller reports, and the controller itself never calls it. */
  lemma SuccessCall(req: Request, st: RegistryState, now: int, reply: Result<seq<Credential>>, loadTime: int,
                    render: Renderer, transport: Transport)
    requires Validator.ValidateEmailInput(req.to, req.template, req.source).Pass?
    requires Load(st, now, reply, loadTime).outcome.Pass?
    requires render(req.template, Some(req.templateData.GetOr(map[]))).Ok?
    requires FindBySource(Load(st, now, reply, loadTime).state.providers, req.source).Some?
    requires Failover.SendSpec(Load(st, now, reply, loadTime).state.providers, req.source,
                               BuildMailOptions(req, render(req.template, Some(req.templateData.GetOr(map[]))).value),
                               MergeHooks(DefaultHooks, req.hooks.GetOr(map[])), transport, IsProviderError,
                               DispatchRetryDelay).outcome.Ok?
    ensures var d := SendEmailSpec(req, st, now, reply, loadTime, render, transport);
            var hooks := MergeHooks(DefaultHooks, req.hooks.GetOr(map[]));
            var run := Failover.SendSpec(Load(st, now, reply, loadTime).state.providers, req.source,
                                         BuildMailOptions(req, render(req.template, Some(req.templateData.GetOr(map[]))).value),
                                         hooks, transport, IsProviderError, DispatchRetryDelay);
            && d.result == Sent(run.outcome.value.result)
            && Calls(d.events, OnSuccess)
               == (if OnSuccess in hooks then [Delivered(req.to, run.outcome.value.result, run.outcome.value.provider)] else [])
  {
    var ps := Load(st, now, reply, loadTime).state.providers;
    var hooks := MergeHooks(DefaultHooks, req.hooks.GetOr(map[]));
    var mail := BuildMailOptions(req, render(req.template, Some(req.templateData.GetOr(map[]))).value);
    var run := Failover.SendSpec(ps, req.source, mail, hooks, transport, IsProviderError, DispatchRetryDelay);
    Failover.SendOtherHooks(ps, req.source, mail, hooks, transport, IsProviderError, DispatchRetryDelay, OnSuccess);
    var loaded := FireHook(hooks, OnProvidersLoaded, ProvidersLoaded(req.source));
    var done := FireHook(hooks, OnSuccess, Delivered(req.to, run.outcome.value.result, run.outcome.value.provider));
    CallsSplit3(loaded, run.events, done, OnSuccess);
    CallsOfFireHook(hooks, OnProvidersLoaded, ProvidersLoaded(req.source), OnSuccess);
    CallsOfFireHook(hooks, OnSuccess, Delivered(req.to, run.outcome.value.result, run.outcome.value.provider), OnSuccess);
  }

  // ---------------------------------------------------------------------------
  // The module-level instances
  // ---------------------------------------------------------------------------

  /** The module state of sendEmail.js: the `providerManager` and
      `retryHandler` variables. */
  class Dispatcher {
    var manager: Registry.ProviderManager?
    var handler: Failover.RetryHandler?

    /** Both instances exist or neither does, and the controller works over
        the registry with the facade's retry delay. */
    ghost predicate Valid()
      reads this
    {
      && (manager == null <==> handler == null)
      && (handler != null ==> handler.manager == manager && handler.retryDelay == DispatchRetryDelay)
    }

    /** The registry's fields, or those of a fresh registry when none exists. */
    function State(): RegistryState
      reads this, manager
    {
      if manager == null then FreshRegistry
      else RegistryState(manager.providers, manager.lastLoaded, manager.initPromise, manager.cacheTTL)
    }

    /** Module load: no instance yet. */
    constructor()
      ensures manager == null && handler == null
      ensures Valid()
    {
      manager := null;
      handler := null;
    }

    /** `initializeInstances()`: creates the registry and the controller when
        there is no registry, and otherwise keeps both. */
    method InitializeInstances()
      requires Valid()
      modifies this
      ensures Valid() && manager != null
      ensures old(manager) != null ==> manager == old(manager) && handler == old(handler)
      ensures old(manager) == null ==> fresh(manager) && fresh(handler) && State() == FreshRegistry
    {
      if manager == null {
        manager := new Registry.ProviderManager(None);
        handler := new Failover.RetryHandler(manager, Some(DispatchRetryDelay));
      }
    }

    /** `resetInstances()`: forgets both instances. */
    method ResetInstances()
      modifies this
      ensures manager == null && handler == null
      ensures Valid()
    {
      manager := null;
      handler := null;
    }

    /** `sendEmail(req)` at time `now`; `reply`, `render` and `transport`
        answer the store, the renderer and the providers. */
    method SendEmail(req: Request, now: int, reply: Result<seq<Credential>>, loadTime: int,
                     render: Renderer, transport: Transport)
      returns (result: EmailResult, events: seq<Event>, io: seq<Io>)
      requires Valid()
      modifies this, manager
      ensures Valid()
      ensures Dispatched(result, events, io) == SendEmailSpec(req, old(State()), now, reply, loadTime, render, transport)
      ensures Validator.ValidateEmailInput(req.to, req.template, req.source).Fail? ==>
                manager == old(manager) && handler == old(handler) && State() == old(State())
      ensures Validator.ValidateEmailInput(req.to, req.template, req.source).Pass? ==>
                && manager != null
                && (old(manager) != null ==> manager == old(manager) && handler == old(handler))
                && State() == Load(old(State()), now, reply, loadTime).state
    {
      ghost var st := State();
      var hooks := MergeHooks(DefaultHooks, req.hooks.GetOr(map[]));
      var checked := Validator.ValidateEmailInput(req.to, req.template, req.source);
      if checked.Fail? {
        result, events, io := NotSent(checked.error), [] + FireHook(hooks, OnError, Failure(req.to, req.source, checked.error)), [];
        return;
      }
      InitializeInstances();
      var loaded, queried := manager.Init(now, reply, loadTime);
      io := if queried then [StoreQuery] else [];
      assert State() == Load(st, now, reply, loadTime).state;
      if loaded.Fail? {
        result, events := NotSent(loaded.error), [] + FireHook(hooks, OnError, Failure(req.to, req.source, loaded.error));
        return;
      }
      events := FireHook(hooks, OnProvidersLoaded, ProvidersLoaded(req.source));
      var data := Some(req.templateData.GetOr(map[]));
      io := io + [Render(req.template, data)];
      var rendered := render(req.template, data);
      if rendered.Err? {
        result, events := NotSent(rendered.error), events + FireHook(hooks, OnError, Failure(req.to, req.source, rendered.error));
        return;
      }
      var mail := BuildMailOptions(req, rendered.value);
      var run := handler.SendWithRetry(req.source, mail, hooks, transport);
      events := events + run.events;
      io := io + run.io;
      if run.outcome.Err? {
        result, events := NotSent(run.outcome.error), events + FireHook(hooks, OnError, Failure(req.to, req.source, run.outcome.error));
        return;
      }
      var delivery := run.outcome.value;
      events := events + FireHook(hooks, OnSuccess, Delivered(req.to, delivery.result, delivery.provider));
      result := Sent(delivery.result);
    }
  }
}
