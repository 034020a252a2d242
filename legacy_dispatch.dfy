/** The earlier dispatch facade (sendEmail.js at the package root of the
    service): no validation, a store load only while the registry is empty,
    the template rendered as given, `onSendStart` fired before the earlier
    controller takes over, and the controller's promise returned as it is —
    every failure rejects. */
module LegacyDispatch {
  import opened Common
  import opened Helper
  import Dispatch
  import LegacyRegistry
  import Failover
  import LegacyFailover

  /** What one call leaves behind: its run (an `Err` is a rejection) and the
      registry's providers afterwards. */
  datatype Call = Call(run: Run<Receipt>, providers: seq<Provider>)

  /** `{ ...emailHooks, ...hooks }` with `hooks` defaulting to `emailHooks`. */
  function LegacyHooks(req: Dispatch.Request): Hooks
  {
    Dispatch.MergeHooks(Dispatch.DefaultHooks, req.hooks.GetOr(Dispatch.DefaultHooks))
  }

  /** `{to, cc, bcc, subject, html, text, attachments}`, every field as given. */
  function LegacyMail(req: Dispatch.Request, r: Dispatch.Rendered): (mail: Mail)
    ensures mail.to == req.to && mail.cc == req.cc && mail.bcc == req.bcc && mail.attachments == req.attachments
    ensures mail.subject == r.subject && mail.html == r.html && mail.text == r.text
  {
    Mail(req.to, req.cc, req.bcc, r.subject, r.html, r.text, req.attachments)
  }

  /** `sendEmail(req)` against a registry holding `ps`, the store answering
      `reply`. */
  function LegacySendSpec(req: Dispatch.Request, ps: seq<Provider>, reply: Result<seq<Credential>>,
                          render: Dispatch.Renderer, transport: Transport): Call
  {
    if |ps| == 0 && reply.Err? then Call(Run(Err(reply.error), [], [StoreQuery]), ps)
    else
      var loaded := if |ps| == 0 then MapProviders(reply.value) else ps;
      var io := (if |ps| == 0 then [StoreQuery] else []) + [Render(req.template, req.templateData)];
      var rendered := render(req.template, req.templateData);
      if rendered.Err? then Call(Run(Err(rendered.error), [], io), loaded)
      else
        var hooks := LegacyHooks(req);
        var started := FireHook(hooks, OnSendStart, SendStart(req.to, req.source));
        var run := LegacyFailover.LegacySpec(loaded, req.source, LegacyMail(req, rendered.value), hooks, transport,
                                             IsProviderError, Dispatch.DispatchRetryDelay);
        Call(LegacyFailover.Resume(run, started, io), loaded)
  }

  /** The store is queried exactly when the registry is empty; a registry
      that already has providers is kept as it is, and an empty one takes
      the loaded providers. */
  lemma LoadsOnlyWhenEmpty(req: Dispatch.Request, ps: seq<Provider>, reply: Result<seq<Credential>>,
                           render: Dispatch.Renderer, transport: Transport)
    ensures var c := LegacySendSpec(req, ps, reply, render, transport);
            && |c.run.io| > 0
            && (c.run.io[0] == StoreQuery <==> |ps| == 0)
            && c.providers == if |ps| == 0 && reply.Ok? then MapProviders(reply.value) else ps
  {
  }

  /** A failed load or render rejects with its error before any hook fires
      or any provider is tried; otherwise the call settles as the earlier
      controller does, which is the current controller's outcome without
      the provider. */
  lemma Outcomes(req: Dispatch.Request, ps: seq<Provider>, reply: Result<seq<Credential>>,
                 render: Dispatch.Renderer, transport: Transport)
    ensures var c := LegacySendSpec(req, ps, reply, render, transport);
            var rendered := render(req.template, req.templateData);
            && (|ps| == 0 && reply.Err? ==> c.run == Run(Err(reply.error), [], [StoreQuery]))
            && (!(|ps| == 0 && reply.Err?) && rendered.Err? ==>
                  c.run.outcome == Err(rendered.error) && c.run.events == [] && Sends(c.run.io) == [])
            && (!(|ps| == 0 && reply.Err?) && rendered.Ok? ==>
                  c.run.outcome
                  == LegacyFailover.Raw(Failover.SendSpec(c.providers, req.source, LegacyMail(req, rendered.value),
                                                          LegacyHooks(req), transport, IsProviderError,
                                                          Dispatch.DispatchRetryDelay).outcome))
  {
    var rendered := render(req.template, req.templateData);
    if !(|ps| == 0 && reply.Err?) {
      var c := LegacySendSpec(req, ps, reply, render, transport);
      if rendered.Err? {
        var io := (if |ps| == 0 then [StoreQuery] else []) + [Render(req.template, req.templateData)];
        SendsAppend(if |ps| == 0 then [StoreQuery] else [], [Render(req.template, req.templateData)]);
        SendsOne(Render(req.template, req.templateData));
        if |ps| == 0 {
          SendsOne(StoreQuery);
        }
      } else {
        LegacyFailover.SpecAgrees(c.providers, req.source, LegacyMail(req, rendered.value), LegacyHooks(req), transport,
                                  IsProviderError, Dispatch.DispatchRetryDelay);
      }
    }
  }

  /** When the requested provider is registered, `onSendStart` fires for it
      twice — once here and once in the controller — and then once for
      every later source the controller tries. */
  lemma SendStartTwice(req: Dispatch.Request, ps: seq<Provider>, reply: Result<seq<Credential>>,
                       render: Dispatch.Renderer, transport: Transport)
    requires !(|ps| == 0 && reply.Err?)
    requires render(req.template, req.templateData).Ok?
    requires FindBySource(LegacySendSpec(req, ps, reply, render, transport).providers, req.source).Some?
    ensures var c := LegacySendSpec(req, ps, reply, render, transport);
            var O := FailoverOrder(c.providers, FindBySource(c.providers, req.source).value.source);
            var mail := LegacyMail(req, render(req.template, req.templateData).value);
            var j := Failover.Stop(O, 0, transport, IsProviderError);
            var starts := Calls(c.run.events, OnSendStart);
            && starts == [SendStart(req.to, req.source)] + LegacyFailover.StartsOf(req.to, O[..Failover.Reached(O, j)])
            && |starts| >= 2 && starts[0] == starts[1]
  {
    var c := LegacySendSpec(req, ps, reply, render, transport);
    var hooks := LegacyHooks(req);
    var mail := LegacyMail(req, render(req.template, req.templateData).value);
    var io := (if |ps| == 0 then [StoreQuery] else []) + [Render(req.template, req.templateData)];
    var run := LegacyFailover.LegacySpec(c.providers, req.source, mail, hooks, transport, IsProviderError,
                                         Dispatch.DispatchRetryDelay);
    var first := SendStart(req.to, req.source);
    assert c.run == LegacyFailover.Resume(run, FireHook(hooks, OnSendStart, first), io);
    assert OnSendStart in hooks;
    ControllerStarts(c.providers, req.source, mail, hooks, transport);
    ResumeStarts(run, hooks, first, io);
    var O := FailoverOrder(c.providers, FindBySource(c.providers, req.source).value.source);
    DoubleStart(req.to, O[..Failover.Reached(O, Failover.Stop(O, 0, transport, IsProviderError))], req.source);
  }

  /** Inside the controller, `onSendStart` fires for each source it tries,
      and the first of them is the requested one. */
  lemma ControllerStarts(ps: seq<Provider>, source: Option<string>, mail: Mail, hooks: Hooks, transport: Transport)
    requires FindBySource(ps, source).Some? && OnSendStart in hooks
    ensures var O := FailoverOrder(ps, FindBySource(ps, source).value.source);
            var tried := O[..Failover.Reached(O, Failover.Stop(O, 0, transport, IsProviderError))];
            && Calls(LegacyFailover.LegacySpec(ps, source, mail, hooks, transport, IsProviderError,
                                               Dispatch.DispatchRetryDelay).events, OnSendStart)
               == LegacyFailover.StartsOf(mail.to, tried)
            && |tried| >= 1 && Some(tried[0]) == source
  {
    var s := FindBySource(ps, source).value.source;
    LegacyFailover.SendCalls(ps, source, mail, hooks, transport, IsProviderError, Dispatch.DispatchRetryDelay, OnSendStart);
    var O := FailoverOrder(ps, s);
    LegacyFailover.StartsFrom(O, 0, mail.to, hooks, transport, IsProviderError);
    FailoverOrderFacts(ps, s);
  }

  /** A run resumed after one `onSendStart` call reports that call first. */
  lemma ResumeStarts(r: Run<Receipt>, hooks: Hooks, first: Payload, io: seq<Io>)
    requires OnSendStart in hooks
    ensures Calls(LegacyFailover.Resume(r, FireHook(hooks, OnSendStart, first), io).events, OnSendStart)
            == [first] + Calls(r.events, OnSendStart)
  {
    CallsAppend(FireHook(hooks, OnSendStart, first), r.events, OnSendStart);
    CallsOfFireHook(hooks, OnSendStart, first, OnSendStart);
  }

  /** Announcing the first source before the controller announces it again
      puts the same call twice at the head. */
  lemma DoubleStart(to: Option<string>, tried: seq<string>, source: Option<string>)
    requires |tried| >= 1 && Some(tried[0]) == source
    ensures var s := [SendStart(to, source)] + LegacyFailover.StartsOf(to, tried);
            |s| >= 2 && s[0] == s[1]
  {
    assert LegacyFailover.StartsOf(to, tried)[0] == SendStart(to, Some(tried[0]));
  }

  /** The module state of the earlier sendEmail.js: the registry and the
      controller it creates once, at load. */
  class Mailer {
    const manager: LegacyRegistry.ProviderManager
    const handler: LegacyFailover.RetryHandler

    /** The controller works over this registry with the facade's delay. */
    ghost predicate Valid()
    {
      handler.manager == manager && handler.retryDelay == Dispatch.DispatchRetryDelay
    }

    /** `new ProviderManager()` and `new RetryHandler(providerManager,
        { retryDelay: 3000 })`. */
    constructor()
      ensures Valid() && manager.providers == []
      ensures fresh(manager) && fresh(handler)
    {
      var m := new LegacyRegistry.ProviderManager();
      manager := m;
      handler := new LegacyFailover.RetryHandler(m, Some(Dispatch.DispatchRetryDelay));
    }

    /** `sendEmail(req)`; `reply`, `render` and `transport` answer the store,
        the renderer and the providers. */
    method SendEmail(req: Dispatch.Request, reply: Result<seq<Credential>>, render: Dispatch.Renderer,
                     transport: Transport)
      returns (run: Run<Receipt>)
      requires Valid()
      modifies manager
      ensures Valid()
      ensures Call(run, manager.providers) == LegacySendSpec(req, old(manager.providers), reply, render, transport)
    {
      var hooks := LegacyHooks(req);
      var io: seq<Io> := [];
      var providers := manager.GetProviders();
      if |providers| == 0 {
        var loaded := manager.Init(reply);
        io := [StoreQuery];
        if loaded.Fail? {
          return Run(Err(loaded.error), [], io);
        }
        assert manager.providers == MapProviders(reply.value);
      }
      io := io + [Render(req.template, req.templateData)];
      var rendered := render(req.template, req.templateData);
      if rendered.Err? {
        return Run(Err(rendered.error), [], io);
      }
      var mail := LegacyMail(req, rendered.value);
      var started := FireHook(hooks, OnSendStart, SendStart(req.to, req.source));
      var handled := handler.SendWithRetry(req.source, mail, hooks, transport);
      run := LegacyFailover.Resume(handled, started, io);
    }
  }
}
