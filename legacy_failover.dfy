/** The earlier failover controller (retry.js, beside the provider registry
    it is used with). It tries providers in the same order as the current
    controller and makes the same sends, waits and final outcome, but it
    fires different hooks: `onSendStart` once per provider tried,
    `onSendSuccess` when a provider's first send succeeds, `onFinalSuccess`
    with `{to, provider}` only, and neither `onRetry` nor `onError`. It
    resolves with the provider's reply itself rather than `{result, provider}`.

    The controller is specified by `LegacySpec`, which runs the attempts along
    the failover order of the current controller; `RetryHandler.SendWithRetry`
    walks the registry with `GetNextProvider` and is proved to produce exactly
    that run. `SpecAgrees` ties outcome and I/O to the current
    controller, and the lemmas after it state the hook calls. */
module LegacyFailover {
  import opened Common
  import opened Helper
  import Failover
  import LegacyRegistry

  // ---------------------------------------------------------------------------
  // Choosing the next provider
  // ---------------------------------------------------------------------------

  /** `providers.filter((p) => !triedProviders.has(p.source))`. */
  function Remaining(ps: seq<Provider>, tried: seq<string>): seq<Provider>
  {
    if ps == [] then []
    else (if ps[0].source !in tried then [ps[0]] else []) + Remaining(ps[1..], tried)
  }

  /** `getNextProvider(currentSource, providers, triedProviders)`: the first
      remaining provider, or null. The current source is not consulted. */
  function GetNextProvider(ps: seq<Provider>, tried: seq<string>): Option<Provider>
  {
    var remaining := Remaining(ps, tried);
    if |remaining| > 0 then Some(remaining[0]) else None
  }

  /** The remaining providers are exactly the registered providers whose
      source has not been tried. */
  lemma {:induction false} RemainingMeaning(ps: seq<Provider>, tried: seq<string>)
    ensures forall p :: p in Remaining(ps, tried) <==> p in ps && p.source !in tried
  {
    if ps != [] {
      RemainingMeaning(ps[1..], tried);
      assert ps == [ps[0]] + ps[1..];
    }
  }

  /** Filtering and taking the head picks the same provider as the current
      controller's `find`. */
  lemma {:induction false} FilterIsFind(ps: seq<Provider>, tried: seq<string>)
    ensures GetNextProvider(ps, tried) == NextProvider(ps, tried)
  {
    if ps != [] && ps[0].source in tried {
      FilterIsFind(ps[1..], tried);
      assert Remaining(ps, tried) == Remaining(ps[1..], tried);
    }
  }

  // ---------------------------------------------------------------------------
  // One provider attempt
  // ---------------------------------------------------------------------------

  /** The try/catch of the loop body for `source` (after `onSendStart`): a
      success fires `onSendSuccess` and `onFinalSuccess`; a non-fatal first
      error of the preferred provider is retried once after a wait, and a
      successful retry fires `onFinalSuccess` only. */
  function LegacyAttempt(source: string, mail: Mail, hooks: Hooks, transport: Transport, fatal: Failover.Classifier,
                         delay: int, isFirst: bool): Run<Receipt>
  {
    var first := transport(source, 0);
    if first.Ok? then
      Run(Ok(first.value),
          FireHook(hooks, OnSendSuccess, SendSuccess(mail.to, Some(source)))
          + FireHook(hooks, OnFinalSuccess, Succeeded(mail.to, source)),
          [Send(source, mail)])
    else if isFirst && !fatal(first.error) then
      var io := [Send(source, mail), Sleep(delay), Send(source, mail)];
      var second := transport(source, 1);
      if second.Ok? then
        Run(Ok(second.value), FireHook(hooks, OnFinalSuccess, Succeeded(mail.to, source)), io)
      else
        Run(Err(second.error), [], io)
    else
      Run(Err(first.error), [], [Send(source, mail)])
  }

  /** The attempts for the sources of `O`, in order. */
  function LegacyAttempts(O: seq<string>, mail: Mail, hooks: Hooks, transport: Transport, fatal: Failover.Classifier,
                          delay: int): (A: seq<Run<Receipt>>)
    ensures |A| == |O|
  {
    seq(|O|, i requires 0 <= i < |O| => LegacyAttempt(O[i], mail, hooks, transport, fatal, delay, i == 0))
  }

  /** An earlier attempt sends and ends as the current `_attemptSend` does. */
  lemma AttemptAgrees(source: string, mail: Mail, hooks: Hooks, transport: Transport, fatal: Failover.Classifier,
                      delay: int, isFirst: bool)
    ensures LegacyAttempt(source, mail, hooks, transport, fatal, delay, isFirst).outcome
            == Failover.Attempt(source, mail, hooks, transport, fatal, delay, isFirst).outcome
    ensures LegacyAttempt(source, mail, hooks, transport, fatal, delay, isFirst).io
            == Failover.Attempt(source, mail, hooks, transport, fatal, delay, isFirst).io
  {
  }

  /** The hook calls of one attempt, hook by hook. */
  function AttemptCallsSpec(source: string, isFirst: bool, to: Option<string>, hooks: Hooks,
                            transport: Transport, fatal: Failover.Classifier, name: HookName): seq<Payload>
  {
    (if name == OnSendSuccess && OnSendSuccess in hooks && transport(source, 0).Ok?
     then [SendSuccess(to, Some(source))] else [])
    + (if name == OnFinalSuccess && OnFinalSuccess in hooks && Failover.LastReply(transport, fatal, source, isFirst).Ok?
       then [Succeeded(to, source)] else [])
  }

  /** An attempt fires `onSendSuccess` only when its first send succeeds and
      `onFinalSuccess` whenever it succeeds, and no other hook. */
  lemma AttemptCalls(source: string, mail: Mail, hooks: Hooks, transport: Transport, fatal: Failover.Classifier,
                     delay: int, isFirst: bool, name: HookName)
    ensures Calls(LegacyAttempt(source, mail, hooks, transport, fatal, delay, isFirst).events, name)
            == AttemptCallsSpec(source, isFirst, mail.to, hooks, transport, fatal, name)
  {
    var fin := FireHook(hooks, OnFinalSuccess, Succeeded(mail.to, source));
    CallsOfFireHook(hooks, OnFinalSuccess, Succeeded(mail.to, source), name);
    if transport(source, 0).Ok? {
      var ok := FireHook(hooks, OnSendSuccess, SendSuccess(mail.to, Some(source)));
      CallsOfFireHook(hooks, OnSendSuccess, SendSuccess(mail.to, Some(source)), name);
      CallsAppend(ok, fin, name);
    }
  }

  /** What the run needs of the attempt of the i-th source of `O`. */
  ghost predicate HookFacts(O: seq<string>, A: seq<Run<Receipt>>, i: nat, name: HookName, to: Option<string>,
                            hooks: Hooks, transport: Transport, fatal: Failover.Classifier)
    requires |A| == |O| && i < |O|
  {
    && A[i].outcome == Failover.LastReply(transport, fatal, O[i], i == 0)
    && Calls(A[i].events, name) == AttemptCallsSpec(O[i], i == 0, to, hooks, transport, fatal, name)
  }

  ghost predicate AllHookFacts(O: seq<string>, A: seq<Run<Receipt>>, name: HookName, to: Option<string>,
                               hooks: Hooks, transport: Transport, fatal: Failover.Classifier)
  {
    |A| == |O| && forall i :: 0 <= i < |O| ==> HookFacts(O, A, i, name, to, hooks, transport, fatal)
  }

  lemma AttemptsHookFacts(O: seq<string>, mail: Mail, hooks: Hooks, transport: Transport, fatal: Failover.Classifier,
                          delay: int, name: HookName)
    ensures AllHookFacts(O, LegacyAttempts(O, mail, hooks, transport, fatal, delay), name, mail.to, hooks, transport, fatal)
  {
    var A := LegacyAttempts(O, mail, hooks, transport, fatal, delay);
    forall i | 0 <= i < |O|
      ensures HookFacts(O, A, i, name, mail.to, hooks, transport, fatal)
    {
      AttemptAgrees(O[i], mail, hooks, transport, fatal, delay, i == 0);
      Failover.AttemptSendsFacts(O[i], mail, hooks, transport, fatal, delay, i == 0);
      AttemptCalls(O[i], mail, hooks, transport, fatal, delay, i == 0, name);
    }
  }

  // ---------------------------------------------------------------------------
  // The whole call, along the failover order
  // ---------------------------------------------------------------------------

  /** The call from the k-th source of `O` on, given the attempts `A`: each
      source is announced with `onSendStart`; a failed attempt with a source
      after it is followed by `onProviderSwitch` and a wait; running out of
      sources fires `onFinalFailure` with every source tried, and fails. */
  function LegacyRun(O: seq<string>, A: seq<Run<Receipt>>, k: nat, to: Option<string>, hooks: Hooks, delay: int): Run<Receipt>
    requires |A| == |O| && k < |O|
    decreases |O| - k
  {
    var a := A[k];
    var started := FireHook(hooks, OnSendStart, SendStart(to, Some(O[k]))) + a.events;
    if a.outcome.Ok? then
      Run(a.outcome, started, a.io)
    else if k + 1 == |O| then
      Run(Err(Failover.AllProvidersFailed), started + FireHook(hooks, OnFinalFailure, FinalFailure(to, O)), a.io)
    else
      var rest := LegacyRun(O, A, k + 1, to, hooks, delay);
      Run(rest.outcome,
          started + FireHook(hooks, OnProviderSwitch, ProviderSwitch(to, O[k], O[k + 1])) + rest.events,
          a.io + [Sleep(delay)] + rest.io)
  }

  /** The earlier `sendWithRetry(source, mailOptions, hooks)` over the
      registry `ps`. */
  function LegacySpec(ps: seq<Provider>, source: Option<string>, mail: Mail, hooks: Hooks,
                      transport: Transport, fatal: Failover.Classifier, delay: int): Run<Receipt>
  {
    if |ps| == 0 then Run(Err(Failover.NoProvidersAvailable), [], [])
    else match FindBySource(ps, source)
      case None => Run(Err(NotFoundMessage(source)), [], [])
      case Some(p) =>
        var O := FailoverOrder(ps, p.source);
        LegacyRun(O, LegacyAttempts(O, mail, hooks, transport, fatal, delay), 0, mail.to, hooks, delay)
  }

  /** The current controller's result with the provider dropped: what the
      earlier one resolves with. */
  function Raw(r: Result<Failover.Delivery>): Result<Receipt>
  {
    if r.Ok? then Ok(r.value.result) else Err(r.error)
  }

  /** Along the same order, with attempts that end and send alike, the earlier
      run ends and sends as the current one. */
  lemma {:induction false} RunAgrees(O: seq<string>, LA: seq<Run<Receipt>>, A: seq<Run<Receipt>>, k: nat,
                                     to: Option<string>, hooks: Hooks, delay: int)
    requires |LA| == |O| && |A| == |O| && k < |O|
    requires forall i :: k <= i < |O| ==> LA[i].outcome == A[i].outcome && LA[i].io == A[i].io
    ensures LegacyRun(O, LA, k, to, hooks, delay).outcome == Raw(Failover.FailoverRun(O, A, k, to, hooks, delay).outcome)
    ensures LegacyRun(O, LA, k, to, hooks, delay).io == Failover.FailoverRun(O, A, k, to, hooks, delay).io
    decreases |O| - k
  {
    if A[k].outcome.Err? && k + 1 < |O| {
      RunAgrees(O, LA, A, k + 1, to, hooks, delay);
    }
  }

  /** The earlier controller fails on the same guards, ends with the same
      reply (without the provider) and makes the same sends and waits as the
      current one; they differ only in the hooks they fire. */
  lemma SpecAgrees(ps: seq<Provider>, source: Option<string>, mail: Mail, hooks: Hooks,
                   transport: Transport, fatal: Failover.Classifier, delay: int)
    ensures LegacySpec(ps, source, mail, hooks, transport, fatal, delay).outcome
            == Raw(Failover.SendSpec(ps, source, mail, hooks, transport, fatal, delay).outcome)
    ensures LegacySpec(ps, source, mail, hooks, transport, fatal, delay).io
            == Failover.SendSpec(ps, source, mail, hooks, transport, fatal, delay).io
  {
    if |ps| > 0 && FindBySource(ps, source).Some? {
      var O := FailoverOrder(ps, FindBySource(ps, source).value.source);
      var LA := LegacyAttempts(O, mail, hooks, transport, fatal, delay);
      var A := Failover.Attempts(O, mail, hooks, transport, fatal, delay);
      forall i | 0 <= i < |O|
        ensures LA[i].outcome == A[i].outcome && LA[i].io == A[i].io
      {
        AttemptAgrees(O[i], mail, hooks, transport, fatal, delay, i == 0);
      }
      RunAgrees(O, LA, A, 0, mail.to, hooks, delay);
    }
  }

  /** An empty registry fails with "No providers available", and an unknown
      source with "Provider not found for source: <source>", both before any
      hook or send. */
  lemma GuardFacts(ps: seq<Provider>, source: Option<string>, mail: Mail, hooks: Hooks,
                   transport: Transport, fatal: Failover.Classifier, delay: int)
    ensures |ps| == 0 ==>
              LegacySpec(ps, source, mail, hooks, transport, fatal, delay) == Run(Err(Failover.NoProvidersAvailable), [], [])
    ensures |ps| > 0 && (forall j :: 0 <= j < |ps| ==> Some(ps[j].source) != source) ==>
              LegacySpec(ps, source, mail, hooks, transport, fatal, delay) == Run(Err(NotFoundMessage(source)), [], [])
  {
  }

  /** For a registered source, the call ends at the first source of the
      failover order whose attempt succeeds and resolves with that reply, or
      fails with "All providers failed to send the email"; it sends the same
      mail through the order as the current controller does: the preferred
      provider twice after a non-fatal first error, every other provider at
      most once. */
  lemma SendOutcomeAndOrder(ps: seq<Provider>, source: Option<string>, mail: Mail, hooks: Hooks,
                            transport: Transport, fatal: Failover.Classifier, delay: int)
    requires FindBySource(ps, source).Some?
    ensures var s := FindBySource(ps, source).value.source;
            var O := FailoverOrder(ps, s);
            var j := Failover.Stop(O, 0, transport, fatal);
            var run := LegacySpec(ps, source, mail, hooks, transport, fatal, delay);
            && run.outcome == (if j < |O| then Ok(Failover.LastReply(transport, fatal, O[j], j == 0).value)
                               else Err(Failover.AllProvidersFailed))
            && Sends(run.io) == Failover.AttemptSends(transport, fatal, s, true) + O[1..Failover.Reached(O, j)]
            && SameMail(run.io, mail)
  {
    SpecAgrees(ps, source, mail, hooks, transport, fatal, delay);
    Failover.SendOutcome(ps, source, mail, hooks, transport, fatal, delay);
    Failover.SendOrder(ps, source, mail, hooks, transport, fatal, delay);
  }

  // ---------------------------------------------------------------------------
  // Hook calls
  // ---------------------------------------------------------------------------

  /** The calls of the hook `name` in the run from the k-th source of `O` on,
      read off the replies rather than the attempts. */
  function CallsFrom(O: seq<string>, k: nat, to: Option<string>, hooks: Hooks, transport: Transport,
                     fatal: Failover.Classifier, name: HookName): seq<Payload>
    requires k < |O|
    decreases |O| - k
  {
    var mine := (if name == OnSendStart && OnSendStart in hooks then [SendStart(to, Some(O[k]))] else [])
                + AttemptCallsSpec(O[k], k == 0, to, hooks, transport, fatal, name);
    if Failover.LastReply(transport, fatal, O[k], k == 0).Ok? then mine
    else if k + 1 == |O| then
      mine + (if name == OnFinalFailure && OnFinalFailure in hooks then [FinalFailure(to, O)] else [])
    else
      mine + (if name == OnProviderSwitch && OnProviderSwitch in hooks then [ProviderSwitch(to, O[k], O[k + 1])] else [])
      + CallsFrom(O, k + 1, to, hooks, transport, fatal, name)
  }

  /** The run calls each hook as `CallsFrom` says. */
  lemma {:induction false} RunCalls(O: seq<string>, A: seq<Run<Receipt>>, k: nat, to: Option<string>, hooks: Hooks,
                                    transport: Transport, fatal: Failover.Classifier, delay: int, name: HookName)
    requires AllHookFacts(O, A, name, to, hooks, transport, fatal) && k < |O|
    ensures Calls(LegacyRun(O, A, k, to, hooks, delay).events, name) == CallsFrom(O, k, to, hooks, transport, fatal, name)
    decreases |O| - k
  {
    assert HookFacts(O, A, k, name, to, hooks, transport, fatal);
    CallsOfFireHook(hooks, OnSendStart, SendStart(to, Some(O[k])), name);
    if A[k].outcome.Ok? {
      DoneCalls(O, A, k, to, hooks, delay, name);
    } else if k + 1 == |O| {
      CallsOfFireHook(hooks, OnFinalFailure, FinalFailure(to, O), name);
      LastCalls(O, A, k, to, hooks, delay, name);
    } else {
      RunCalls(O, A, k + 1, to, hooks, transport, fatal, delay, name);
      CallsOfFireHook(hooks, OnProviderSwitch, ProviderSwitch(to, O[k], O[k + 1]), name);
      StepCalls(O, A, k, to, hooks, delay, name);
    }
  }

  lemma DoneCalls(O: seq<string>, A: seq<Run<Receipt>>, k: nat, to: Option<string>, hooks: Hooks, delay: int, name: HookName)
    requires |A| == |O| && k < |O| && A[k].outcome.Ok?
    ensures Calls(LegacyRun(O, A, k, to, hooks, delay).events, name)
            == Calls(FireHook(hooks, OnSendStart, SendStart(to, Some(O[k]))), name) + Calls(A[k].events, name)
  {
    CallsAppend(FireHook(hooks, OnSendStart, SendStart(to, Some(O[k]))), A[k].events, name);
  }

  lemma LastCalls(O: seq<string>, A: seq<Run<Receipt>>, k: nat, to: Option<string>, hooks: Hooks, delay: int, name: HookName)
    requires |A| == |O| && k + 1 == |O| && A[k].outcome.Err?
    ensures Calls(LegacyRun(O, A, k, to, hooks, delay).events, name)
            == Calls(FireHook(hooks, OnSendStart, SendStart(to, Some(O[k]))), name) + Calls(A[k].events, name)
               + Calls(FireHook(hooks, OnFinalFailure, FinalFailure(to, O)), name)
  {
    CallsSplit3(FireHook(hooks, OnSendStart, SendStart(to, Some(O[k]))), A[k].events,
                FireHook(hooks, OnFinalFailure, FinalFailure(to, O)), name);
  }

  lemma StepCalls(O: seq<string>, A: seq<Run<Receipt>>, k: nat, to: Option<string>, hooks: Hooks, delay: int, name: HookName)
    requires |A| == |O| && k + 1 < |O| && A[k].outcome.Err?
    ensures Calls(LegacyRun(O, A, k, to, hooks, delay).events, name)
            == Calls(FireHook(hooks, OnSendStart, SendStart(to, Some(O[k]))), name) + Calls(A[k].events, name)
               + Calls(FireHook(hooks, OnProviderSwitch, ProviderSwitch(to, O[k], O[k + 1])), name)
               + Calls(LegacyRun(O, A, k + 1, to, hooks, delay).events, name)
  {
    CallsSplit4(FireHook(hooks, OnSendStart, SendStart(to, Some(O[k]))), A[k].events,
                FireHook(hooks, OnProviderSwitch, ProviderSwitch(to, O[k], O[k + 1])),
                LegacyRun(O, A, k + 1, to, hooks, delay).events, name);
  }

  /** For a registered source, the call fires each hook as `CallsFrom` says
      from the preferred provider on. */
  lemma SendCalls(ps: seq<Provider>, source: Option<string>, mail: Mail, hooks: Hooks,
                  transport: Transport, fatal: Failover.Classifier, delay: int, name: HookName)
    requires FindBySource(ps, source).Some?
    ensures var O := FailoverOrder(ps, FindBySource(ps, source).value.source);
            Calls(LegacySpec(ps, source, mail, hooks, transport, fatal, delay).events, name)
            == CallsFrom(O, 0, mail.to, hooks, transport, fatal, name)
  {
    var O := FailoverOrder(ps, FindBySource(ps, source).value.source);
    AttemptsHookFacts(O, mail, hooks, transport, fatal, delay, name);
    RunCalls(O, LegacyAttempts(O, mail, hooks, transport, fatal, delay), 0, mail.to, hooks, transport, fatal, delay, name);
  }

  /** `SendStart(to, source)` for each source of a list, in order. */
  function StartsOf(to: Option<string>, sources: seq<string>): seq<Payload>
  {
    if sources == [] then [] else [SendStart(to, Some(sources[0]))] + StartsOf(to, sources[1..])
  }

  /** `onSendStart` fires once for every source tried, in order, from the
      k-th up to where the run stops. */
  lemma {:induction false} StartsFrom(O: seq<string>, k: nat, to: Option<string>, hooks: Hooks, transport: Transport,
                                      fatal: Failover.Classifier)
    requires k < |O| && OnSendStart in hooks
    ensures CallsFrom(O, k, to, hooks, transport, fatal, OnSendStart)
            == StartsOf(to, O[k..Failover.Reached(O, Failover.Stop(O, k, transport, fatal))])
    decreases |O| - k
  {
    var J := Failover.Reached(O, Failover.Stop(O, k, transport, fatal));
    assert O[k..J] == [O[k]] + O[k + 1..J];
    assert O[k..J][1..] == O[k + 1..J];
    if Failover.LastReply(transport, fatal, O[k], k == 0).Err? && k + 1 < |O| {
      Failover.StopSkips(O, k, transport, fatal);
      StartsFrom(O, k + 1, to, hooks, transport, fatal);
    } else {
      assert O[k + 1..J] == [];
    }
  }

  /** `onSendSuccess` fires at most once: for the source where the run stops,
      when its first send succeeded. */
  lemma {:induction false} SendSuccessFrom(O: seq<string>, k: nat, to: Option<string>, hooks: Hooks, transport: Transport,
                                           fatal: Failover.Classifier)
    requires k < |O|
    ensures var j := Failover.Stop(O, k, transport, fatal);
            CallsFrom(O, k, to, hooks, transport, fatal, OnSendSuccess)
            == (if j < |O| && transport(O[j], 0).Ok? && OnSendSuccess in hooks then [SendSuccess(to, Some(O[j]))] else [])
    decreases |O| - k
  {
    if Failover.LastReply(transport, fatal, O[k], k == 0).Err? && k + 1 < |O| {
      SendSuccessFrom(O, k + 1, to, hooks, transport, fatal);
      SendSuccessStep(O, k, to, hooks, transport, fatal);
    } else {
      SendSuccessEnd(O, k, to, hooks, transport, fatal);
    }
  }

  /** A failed attempt's first send failed too: a retry happens only after a
      failed first send. */
  lemma FailedFirstSend(transport: Transport, fatal: Failover.Classifier, source: string, isFirst: bool)
    requires Failover.LastReply(transport, fatal, source, isFirst).Err?
    ensures transport(source, 0).Err?
  {
    if !isFirst {
      assert Failover.LastReply(transport, fatal, source, isFirst) == transport(source, 0);
    }
  }

  lemma SendSuccessStep(O: seq<string>, k: nat, to: Option<string>, hooks: Hooks, transport: Transport,
                        fatal: Failover.Classifier)
    requires k + 1 < |O| && Failover.LastReply(transport, fatal, O[k], k == 0).Err?
    requires var j := Failover.Stop(O, k + 1, transport, fatal);
             CallsFrom(O, k + 1, to, hooks, transport, fatal, OnSendSuccess)
             == (if j < |O| && transport(O[j], 0).Ok? && OnSendSuccess in hooks then [SendSuccess(to, Some(O[j]))] else [])
    ensures var j := Failover.Stop(O, k, transport, fatal);
            CallsFrom(O, k, to, hooks, transport, fatal, OnSendSuccess)
            == (if j < |O| && transport(O[j], 0).Ok? && OnSendSuccess in hooks then [SendSuccess(to, Some(O[j]))] else [])
  {
    Failover.StopSkips(O, k, transport, fatal);
    FailedFirstSend(transport, fatal, O[k], k == 0);
    assert AttemptCallsSpec(O[k], k == 0, to, hooks, transport, fatal, OnSendSuccess) == [];
  }

  lemma SendSuccessEnd(O: seq<string>, k: nat, to: Option<string>, hooks: Hooks, transport: Transport,
                       fatal: Failover.Classifier)
    requires k < |O| && !(Failover.LastReply(transport, fatal, O[k], k == 0).Err? && k + 1 < |O|)
    ensures var j := Failover.Stop(O, k, transport, fatal);
            CallsFrom(O, k, to, hooks, transport, fatal, OnSendSuccess)
            == (if j < |O| && transport(O[j], 0).Ok? && OnSendSuccess in hooks then [SendSuccess(to, Some(O[j]))] else [])
  {
    if Failover.LastReply(transport, fatal, O[k], k == 0).Err? {
      FailedFirstSend(transport, fatal, O[k], k == 0);
    }
  }

  /** `onFinalSuccess` fires once when some attempt succeeds, with the source
      that succeeded, and never otherwise. */
  lemma {:induction false} FinalSuccessFrom(O: seq<string>, k: nat, to: Option<string>, hooks: Hooks, transport: Transport,
                                            fatal: Failover.Classifier)
    requires k < |O|
    ensures var j := Failover.Stop(O, k, transport, fatal);
            CallsFrom(O, k, to, hooks, transport, fatal, OnFinalSuccess)
            == (if j < |O| && OnFinalSuccess in hooks then [Succeeded(to, O[j])] else [])
    decreases |O| - k
  {
    if Failover.LastReply(transport, fatal, O[k], k == 0).Err? && k + 1 < |O| {
      FinalSuccessFrom(O, k + 1, to, hooks, transport, fatal);
      FinalSuccessStep(O, k, to, hooks, transport, fatal);
    } else {
      FinalSuccessEnd(O, k, to, hooks, transport, fatal);
    }
  }

  lemma FinalSuccessStep(O: seq<string>, k: nat, to: Option<string>, hooks: Hooks, transport: Transport,
                         fatal: Failover.Classifier)
    requires k + 1 < |O| && Failover.LastReply(transport, fatal, O[k], k == 0).Err?
    requires var j := Failover.Stop(O, k + 1, transport, fatal);
             CallsFrom(O, k + 1, to, hooks, transport, fatal, OnFinalSuccess)
             == (if j < |O| && OnFinalSuccess in hooks then [Succeeded(to, O[j])] else [])
    ensures var j := Failover.Stop(O, k, transport, fatal);
            CallsFrom(O, k, to, hooks, transport, fatal, OnFinalSuccess)
            == (if j < |O| && OnFinalSuccess in hooks then [Succeeded(to, O[j])] else [])
  {
    Failover.StopSkips(O, k, transport, fatal);
    assert AttemptCallsSpec(O[k], k == 0, to, hooks, transport, fatal, OnFinalSuccess) == [];
  }

  lemma FinalSuccessEnd(O: seq<string>, k: nat, to: Option<string>, hooks: Hooks, transport: Transport,
                        fatal: Failover.Classifier)
    requires k < |O| && !(Failover.LastReply(transport, fatal, O[k], k == 0).Err? && k + 1 < |O|)
    ensures var j := Failover.Stop(O, k, transport, fatal);
            CallsFrom(O, k, to, hooks, transport, fatal, OnFinalSuccess)
            == (if j < |O| && OnFinalSuccess in hooks then [Succeeded(to, O[j])] else [])
  {
  }

  /** `onFinalFailure` fires once, with the whole order, when every attempt
      fails, and never otherwise. */
  lemma {:induction false} FinalFailureFrom(O: seq<string>, k: nat, to: Option<string>, hooks: Hooks, transport: Transport,
                                            fatal: Failover.Classifier)
    requires k < |O|
    ensures var j := Failover.Stop(O, k, transport, fatal);
            CallsFrom(O, k, to, hooks, transport, fatal, OnFinalFailure)
            == (if j == |O| && OnFinalFailure in hooks then [FinalFailure(to, O)] else [])
    decreases |O| - k
  {
    if Failover.LastReply(transport, fatal, O[k], k == 0).Err? && k + 1 < |O| {
      FinalFailureFrom(O, k + 1, to, hooks, transport, fatal);
      FinalFailureStep(O, k, to, hooks, transport, fatal);
    } else {
      FinalFailureEnd(O, k, to, hooks, transport, fatal);
    }
  }

  lemma FinalFailureStep(O: seq<string>, k: nat, to: Option<string>, hooks: Hooks, transport: Transport,
                         fatal: Failover.Classifier)
    requires k + 1 < |O| && Failover.LastReply(transport, fatal, O[k], k == 0).Err?
    requires var j := Failover.Stop(O, k + 1, transport, fatal);
             CallsFrom(O, k + 1, to, hooks, transport, fatal, OnFinalFailure)
             == (if j == |O| && OnFinalFailure in hooks then [FinalFailure(to, O)] else [])
    ensures var j := Failover.Stop(O, k, transport, fatal);
            CallsFrom(O, k, to, hooks, transport, fatal, OnFinalFailure)
            == (if j == |O| && OnFinalFailure in hooks then [FinalFailure(to, O)] else [])
  {
    Failover.StopSkips(O, k, transport, fatal);
    assert AttemptCallsSpec(O[k], k == 0, to, hooks, transport, fatal, OnFinalFailure) == [];
  }

  lemma FinalFailureEnd(O: seq<string>, k: nat, to: Option<string>, hooks: Hooks, transport: Transport,
                        fatal: Failover.Classifier)
    requires k < |O| && !(Failover.LastReply(transport, fatal, O[k], k == 0).Err? && k + 1 < |O|)
    ensures var j := Failover.Stop(O, k, transport, fatal);
            CallsFrom(O, k, to, hooks, transport, fatal, OnFinalFailure)
            == (if j == |O| && OnFinalFailure in hooks then [FinalFailure(to, O)] else [])
  {
  }

  /** A hook that is absent never fires, and neither does any hook apart from
      the five of the earlier controller: in particular neither `onError` nor
      `onRetry`. */
  lemma {:induction false} OthersFrom(O: seq<string>, k: nat, to: Option<string>, hooks: Hooks, transport: Transport,
                                      fatal: Failover.Classifier, name: HookName)
    requires k < |O|
    requires name !in hooks || name !in {OnSendStart, OnSendSuccess, OnFinalSuccess, OnFinalFailure, OnProviderSwitch}
    ensures CallsFrom(O, k, to, hooks, transport, fatal, name) == []
    decreases |O| - k
  {
    if Failover.LastReply(transport, fatal, O[k], k == 0).Err? && k + 1 < |O| {
      OthersFrom(O, k + 1, to, hooks, transport, fatal, name);
    }
  }

  /** `onProviderSwitch` fires once per move from a failed source to the next
      one of `O`, from the k-th source up to where the run stops, and only
      when there is a next source. */
  lemma {:induction false} SwitchCallsFrom(O: seq<string>, k: nat, to: Option<string>, hooks: Hooks, transport: Transport,
                                        fatal: Failover.Classifier)
    requires k < |O| && OnProviderSwitch in hooks
    ensures CallsFrom(O, k, to, hooks, transport, fatal, OnProviderSwitch)
            == Failover.SwitchesFrom(O, k, Failover.Reached(O, Failover.Stop(O, k, transport, fatal)) - 1, to)
    decreases |O| - k
  {
    if Failover.LastReply(transport, fatal, O[k], k == 0).Err? && k + 1 < |O| {
      SwitchCallsFrom(O, k + 1, to, hooks, transport, fatal);
      SwitchCallsStep(O, k, to, hooks, transport, fatal);
    } else {
      SwitchCallsEnd(O, k, to, hooks, transport, fatal);
    }
  }

  lemma SwitchCallsStep(O: seq<string>, k: nat, to: Option<string>, hooks: Hooks, transport: Transport,
                        fatal: Failover.Classifier)
    requires k + 1 < |O| && OnProviderSwitch in hooks && Failover.LastReply(transport, fatal, O[k], k == 0).Err?
    requires CallsFrom(O, k + 1, to, hooks, transport, fatal, OnProviderSwitch)
             == Failover.SwitchesFrom(O, k + 1, Failover.Reached(O, Failover.Stop(O, k + 1, transport, fatal)) - 1, to)
    ensures CallsFrom(O, k, to, hooks, transport, fatal, OnProviderSwitch)
            == Failover.SwitchesFrom(O, k, Failover.Reached(O, Failover.Stop(O, k, transport, fatal)) - 1, to)
  {
    Failover.StopSkips(O, k, transport, fatal);
    var n := Failover.Reached(O, Failover.Stop(O, k + 1, transport, fatal)) - 1;
    assert Failover.SwitchesFrom(O, k, n, to) == [ProviderSwitch(to, O[k], O[k + 1])] + Failover.SwitchesFrom(O, k + 1, n, to);
    assert AttemptCallsSpec(O[k], k == 0, to, hooks, transport, fatal, OnProviderSwitch) == [];
  }

  lemma SwitchCallsEnd(O: seq<string>, k: nat, to: Option<string>, hooks: Hooks, transport: Transport,
                       fatal: Failover.Classifier)
    requires k < |O| && OnProviderSwitch in hooks
    requires !(Failover.LastReply(transport, fatal, O[k], k == 0).Err? && k + 1 < |O|)
    ensures CallsFrom(O, k, to, hooks, transport, fatal, OnProviderSwitch)
            == Failover.SwitchesFrom(O, k, Failover.Reached(O, Failover.Stop(O, k, transport, fatal)) - 1, to)
  {
  }

  /** For a registered source: `onSendStart` once per provider tried, in
      failover order; `onSendSuccess` only when the provider that succeeds
      did so on its first send; `onFinalSuccess` once on success, with that
      provider; `onFinalFailure` once, with every source tried, when all
      fail; `onProviderSwitch` once per move to the next source of the order;
      and no `onError` or `onRetry`. */
  lemma SendHooks(ps: seq<Provider>, source: Option<string>, mail: Mail, hooks: Hooks,
                  transport: Transport, fatal: Failover.Classifier, delay: int)
    requires FindBySource(ps, source).Some?
    ensures var O := FailoverOrder(ps, FindBySource(ps, source).value.source);
            var j := Failover.Stop(O, 0, transport, fatal);
            var events := LegacySpec(ps, source, mail, hooks, transport, fatal, delay).events;
            && Calls(events, OnSendStart) == (if OnSendStart in hooks then StartsOf(mail.to, O[..Failover.Reached(O, j)]) else [])
            && Calls(events, OnSendSuccess)
               == (if j < |O| && transport(O[j], 0).Ok? && OnSendSuccess in hooks then [SendSuccess(mail.to, Some(O[j]))] else [])
            && Calls(events, OnFinalSuccess) == (if j < |O| && OnFinalSuccess in hooks then [Succeeded(mail.to, O[j])] else [])
            && Calls(events, OnFinalFailure) == (if j == |O| && OnFinalFailure in hooks then [FinalFailure(mail.to, O)] else [])
            && Calls(events, OnProviderSwitch)
               == (if OnProviderSwitch in hooks then Failover.SwitchesFrom(O, 0, Failover.Reached(O, j) - 1, mail.to) else [])
            && Calls(events, OnError) == []
            && Calls(events, OnRetry) == []
  {
    var O := FailoverOrder(ps, FindBySource(ps, source).value.source);
    var to := mail.to;
    SendCalls(ps, source, mail, hooks, transport, fatal, delay, OnSendStart);
    SendCalls(ps, source, mail, hooks, transport, fatal, delay, OnSendSuccess);
    SendCalls(ps, source, mail, hooks, transport, fatal, delay, OnFinalSuccess);
    SendCalls(ps, source, mail, hooks, transport, fatal, delay, OnFinalFailure);
    SendCalls(ps, source, mail, hooks, transport, fatal, delay, OnProviderSwitch);
    SendCalls(ps, source, mail, hooks, transport, fatal, delay, OnError);
    SendCalls(ps, source, mail, hooks, transport, fatal, delay, OnRetry);
    if OnSendStart in hooks {
      StartsFrom(O, 0, to, hooks, transport, fatal);
    } else {
      OthersFrom(O, 0, to, hooks, transport, fatal, OnSendStart);
    }
    SendSuccessFrom(O, 0, to, hooks, transport, fatal);
    FinalSuccessFrom(O, 0, to, hooks, transport, fatal);
    FinalFailureFrom(O, 0, to, hooks, transport, fatal);
    if OnProviderSwitch in hooks {
      SwitchCallsFrom(O, 0, to, hooks, transport, fatal);
    } else {
      OthersFrom(O, 0, to, hooks, transport, fatal, OnProviderSwitch);
    }
    OthersFrom(O, 0, to, hooks, transport, fatal, OnError);
    OthersFrom(O, 0, to, hooks, transport, fatal, OnRetry);
  }

  // ---------------------------------------------------------------------------
  // The controller
  // ---------------------------------------------------------------------------

  /** The run `r` resumed after the hook calls `events` and the I/O `io`. */
  function Resume(r: Run<Receipt>, events: seq<Event>, io: seq<Io>): Run<Receipt>
  {
    Run(r.outcome, events + r.events, io + r.io)
  }

  /** A successful attempt ends the run with its reply. */
  lemma RunDone(O: seq<string>, A: seq<Run<Receipt>>, k: nat, to: Option<string>, hooks: Hooks, delay: int,
                events: seq<Event>, io: seq<Io>)
    requires |A| == |O| && k < |O| && A[k].outcome.Ok?
    ensures Resume(LegacyRun(O, A, k, to, hooks, delay), events, io)
            == Run(A[k].outcome, events + FireHook(hooks, OnSendStart, SendStart(to, Some(O[k]))) + A[k].events, io + A[k].io)
  {
  }

  /** A failed last attempt leaves only `onFinalFailure` to fire. */
  lemma RunLast(O: seq<string>, A: seq<Run<Receipt>>, k: nat, to: Option<string>, hooks: Hooks, delay: int,
                events: seq<Event>, io: seq<Io>)
    requires |A| == |O| && k + 1 == |O| && A[k].outcome.Err?
    ensures Resume(LegacyRun(O, A, k, to, hooks, delay), events, io)
            == Run(Err(Failover.AllProvidersFailed),
                   events + FireHook(hooks, OnSendStart, SendStart(to, Some(O[k]))) + A[k].events
                   + FireHook(hooks, OnFinalFailure, FinalFailure(to, O)),
                   io + A[k].io)
  {
  }

  /** A failed attempt with a source after it hands over to that source after
      `onProviderSwitch` and a wait. */
  lemma RunNext(O: seq<string>, A: seq<Run<Receipt>>, k: nat, to: Option<string>, hooks: Hooks, delay: int,
                events: seq<Event>, io: seq<Io>)
    requires |A| == |O| && k + 1 < |O| && A[k].outcome.Err?
    ensures Resume(LegacyRun(O, A, k, to, hooks, delay), events, io)
            == Resume(LegacyRun(O, A, k + 1, to, hooks, delay),
                      events + FireHook(hooks, OnSendStart, SendStart(to, Some(O[k]))) + A[k].events
                      + FireHook(hooks, OnProviderSwitch, ProviderSwitch(to, O[k], O[k + 1])),
                      io + A[k].io + [Sleep(delay)])
  {
  }

  class RetryHandler {
    const manager: LegacyRegistry.ProviderManager
    const retryDelay: int

    /** `new RetryHandler(providerManager, options)`: a retry delay of 0 or
        none means 3000 ms. */
    constructor(manager: LegacyRegistry.ProviderManager, retryDelayOption: Option<int>)
      ensures this.manager == manager
      ensures retryDelay == OrDefault(retryDelayOption, Failover.DefaultRetryDelay)
    {
      this.manager := manager;
      retryDelay := OrDefault(retryDelayOption, Failover.DefaultRetryDelay);
    }

    /** The try/catch of the provider loop for the k-th source of the order
        `O`: the send, and for the preferred provider the retry after a
        non-fatal error. */
    method TryProvider(provider: Provider, mail: Mail, hooks: Hooks, transport: Transport, isFirst: bool,
                       ghost O: seq<string>, ghost k: nat)
      returns (a: Run<Receipt>)
      requires k < |O| && O[k] == provider.source && isFirst == (k == 0)
      ensures a == LegacyAttempts(O, mail, hooks, transport, IsProviderError, retryDelay)[k]
    {
      var io := [Send(provider.source, mail)];
      var result := transport(provider.source, 0);
      if result.Ok? {
        var events := FireHook(hooks, OnSendSuccess, SendSuccess(mail.to, Some(provider.source)));
        events := events + FireHook(hooks, OnFinalSuccess, Succeeded(mail.to, provider.source));
        return Run(Ok(result.value), events, io);
      }
      if isFirst && !IsProviderError(result.error) {
        io := io + [Sleep(retryDelay)] + [Send(provider.source, mail)];
        var retryResult := transport(provider.source, 1);
        if retryResult.Ok? {
          return Run(Ok(retryResult.value), FireHook(hooks, OnFinalSuccess, Succeeded(mail.to, provider.source)), io);
        }
        return Run(Err(retryResult.error), [], io);
      }
      a := Run(Err(result.error), [], io);
    }

    /** The earlier `sendWithRetry(source, mailOptions, hooks)`. The tried
        sources are kept in insertion order, as a `Set` iterates them;
        `attemptCount` is set to 1 and never raised, so `onSendStart` fires
        for every provider. */
    method SendWithRetry(source: Option<string>, mail: Mail, hooks: Hooks, transport: Transport)
      returns (run: Run<Receipt>)
      ensures run == LegacySpec(manager.providers, source, mail, hooks, transport, IsProviderError, retryDelay)
    {
      var providers := manager.GetProviders();
      if |providers| == 0 {
        return Run(Err(Failover.NoProvidersAvailable), [], []);
      }
      var current := manager.GetProvider(source);
      if current.None? {
        return Run(Err(NotFoundMessage(source)), [], []);
      }
      ghost var O := FailoverOrder(providers, current.value.source);
      ghost var A := LegacyAttempts(O, mail, hooks, transport, IsProviderError, retryDelay);
      ghost var spec := LegacyRun(O, A, 0, mail.to, hooks, retryDelay);
      assert spec == LegacySpec(providers, source, mail, hooks, transport, IsProviderError, retryDelay);
      var tried: seq<string> := [];
      var isFirst := true;
      var attemptCount := 1;
      var events: seq<Event> := [];
      var io: seq<Io> := [];
      ghost var k := 0;
      while current.Some?
        invariant k <= |O| && (current.Some? <==> k < |O|)
        invariant current.Some? ==> current.value.source == O[k]
        invariant tried == O[..k] && isFirst == (k == 0) && attemptCount == 1
        invariant current.Some? ==> spec == Resume(LegacyRun(O, A, k, mail.to, hooks, retryDelay), events, io)
        invariant current.None? ==>
                    spec == Run(Err(Failover.AllProvidersFailed),
                                events + FireHook(hooks, OnFinalFailure, FinalFailure(mail.to, O)), io)
        decreases |O| - k
      {
        var provider := current.value;
        Failover.TriedStep(providers, O[0], k);
        if provider.source !in tried {
          tried := tried + [provider.source];
        }
        ghost var events0, io0 := events, io;
        if attemptCount == 1 {
          events := events + FireHook(hooks, OnSendStart, SendStart(mail.to, Some(provider.source)));
        }
        var a := TryProvider(provider, mail, hooks, transport, isFirst, O, k);
        events := events + a.events;
        io := io + a.io;
        if a.outcome.Ok? {
          RunDone(O, A, k, mail.to, hooks, retryDelay, events0, io0);
          return Run(a.outcome, events, io);
        }
        isFirst := false;
        var next := GetNextProvider(providers, tried);
        FilterIsFind(providers, tried);
        NextFollowsOrder(providers, O[0], k);
        if next.Some? {
          events := events + FireHook(hooks, OnProviderSwitch, ProviderSwitch(mail.to, provider.source, next.value.source));
          io := io + [Sleep(retryDelay)];
          RunNext(O, A, k, mail.to, hooks, retryDelay, events0, io0);
        } else {
          RunLast(O, A, k, mail.to, hooks, retryDelay, events0, io0);
        }
        current := next;
        attemptCount := 1;
        k := k + 1;
      }
      assert tried == O;
      events := events + FireHook(hooks, OnFinalFailure, FinalFailure(mail.to, tried));
      run := Run(Err(Failover.AllProvidersFailed), events, io);
    }
  }
}
