/** The failover controller (retryHandler/retry.js): one call of
    `sendWithRetry` tries the preferred provider, retries it once after a
    non-fatal error, then walks the rest of the registry in order until a
    provider accepts the mail or every provider has been tried.

    The controller is specified by `SendSpec`, which runs the attempts along
    the independent reference order `FailoverOrder`; `RetryHandler.SendWithRetry`
    walks the registry with `NextProvider` as the source does and is proved to
    produce exactly that run. The lemmas below state what the run looks like:
    where it stops, which sends it makes and which hooks it fires. */
module Failover {
  import opened Common
  import opened Helper
  import Registry

  const DefaultRetryDelay: int := 3000
  const NoProvidersAvailable := "No providers available"
  const AllProvidersFailed := "All providers failed to send the email"

  /** A classification of error messages as fatal; the controller uses
      `IsProviderError`, and the lemmas below hold for any classification. */
  type Classifier = string -> bool

  /** What a successful `sendWithRetry` resolves with: `{result, provider}`. */
  datatype Delivery = Delivery(result: Receipt, provider: string)

  // ---------------------------------------------------------------------------
  // One provider attempt
  // ---------------------------------------------------------------------------

  /** The first send of `source` fails with an error that is not fatal. */
  predicate Retries(transport: Transport, fatal: Classifier, source: string)
  {
    transport(source, 0).Err? && !fatal(transport(source, 0).error)
  }

  /** The sources an attempt sends through: the preferred provider is sent to
      twice after a non-fatal first error, every attempt otherwise once. */
  function AttemptSends(transport: Transport, fatal: Classifier, source: string, isFirst: bool): seq<string>
  {
    if isFirst && Retries(transport, fatal, source) then [source, source] else [source]
  }

  /** The reply of the last send of an attempt. */
  function LastReply(transport: Transport, fatal: Classifier, source: string, isFirst: bool): Result<Receipt>
  {
    if isFirst && Retries(transport, fatal, source) then transport(source, 1) else transport(source, 0)
  }

  /** The error message of a reply, or "" for a success. */
  function ErrorOf(reply: Result<Receipt>): string
  {
    if reply.Err? then reply.error else ""
  }

  /** `_attemptSend(provider, mailOptions, hooks, isFirstProvider)`. */
  function Attempt(source: string, mail: Mail, hooks: Hooks, transport: Transport, fatal: Classifier, delay: int, isFirst: bool): Run<Receipt>
  {
    var first := transport(source, 0);
    if first.Ok? then
      Run(Ok(first.value), FireFinalSuccess(hooks, mail.to, source, first.value), [Send(source, mail)])
    else if isFirst && !fatal(first.error) then
      var retry := FireHook(hooks, OnRetry, Retry(mail.to, source, 2));
      var io := [Send(source, mail), Sleep(delay), Send(source, mail)];
      var second := transport(source, 1);
      if second.Ok? then
        Run(Ok(second.value), retry + FireFinalSuccess(hooks, mail.to, source, second.value), io)
      else
        Run(Err(second.error), retry, io)
    else
      Run(Err(first.error), [], [Send(source, mail)])
  }

  /** An attempt ends with the reply of its last send, and it sends the same
      mail through its own provider once, or twice when the preferred
      provider's first error is not fatal. */
  lemma AttemptSendsFacts(source: string, mail: Mail, hooks: Hooks, transport: Transport, fatal: Classifier, delay: int, isFirst: bool)
    ensures Attempt(source, mail, hooks, transport, fatal, delay, isFirst).outcome == LastReply(transport, fatal, source, isFirst)
    ensures Sends(Attempt(source, mail, hooks, transport, fatal, delay, isFirst).io) == AttemptSends(transport, fatal, source, isFirst)
    ensures SameMail(Attempt(source, mail, hooks, transport, fatal, delay, isFirst).io, mail)
  {
    var one := [Send(source, mail)];
    SendsOne(Send(source, mail));
    if isFirst && Retries(transport, fatal, source) {
      SendsOne(Sleep(delay));
      SendsSplit3(one, [Sleep(delay)], one);
      assert [Send(source, mail), Sleep(delay), Send(source, mail)] == one + [Sleep(delay)] + one;
    }
  }

  /** The hook calls of one attempt, hook by hook: `onRetry` once, with
      attempt 2, for a retried preferred provider, and `onFinalSuccess` once,
      with the timings of the reply, when the attempt succeeds. */
  function AttemptCallsSpec(source: string, isFirst: bool, to: Option<string>, hooks: Hooks,
                            transport: Transport, fatal: Classifier, name: HookName): seq<Payload>
  {
    var reply := LastReply(transport, fatal, source, isFirst);
    (if name == OnRetry && isFirst && Retries(transport, fatal, source) && OnRetry in hooks
     then [Retry(to, source, 2)] else [])
    + (if name == OnFinalSuccess && reply.Ok? && OnFinalSuccess in hooks
       then [FinalSuccess(to, source, reply.value.envelopeTime, reply.value.messageTime)] else [])
  }

  /** An attempt fires `onRetry` only for a retried preferred provider and
      `onFinalSuccess` only when it succeeds, and no other hook. */
  lemma AttemptCalls(source: string, mail: Mail, hooks: Hooks, transport: Transport, fatal: Classifier, delay: int, isFirst: bool, name: HookName)
    ensures Calls(Attempt(source, mail, hooks, transport, fatal, delay, isFirst).events, name)
            == AttemptCallsSpec(source, isFirst, mail.to, hooks, transport, fatal, name)
  {
    var first := transport(source, 0);
    if first.Ok? {
      CallsOfFireHook(hooks, OnFinalSuccess, FinalSuccess(mail.to, source, first.value.envelopeTime, first.value.messageTime), name);
    } else if isFirst && !fatal(first.error) {
      var retry := FireHook(hooks, OnRetry, Retry(mail.to, source, 2));
      CallsOfFireHook(hooks, OnRetry, Retry(mail.to, source, 2), name);
      var second := transport(source, 1);
      if second.Ok? {
        var fin := FireFinalSuccess(hooks, mail.to, source, second.value);
        CallsOfFireHook(hooks, OnFinalSuccess, FinalSuccess(mail.to, source, second.value.envelopeTime, second.value.messageTime), name);
        CallsAppend(retry, fin, name);
      }
    }
  }

  /** What the run needs of the attempt of the i-th source of `O`: it ends
      with the reply of its last send, and it calls the hook `name` as
      `AttemptCallsSpec` says. */
  ghost predicate HookFacts(O: seq<string>, A: seq<Run<Receipt>>, i: nat, name: HookName, to: Option<string>,
                            hooks: Hooks, transport: Transport, fatal: Classifier)
    requires |A| == |O| && i < |O|
  {
    && A[i].outcome == LastReply(transport, fatal, O[i], i == 0)
    && Calls(A[i].events, name) == AttemptCallsSpec(O[i], i == 0, to, hooks, transport, fatal, name)
  }

  ghost predicate AllHookFacts(O: seq<string>, A: seq<Run<Receipt>>, name: HookName, to: Option<string>,
                               hooks: Hooks, transport: Transport, fatal: Classifier)
  {
    |A| == |O| && forall i :: 0 <= i < |O| ==> HookFacts(O, A, i, name, to, hooks, transport, fatal)
  }

  /** What the run needs of the I/O of the attempt of the i-th source of `O`. */
  ghost predicate IoFacts(O: seq<string>, A: seq<Run<Receipt>>, i: nat, mail: Mail, transport: Transport, fatal: Classifier)
    requires |A| == |O| && i < |O|
  {
    && A[i].outcome == LastReply(transport, fatal, O[i], i == 0)
    && Sends(A[i].io) == AttemptSends(transport, fatal, O[i], i == 0)
    && SameMail(A[i].io, mail)
  }

  ghost predicate AllIoFacts(O: seq<string>, A: seq<Run<Receipt>>, mail: Mail, transport: Transport, fatal: Classifier)
  {
    |A| == |O| && forall i :: 0 <= i < |O| ==> IoFacts(O, A, i, mail, transport, fatal)
  }

  // ---------------------------------------------------------------------------
  // The whole call, along the failover order
  // ---------------------------------------------------------------------------

  /** The attempts `_attemptSend` makes for the sources of `O`, in order. */
  function Attempts(O: seq<string>, mail: Mail, hooks: Hooks, transport: Transport, fatal: Classifier, delay: int): (A: seq<Run<Receipt>>)
    ensures |A| == |O|
  {
    seq(|O|, i requires 0 <= i < |O| => Attempt(O[i], mail, hooks, transport, fatal, delay, i == 0))
  }

  lemma AttemptsHookFacts(O: seq<string>, mail: Mail, hooks: Hooks, transport: Transport, fatal: Classifier, delay: int, name: HookName)
    ensures AllHookFacts(O, Attempts(O, mail, hooks, transport, fatal, delay), name, mail.to, hooks, transport, fatal)
  {
    var A := Attempts(O, mail, hooks, transport, fatal, delay);
    forall i | 0 <= i < |O|
      ensures HookFacts(O, A, i, name, mail.to, hooks, transport, fatal)
    {
      AttemptSendsFacts(O[i], mail, hooks, transport, fatal, delay, i == 0);
      AttemptCalls(O[i], mail, hooks, transport, fatal, delay, i == 0, name);
    }
  }

  lemma AttemptsIoFacts(O: seq<string>, mail: Mail, hooks: Hooks, transport: Transport, fatal: Classifier, delay: int)
    ensures AllIoFacts(O, Attempts(O, mail, hooks, transport, fatal, delay), mail, transport, fatal)
  {
    var A := Attempts(O, mail, hooks, transport, fatal, delay);
    forall i | 0 <= i < |O|
      ensures IoFacts(O, A, i, mail, transport, fatal)
    {
      AttemptSendsFacts(O[i], mail, hooks, transport, fatal, delay, i == 0);
    }
  }

  /** The call from the k-th source of the order `O` on, given the attempts `A`
      of those sources: a failed attempt fires `onError`; a next source is
      announced with `onProviderSwitch` and waited for; running out of
      sources fires `onFinalFailure` with every source tried, and fails. */
  function FailoverRun(O: seq<string>, A: seq<Run<Receipt>>, k: nat, to: Option<string>, hooks: Hooks, delay: int): Run<Delivery>
    requires |A| == |O| && k < |O|
    decreases |O| - k
  {
    var a := A[k];
    if a.outcome.Ok? then
      Run(Ok(Delivery(a.outcome.value, O[k])), a.events, a.io)
    else
      var failed := a.events + FireHook(hooks, OnError, Failure(to, Some(O[k]), a.outcome.error));
      if k + 1 == |O| then
        Run(Err(AllProvidersFailed), failed + FireHook(hooks, OnFinalFailure, FinalFailure(to, O)), a.io)
      else
        var rest := FailoverRun(O, A, k + 1, to, hooks, delay);
        Run(rest.outcome,
            failed + FireHook(hooks, OnProviderSwitch, ProviderSwitch(to, O[k], O[k + 1])) + rest.events,
            a.io + [Sleep(delay)] + rest.io)
  }

  /** `sendWithRetry(source, mailOptions, hooks)` over the registry `ps`, with
      provider sends answered by `transport`, errors classified by `fatal`
      and waits of `delay`. */
  function SendSpec(ps: seq<Provider>, source: Option<string>, mail: Mail, hooks: Hooks,
                    transport: Transport, fatal: Classifier, delay: int): Run<Delivery>
  {
    if |ps| == 0 then Run(Err(NoProvidersAvailable), [], [])
    else match FindBySource(ps, source)
      case None => Run(Err(NotFoundMessage(source)), [], [])
      case Some(p) =>
        var O := FailoverOrder(ps, p.source);
        var rest := FailoverRun(O, Attempts(O, mail, hooks, transport, fatal, delay), 0, mail.to, hooks, delay);
        Run(rest.outcome, FireHook(hooks, OnSendStart, SendStart(mail.to, Some(p.source))) + rest.events, rest.io)
  }

  /** The index of the first source, from the k-th on, whose attempt succeeds;
      `|O|` when none does. */
  function Stop(O: seq<string>, k: nat, transport: Transport, fatal: Classifier): (j: nat)
    requires k <= |O|
    ensures k <= j <= |O|
    ensures j < |O| ==> LastReply(transport, fatal, O[j], j == 0).Ok?
    decreases |O| - k
  {
    if k == |O| || LastReply(transport, fatal, O[k], k == 0).Ok? then k else Stop(O, k + 1, transport, fatal)
  }

  /** `Stop` is the FIRST succeeding index: every source before it fails. */
  lemma {:induction false} StopIsFirst(O: seq<string>, k: nat, transport: Transport, fatal: Classifier)
    requires k <= |O|
    ensures forall i :: k <= i < Stop(O, k, transport, fatal) ==> LastReply(transport, fatal, O[i], i == 0).Err?
    decreases |O| - k
  {
    if k < |O| && LastReply(transport, fatal, O[k], k == 0).Err? {
      StopIsFirst(O, k + 1, transport, fatal);
    }
  }

  /** One past the last source attempted when the run stops at `j`. */
  function Reached(O: seq<string>, j: nat): nat
  {
    if j < |O| then j + 1 else |O|
  }

  /** The `onError` payloads of the failed attempts of the k-th up to (not
      including) the j-th source. */
  function ErrorsFrom(O: seq<string>, k: nat, j: nat, to: Option<string>, transport: Transport, fatal: Classifier): seq<Payload>
    requires j <= |O|
    decreases j - k
  {
    if k >= j then []
    else [Failure(to, Some(O[k]), ErrorOf(LastReply(transport, fatal, O[k], k == 0)))] + ErrorsFrom(O, k + 1, j, to, transport, fatal)
  }

  /** The `onProviderSwitch` payloads of the moves from the k-th up to the n-th
      source, each to the source after it. */
  function SwitchesFrom(O: seq<string>, k: nat, n: nat, to: Option<string>): seq<Payload>
    requires n < |O|
    decreases n - k
  {
    if k >= n then [] else [ProviderSwitch(to, O[k], O[k + 1])] + SwitchesFrom(O, k + 1, n, to)
  }

  /** The `onProviderSwitch` payloads of the run from the k-th source on, read
      off the attempts: one per failed attempt that has a source after it. */
  function SwitchesOf(O: seq<string>, A: seq<Run<Receipt>>, k: nat, to: Option<string>): seq<Payload>
    requires |A| == |O| && k < |O|
    decreases |O| - k
  {
    if A[k].outcome.Ok? || k + 1 == |O| then []
    else [ProviderSwitch(to, O[k], O[k + 1])] + SwitchesOf(O, A, k + 1, to)
  }

  /** Read off the attempts or along the order, the moves are the same. */
  lemma {:induction false} SwitchesOfIsFrom(O: seq<string>, A: seq<Run<Receipt>>, k: nat, to: Option<string>, hooks: Hooks,
                                            transport: Transport, fatal: Classifier)
    requires AllHookFacts(O, A, OnProviderSwitch, to, hooks, transport, fatal) && k < |O|
    ensures SwitchesOf(O, A, k, to) == SwitchesFrom(O, k, Reached(O, Stop(O, k, transport, fatal)) - 1, to)
    decreases |O| - k
  {
    assert HookFacts(O, A, k, OnProviderSwitch, to, hooks, transport, fatal);
    if A[k].outcome.Err? && k + 1 < |O| {
      SwitchesOfIsFrom(O, A, k + 1, to, hooks, transport, fatal);
      StopSkips(O, k, transport, fatal);
      var n := Reached(O, Stop(O, k + 1, transport, fatal)) - 1;
      assert SwitchesFrom(O, k, n, to) == [ProviderSwitch(to, O[k], O[k + 1])] + SwitchesFrom(O, k + 1, n, to);
    }
  }

  /** The `onFinalSuccess` payload when the run stops at the j-th source. */
  function FinalSuccessFrom(O: seq<string>, j: nat, to: Option<string>, transport: Transport, fatal: Classifier): seq<Payload>
    requires j <= |O|
  {
    if j < |O| && LastReply(transport, fatal, O[j], j == 0).Ok? then
      var reply := LastReply(transport, fatal, O[j], j == 0).value;
      [FinalSuccess(to, O[j], reply.envelopeTime, reply.messageTime)]
    else []
  }

  /** A failed attempt that is not the last moves the stopping point along. */
  lemma StopSkips(O: seq<string>, k: nat, transport: Transport, fatal: Classifier)
    requires k + 1 < |O| && LastReply(transport, fatal, O[k], k == 0).Err?
    ensures Stop(O, k, transport, fatal) == Stop(O, k + 1, transport, fatal)
  {
  }

  /** One step of the run after a failed attempt: `onError`, then either
      `onFinalFailure` or `onProviderSwitch`, a wait and the rest of the run. */
  lemma RunFailedStep(O: seq<string>, A: seq<Run<Receipt>>, k: nat, to: Option<string>, hooks: Hooks, delay: int)
    requires |A| == |O| && k < |O| && A[k].outcome.Err?
    ensures var failed := A[k].events + FireHook(hooks, OnError, Failure(to, Some(O[k]), A[k].outcome.error));
            var run := FailoverRun(O, A, k, to, hooks, delay);
            && (k + 1 == |O| ==>
                  run == Run(Err(AllProvidersFailed), failed + FireHook(hooks, OnFinalFailure, FinalFailure(to, O)), A[k].io))
            && (k + 1 < |O| ==>
                  var rest := FailoverRun(O, A, k + 1, to, hooks, delay);
                  run == Run(rest.outcome,
                             failed + FireHook(hooks, OnProviderSwitch, ProviderSwitch(to, O[k], O[k + 1])) + rest.events,
                             A[k].io + [Sleep(delay)] + rest.io))
  {
  }

  /** The calls of one hook in a step of the run after a failed attempt. */
  lemma FailedStepCalls(O: seq<string>, A: seq<Run<Receipt>>, k: nat, to: Option<string>, hooks: Hooks, delay: int, name: HookName)
    requires |A| == |O| && k < |O| && A[k].outcome.Err?
    ensures var mine := Calls(A[k].events, name);
            var err := Calls(FireHook(hooks, OnError, Failure(to, Some(O[k]), A[k].outcome.error)), name);
            var run := FailoverRun(O, A, k, to, hooks, delay);
            && (k + 1 == |O| ==>
                  Calls(run.events, name) == mine + err + Calls(FireHook(hooks, OnFinalFailure, FinalFailure(to, O)), name))
            && (k + 1 < |O| ==>
                  Calls(run.events, name)
                  == mine + err + Calls(FireHook(hooks, OnProviderSwitch, ProviderSwitch(to, O[k], O[k + 1])), name)
                     + Calls(FailoverRun(O, A, k + 1, to, hooks, delay).events, name))
  {
    RunFailedStep(O, A, k, to, hooks, delay);
    var err := FireHook(hooks, OnError, Failure(to, Some(O[k]), A[k].outcome.error));
    if k + 1 == |O| {
      CallsSplit3(A[k].events, err, FireHook(hooks, OnFinalFailure, FinalFailure(to, O)), name);
    } else {
      CallsSplit4(A[k].events, err, FireHook(hooks, OnProviderSwitch, ProviderSwitch(to, O[k], O[k + 1])),
                  FailoverRun(O, A, k + 1, to, hooks, delay).events, name);
    }
  }

  /** The hook calls of a failed step that is not the last: the attempt's own,
      `onError` and `onProviderSwitch`, then the rest of the run. */
  lemma StepCalls(O: seq<string>, A: seq<Run<Receipt>>, k: nat, to: Option<string>, hooks: Hooks, delay: int, name: HookName)
    requires |A| == |O| && k + 1 < |O| && A[k].outcome.Err?
    ensures Calls(FailoverRun(O, A, k, to, hooks, delay).events, name)
            == Calls(A[k].events, name)
               + (if name == OnError && OnError in hooks then [Failure(to, Some(O[k]), A[k].outcome.error)] else [])
               + (if name == OnProviderSwitch && OnProviderSwitch in hooks then [ProviderSwitch(to, O[k], O[k + 1])] else [])
               + Calls(FailoverRun(O, A, k + 1, to, hooks, delay).events, name)
  {
    FailedStepCalls(O, A, k, to, hooks, delay, name);
    CallsOfFireHook(hooks, OnError, Failure(to, Some(O[k]), A[k].outcome.error), name);
    CallsOfFireHook(hooks, OnProviderSwitch, ProviderSwitch(to, O[k], O[k + 1]), name);
  }

  /** The hook calls of a failed last step: the attempt's own, `onError` and
      `onFinalFailure`. */
  lemma LastCalls(O: seq<string>, A: seq<Run<Receipt>>, k: nat, to: Option<string>, hooks: Hooks, delay: int, name: HookName)
    requires |A| == |O| && k + 1 == |O| && A[k].outcome.Err?
    ensures Calls(FailoverRun(O, A, k, to, hooks, delay).events, name)
            == Calls(A[k].events, name)
               + (if name == OnError && OnError in hooks then [Failure(to, Some(O[k]), A[k].outcome.error)] else [])
               + (if name == OnFinalFailure && OnFinalFailure in hooks then [FinalFailure(to, O)] else [])
  {
    FailedStepCalls(O, A, k, to, hooks, delay, name);
    CallsOfFireHook(hooks, OnError, Failure(to, Some(O[k]), A[k].outcome.error), name);
    CallsOfFireHook(hooks, OnFinalFailure, FinalFailure(to, O), name);
  }

  /** The run stops at the first source whose attempt succeeds and delivers
      that reply together with the source; when every attempt fails it fails
      with "All providers failed to send the email". */
  lemma {:induction false} RunOutcome(O: seq<string>, A: seq<Run<Receipt>>, k: nat, mail: Mail, hooks: Hooks, transport: Transport, fatal: Classifier, delay: int)
    requires AllIoFacts(O, A, mail, transport, fatal) && k < |O|
    ensures var j := Stop(O, k, transport, fatal);
            FailoverRun(O, A, k, mail.to, hooks, delay).outcome
            == if j < |O| then Ok(Delivery(LastReply(transport, fatal, O[j], j == 0).value, O[j]))
               else Err(AllProvidersFailed)
    decreases |O| - k
  {
    assert IoFacts(O, A, k, mail, transport, fatal);
    if A[k].outcome.Err? && k + 1 < |O| {
      RunOutcome(O, A, k + 1, mail, hooks, transport, fatal, delay);
    }
  }

  /** The run sends the same mail through the sources of `O` in order, from
      the k-th up to where it stops, each once except a retried first one. */
  lemma {:induction false} RunSends(O: seq<string>, A: seq<Run<Receipt>>, k: nat, mail: Mail, hooks: Hooks, transport: Transport, fatal: Classifier, delay: int)
    requires AllIoFacts(O, A, mail, transport, fatal) && k < |O|
    ensures var io := FailoverRun(O, A, k, mail.to, hooks, delay).io;
            && Sends(io) == AttemptSends(transport, fatal, O[k], k == 0) + O[k + 1..Reached(O, Stop(O, k, transport, fatal))]
            && SameMail(io, mail)
    decreases |O| - k
  {
    assert IoFacts(O, A, k, mail, transport, fatal);
    if A[k].outcome.Err? && k + 1 < |O| {
      RunSends(O, A, k + 1, mail, hooks, transport, fatal, delay);
      SendsStep(O, A, k, mail, hooks, transport, fatal, delay);
    } else {
      SendsEnd(O, A, k, mail, hooks, transport, fatal, delay);
    }
  }

  lemma SendsEnd(O: seq<string>, A: seq<Run<Receipt>>, k: nat, mail: Mail, hooks: Hooks, transport: Transport, fatal: Classifier, delay: int)
    requires |A| == |O| && k < |O| && !(A[k].outcome.Err? && k + 1 < |O|) && IoFacts(O, A, k, mail, transport, fatal)
    ensures var io := FailoverRun(O, A, k, mail.to, hooks, delay).io;
            && Sends(io) == AttemptSends(transport, fatal, O[k], k == 0) + O[k + 1..Reached(O, Stop(O, k, transport, fatal))]
            && SameMail(io, mail)
  {
    assert AttemptSends(transport, fatal, O[k], k == 0) + [] == AttemptSends(transport, fatal, O[k], k == 0);
  }

  lemma SendsStep(O: seq<string>, A: seq<Run<Receipt>>, k: nat, mail: Mail, hooks: Hooks, transport: Transport, fatal: Classifier, delay: int)
    requires |A| == |O| && k + 1 < |O| && A[k].outcome.Err? && IoFacts(O, A, k, mail, transport, fatal)
    requires var io := FailoverRun(O, A, k + 1, mail.to, hooks, delay).io;
             && Sends(io) == AttemptSends(transport, fatal, O[k + 1], false) + O[k + 2..Reached(O, Stop(O, k + 1, transport, fatal))]
             && SameMail(io, mail)
    ensures var io := FailoverRun(O, A, k, mail.to, hooks, delay).io;
            && Sends(io) == AttemptSends(transport, fatal, O[k], k == 0) + O[k + 1..Reached(O, Stop(O, k, transport, fatal))]
            && SameMail(io, mail)
  {
    var rest := FailoverRun(O, A, k + 1, mail.to, hooks, delay).io;
    RunFailedIo(O, A, k, mail.to, hooks, delay);
    StopSkips(O, k, transport, fatal);
    var J := Reached(O, Stop(O, k + 1, transport, fatal));
    SliceCons(O, k + 1, J);
    SendsCons(A[k].io, rest, delay, mail, AttemptSends(transport, fatal, O[k], k == 0), O[k + 1], O[k + 2..J]);
  }

  /** The I/O of a failed step that is not the last: the attempt's own, a
      wait, then the rest of the run. */
  lemma RunFailedIo(O: seq<string>, A: seq<Run<Receipt>>, k: nat, to: Option<string>, hooks: Hooks, delay: int)
    requires |A| == |O| && k + 1 < |O| && A[k].outcome.Err?
    ensures FailoverRun(O, A, k, to, hooks, delay).io == A[k].io + [Sleep(delay)] + FailoverRun(O, A, k + 1, to, hooks, delay).io
  {
  }

  lemma SliceCons(O: seq<string>, i: nat, j: nat)
    requires i < j <= |O|
    ensures O[i..j] == [O[i]] + O[i + 1..j]
  {
  }

  /** Sends and mail of an attempt's I/O, a wait and the rest of the run. */
  lemma SendsCons(mine: seq<Io>, rest: seq<Io>, delay: int, mail: Mail, sent: seq<string>, next: string, later: seq<string>)
    requires Sends(mine) == sent && SameMail(mine, mail)
    requires Sends(rest) == [next] + later && SameMail(rest, mail)
    ensures Sends(mine + [Sleep(delay)] + rest) == sent + ([next] + later)
    ensures SameMail(mine + [Sleep(delay)] + rest, mail)
  {
    SendsOne(Sleep(delay));
    SendsSplit3(mine, [Sleep(delay)], rest);
    SameMailSplit3(mine, [Sleep(delay)], rest, mail);
  }

  /** `onError` fires once per failed attempt, with its source and the error
      of its last send, from the k-th source up to where the run stops. */
  lemma {:induction false} RunErrors(O: seq<string>, A: seq<Run<Receipt>>, k: nat, to: Option<string>, hooks: Hooks, transport: Transport, fatal: Classifier, delay: int)
    requires AllHookFacts(O, A, OnError, to, hooks, transport, fatal) && k < |O|
    ensures Calls(FailoverRun(O, A, k, to, hooks, delay).events, OnError)
            == if OnError in hooks then ErrorsFrom(O, k, Stop(O, k, transport, fatal), to, transport, fatal) else []
    decreases |O| - k
  {
    assert HookFacts(O, A, k, OnError, to, hooks, transport, fatal);
    if A[k].outcome.Err? {
      if k + 1 == |O| {
        ErrorsLast(O, A, k, to, hooks, transport, fatal, delay);
      } else {
        RunErrors(O, A, k + 1, to, hooks, transport, fatal, delay);
        ErrorsStep(O, A, k, to, hooks, transport, fatal, delay);
      }
    }
  }

  lemma ErrorsLast(O: seq<string>, A: seq<Run<Receipt>>, k: nat, to: Option<string>, hooks: Hooks, transport: Transport, fatal: Classifier, delay: int)
    requires |A| == |O| && k + 1 == |O| && A[k].outcome.Err? && Calls(A[k].events, OnError) == []
    requires A[k].outcome == LastReply(transport, fatal, O[k], k == 0)
    ensures Calls(FailoverRun(O, A, k, to, hooks, delay).events, OnError)
            == if OnError in hooks then ErrorsFrom(O, k, Stop(O, k, transport, fatal), to, transport, fatal) else []
  {
    LastCalls(O, A, k, to, hooks, delay, OnError);
    assert ErrorsFrom(O, k, k + 1, to, transport, fatal) == [Failure(to, Some(O[k]), A[k].outcome.error)];
  }

  lemma ErrorsStep(O: seq<string>, A: seq<Run<Receipt>>, k: nat, to: Option<string>, hooks: Hooks, transport: Transport, fatal: Classifier, delay: int)
    requires |A| == |O| && k + 1 < |O| && A[k].outcome.Err? && Calls(A[k].events, OnError) == []
    requires A[k].outcome == LastReply(transport, fatal, O[k], k == 0)
    requires Calls(FailoverRun(O, A, k + 1, to, hooks, delay).events, OnError)
             == if OnError in hooks then ErrorsFrom(O, k + 1, Stop(O, k + 1, transport, fatal), to, transport, fatal) else []
    ensures Calls(FailoverRun(O, A, k, to, hooks, delay).events, OnError)
            == if OnError in hooks then ErrorsFrom(O, k, Stop(O, k, transport, fatal), to, transport, fatal) else []
  {
    StepCalls(O, A, k, to, hooks, delay, OnError);
    StopSkips(O, k, transport, fatal);
    var j := Stop(O, k + 1, transport, fatal);
    var rest := Calls(FailoverRun(O, A, k + 1, to, hooks, delay).events, OnError);
    if OnError in hooks {
      assert ErrorsFrom(O, k, j, to, transport, fatal)
             == [Failure(to, Some(O[k]), A[k].outcome.error)] + ErrorsFrom(O, k + 1, j, to, transport, fatal);
      assert Calls(FailoverRun(O, A, k, to, hooks, delay).events, OnError)
             == [] + [Failure(to, Some(O[k]), A[k].outcome.error)] + [] + rest;
    } else {
      assert Calls(FailoverRun(O, A, k, to, hooks, delay).events, OnError) == [] + [] + [] + rest;
    }
  }

  /** `onProviderSwitch` fires once per move from a failed source to the next
      one of `O`, from the k-th source up to where the run stops. */
  lemma {:induction false} RunSwitches(O: seq<string>, A: seq<Run<Receipt>>, k: nat, to: Option<string>, hooks: Hooks, transport: Transport, fatal: Classifier, delay: int)
    requires AllHookFacts(O, A, OnProviderSwitch, to, hooks, transport, fatal) && k < |O|
    ensures Calls(FailoverRun(O, A, k, to, hooks, delay).events, OnProviderSwitch)
            == if OnProviderSwitch in hooks then SwitchesOf(O, A, k, to) else []
    decreases |O| - k
  {
    assert HookFacts(O, A, k, OnProviderSwitch, to, hooks, transport, fatal);
    if A[k].outcome.Err? {
      if k + 1 == |O| {
        LastCalls(O, A, k, to, hooks, delay, OnProviderSwitch);
      } else {
        RunSwitches(O, A, k + 1, to, hooks, transport, fatal, delay);
        SwitchesStep(O, A, k, to, hooks, delay);
      }
    }
  }

  lemma SwitchesStep(O: seq<string>, A: seq<Run<Receipt>>, k: nat, to: Option<string>, hooks: Hooks, delay: int)
    requires |A| == |O| && k + 1 < |O| && A[k].outcome.Err? && Calls(A[k].events, OnProviderSwitch) == []
    requires Calls(FailoverRun(O, A, k + 1, to, hooks, delay).events, OnProviderSwitch)
             == if OnProviderSwitch in hooks then SwitchesOf(O, A, k + 1, to) else []
    ensures Calls(FailoverRun(O, A, k, to, hooks, delay).events, OnProviderSwitch)
            == if OnProviderSwitch in hooks then SwitchesOf(O, A, k, to) else []
  {
    StepCalls(O, A, k, to, hooks, delay, OnProviderSwitch);
    SwitchesCons(O[k], O[k + 1], to, hooks, SwitchesOf(O, A, k, to), SwitchesOf(O, A, k + 1, to),
                 Calls(FailoverRun(O, A, k, to, hooks, delay).events, OnProviderSwitch),
                 Calls(FailoverRun(O, A, k + 1, to, hooks, delay).events, OnProviderSwitch));
  }

  lemma SwitchesCons(from: string, next: string, to: Option<string>, hooks: Hooks,
                     all: seq<Payload>, rest: seq<Payload>, here: seq<Payload>, later: seq<Payload>)
    requires all == [ProviderSwitch(to, from, next)] + rest
    requires here == [] + [] + (if OnProviderSwitch in hooks then [ProviderSwitch(to, from, next)] else []) + later
    requires later == if OnProviderSwitch in hooks then rest else []
    ensures here == if OnProviderSwitch in hooks then all else []
  {
    if OnProviderSwitch in hooks {
      assert here == [ProviderSwitch(to, from, next)] + later;
    } else {
      assert here == later;
    }
  }


  /** `onRetry` fires at most once, with attempt 2, and only when the run
      starts at the preferred provider and its first error is not fatal. */
  lemma {:induction false} RunRetry(O: seq<string>, A: seq<Run<Receipt>>, k: nat, to: Option<string>, hooks: Hooks, transport: Transport, fatal: Classifier, delay: int)
    requires AllHookFacts(O, A, OnRetry, to, hooks, transport, fatal) && k < |O|
    ensures Calls(FailoverRun(O, A, k, to, hooks, delay).events, OnRetry)
            == if k == 0 && Retries(transport, fatal, O[0]) && OnRetry in hooks then [Retry(to, O[0], 2)] else []
    decreases |O| - k
  {
    assert HookFacts(O, A, k, OnRetry, to, hooks, transport, fatal);
    if A[k].outcome.Err? && k + 1 < |O| {
      RunRetry(O, A, k + 1, to, hooks, transport, fatal, delay);
      RetryStep(O, A, k, to, hooks, transport, fatal, delay);
    } else {
      RetryEnd(O, A, k, to, hooks, transport, fatal, delay);
    }
  }

  lemma RetryStep(O: seq<string>, A: seq<Run<Receipt>>, k: nat, to: Option<string>, hooks: Hooks, transport: Transport, fatal: Classifier, delay: int)
    requires |A| == |O| && k + 1 < |O| && A[k].outcome.Err? && HookFacts(O, A, k, OnRetry, to, hooks, transport, fatal)
    requires Calls(FailoverRun(O, A, k + 1, to, hooks, delay).events, OnRetry) == []
    ensures Calls(FailoverRun(O, A, k, to, hooks, delay).events, OnRetry)
            == if k == 0 && Retries(transport, fatal, O[0]) && OnRetry in hooks then [Retry(to, O[0], 2)] else []
  {
    StepCalls(O, A, k, to, hooks, delay, OnRetry);
  }

  lemma RetryEnd(O: seq<string>, A: seq<Run<Receipt>>, k: nat, to: Option<string>, hooks: Hooks, transport: Transport, fatal: Classifier, delay: int)
    requires |A| == |O| && k < |O| && !(A[k].outcome.Err? && k + 1 < |O|) && HookFacts(O, A, k, OnRetry, to, hooks, transport, fatal)
    ensures Calls(FailoverRun(O, A, k, to, hooks, delay).events, OnRetry)
            == if k == 0 && Retries(transport, fatal, O[0]) && OnRetry in hooks then [Retry(to, O[0], 2)] else []
  {
    if A[k].outcome.Err? {
      LastCalls(O, A, k, to, hooks, delay, OnRetry);
    }
  }

  /** `onFinalSuccess` fires once, with the timings of the delivering reply,
      when some attempt from the k-th on succeeds, and never otherwise. */
  lemma {:induction false} RunFinalSuccess(O: seq<string>, A: seq<Run<Receipt>>, k: nat, to: Option<string>, hooks: Hooks, transport: Transport, fatal: Classifier, delay: int)
    requires AllHookFacts(O, A, OnFinalSuccess, to, hooks, transport, fatal) && k < |O|
    ensures Calls(FailoverRun(O, A, k, to, hooks, delay).events, OnFinalSuccess)
            == if OnFinalSuccess in hooks then FinalSuccessFrom(O, Stop(O, k, transport, fatal), to, transport, fatal) else []
    decreases |O| - k
  {
    assert HookFacts(O, A, k, OnFinalSuccess, to, hooks, transport, fatal);
    if A[k].outcome.Err? && k + 1 < |O| {
      RunFinalSuccess(O, A, k + 1, to, hooks, transport, fatal, delay);
      RunFinalSuccessStep(O, A, k, to, hooks, transport, fatal, delay);
    } else {
      RunFinalSuccessEnd(O, A, k, to, hooks, transport, fatal, delay);
    }
  }

  lemma RunFinalSuccessStep(O: seq<string>, A: seq<Run<Receipt>>, k: nat, to: Option<string>, hooks: Hooks, transport: Transport, fatal: Classifier, delay: int)
    requires |A| == |O| && k + 1 < |O| && A[k].outcome.Err? && HookFacts(O, A, k, OnFinalSuccess, to, hooks, transport, fatal)
    requires Calls(FailoverRun(O, A, k + 1, to, hooks, delay).events, OnFinalSuccess)
            == if OnFinalSuccess in hooks then FinalSuccessFrom(O, Stop(O, k + 1, transport, fatal), to, transport, fatal) else []
    ensures Calls(FailoverRun(O, A, k, to, hooks, delay).events, OnFinalSuccess)
            == if OnFinalSuccess in hooks then FinalSuccessFrom(O, Stop(O, k, transport, fatal), to, transport, fatal) else []
  {
    StepCalls(O, A, k, to, hooks, delay, OnFinalSuccess);
    StopSkips(O, k, transport, fatal);
  }

  lemma RunFinalSuccessEnd(O: seq<string>, A: seq<Run<Receipt>>, k: nat, to: Option<string>, hooks: Hooks, transport: Transport, fatal: Classifier, delay: int)
    requires |A| == |O| && k < |O| && !(A[k].outcome.Err? && k + 1 < |O|) && HookFacts(O, A, k, OnFinalSuccess, to, hooks, transport, fatal)
    ensures Calls(FailoverRun(O, A, k, to, hooks, delay).events, OnFinalSuccess)
            == if OnFinalSuccess in hooks then FinalSuccessFrom(O, Stop(O, k, transport, fatal), to, transport, fatal) else []
  {
    if A[k].outcome.Err? {
      LastCalls(O, A, k, to, hooks, delay, OnFinalSuccess);
    }
  }

  /** `onFinalFailure` fires once, with all of `O`, when every attempt from
      the k-th on fails, and never otherwise. */
  lemma {:induction false} RunFinalFailure(O: seq<string>, A: seq<Run<Receipt>>, k: nat, to: Option<string>, hooks: Hooks, transport: Transport, fatal: Classifier, delay: int)
    requires AllHookFacts(O, A, OnFinalFailure, to, hooks, transport, fatal) && k < |O|
    ensures Calls(FailoverRun(O, A, k, to, hooks, delay).events, OnFinalFailure)
            == if Stop(O, k, transport, fatal) == |O| && OnFinalFailure in hooks then [FinalFailure(to, O)] else []
    decreases |O| - k
  {
    assert HookFacts(O, A, k, OnFinalFailure, to, hooks, transport, fatal);
    if A[k].outcome.Err? && k + 1 < |O| {
      RunFinalFailure(O, A, k + 1, to, hooks, transport, fatal, delay);
      RunFinalFailureStep(O, A, k, to, hooks, transport, fatal, delay);
    } else {
      RunFinalFailureEnd(O, A, k, to, hooks, transport, fatal, delay);
    }
  }

  lemma RunFinalFailureStep(O: seq<string>, A: seq<Run<Receipt>>, k: nat, to: Option<string>, hooks: Hooks, transport: Transport, fatal: Classifier, delay: int)
    requires |A| == |O| && k + 1 < |O| && A[k].outcome.Err? && HookFacts(O, A, k, OnFinalFailure, to, hooks, transport, fatal)
    requires Calls(FailoverRun(O, A, k + 1, to, hooks, delay).events, OnFinalFailure)
            == if Stop(O, k + 1, transport, fatal) == |O| && OnFinalFailure in hooks then [FinalFailure(to, O)] else []
    ensures Calls(FailoverRun(O, A, k, to, hooks, delay).events, OnFinalFailure)
            == if Stop(O, k, transport, fatal) == |O| && OnFinalFailure in hooks then [FinalFailure(to, O)] else []
  {
    StepCalls(O, A, k, to, hooks, delay, OnFinalFailure);
    StopSkips(O, k, transport, fatal);
  }

  lemma RunFinalFailureEnd(O: seq<string>, A: seq<Run<Receipt>>, k: nat, to: Option<string>, hooks: Hooks, transport: Transport, fatal: Classifier, delay: int)
    requires |A| == |O| && k < |O| && !(A[k].outcome.Err? && k + 1 < |O|) && HookFacts(O, A, k, OnFinalFailure, to, hooks, transport, fatal)
    ensures Calls(FailoverRun(O, A, k, to, hooks, delay).events, OnFinalFailure)
            == if Stop(O, k, transport, fatal) == |O| && OnFinalFailure in hooks then [FinalFailure(to, O)] else []
  {
    if A[k].outcome.Err? {
      LastCalls(O, A, k, to, hooks, delay, OnFinalFailure);
    }
  }

  /** No hook other than these five fires during the run. */
  lemma {:induction false} RunOthers(O: seq<string>, A: seq<Run<Receipt>>, k: nat, to: Option<string>, hooks: Hooks, transport: Transport, fatal: Classifier, delay: int, name: HookName)
    requires AllHookFacts(O, A, name, to, hooks, transport, fatal) && k < |O|
    requires name !in {OnRetry, OnError, OnProviderSwitch, OnFinalSuccess, OnFinalFailure}
    ensures Calls(FailoverRun(O, A, k, to, hooks, delay).events, name) == []
    decreases |O| - k
  {
    assert HookFacts(O, A, k, name, to, hooks, transport, fatal);
    if A[k].outcome.Err? && k + 1 < |O| {
      RunOthers(O, A, k + 1, to, hooks, transport, fatal, delay, name);
      OthersStep(O, A, k, to, hooks, transport, fatal, delay, name);
    } else {
      OthersEnd(O, A, k, to, hooks, transport, fatal, delay, name);
    }
  }

  lemma OthersStep(O: seq<string>, A: seq<Run<Receipt>>, k: nat, to: Option<string>, hooks: Hooks, transport: Transport, fatal: Classifier, delay: int, name: HookName)
    requires |A| == |O| && k + 1 < |O| && A[k].outcome.Err? && HookFacts(O, A, k, name, to, hooks, transport, fatal)
    requires name !in {OnRetry, OnError, OnProviderSwitch, OnFinalSuccess, OnFinalFailure}
    requires Calls(FailoverRun(O, A, k + 1, to, hooks, delay).events, name) == []
    ensures Calls(FailoverRun(O, A, k, to, hooks, delay).events, name) == []
  {
    StepCalls(O, A, k, to, hooks, delay, name);
  }

  lemma OthersEnd(O: seq<string>, A: seq<Run<Receipt>>, k: nat, to: Option<string>, hooks: Hooks, transport: Transport, fatal: Classifier, delay: int, name: HookName)
    requires |A| == |O| && k < |O| && !(A[k].outcome.Err? && k + 1 < |O|) && HookFacts(O, A, k, name, to, hooks, transport, fatal)
    requires name !in {OnRetry, OnError, OnProviderSwitch, OnFinalSuccess, OnFinalFailure}
    ensures Calls(FailoverRun(O, A, k, to, hooks, delay).events, name) == []
  {
    if A[k].outcome.Err? {
      LastCalls(O, A, k, to, hooks, delay, name);
    }
  }

  lemma {:induction false} ErrorsFromFacts(O: seq<string>, k: nat, j: nat, to: Option<string>, transport: Transport, fatal: Classifier)
    requires k <= j <= |O|
    ensures |ErrorsFrom(O, k, j, to, transport, fatal)| == j - k
    ensures forall i :: k <= i < j ==>
              ErrorsFrom(O, k, j, to, transport, fatal)[i - k] == Failure(to, Some(O[i]), ErrorOf(LastReply(transport, fatal, O[i], i == 0)))
    decreases j - k
  {
    if k < j {
      var all := ErrorsFrom(O, k, j, to, transport, fatal);
      var rest := ErrorsFrom(O, k + 1, j, to, transport, fatal);
      ErrorsFromFacts(O, k + 1, j, to, transport, fatal);
      forall i | k < i < j
        ensures all[i - k] == Failure(to, Some(O[i]), ErrorOf(LastReply(transport, fatal, O[i], i == 0)))
      {
        assert all[i - k] == rest[i - (k + 1)];
      }
    }
  }


  lemma {:induction false} SwitchesFromFacts(O: seq<string>, k: nat, n: nat, to: Option<string>)
    requires k <= n < |O|
    ensures |SwitchesFrom(O, k, n, to)| == n - k
    ensures forall i :: k <= i < n ==> SwitchesFrom(O, k, n, to)[i - k] == ProviderSwitch(to, O[i], O[i + 1])
    decreases n - k
  {
    if k < n {
      var all := SwitchesFrom(O, k, n, to);
      var rest := SwitchesFrom(O, k + 1, n, to);
      SwitchesFromFacts(O, k + 1, n, to);
      forall i | k < i < n
        ensures all[i - k] == ProviderSwitch(to, O[i], O[i + 1])
      {
        assert all[i - k] == rest[i - (k + 1)];
      }
    }
  }


  lemma ErrorsAt(O: seq<string>, j: nat, to: Option<string>, transport: Transport, fatal: Classifier, errors: seq<Payload>)
    requires j <= |O| && errors == ErrorsFrom(O, 0, j, to, transport, fatal)
    ensures |errors| == j
    ensures forall i :: 0 <= i < |errors| ==> errors[i] == Failure(to, Some(O[i]), ErrorOf(LastReply(transport, fatal, O[i], i == 0)))
  {
    ErrorsFromFacts(O, 0, j, to, transport, fatal);
    forall i | 0 <= i < |errors|
      ensures errors[i] == Failure(to, Some(O[i]), ErrorOf(LastReply(transport, fatal, O[i], i == 0)))
    {
      assert errors[i] == errors[i - 0];
    }
  }

  lemma SwitchesAt(O: seq<string>, n: nat, to: Option<string>, switches: seq<Payload>)
    requires n < |O| && switches == SwitchesFrom(O, 0, n, to)
    ensures |switches| == n
    ensures forall i :: 0 <= i < |switches| ==> switches[i] == ProviderSwitch(to, O[i], O[i + 1])
  {
    SwitchesFromFacts(O, 0, n, to);
  }

  // ---------------------------------------------------------------------------
  // Properties of the whole call
  // ---------------------------------------------------------------------------

  /** An empty registry fails with "No providers available", and a source no
      provider has fails with "Provider not found for source: <source>"; in
      both cases before any hook or send. */
  lemma GuardFacts(ps: seq<Provider>, source: Option<string>, mail: Mail, hooks: Hooks, transport: Transport, fatal: Classifier, delay: int)
    ensures |ps| == 0 ==> SendSpec(ps, source, mail, hooks, transport, fatal, delay) == Run(Err(NoProvidersAvailable), [], [])
    ensures |ps| > 0 && (forall j :: 0 <= j < |ps| ==> Some(ps[j].source) != source) ==>
              SendSpec(ps, source, mail, hooks, transport, fatal, delay) == Run(Err(NotFoundMessage(source)), [], [])
  {
  }

  /** For a registered source, the call fires `onSendStart` for the preferred
      provider and then runs the attempts along the failover order. */
  lemma SendCalls(ps: seq<Provider>, source: Option<string>, mail: Mail, hooks: Hooks, transport: Transport, fatal: Classifier, delay: int, name: HookName)
    requires FindBySource(ps, source).Some?
    ensures var s := FindBySource(ps, source).value.source;
            var O := FailoverOrder(ps, s);
            var run := SendSpec(ps, source, mail, hooks, transport, fatal, delay);
            var rest := FailoverRun(O, Attempts(O, mail, hooks, transport, fatal, delay), 0, mail.to, hooks, delay);
            && run.outcome == rest.outcome && run.io == rest.io
            && Calls(run.events, name)
               == (if name == OnSendStart && OnSendStart in hooks then [SendStart(mail.to, Some(s))] else [])
                  + Calls(rest.events, name)
  {
    var s := FindBySource(ps, source).value.source;
    var O := FailoverOrder(ps, s);
    var rest := FailoverRun(O, Attempts(O, mail, hooks, transport, fatal, delay), 0, mail.to, hooks, delay);
    var start := FireHook(hooks, OnSendStart, SendStart(mail.to, Some(s)));
    assert SendSpec(ps, source, mail, hooks, transport, fatal, delay) == Run(rest.outcome, start + rest.events, rest.io);
    CallsOfFireHook(hooks, OnSendStart, SendStart(mail.to, Some(s)), name);
    CallsAppend(start, rest.events, name);
  }

  /** For a registered source, `onSendStart` fires once, for the preferred
      provider, and `onRetry` fires once, with attempt 2, exactly when the
      preferred provider's first error is not fatal. */
  lemma SendStartAndRetry(ps: seq<Provider>, source: Option<string>, mail: Mail, hooks: Hooks, transport: Transport, fatal: Classifier, delay: int)
    requires FindBySource(ps, source).Some?
    ensures var s := FindBySource(ps, source).value.source;
            var events := SendSpec(ps, source, mail, hooks, transport, fatal, delay).events;
            && Calls(events, OnSendStart) == (if OnSendStart in hooks then [SendStart(mail.to, Some(s))] else [])
            && Calls(events, OnRetry) == (if Retries(transport, fatal, s) && OnRetry in hooks then [Retry(mail.to, s, 2)] else [])
  {
    var s := FindBySource(ps, source).value.source;
    var O := FailoverOrder(ps, s);
    var A := Attempts(O, mail, hooks, transport, fatal, delay);
    SendCalls(ps, source, mail, hooks, transport, fatal, delay, OnSendStart);
    SendCalls(ps, source, mail, hooks, transport, fatal, delay, OnRetry);
    AttemptsHookFacts(O, mail, hooks, transport, fatal, delay, OnSendStart);
    AttemptsHookFacts(O, mail, hooks, transport, fatal, delay, OnRetry);
    RunOthers(O, A, 0, mail.to, hooks, transport, fatal, delay, OnSendStart);
    RunRetry(O, A, 0, mail.to, hooks, transport, fatal, delay);
  }

  /** For a registered source, no hook fires other than the six of the
      controller. */
  lemma SendOtherHooks(ps: seq<Provider>, source: Option<string>, mail: Mail, hooks: Hooks, transport: Transport, fatal: Classifier, delay: int, name: HookName)
    requires FindBySource(ps, source).Some?
    requires name !in {OnSendStart, OnRetry, OnError, OnProviderSwitch, OnFinalSuccess, OnFinalFailure}
    ensures Calls(SendSpec(ps, source, mail, hooks, transport, fatal, delay).events, name) == []
  {
    var s := FindBySource(ps, source).value.source;
    var O := FailoverOrder(ps, s);
    SendCalls(ps, source, mail, hooks, transport, fatal, delay, name);
    AttemptsHookFacts(O, mail, hooks, transport, fatal, delay, name);
    RunOthers(O, Attempts(O, mail, hooks, transport, fatal, delay), 0, mail.to, hooks, transport, fatal, delay, name);
  }

  ghost function Count(q: seq<string>, x: string): nat
  {
    multiset(q)[x]
  }

  lemma {:induction false} DistinctCount(q: seq<string>, x: string)
    requires Distinct(q)
    ensures Count(q, x) <= 1
  {
    if q != [] {
      assert q == [q[0]] + q[1..];
      assert Distinct(q[1..]);
      DistinctCount(q[1..], x);
      if x == q[0] {
        assert x !in q[1..];
      }
    }
  }

  lemma {:induction false} HeadCount(head: seq<string>, x: string)
    requires forall i :: 0 <= i < |head| ==> head[i] == x
    ensures multiset(head)[x] == |head|
  {
    if head != [] {
      assert head == [head[0]] + head[1..];
      HeadCount(head[1..], x);
    }
  }

  /** For a registered source, the call sends the same mail through the
      failover order, from the preferred provider (twice when its first error
      is not fatal) up to where it stops. */
  lemma SendOrder(ps: seq<Provider>, source: Option<string>, mail: Mail, hooks: Hooks, transport: Transport, fatal: Classifier, delay: int)
    requires FindBySource(ps, source).Some?
    ensures var s := FindBySource(ps, source).value.source;
            var O := FailoverOrder(ps, s);
            var io := SendSpec(ps, source, mail, hooks, transport, fatal, delay).io;
            && Sends(io) == AttemptSends(transport, fatal, s, true) + O[1..Reached(O, Stop(O, 0, transport, fatal))]
            && SameMail(io, mail)
  {
    var s := FindBySource(ps, source).value.source;
    var O := FailoverOrder(ps, s);
    SendCalls(ps, source, mail, hooks, transport, fatal, delay, OnSendStart);
    AttemptsIoFacts(O, mail, hooks, transport, fatal, delay);
    RunSends(O, Attempts(O, mail, hooks, transport, fatal, delay), 0, mail, hooks, transport, fatal, delay);
  }

  /** A send list made of the preferred source (once or twice) and then a
      stretch of a duplicate-free order after it sends to the preferred source
      that often and to every other source at most once. */
  lemma OrderCounts(O: seq<string>, head: seq<string>, J: nat, x: string)
    requires Distinct(O) && 1 <= J <= |O| && |head| > 0
    requires forall i :: 0 <= i < |head| ==> head[i] == O[0]
    ensures Count(head + O[1..J], x) == (if x == O[0] then |head| else Count(O[1..J], x))
    ensures Count(O[1..J], x) <= 1
  {
    var tail := O[1..J];
    assert Distinct(tail) by {
      forall a, b | 0 <= a < b < |tail| ensures tail[a] != tail[b] {
        assert tail[a] == O[a + 1] && tail[b] == O[b + 1];
      }
    }
    assert O[0] !in tail by {
      forall i | 0 <= i < |tail| ensures tail[i] != O[0] {
        assert tail[i] == O[i + 1];
      }
    }
    DistinctCount(tail, x);
    assert multiset(head + tail) == multiset(head) + multiset(tail);
    if x == O[0] {
      HeadCount(head, x);
    } else {
      assert x !in head;
    }
  }

  /** When the source is registered, the call sends first through the
      preferred provider, twice exactly when its first error is not fatal,
      and through every other provider at most once, so at most one more send
      than there are providers. */
  lemma SendCounts(ps: seq<Provider>, source: Option<string>, mail: Mail, hooks: Hooks, transport: Transport, fatal: Classifier, delay: int)
    requires FindBySource(ps, source).Some?
    ensures var s := FindBySource(ps, source).value.source;
            var sends := Sends(SendSpec(ps, source, mail, hooks, transport, fatal, delay).io);
            && |sends| > 0 && sends[0] == s
            && Count(sends, s) == (if Retries(transport, fatal, s) then 2 else 1)
            && (forall x :: x != s ==> Count(sends, x) <= 1)
            && |sends| <= |ps| + 1
  {
    var s := FindBySource(ps, source).value.source;
    var O := FailoverOrder(ps, s);
    var J := Reached(O, Stop(O, 0, transport, fatal));
    var head := AttemptSends(transport, fatal, s, true);
    FailoverOrderFacts(ps, s);
    SendOrder(ps, source, mail, hooks, transport, fatal, delay);
    assert s in Sources(ps);
    forall x
      ensures Count(head + O[1..J], x) == (if x == s then |head| else Count(O[1..J], x))
      ensures Count(O[1..J], x) <= 1
    {
      OrderCounts(O, head, J, x);
    }
  }

  /** After the first `i + 1` sources of `O` have been tried, the provider
      chosen next is the first one in registry order whose source is untried,
      and it is the next source of `O`. */
  ghost predicate WalkStep(ps: seq<Provider>, O: seq<string>, i: nat)
    requires i + 1 < |O|
  {
    NextProvider(ps, O[..i + 1]).Some? && NextProvider(ps, O[..i + 1]).value.source == O[i + 1]
  }

  /** The call moves between providers exactly as the registry walk does: the
      i-th `onProviderSwitch` goes from the i-th source of the failover order
      to the next one, which is the first provider, in registry order, whose
      source has not been tried yet. */
  lemma SwitchTargets(ps: seq<Provider>, source: Option<string>, mail: Mail, hooks: Hooks, transport: Transport, fatal: Classifier, delay: int)
    requires FindBySource(ps, source).Some? && OnProviderSwitch in hooks
    ensures var O := FailoverOrder(ps, FindBySource(ps, source).value.source);
            var switches := Calls(SendSpec(ps, source, mail, hooks, transport, fatal, delay).events, OnProviderSwitch);
            && |switches| + 1 == Reached(O, Stop(O, 0, transport, fatal))
            && (forall i :: 0 <= i < |switches| ==> switches[i] == ProviderSwitch(mail.to, O[i], O[i + 1]))
            && (forall i :: 0 <= i < |switches| ==> WalkStep(ps, O, i))
  {
    var s := FindBySource(ps, source).value.source;
    var O := FailoverOrder(ps, s);
    SendCalls(ps, source, mail, hooks, transport, fatal, delay, OnProviderSwitch);
    AttemptsHookFacts(O, mail, hooks, transport, fatal, delay, OnProviderSwitch);
    var A := Attempts(O, mail, hooks, transport, fatal, delay);
    RunSwitches(O, A, 0, mail.to, hooks, transport, fatal, delay);
    SwitchesOfIsFrom(O, A, 0, mail.to, hooks, transport, fatal);
    var n := Reached(O, Stop(O, 0, transport, fatal)) - 1;
    var switches := Calls(SendSpec(ps, source, mail, hooks, transport, fatal, delay).events, OnProviderSwitch);
    var later := Calls(FailoverRun(O, A, 0, mail.to, hooks, delay).events, OnProviderSwitch);
    assert switches == [] + later;
    assert switches == SwitchesOf(O, A, 0, mail.to);
    SwitchesAt(O, n, mail.to, switches);
    WalkSteps(ps, s, n);
  }

  /** Every move along the failover order before the n-th source is a step of
      the registry walk. */
  lemma WalkSteps(ps: seq<Provider>, s: string, n: nat)
    requires n < |FailoverOrder(ps, s)|
    ensures forall i :: 0 <= i < n ==> WalkStep(ps, FailoverOrder(ps, s), i)
  {
    forall i | 0 <= i < n
      ensures WalkStep(ps, FailoverOrder(ps, s), i)
    {
      NextFollowsOrder(ps, s, i);
    }
  }

  /** The call ends with the first provider, in failover order, whose attempt
      succeeds: it resolves with that reply and source, fires `onFinalSuccess`
      once and `onFinalFailure` never. When every attempt fails, the call fails
      with "All providers failed to send the email" and fires `onFinalFailure`
      once, with every source in the order tried. */
  lemma SendOutcome(ps: seq<Provider>, source: Option<string>, mail: Mail, hooks: Hooks, transport: Transport, fatal: Classifier, delay: int)
    requires FindBySource(ps, source).Some?
    ensures var O := FailoverOrder(ps, FindBySource(ps, source).value.source);
            var j := Stop(O, 0, transport, fatal);
            var run := SendSpec(ps, source, mail, hooks, transport, fatal, delay);
            && (forall i :: 0 <= i < j ==> LastReply(transport, fatal, O[i], i == 0).Err?)
            && (j < |O| ==>
                  && run.outcome == Ok(Delivery(LastReply(transport, fatal, O[j], j == 0).value, O[j]))
                  && Calls(run.events, OnFinalSuccess)
                     == (if OnFinalSuccess in hooks
                         then [FinalSuccess(mail.to, O[j], run.outcome.value.result.envelopeTime,
                                            run.outcome.value.result.messageTime)]
                         else [])
                  && Calls(run.events, OnFinalFailure) == [])
            && (j == |O| ==>
                  && run.outcome == Err(AllProvidersFailed)
                  && Calls(run.events, OnFinalSuccess) == []
                  && Calls(run.events, OnFinalFailure) == (if OnFinalFailure in hooks then [FinalFailure(mail.to, O)] else []))
  {
    var s := FindBySource(ps, source).value.source;
    var O := FailoverOrder(ps, s);
    var A := Attempts(O, mail, hooks, transport, fatal, delay);
    SendCalls(ps, source, mail, hooks, transport, fatal, delay, OnFinalSuccess);
    SendCalls(ps, source, mail, hooks, transport, fatal, delay, OnFinalFailure);
    AttemptsIoFacts(O, mail, hooks, transport, fatal, delay);
    AttemptsHookFacts(O, mail, hooks, transport, fatal, delay, OnFinalSuccess);
    AttemptsHookFacts(O, mail, hooks, transport, fatal, delay, OnFinalFailure);
    RunOutcome(O, A, 0, mail, hooks, transport, fatal, delay);
    RunFinalSuccess(O, A, 0, mail.to, hooks, transport, fatal, delay);
    RunFinalFailure(O, A, 0, mail.to, hooks, transport, fatal, delay);
    StopIsFirst(O, 0, transport, fatal);
  }

  /** `onError` fires once per failed attempt, in failover order, with the
      source and the error of that attempt's last send. */
  lemma SendErrors(ps: seq<Provider>, source: Option<string>, mail: Mail, hooks: Hooks, transport: Transport, fatal: Classifier, delay: int)
    requires FindBySource(ps, source).Some? && OnError in hooks
    ensures var O := FailoverOrder(ps, FindBySource(ps, source).value.source);
            var j := Stop(O, 0, transport, fatal);
            var errors := Calls(SendSpec(ps, source, mail, hooks, transport, fatal, delay).events, OnError);
            && |errors| == j
            && (forall i :: 0 <= i < j ==> errors[i] == Failure(mail.to, Some(O[i]), ErrorOf(LastReply(transport, fatal, O[i], i == 0))))
  {
    var s := FindBySource(ps, source).value.source;
    var O := FailoverOrder(ps, s);
    SendCalls(ps, source, mail, hooks, transport, fatal, delay, OnError);
    AttemptsHookFacts(O, mail, hooks, transport, fatal, delay, OnError);
    RunErrors(O, Attempts(O, mail, hooks, transport, fatal, delay), 0, mail.to, hooks, transport, fatal, delay);
    var j := Stop(O, 0, transport, fatal);
    var errors := Calls(SendSpec(ps, source, mail, hooks, transport, fatal, delay).events, OnError);
    assert errors == ErrorsFrom(O, 0, j, mail.to, transport, fatal);
    ErrorsAt(O, j, mail.to, transport, fatal, errors);
  }

  /** The set of tried sources grows by the order's next source, which is new,
      and once the order is exhausted it holds the whole order. */
  lemma TriedStep(ps: seq<Provider>, s: string, k: nat)
    requires k < |FailoverOrder(ps, s)|
    ensures FailoverOrder(ps, s)[k] !in FailoverOrder(ps, s)[..k]
    ensures FailoverOrder(ps, s)[..k] + [FailoverOrder(ps, s)[k]] == FailoverOrder(ps, s)[..k + 1]
    ensures k + 1 == |FailoverOrder(ps, s)| ==> FailoverOrder(ps, s)[..k + 1] == FailoverOrder(ps, s)
  {
    OrderDistinct(ps, s);
    PrefixStep(FailoverOrder(ps, s), k);
  }

  lemma PrefixStep(o: seq<string>, k: nat)
    requires Distinct(o) && k < |o|
    ensures o[k] !in o[..k]
    ensures o[..k] + [o[k]] == o[..k + 1]
    ensures k + 1 == |o| ==> o[..k + 1] == o
  {
    assert forall j :: 0 <= j < k ==> o[..k][j] == o[j];
    assert o[..k] + [o[k]] == o[..k + 1];
  }

  /** For a registered source the call fires `onSendStart` and then runs the
      failover order from its first source. */
  lemma SendSpecStart(ps: seq<Provider>, source: Option<string>, mail: Mail, hooks: Hooks,
                      transport: Transport, fatal: Classifier, delay: int)
    requires |ps| > 0 && FindBySource(ps, source).Some?
    ensures var s := FindBySource(ps, source).value.source;
            var O := FailoverOrder(ps, s);
            SendSpec(ps, source, mail, hooks, transport, fatal, delay)
            == Resume(FailoverRun(O, Attempts(O, mail, hooks, transport, fatal, delay), 0, mail.to, hooks, delay),
                      FireHook(hooks, OnSendStart, SendStart(mail.to, Some(s))), [])
  {
    var s := FindBySource(ps, source).value.source;
    var O := FailoverOrder(ps, s);
    var rest := FailoverRun(O, Attempts(O, mail, hooks, transport, fatal, delay), 0, mail.to, hooks, delay);
    assert [] + rest.io == rest.io;
  }

  /** The run `r` resumed after the hook calls `events` and the I/O `io`. */
  function Resume(r: Run<Delivery>, events: seq<Event>, io: seq<Io>): Run<Delivery>
  {
    Run(r.outcome, events + r.events, io + r.io)
  }

  /** A successful attempt ends the run with its reply. */
  lemma RunDone(O: seq<string>, A: seq<Run<Receipt>>, k: nat, to: Option<string>, hooks: Hooks, delay: int,
                events: seq<Event>, io: seq<Io>)
    requires |A| == |O| && k < |O| && A[k].outcome.Ok?
    ensures Resume(FailoverRun(O, A, k, to, hooks, delay), events, io)
            == Run(Ok(Delivery(A[k].outcome.value, O[k])), events + A[k].events, io + A[k].io)
  {
  }

  /** A failed last attempt ends the run with `onError`, then `onFinalFailure`. */
  lemma RunLast(O: seq<string>, A: seq<Run<Receipt>>, k: nat, to: Option<string>, hooks: Hooks, delay: int,
                events: seq<Event>, io: seq<Io>)
    requires |A| == |O| && k + 1 == |O| && A[k].outcome.Err?
    ensures Resume(FailoverRun(O, A, k, to, hooks, delay), events, io)
            == Run(Err(AllProvidersFailed),
                   events + A[k].events + FireHook(hooks, OnError, Failure(to, Some(O[k]), A[k].outcome.error))
                   + FireHook(hooks, OnFinalFailure, FinalFailure(to, O)),
                   io + A[k].io)
  {
    RunFailedStep(O, A, k, to, hooks, delay);
  }

  /** A failed attempt with a source after it hands over to that source after
      `onError`, `onProviderSwitch` and a wait. */
  lemma RunNext(O: seq<string>, A: seq<Run<Receipt>>, k: nat, to: Option<string>, hooks: Hooks, delay: int,
                events: seq<Event>, io: seq<Io>)
    requires |A| == |O| && k + 1 < |O| && A[k].outcome.Err?
    ensures Resume(FailoverRun(O, A, k, to, hooks, delay), events, io)
            == Resume(FailoverRun(O, A, k + 1, to, hooks, delay),
                      events + A[k].events + FireHook(hooks, OnError, Failure(to, Some(O[k]), A[k].outcome.error))
                      + FireHook(hooks, OnProviderSwitch, ProviderSwitch(to, O[k], O[k + 1])),
                      io + A[k].io + [Sleep(delay)])
  {
    RunFailedStep(O, A, k, to, hooks, delay);
  }

  // ---------------------------------------------------------------------------
  // The controller
  // ---------------------------------------------------------------------------

  class RetryHandler {
    const manager: Registry.ProviderManager
    const retryDelay: int

    /** `new RetryHandler(providerManager, options)`: a retry delay of 0 or
        none means 3000 ms. */
    constructor(manager: Registry.ProviderManager, retryDelayOption: Option<int>)
      ensures this.manager == manager
      ensures retryDelay == OrDefault(retryDelayOption, DefaultRetryDelay)
    {
      this.manager := manager;
      retryDelay := OrDefault(retryDelayOption, DefaultRetryDelay);
    }

    /** `_attemptSend(provider, mailOptions, hooks, isFirstProvider)`. */
    method AttemptSend(provider: Provider, mail: Mail, hooks: Hooks, transport: Transport, isFirst: bool)
      returns (a: Run<Receipt>)
      ensures a == Attempt(provider.source, mail, hooks, transport, IsProviderError, retryDelay, isFirst)
    {
      var io := [Send(provider.source, mail)];
      var result := transport(provider.source, 0);
      if result.Ok? {
        return Run(Ok(result.value), FireFinalSuccess(hooks, mail.to, provider.source, result.value), io);
      }
      if isFirst && !IsProviderError(result.error) {
        var events := FireHook(hooks, OnRetry, Retry(mail.to, provider.source, 2));
        io := io + [Sleep(retryDelay)] + [Send(provider.source, mail)];
        var retryResult := transport(provider.source, 1);
        if retryResult.Err? {
          return Run(Err(retryResult.error), events, io);
        }
        events := events + FireFinalSuccess(hooks, mail.to, provider.source, retryResult.value);
        return Run(Ok(retryResult.value), events, io);
      }
      a := Run(Err(result.error), [], io);
    }

    /** `_attemptSend` on the k-th source of the order `O`, as the provider
        loop calls it: its attempt is the k-th of `Attempts(O, ...)`. */
    method AttemptAt(provider: Provider, mail: Mail, hooks: Hooks, transport: Transport, isFirst: bool,
                     ghost O: seq<string>, ghost k: nat)
      returns (a: Run<Receipt>)
      requires k < |O| && O[k] == provider.source && isFirst == (k == 0)
      ensures a == Attempts(O, mail, hooks, transport, IsProviderError, retryDelay)[k]
    {
      a := AttemptSend(provider, mail, hooks, transport, isFirst);
    }

    /** `sendWithRetry(source, mailOptions, hooks)`. */
    method SendWithRetry(source: Option<string>, mail: Mail, hooks: Hooks, transport: Transport)
      returns (run: Run<Delivery>)
      ensures run == SendSpec(manager.providers, source, mail, hooks, transport, IsProviderError, retryDelay)
    {
      var providers := manager.GetProviders();
      if |providers| == 0 {
        return Run(Err(NoProvidersAvailable), [], []);
      }
      var found := manager.GetProvider(source);
      if found.None? {
        return Run(Err(NotFoundMessage(source)), [], []);
      }
      var current := found.value;
      SendSpecStart(providers, source, mail, hooks, transport, IsProviderError, retryDelay);
      var events := FireHook(hooks, OnSendStart, SendStart(mail.to, Some(current.source)));
      run := TryProviders(providers, current, mail, hooks, transport, events);
    }

    /** The provider loop of `sendWithRetry`, after the hook calls `events`:
        tries `first`, then on each failure the next untried provider of the
        registry. The tried sources are kept in insertion order, as a `Set`
        iterates them. */
    method TryProviders(providers: seq<Provider>, first: Provider, mail: Mail, hooks: Hooks, transport: Transport,
                        events: seq<Event>)
      returns (run: Run<Delivery>)
      ensures var O := FailoverOrder(providers, first.source);
              run == Resume(FailoverRun(O, Attempts(O, mail, hooks, transport, IsProviderError, retryDelay), 0, mail.to, hooks, retryDelay),
                            events, [])
    {
      ghost var O := FailoverOrder(providers, first.source);
      ghost var A := Attempts(O, mail, hooks, transport, IsProviderError, retryDelay);
      ghost var spec := Resume(FailoverRun(O, A, 0, mail.to, hooks, retryDelay), events, []);
      var current := first;
      var tried: seq<string> := [];
      var isFirst := true;
      var events := events;
      var io: seq<Io> := [];
      ghost var k := 0;
      while true
        invariant k < |O| && current.source == O[k] && tried == O[..k] && isFirst == (k == 0)
        invariant spec == Resume(FailoverRun(O, A, k, mail.to, hooks, retryDelay), events, io)
        decreases |O| - k
      {
        TriedStep(providers, O[0], k);
        if current.source !in tried {
          tried := tried + [current.source];
        }
        ghost var events0, io0 := events, io;
        var a := AttemptAt(current, mail, hooks, transport, isFirst, O, k);
        if a.outcome.Ok? {
          RunDone(O, A, k, mail.to, hooks, retryDelay, events, io);
          return Run(Ok(Delivery(a.outcome.value, current.source)), events + a.events, io + a.io);
        }
        var failure := Failure(mail.to, Some(current.source), a.outcome.error);
        events := events + a.events + FireHook(hooks, OnError, failure);
        io := io + a.io;
        var next := NextProvider(providers, tried);
        NextFollowsOrder(providers, O[0], k);
        if next.None? {
          RunLast(O, A, k, mail.to, hooks, retryDelay, events0, io0);
          events := events + FireHook(hooks, OnFinalFailure, FinalFailure(mail.to, tried));
          return Run(Err(AllProvidersFailed), events, io);
        }
        events := events + FireHook(hooks, OnProviderSwitch, ProviderSwitch(mail.to, current.source, next.value.source));
        io := io + [Sleep(retryDelay)];
        RunNext(O, A, k, mail.to, hooks, retryDelay, events0, io0);
        current := next.value;
        isFirst := false;
        k := k + 1;
      }
    }
  }
}
