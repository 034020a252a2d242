# Email-package provider failover, modelled in Dafny

The email package sends transactional mail through one of several configured
SMTP credentials, called providers, and moves to another provider when one
fails. This project models the part of the package that decides what happens
in one send request:

- the provider registry, which loads credentials from a store and caches them;
- the retry/failover controller, which picks the preferred provider, retries it
  once, and then walks the registry;
- the fatal-error classifier and the next-provider selector;
- the input validator;
- the `sendEmail` facade that ties these together.

The repository has two versions of the registry, the controller and the facade
side by side: the current ones, and the earlier ones at the root of
`src/emailService`. Both versions are modelled, so the model shows how they
differ.

The model is built from these pieces:

- **Providers and their replies.** A provider's `send` is a `Transport`. It
  gives the reply (a receipt, or an error message) of the n-th send to a
  source within one call: 0 is the first send and 1 is the retry.
- **Hooks.** Hooks are a map from hook name to handler. Each hook call is
  recorded as an `Event` carrying the payload the code builds.
- **Effects.** Provider sends, sleeps, store queries and template renderings
  are recorded, in order, as an `Io` log.
- **Operations.** Each operation has a specification function that computes
  its whole result, events and log: `Failover.SendSpec`,
  `LegacyFailover.LegacySpec`, `Dispatch.SendEmailSpec` and
  `LegacyDispatch.LegacySendSpec`.
- **State-changing code.** Code that changes state in the source is a class
  whose methods are proved to produce exactly what the specification function
  gives: `RetryHandler.SendWithRetry` (a `while` loop over the tried sources),
  `ProviderManager.Init` and the facades' `SendEmail`.
- **Failover order.** The controllers are specified against an independent
  reference order. `FailoverOrder(ps, s)` is the preferred source, then every
  other source of the registry in registry order, each once. Lemmas show that
  the code's "first provider not yet tried" walk produces exactly this order.
- **Properties.** The remaining lemmas state the package's promises about the
  specification functions: error messages, hook calls and their payloads,
  send counts, and what reaches each provider.

Modules (one file each):

| module | file | source |
|---|---|---|
| `Common` | common.dfy | shared values: mail options, credentials, providers, hooks, events, I/O |
| `Helper` | helper.dfy | `utils/helper.js` and the helper methods of both controllers |
| `Validator` | validator.dfy | `utils/validator.js` |
| `Registry` | registry.dfy | `providerManager/providerManager.js` |
| `LegacyRegistry` | legacy_registry.dfy | `providerManager.js` |
| `Failover` | failover.dfy | `retryHandler/retry.js` |
| `LegacyFailover` | legacy_failover.dfy | `retry.js` |
| `Dispatch` | dispatch.dfy | `sendEmail/sendEmail.js` |
| `LegacyDispatch` | legacy_dispatch.dfy | `sendEmail.js` |

Where the code and the package's specification disagree, the model follows
the code:

- **Failed loads.** The specification says a failed credential load clears
  the in-flight handle, so a later call after the cache expires queries the
  store again. In `providerManager/providerManager.js:35-37` the reset at
  line 37 is skipped when the load throws. `initPromise` therefore stays a
  rejected promise, and every later `init` that misses the cache rethrows the
  old error without querying the store. `Registry.LoadState.Failed` models
  this, and `Registry.ProviderManager.Init` and `RefreshProviders` state it.
- **Load time.** The cache timestamp is the time the load finishes
  (`Date.now()` inside `_loadProvidersFromDB`), not the time `init` started.
  `loadTime` and `now` are separate parameters.

## Model

| member | source | states |
|---|---|---|
| Common.FindBySource | Email-package/src/emailService/providerManager/providerManager.js:69-71 | `getProvider`: `None` exactly when no provider has the source; otherwise the first provider in registry order whose source matches |
| Common.MapProviders | Email-package/src/emailService/providerManager/providerManager.js:48 | one provider per credential, in store order |
| Helper.ProviderErrorMeaning | Email-package/src/emailService/utils/helper.js:18-21 | an error is fatal if and only if its lower-cased message contains one of "quota", "limit", "auth", "invalid", "blocked" |
| Helper.AnyContainsMeaning | Email-package/src/emailService/utils/helper.js:20 | `some(kw => text.includes(kw))` holds if and only if some keyword occurs in the text |
| Helper.ClassificationIgnoresCase | Email-package/src/emailService/utils/helper.js:20 | a message, its upper-cased form and its lower-cased form classify alike |
| Helper.LowerUpper | Email-package/src/emailService/utils/helper.js:20 | lower-casing after upper-casing is lower-casing |
| Helper.LowerLower | Email-package/src/emailService/utils/helper.js:20 | lower-casing is idempotent |
| Helper.CallsOfFireHook | Email-package/src/emailService/utils/helper.js:14-16 | `_fireHook` calls the named hook once with the payload unchanged when it is present, and calls nothing otherwise; the handler called is the one the hooks map holds under that name |
| Helper.CallsOfFireFinalSuccess | Email-package/src/emailService/utils/helper.js:3-12 | `_fireFinalSuccess` calls `onFinalSuccess` once with `{to, provider, envelopeTime, messageTime}` copied from the result when present, and nothing otherwise |
| Helper.NextProviderMeaning | Email-package/src/emailService/utils/helper.js:23-25 | `_getNextProvider` is null if and only if every source is tried; a provider it returns is untried and every provider before it is tried |
| Helper.UntriedFacts | Email-package/src/emailService/retryHandler/retry.js:61-66 | the sources left after the preferred one are distinct, untried, in the registry, and cover every provider not yet tried |
| Helper.FailoverOrderFacts | Email-package/src/emailService/retryHandler/retry.js:34-85 | the failover order starts at the preferred source, has no repeats, covers every provider, takes every later source from the registry, and is no longer than the registry when the preferred source is registered |
| Helper.NextFollowsWalk | Email-package/src/emailService/utils/helper.js:23-25 | after the first k sources of the order are tried, `_getNextProvider` returns the (k+1)-th, or null when there is none |
| Helper.NextFollowsOrder | Email-package/src/emailService/retryHandler/retry.js:61-66 | after trying the order's first k+1 sources, the next provider is the order's next source, or null at its end |
| Validator.ValidateEmailInput | Email-package/src/emailService/utils/validator.js:2-6 | passes if and only if `to`, `template` and `source` are all truthy; otherwise fails with the message of the first falsy one, in that order |
| Validator.EmptyCountsAsMissing | Email-package/src/emailService/utils/validator.js:3-5 | an empty string is treated exactly like an omitted field |
| Registry.ProviderManager.constructor | Email-package/src/emailService/providerManager/providerManager.js:6-17 | empty registry, `lastLoaded` 0, no load in flight, TTL of the option or 5 minutes when it is absent or 0 |
| Registry.ProviderManager.BeginInit | Email-package/src/emailService/providerManager/providerManager.js:20-35 | the first half of `init`: a cache hit when providers are non-empty and younger than the TTL; joins a load in flight; rethrows a failed one; otherwise starts a load |
| Registry.ProviderManager.LoadProvidersFromDB | Email-package/src/emailService/providerManager/providerManager.js:41-61 | a successful store reply replaces the providers wholesale and sets `lastLoaded`; a failure rethrows and changes nothing |
| Registry.ProviderManager.FinishLoad | Email-package/src/emailService/providerManager/providerManager.js:35-37 | the load completes: success clears the in-flight handle; failure leaves it as the failed load |
| Registry.ProviderManager.Init | Email-package/src/emailService/providerManager/providerManager.js:20-38 | the store is queried if and only if the cache misses and no load exists; for each case the result and the new `providers`, `lastLoaded` and `initPromise` |
| Registry.ProviderManager.RefreshProviders | Email-package/src/emailService/providerManager/providerManager.js:76-81 | empties the cache and reloads: exactly one store query when idle; a failed earlier load rethrows with the cache left empty |
| Registry.ConcurrentInits | Email-package/src/emailService/providerManager/providerManager.js:29-37 | many `init` calls while the cache misses (no providers, or providers older than the TTL): the first starts the only store load, every later one joins it, and the load's outcome is the call's result; success replaces the providers, and failure keeps the old ones and leaves the load failed |
| LegacyRegistry.ProviderManager.constructor | Email-package/src/emailService/providerManager.js:8-10 | an empty registry |
| LegacyRegistry.ProviderManager.Init | Email-package/src/emailService/providerManager.js:13-20 | appends one provider per credential, in order, after those already registered (repeated calls duplicate); a store failure registers nothing |
| LegacyRegistry.ProviderManager.Register | Email-package/src/emailService/providerManager.js:22-24 | appends the provider and changes nothing else |
| LegacyRegistry.ProviderManager.Send | Email-package/src/emailService/providerManager.js:34-41 | "No providers registered" on an empty registry; "Provider not found for source: …" for an unknown source; otherwise exactly one send of the unchanged mail to the first matching provider, whose reply it returns |
| LegacyRegistry.MapProvidersAppend | Email-package/src/emailService/providerManager.js:16-19 | registering credentials one by one gives the providers of the whole list |
| Failover.AttemptSendsFacts | Email-package/src/emailService/retryHandler/retry.js:99-135 | an attempt ends with the reply of its last send, and sends the unchanged mail once, or twice when it is the preferred provider and its first error is not fatal |
| Failover.AttemptCalls | Email-package/src/emailService/retryHandler/retry.js:104-131 | an attempt calls `onRetry` (attempt 2) only for a retried preferred provider, and `onFinalSuccess` only on success, with the reply's timings, and no other hook |
| Failover.GuardFacts | Email-package/src/emailService/retryHandler/retry.js:13-19 | an empty registry fails with "No providers available", and an unknown source fails with "Provider not found for source: …", both with no hook call and no send |
| Failover.StopIsFirst | Email-package/src/emailService/retryHandler/retry.js:34-66 | the loop stops at the first source, in failover order, whose attempt succeeds: every source before it failed |
| Failover.SendOutcome | Email-package/src/emailService/retryHandler/retry.js:34-93 | the call resolves with `{result, provider}` of the first source in failover order whose attempt succeeds, every earlier source having failed, and `onFinalSuccess` fires exactly once; when all fail it throws "All providers failed to send the email" after one `onFinalFailure` with every source tried, in order |
| Failover.SendOrder | Email-package/src/emailService/retryHandler/retry.js:34-85 | the sends go to the preferred provider (twice after a non-fatal error) and then to each later source of the failover order, up to where the call stops, all with the same mail |
| Failover.SendCounts | Email-package/src/emailService/retryHandler/retry.js:34-133 | the preferred provider is sent to first, twice exactly when its first error is not fatal; every other source at most once; at most one send more than there are providers |
| Failover.SendStartAndRetry | Email-package/src/emailService/retryHandler/retry.js:28-115 | `onSendStart` fires once per call, with the preferred source; `onRetry` fires at most once, for the preferred provider, with attempt 2 |
| Failover.SendErrors | Email-package/src/emailService/retryHandler/retry.js:48-54 | `onError` fires once per failed provider, in order, with the error of its last send, retried or not |
| Failover.SwitchTargets | Email-package/src/emailService/retryHandler/retry.js:61-77 | one `onProviderSwitch` per move, from each failed source to the next; each target is the first registry provider not yet tried |
| Failover.SendOtherHooks | Email-package/src/emailService/retryHandler/retry.js:11-94 | no hook other than these six is called |
| Failover.SendCalls | Email-package/src/emailService/retryHandler/retry.js:28-85 | after the guards, the call is `onSendStart` followed by the run along the failover order |
| Failover.RetryHandler.constructor | Email-package/src/emailService/retryHandler/retry.js:5-8 | keeps the registry; the retry delay is the option, or 3000 when it is absent or 0 |
| Failover.RetryHandler.AttemptSend | Email-package/src/emailService/retryHandler/retry.js:99-135 | the method's result, hook calls and I/O are those of the attempt specification |
| Failover.RetryHandler.SendWithRetry | Email-package/src/emailService/retryHandler/retry.js:11-94 | the method's outcome, hook calls and I/O are exactly `SendSpec` over the registry's providers |
| Failover.RetryHandler.TryProviders | Email-package/src/emailService/retryHandler/retry.js:34-93 | the provider loop (tried set, next-provider choice, switch, sleep, final failure) produces the run along the failover order |
| LegacyFailover.RemainingMeaning | Email-package/src/emailService/retry.js:119-122 | `remaining` holds exactly the registry's providers whose source is untried |
| LegacyFailover.FilterIsFind | Email-package/src/emailService/retry.js:119-122 | the first of the filtered providers is the current helper's `find`, so both versions pick the same next provider |
| LegacyFailover.AttemptAgrees | Email-package/src/emailService/retry.js:36-80 | one earlier attempt (send, then for the preferred provider a retry after a non-fatal error) ends and sends exactly as a current one |
| LegacyFailover.AttemptCalls | Email-package/src/emailService/retry.js:36-80 | `onSendSuccess` only when the first send of an attempt succeeds, `onFinalSuccess` on any success, including the retry's, and no other hook |
| LegacyFailover.SpecAgrees | Email-package/src/emailService/retry.js:12-109 | the earlier controller resolves with the raw provider result where the current one resolves with `{result, provider}`, fails with the same message, and sends the same mail through the same providers in the same order |
| LegacyFailover.GuardFacts | Email-package/src/emailService/retry.js:13-22 | an empty registry fails with "No providers available", an unknown source with "Provider not found for source: …", both before any hook or send |
| LegacyFailover.SendOutcomeAndOrder | Email-package/src/emailService/retry.js:28-108 | the raw result of the first succeeding source, or "All providers failed to send the email"; sends in failover order with the same mail |
| LegacyFailover.SendHooks | Email-package/src/emailService/retry.js:26-106 | `onSendStart` once for every source tried, in order; `onSendSuccess` only on a first-send success; `onFinalSuccess` once on success; `onFinalFailure` once with every source tried; `onProviderSwitch` once per move; never `onError` or `onRetry` |
| LegacyFailover.StartsFrom | Email-package/src/emailService/retry.js:26-99 | `attemptCount` is 1 at every check, so `onSendStart` fires once for every source tried, in failover order, not once per call |
| LegacyFailover.RetryHandler.constructor | Email-package/src/emailService/retry.js:7-10 | keeps the registry; the retry delay is the option, or 3000 when it is absent or 0 |
| LegacyFailover.RetryHandler.TryProvider | Email-package/src/emailService/retry.js:36-80 | one pass of the loop body's try/catch gives the attempt specification |
| LegacyFailover.RetryHandler.SendWithRetry | Email-package/src/emailService/retry.js:12-109 | the method's outcome, hook calls and I/O are exactly `LegacySpec` over the registry's providers |
| Dispatch.MergeHooks | Email-package/src/emailService/sendEmail/sendEmail.js:46 | the merged hooks hold every name of either map; the caller's hook wins, and defaults fill the other names |
| Dispatch.BuildMailOptions | Email-package/src/emailService/sendEmail/sendEmail.js:32-61 | subject, html and text come from the renderer; `to` is passed through; omitted `cc`, `bcc` and `attachments` become `[]` |
| Dispatch.InvalidInputStops | Email-package/src/emailService/sendEmail/sendEmail.js:40-93 | invalid input resolves `{success: false}` with the validator's message, with no load, render or send and no hook but `onError` |
| Dispatch.Outcomes | Email-package/src/emailService/sendEmail/sendEmail.js:38-93 | success if and only if validation, loading, rendering and the controller all succeed, with the controller's result and the provider dropped; otherwise the message of the first step that failed, never rethrown |
| Dispatch.RenderedMail | Email-package/src/emailService/sendEmail/sendEmail.js:49-66 | the renderer is called with `(template, templateData or {})` after any store query, and every provider send carries the built mail options |
| Dispatch.DeliveryOutcome | Email-package/src/emailService/sendEmail/sendEmail.js:65-80 | after a valid, loaded and rendered request, no provider or an unknown source fails with the controller's message; otherwise the mail goes out through the first source of the failover order whose attempt succeeds, with that reply as `result` and that source named to `onSuccess`, or fails with "All providers failed to send the email" |
| Dispatch.RunMail | Email-package/src/emailService/sendEmail/sendEmail.js:65-66 | every send of the controller carries the mail it was given |
| Dispatch.SuccessHooks | Email-package/src/emailService/sendEmail/sendEmail.js:50-78 | on success `onProvidersLoaded` fires first and `onSuccess` last, with `{to, result, provider}`, around the controller's own hook calls |
| Dispatch.FailureHooks | Email-package/src/emailService/sendEmail/sendEmail.js:81-93 | whichever step fails (validation, loading, rendering or the controller), the call answers `success: false` with `onError({to, error, provider: source})` as the last hook called, and `onSuccess` is never called |
| Dispatch.Dispatcher.constructor | Email-package/src/emailService/sendEmail/sendEmail.js:10-11 | no instances at module load |
| Dispatch.Dispatcher.InitializeInstances | Email-package/src/emailService/sendEmail/sendEmail.js:15-20 | creates a fresh registry and a controller over it with delay 3000 only when there is none; otherwise keeps both |
| Dispatch.Dispatcher.ResetInstances | Email-package/src/emailService/sendEmail/sendEmail.js:22-25 | forgets both instances |
| Dispatch.Dispatcher.SendEmail | Email-package/src/emailService/sendEmail/sendEmail.js:28-94 | result, hook calls and I/O are exactly `SendEmailSpec` against the registry state before the call; invalid input changes no state; otherwise the instances are kept or created and the registry is left as `init` leaves it |
| LegacyDispatch.LegacyMail | Email-package/src/emailService/sendEmail.js:39-47 | `to`, `cc`, `bcc` and `attachments` pass through verbatim; subject, html and text come from the renderer |
| LegacyDispatch.LoadsOnlyWhenEmpty | Email-package/src/emailService/sendEmail.js:29-32 | the store is queried if and only if the registry is empty, with no TTL; a non-empty registry is kept as it is |
| LegacyDispatch.Outcomes | Email-package/src/emailService/sendEmail.js:29-55 | a failed load or render rejects with its error before any hook or send; otherwise the call settles as the earlier controller does, which is the current controller's outcome without the provider |
| LegacyDispatch.SendStartTwice | Email-package/src/emailService/sendEmail.js:50-55 | `onSendStart({to, source})` fires before delegation, so the requested provider is announced twice, followed by one call for each later source tried |
| LegacyDispatch.Mailer.constructor | Email-package/src/emailService/sendEmail.js:7-9 | one empty registry and a controller over it with delay 3000, created once at module load |
| LegacyDispatch.Mailer.SendEmail | Email-package/src/emailService/sendEmail.js:12-57 | the outcome, hook calls, I/O and the registry afterwards are exactly `LegacySendSpec` |

## Left out

- Logging (winston loggers) is left out: it has no effect on results.
- `sleep` is not executed. Each wait is recorded as `Sleep(retryDelay)` in the I/O log, so where and how often the code waits is still stated.
- Real asynchrony is not modelled. Concurrent `init` callers are the explicit steps `BeginInit` and `FinishLoad`; `Registry.ConcurrentInits` sequences many of them around one load.
- The credential store, the clock, the template renderer and nodemailer's `send` (smtpProvider.js) are parameters: a store reply, `now` and `loadTime`, a `Renderer`, and a `Transport`.
- Helper.Lower: lower-casing covers ASCII letters only, not the full Unicode `toLowerCase`.
- Hooks are assumed not to throw; a hook call is only recorded. The code does catch around some hooks, and the model loses what follows from a throw there:
  - In `retryHandler/retry.js:100-105`, `_fireFinalSuccess` runs inside the same `try` as the send. If `onFinalSuccess` throws a message without a fatal keyword after the preferred provider's first send succeeds, the catch at lines 106-121 fires `onRetry`, sleeps and sends the same mail again. Otherwise the throw moves the call on to the next provider.
  - In `retry.js:36-47`, `onSendSuccess` and `onFinalSuccess` sit inside the attempt's `try` in the same way.
  - In `sendEmail/sendEmail.js:38-81`, `onProvidersLoaded` (line 50) and `onSuccess` (line 74) run inside the facade's `try`. A throw from either becomes `{success: false}` plus an `onError` call (lines 81-93).
- Hook calls (`Run.events`) and effects (`Run.io`: sends, sleeps, store queries, renders) are two separate logs. Each is ordered, but no contract states the order between a hook call and an effect. That order is fixed in the code in several places:
  - `onSendStart` comes before the first send (`retryHandler/retry.js:28-37`).
  - `onRetry` comes before the sleep and the retry send (`retryHandler/retry.js:110-125`).
  - `onProviderSwitch` comes before the sleep (`retryHandler/retry.js:72-80`).
  - `onProvidersLoaded` comes after the store query (`sendEmail/sendEmail.js:48-50`).
- Hooks are present or absent. A caller hook set to a falsy value (`onError: null`) is not modelled: `Dispatch.MergeHooks` can override a default but cannot switch it off.
- Errors are their message strings: the `Error` object passed to `onError` is modelled by its `message`.
- `Transport` gives one reply per source and send index within one call. Two registry entries with the same source share replies, which matches the code: `getProvider` and `_getNextProvider` only ever reach the first of them.
- Registry.ProviderManager.constructor: the singleton check is not modelled, because `ProviderManager.instance` is never assigned.
- Registry.ProviderManager.GetProviders, Registry.ProviderManager.GetProvider, LegacyRegistry.ProviderManager.GetProviders and LegacyRegistry.ProviderManager.GetProvider carry no contract of their own. They return the providers and `Common.FindBySource` of them, and `FindBySource` states the first-match property.
