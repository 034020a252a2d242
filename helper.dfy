/** The pure helpers of the failover controller (utils/helper.js, repeated as
    methods of the retry handlers): fatal-error classification, the choice of
    the next provider, and hook firing. Also the registry-order walk that the
    choice of the next provider produces, stated on its own. */
module Helper {
  import opened Common

  // ---------------------------------------------------------------------------
  // Fatal-error classification
  // ---------------------------------------------------------------------------

  /** ASCII lower-casing of one character. */
  function LowerChar(c: char): char
  {
    if 'A' <= c <= 'Z' then (c as int + 32) as char else c
  }

  /** ASCII upper-casing of one character. */
  function UpperChar(c: char): char
  {
    if 'a' <= c <= 'z' then (c as int - 32) as char else c
  }

  /** `text.toLowerCase()`, over ASCII. */
  function Lower(s: string): (r: string)
    ensures |r| == |s|
  {
    if s == [] then [] else [LowerChar(s[0])] + Lower(s[1..])
  }

  /** `text.toUpperCase()`, over ASCII. */
  function Upper(s: string): (r: string)
    ensures |r| == |s|
  {
    if s == [] then [] else [UpperChar(s[0])] + Upper(s[1..])
  }

  /** `text.includes(kw)`. */
  predicate Contains(text: string, kw: string)
  {
    exists i :: 0 <= i <= |text| && kw <= text[i..]
  }

  /** The keywords that mark a provider-level (fatal) error. */
  const FatalKeywords: seq<string> := ["quota", "limit", "auth", "invalid", "blocked"]

  /** `kws.some((kw) => text.includes(kw))`. */
  function AnyContains(kws: seq<string>, text: string): bool
  {
    if kws == [] then false
    else Contains(text, kws[0]) || AnyContains(kws[1..], text)
  }

  /** Some keyword of the list occurs in the text. */
  lemma {:induction false} AnyContainsMeaning(kws: seq<string>, text: string)
    ensures AnyContains(kws, text) <==> exists k :: 0 <= k < |kws| && Contains(text, kws[k])
  {
    if kws != [] {
      AnyContainsMeaning(kws[1..], text);
      assert forall k :: 1 <= k < |kws| ==> kws[k] == kws[1..][k - 1];
    }
  }

  /** `_isProviderError(err)`, on the error's message. */
  function IsProviderError(message: string): bool
  {
    AnyContains(FatalKeywords, Lower(message))
  }

  /** An error is a provider error exactly when its message, lower-cased,
      contains one of the fatal keywords. */
  lemma ProviderErrorMeaning(message: string)
    ensures IsProviderError(message)
            <==> exists k :: 0 <= k < |FatalKeywords| && Contains(Lower(message), FatalKeywords[k])
  {
    AnyContainsMeaning(FatalKeywords, Lower(message));
  }

  lemma {:induction false} LowerUpper(s: string)
    ensures Lower(Upper(s)) == Lower(s)
  {
    if s != [] {
      LowerUpper(s[1..]);
      assert Upper(s)[1..] == Upper(s[1..]);
    }
  }

  lemma {:induction false} LowerLower(s: string)
    ensures Lower(Lower(s)) == Lower(s)
  {
    if s != [] {
      LowerLower(s[1..]);
      assert Lower(s)[1..] == Lower(s[1..]);
    }
  }

  /** Classification ignores case: a message, its upper-cased and its
      lower-cased forms classify alike. */
  lemma ClassificationIgnoresCase(message: string)
    ensures IsProviderError(Upper(message)) == IsProviderError(message)
    ensures IsProviderError(Lower(message)) == IsProviderError(message)
  {
    assert IsProviderError(Upper(message)) == AnyContains(FatalKeywords, Lower(Upper(message)));
    LowerUpper(message);
    LowerLower(message);
  }

  // ---------------------------------------------------------------------------
  // Hook firing
  // ---------------------------------------------------------------------------

  /** `_fireHook(hooks, name, payload)`: calls the hook stored under `name`
      once with the payload, or nothing when there is none. */
  function FireHook(hooks: Hooks, name: HookName, payload: Payload): (r: seq<Event>)
  {
    if name in hooks then [Fired(name, hooks[name], payload)] else []
  }

  /** A hook call is seen exactly under its own name, and the handler
      called is the one the hooks map holds for that name. */
  lemma CallsOfFireHook(hooks: Hooks, fired: HookName, payload: Payload, name: HookName)
    ensures Calls(FireHook(hooks, fired, payload), name)
            == if name == fired && fired in hooks then [payload] else []
    ensures forall e :: e in FireHook(hooks, fired, payload) ==> e.hook in hooks && e.handler == hooks[e.hook]
  {
  }

  /** `_fireFinalSuccess(hooks, to, provider, result)`: the final-success
      payload copies the result's timing fields. */
  function FireFinalSuccess(hooks: Hooks, to: Option<string>, provider: string, result: Receipt): (r: seq<Event>)
  {
    FireHook(hooks, OnFinalSuccess, FinalSuccess(to, provider, result.envelopeTime, result.messageTime))
  }

  /** `onFinalSuccess` is called once, with the recipient, the provider and
      the two timings of the result, when it is present, and nothing else is
      called. */
  lemma CallsOfFireFinalSuccess(hooks: Hooks, to: Option<string>, provider: string, result: Receipt, name: HookName)
    ensures Calls(FireFinalSuccess(hooks, to, provider, result), name)
            == if name == OnFinalSuccess && OnFinalSuccess in hooks
               then [FinalSuccess(to, provider, result.envelopeTime, result.messageTime)]
               else []
  {
    CallsOfFireHook(hooks, OnFinalSuccess, FinalSuccess(to, provider, result.envelopeTime, result.messageTime), name);
  }

  // ---------------------------------------------------------------------------
  // Choosing the next provider
  // ---------------------------------------------------------------------------

  /** The sources of a registry, in registry order. */
  function Sources(ps: seq<Provider>): (r: seq<string>)
    ensures |r| == |ps|
    ensures forall i :: 0 <= i < |ps| ==> r[i] == ps[i].source
  {
    if ps == [] then [] else [ps[0].source] + Sources(ps[1..])
  }

  /** `_getNextProvider(current, providers, tried)`:
      `providers.find((p) => !tried.has(p.source)) || null`. */
  function NextProvider(ps: seq<Provider>, tried: seq<string>): Option<Provider>
  {
    if ps == [] then None
    else if ps[0].source !in tried then Some(ps[0])
    else NextProvider(ps[1..], tried)
  }

  /** The next provider is the first one, in registry order, whose source has
      not been tried; there is none exactly when every source has been tried. */
  lemma {:induction false} NextProviderMeaning(ps: seq<Provider>, tried: seq<string>)
    ensures NextProvider(ps, tried).None? <==> forall j :: 0 <= j < |ps| ==> ps[j].source in tried
    ensures NextProvider(ps, tried).Some? ==>
              exists i :: 0 <= i < |ps| && ps[i] == NextProvider(ps, tried).value && ps[i].source !in tried
                          && forall j :: 0 <= j < i ==> ps[j].source in tried
  {
    if ps != [] && ps[0].source in tried {
      NextProviderMeaning(ps[1..], tried);
      assert forall j :: 1 <= j < |ps| ==> ps[j] == ps[1..][j - 1];
      if NextProvider(ps, tried).Some? {
        var i' :| 0 <= i' < |ps[1..]| && ps[1..][i'] == NextProvider(ps, tried).value && ps[1..][i'].source !in tried
                  && forall j :: 0 <= j < i' ==> ps[1..][j].source in tried;
        assert ps[i' + 1] == ps[1..][i'];
      }
    }
  }

  ghost predicate Distinct(s: seq<string>)
  {
    forall i, j :: 0 <= i < j < |s| ==> s[i] != s[j]
  }

  /** The registry's sources in registry order, each once, leaving out `seen`:
      the walk of the registry that failover performs. */
  function Untried(ps: seq<Provider>, seen: set<string>): seq<string>
  {
    if ps == [] then []
    else if ps[0].source in seen then Untried(ps[1..], seen)
    else [ps[0].source] + Untried(ps[1..], seen + {ps[0].source})
  }

  /** The walk lists distinct sources of the registry that are not in `seen`,
      and every source of the registry is either seen or on the walk. */
  lemma {:induction false} UntriedFacts(ps: seq<Provider>, seen: set<string>)
    ensures |Untried(ps, seen)| <= |ps|
    ensures forall i :: 0 <= i < |Untried(ps, seen)| ==> Untried(ps, seen)[i] !in seen && Untried(ps, seen)[i] in Sources(ps)
    ensures Distinct(Untried(ps, seen))
    ensures forall j :: 0 <= j < |ps| ==> ps[j].source in seen || ps[j].source in Untried(ps, seen)
  {
    if ps != [] {
      assert forall j :: 1 <= j < |ps| ==> ps[j] == ps[1..][j - 1];
      if ps[0].source in seen {
        UntriedFacts(ps[1..], seen);
      } else {
        var a := ps[0].source;
        var rest := Untried(ps[1..], seen + {a});
        UntriedFacts(ps[1..], seen + {a});
        var u := [a] + rest;
        assert forall i :: 1 <= i < |u| ==> u[i] == rest[i - 1];
      }
    }
  }

  /** The order in which failover tries providers when `s` is preferred: `s`
      first, then every other source of the registry once, in registry order. */
  function FailoverOrder(ps: seq<Provider>, s: string): seq<string>
  {
    [s] + Untried(ps, {s})
  }

  /** The failover order lists distinct sources, starts with the preferred one,
      lists every source of the registry, and is no longer than the registry
      when the preferred source is in it. */
  lemma FailoverOrderFacts(ps: seq<Provider>, s: string)
    ensures FailoverOrder(ps, s)[0] == s
    ensures Distinct(FailoverOrder(ps, s))
    ensures forall j :: 0 <= j < |ps| ==> ps[j].source in FailoverOrder(ps, s)
    ensures forall i :: 1 <= i < |FailoverOrder(ps, s)| ==> FailoverOrder(ps, s)[i] in Sources(ps)
    ensures s in Sources(ps) ==> |FailoverOrder(ps, s)| <= |ps|
  {
    OrderDistinct(ps, s);
    OrderCovers(ps, s);
    OrderInRegistry(ps, s);
    if s in Sources(ps) {
      UntriedShorter(ps, {s}, s);
    }
  }

  lemma OrderDistinct(ps: seq<Provider>, s: string)
    ensures Distinct(FailoverOrder(ps, s))
  {
    var u := Untried(ps, {s});
    UntriedFacts(ps, {s});
    var o := FailoverOrder(ps, s);
    assert forall i :: 1 <= i < |o| ==> o[i] == u[i - 1];
  }

  lemma OrderCovers(ps: seq<Provider>, s: string)
    ensures forall j :: 0 <= j < |ps| ==> ps[j].source in FailoverOrder(ps, s)
  {
    UntriedFacts(ps, {s});
  }

  lemma OrderInRegistry(ps: seq<Provider>, s: string)
    ensures forall i :: 1 <= i < |FailoverOrder(ps, s)| ==> FailoverOrder(ps, s)[i] in Sources(ps)
  {
    var u := Untried(ps, {s});
    UntriedFacts(ps, {s});
    var o := FailoverOrder(ps, s);
    assert forall i :: 1 <= i < |o| ==> o[i] == u[i - 1];
  }

  /** When a source of the registry is already seen, the walk is strictly
      shorter than the registry. */
  lemma {:induction false} UntriedShorter(ps: seq<Provider>, seen: set<string>, x: string)
    requires x in seen && x in Sources(ps)
    ensures |Untried(ps, seen)| < |ps|
  {
    if ps[0].source == x {
      UntriedFacts(ps[1..], seen);
    } else {
      assert x in Sources(ps[1..]);
      UntriedShorter(ps[1..], if ps[0].source in seen then seen else seen + {ps[0].source}, x);
    }
  }

  /** `NextProvider` follows the walk: when the tried sources are exactly `seen`
      plus the first `k` sources of the walk, the next provider is the walk's
      k-th source, or none when the walk is done. */
  lemma {:induction false} NextFollowsWalk(ps: seq<Provider>, seen: set<string>, k: nat, tried: seq<string>)
    requires k <= |Untried(ps, seen)|
    requires forall x :: x in tried <==> x in seen || x in Untried(ps, seen)[..k]
    ensures k < |Untried(ps, seen)| ==> NextProvider(ps, tried).Some?
                                         && NextProvider(ps, tried).value.source == Untried(ps, seen)[k]
    ensures k == |Untried(ps, seen)| ==> NextProvider(ps, tried).None?
  {
    if ps != [] {
      var a := ps[0].source;
      if a in seen {
        NextFollowsWalk(ps[1..], seen, k, tried);
      } else if k > 0 {
        var u := Untried(ps, seen);
        var rest := Untried(ps[1..], seen + {a});
        assert u == [a] + rest;
        assert u[..k] == [a] + rest[..k - 1];
        assert forall x :: x in tried <==> x in seen + {a} || x in rest[..k - 1];
        NextFollowsWalk(ps[1..], seen + {a}, k - 1, tried);
      }
    }
  }

  /** The failover controllers' walk: with the first `k + 1` sources of the
      failover order tried, the next provider is the order's next source, or
      none when the order is exhausted. */
  lemma NextFollowsOrder(ps: seq<Provider>, s: string, k: nat)
    requires k < |FailoverOrder(ps, s)|
    ensures k + 1 < |FailoverOrder(ps, s)| ==>
              NextProvider(ps, FailoverOrder(ps, s)[..k + 1]).Some?
              && NextProvider(ps, FailoverOrder(ps, s)[..k + 1]).value.source == FailoverOrder(ps, s)[k + 1]
    ensures k + 1 == |FailoverOrder(ps, s)| ==> NextProvider(ps, FailoverOrder(ps, s)[..k + 1]).None?
  {
    var o := FailoverOrder(ps, s);
    var u := Untried(ps, {s});
    assert o[..k + 1] == [s] + u[..k];
    NextFollowsWalk(ps, {s}, k, o[..k + 1]);
  }
}
