/** The earlier provider registry (providerManager.js): an append-only list
    of providers with a checked `send`. `reply` is what
    `EmailCredential.find()` resolves or rejects with; `transport` is the
    providers' `send`. */
module LegacyRegistry {
  import opened Common

  const NoProvidersRegistered := "No providers registered"

  class ProviderManager {
    var providers: seq<Provider>

    constructor()
      ensures providers == []
    {
      providers := [];
    }

    /** `init()`: registers one provider per credential, in store order, after
        the providers already there; a second call therefore registers them
        again. A store failure rethrows before anything is registered. */
    method Init(reply: Result<seq<Credential>>) returns (r: Outcome)
      modifies this
      ensures reply.Err? ==> r == Fail(reply.error) && providers == old(providers)
      ensures reply.Ok? ==> r == Pass && providers == old(providers) + MapProviders(reply.value)
    {
      if reply.Err? {
        return Fail(reply.error);
      }
      var creds := reply.value;
      for i := 0 to |creds|
        invariant providers == old(providers) + MapProviders(creds[..i])
      {
        assert creds[..i + 1] == creds[..i] + [creds[i]];
        MapProvidersAppend(creds[..i], creds[i]);
        Register(FromCredential(creds[i]));
      }
      assert creds[..|creds|] == creds;
      r := Pass;
    }

    /** `register(provider)`: appends the provider and changes nothing else. */
    method Register(provider: Provider)
      modifies this
      ensures providers == old(providers) + [provider]
    {
      providers := providers + [provider];
    }

    /** `getProviders()`. */
    function GetProviders(): seq<Provider>
      reads this
    {
      providers
    }

    /** `getProvider(source)`: the first registered provider with that source. */
    function GetProvider(source: Option<string>): Option<Provider>
      reads this
    {
      FindBySource(providers, source)
    }

    /** `send(source, mailOptions)`: an empty registry fails before any lookup,
        an unknown source fails, and otherwise the first provider with that
        source sends the mail unchanged and its reply is returned. */
    method Send(source: Option<string>, mail: Mail, transport: Transport) returns (r: Result<Receipt>, io: seq<Io>)
      ensures |providers| == 0 ==> r == Err(NoProvidersRegistered) && io == []
      ensures |providers| > 0 && (forall j :: 0 <= j < |providers| ==> Some(providers[j].source) != source) ==>
                r == Err(NotFoundMessage(source)) && io == []
      ensures forall i :: 0 <= i < |providers| && Some(providers[i].source) == source
                          && (forall j :: 0 <= j < i ==> Some(providers[j].source) != source) ==>
                r == transport(providers[i].source, 0) && io == [Io.Send(providers[i].source, mail)]
    {
      if |providers| == 0 {
        return Err(NoProvidersRegistered), [];
      }
      var provider := GetProvider(source);
      if provider.None? {
        return Err(NotFoundMessage(source)), [];
      }
      r := transport(provider.value.source, 0);
      io := [Io.Send(provider.value.source, mail)];
    }
  }

  lemma MapProvidersAppend(creds: seq<Credential>, c: Credential)
    ensures MapProviders(creds + [c]) == MapProviders(creds) + [FromCredential(c)]
  {
  }
}
