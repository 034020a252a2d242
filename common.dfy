/** Values shared by the provider registries, the failover controllers and the
    dispatch facades of the email package. */
module Common {

  /** An optional value; `None` stands for JavaScript's `undefined`. */
  datatype Option<+T> = None | Some(value: T) {
    function GetOr(default: T): T
    {
      if Some? then value else default
    }
  }

  /** A value, or the message of the `Error` the source throws instead. */
  datatype Result<+T> = Ok(value: T) | Err(error: string)

  /** A step that returns nothing, or throws an `Error` with this message. */
  datatype Outcome = Pass | Fail(error: string)

  /** How a possibly undefined string is printed inside a template literal. */
  function Show(s: Option<string>): string
  {
    if s.Some? then s.value else "undefined"
  }

  /** A string field is falsy when it is undefined or empty. */
  predicate Falsy(s: Option<string>)
  {
    s.None? || s.value == ""
  }

  /** `options.x || fallback` for a numeric option: undefined and 0 are falsy
      and give the fallback. */
  function OrDefault(option: Option<int>, fallback: int): (r: int)
    ensures option.Some? && option.value != 0 ==> r == option.value
    ensures option.None? || option.value == 0 ==> r == fallback
  {
    if option.Some? && option.value != 0 then option.value else fallback
  }

  /** The message thrown when no registered provider has the requested source. */
  function NotFoundMessage(source: Option<string>): string
  {
    "Provider not found for source: " + Show(source)
  }

  /** One credential record of the store. */
  datatype Credential = Credential(
    source: string, host: string, port: int, secure: bool, user: string, pass: string)

  /** A provider built from one credential (`new SmtpProvider(cred)`); it is
      identified by the credential's source. */
  datatype Provider = Provider(source: string, cred: Credential)

  function FromCredential(c: Credential): Provider
  {
    Provider(c.source, c)
  }

  /** `creds.map((cred) => new SmtpProvider(cred))`. */
  function MapProviders(creds: seq<Credential>): (ps: seq<Provider>)
    ensures |ps| == |creds|
    ensures forall i :: 0 <= i < |creds| ==> ps[i] == FromCredential(creds[i])
  {
    if creds == [] then [] else [FromCredential(creds[0])] + MapProviders(creds[1..])
  }

  /** `providers.find((p) => p.source === source)`: the first provider of the
      registry whose source equals the argument, or undefined. */
  function FindBySource(ps: seq<Provider>, source: Option<string>): (r: Option<Provider>)
    ensures r.None? <==> forall j :: 0 <= j < |ps| ==> Some(ps[j].source) != source
    ensures r.Some? ==> exists i :: 0 <= i < |ps| && ps[i] == r.value && Some(ps[i].source) == source
                                    && forall j :: 0 <= j < i ==> Some(ps[j].source) != source
  {
    if ps == [] then None
    else if Some(ps[0].source) == source then Some(ps[0])
    else
      var r := FindBySource(ps[1..], source);
      assert forall j :: 1 <= j < |ps| ==> ps[j] == ps[1..][j - 1];
      r
  }

  /** What a provider's `send` resolves with (nodemailer's info object). */
  datatype Receipt = Receipt(messageId: string, envelopeTime: Option<int>, messageTime: Option<int>)

  /** The `mailOptions` object handed to every provider attempt. */
  datatype Mail = Mail(
    to: Option<string>,
    cc: Option<seq<string>>,
    bcc: Option<seq<string>>,
    subject: string,
    html: string,
    text: string,
    attachments: Option<seq<string>>)

  /** The identity of one hook callback. */
  type Handler = string

  /** The keys of a hooks object: the hooks the core fires, and any other name
      a caller may add. */
  datatype HookName =
    | OnSendStart | OnSendSuccess | OnRetry | OnProviderSwitch | OnFinalSuccess
    | OnFinalFailure | OnError | OnProvidersLoaded | OnSuccess | Custom(name: string)

  /** A hooks object: hook name to the callback stored under it. A name that is
      absent (or bound to a falsy value) is not a key. */
  type Hooks = map<HookName, Handler>

  /** The payload objects handed to the hooks. */
  datatype Payload =
    | SendStart(to: Option<string>, source: Option<string>)
    | SendSuccess(to: Option<string>, source: Option<string>)
    | Retry(to: Option<string>, provider: string, attempt: nat)
    | ProviderSwitch(to: Option<string>, fromProvider: string, toProvider: string)
    | FinalSuccess(to: Option<string>, provider: string, envelopeTime: Option<int>, messageTime: Option<int>)
    | Succeeded(to: Option<string>, provider: string)                    // the earlier onFinalSuccess
    | FinalFailure(to: Option<string>, attemptedProviders: seq<string>)
    | Failure(to: Option<string>, origin: Option<string>, error: string)   // key `provider`
    | ProvidersLoaded(source: Option<string>)
    | Delivered(to: Option<string>, result: Receipt, provider: string)

  /** One hook call: the hook's name, the callback stored under it, and the
      payload it was called with. */
  datatype Event = Fired(hook: HookName, handler: Handler, payload: Payload)

  /** The payloads of the calls made to the hook `name`, in order. */
  function Calls(events: seq<Event>, name: HookName): seq<Payload>
  {
    if events == [] then []
    else (if events[0].hook == name then [events[0].payload] else [])
         + Calls(events[1..], name)
  }

  lemma {:induction false} CallsAppend(a: seq<Event>, b: seq<Event>, name: HookName)
    ensures Calls(a + b, name) == Calls(a, name) + Calls(b, name)
  {
    if a == [] {
      assert a + b == b;
    } else {
      var ab := a + b;
      assert ab[0] == a[0];
      assert ab[1..] == a[1..] + b;
      CallsAppend(a[1..], b, name);
      assert Calls(ab, name) == (if a[0].hook == name then [a[0].payload] else []) + Calls(a[1..] + b, name);
    }
  }

  lemma CallsSplit3(a: seq<Event>, b: seq<Event>, c: seq<Event>, name: HookName)
    ensures Calls(a + b + c, name) == Calls(a, name) + Calls(b, name) + Calls(c, name)
  {
    CallsAppend(a, b, name);
    CallsAppend(a + b, c, name);
  }

  lemma CallsSplit4(a: seq<Event>, b: seq<Event>, c: seq<Event>, d: seq<Event>, name: HookName)
    ensures Calls(a + b + c + d, name) == Calls(a, name) + Calls(b, name) + Calls(c, name) + Calls(d, name)
  {
    CallsSplit3(a, b, c, name);
    CallsAppend(a + b + c, d, name);
  }

  /** The observable side effects of the core, in order. */
  datatype Io =
    | Send(source: string, mail: Mail)        // provider.send(mailOptions)
    | Sleep(ms: int)                          // await sleep(retryDelay)
    | StoreQuery                              // EmailCredential.find()
    | Render(template: Option<string>, data: Option<map<string, string>>)  // renderTemplate(...)

  /** The sources of the provider sends in an I/O log, in order. */
  function Sends(io: seq<Io>): seq<string>
  {
    if io == [] then []
    else (if io[0].Send? then [io[0].source] else []) + Sends(io[1..])
  }

  lemma {:induction false} SendsAppend(a: seq<Io>, b: seq<Io>)
    ensures Sends(a + b) == Sends(a) + Sends(b)
  {
    if a == [] {
      assert a + b == b;
    } else {
      var ab := a + b;
      assert ab[0] == a[0];
      assert ab[1..] == a[1..] + b;
      SendsAppend(a[1..], b);
      assert Sends(ab) == (if a[0].Send? then [a[0].source] else []) + Sends(a[1..] + b);
    }
  }

  lemma SendsOne(x: Io)
    ensures Sends([x]) == if x.Send? then [x.source] else []
  {
    assert [x][1..] == [];
  }

  lemma SendsSplit3(a: seq<Io>, b: seq<Io>, c: seq<Io>)
    ensures Sends(a + b + c) == Sends(a) + Sends(b) + Sends(c)
  {
    SendsAppend(a, b);
    SendsAppend(a + b, c);
  }

  /** Every provider send in the log carries exactly this mail. */
  ghost predicate SameMail(io: seq<Io>, mail: Mail)
  {
    forall i :: 0 <= i < |io| && io[i].Send? ==> io[i].mail == mail
  }

  lemma SameMailSplit3(a: seq<Io>, b: seq<Io>, c: seq<Io>, mail: Mail)
    requires SameMail(a, mail) && SameMail(b, mail) && SameMail(c, mail)
    ensures SameMail(a + b + c, mail)
  {
    var abc := a + b + c;
    forall i | 0 <= i < |abc| && abc[i].Send?
      ensures abc[i].mail == mail
    {
      if i < |a| {
        assert abc[i] == a[i];
      } else if i < |a| + |b| {
        assert abc[i] == b[i - |a|];
      } else {
        assert abc[i] == c[i - |a| - |b|];
      }
    }
  }

  /** The outcome of one call together with the hooks it fired and the I/O it did. */
  datatype Run<+T> = Run(outcome: Result<T>, events: seq<Event>, io: seq<Io>)

  /** A provider's `send`: the reply of the provider with this source to its
      n-th send (from 0) within one `sendWithRetry` call. */
  type Transport = (string, nat) -> Result<Receipt>
}
