/** Client construction with functional options (sto/client.go, NewClient and the
    With... option constructors). Durations are Go `time.Duration` values, in nanoseconds. */
module ClientConfig {
  import opened Wrappers

  const Second: int := 1_000_000_000

  /** Default per-request timeout: thirty seconds. */
  const DefaultTimeout: int := 30 * Second

  /** Default number of retries after the first attempt. */
  const DefaultMaxRetries: int := 3

  /** The HTTP transport handle: either one the caller supplied (opaque to the model) or
      the one the constructor creates, bound to a timeout. */
  datatype HttpClient =
    | Supplied(handle: nat)
    | Default(timeout: int)

  /** A client. `httpClient` is nil (`None`) only while options are being applied. */
  datatype Client = Client(
    appKey: string,
    appSecret: string,
    fromCode: string,
    debug: bool,
    httpClient: Option<HttpClient>,
    timeout: int,
    maxRetries: int)

  /** The library's three option constructors; `WithHttpClient(None)` is a nil `*http.Client`.
      A caller's own `func(*Client)` option, which could write any field, is not modelled. */
  datatype ClientOption =
    | WithTimeout(timeout: int)
    | WithMaxRetries(maxRetries: int)
    | WithHttpClient(httpClient: Option<HttpClient>)

  /** Which client setting an option writes. */
  datatype Setting = TimeoutSetting | MaxRetriesSetting | HttpClientSetting

  function SettingOf(opt: ClientOption): (s: Setting) {
    match opt
    case WithTimeout(_) => TimeoutSetting
    case WithMaxRetries(_) => MaxRetriesSetting
    case WithHttpClient(_) => HttpClientSetting
  }

  /** `opts[k]` writes setting `s`, and no later option writes it again. */
  ghost predicate LastWriter(opts: seq<ClientOption>, k: int, s: Setting) {
    && 0 <= k < |opts|
    && SettingOf(opts[k]) == s
    && forall j :: k < j < |opts| ==> SettingOf(opts[j]) != s
  }

  /** No option in `opts` writes setting `s`. */
  ghost predicate NoWriter(opts: seq<ClientOption>, s: Setting) {
    forall j :: 0 <= j < |opts| ==> SettingOf(opts[j]) != s
  }

  /** Runs one option against the client under construction. */
  function Apply(c: Client, opt: ClientOption): (r: Client) {
    match opt
    case WithTimeout(t) => c.(timeout := t)
    case WithMaxRetries(n) => c.(maxRetries := n)
    case WithHttpClient(h) => c.(httpClient := h)
  }

  /** Runs the options from first to last; the credentials and the debug flag are never
      written by an option. */
  function ApplyAll(c: Client, opts: seq<ClientOption>): (r: Client)
    ensures r.appKey == c.appKey && r.appSecret == c.appSecret && r.fromCode == c.fromCode
    ensures r.debug == c.debug
    decreases |opts|
  {
    if |opts| == 0 then c else Apply(ApplyAll(c, opts[..|opts| - 1]), opts[|opts| - 1])
  }

  /** Dropping the final option keeps a last writer among the earlier ones. */
  lemma LastWriterOfPrefix(opts: seq<ClientOption>, k: int, s: Setting)
    requires |opts| > 0 && LastWriter(opts, k, s) && k < |opts| - 1
    ensures LastWriter(opts[..|opts| - 1], k, s)
  {
    var init := opts[..|opts| - 1];
    forall j | k < j < |init| ensures SettingOf(init[j]) != s {
      assert init[j] == opts[j];
    }
  }

  /** The value a setting holds, boxed so that the three settings can be treated alike. */
  datatype SettingValue = IntValue(n: int) | TransportValue(h: Option<HttpClient>)

  /** The value `c` currently holds for setting `s`. */
  function ValueOf(c: Client, s: Setting): (v: SettingValue) {
    match s
    case TimeoutSetting => IntValue(c.timeout)
    case MaxRetriesSetting => IntValue(c.maxRetries)
    case HttpClientSetting => TransportValue(c.httpClient)
  }

  /** The value `opt` writes into the setting it targets. */
  function WrittenValue(opt: ClientOption): (v: SettingValue) {
    match opt
    case WithTimeout(t) => IntValue(t)
    case WithMaxRetries(n) => IntValue(n)
    case WithHttpClient(h) => TransportValue(h)
  }

  /** Every setting ends up as the last option that writes it left it, or unchanged if no
      option writes it. */
  lemma {:induction false} ApplyAllSetting(c: Client, opts: seq<ClientOption>, s: Setting)
    ensures NoWriter(opts, s) ==> ValueOf(ApplyAll(c, opts), s) == ValueOf(c, s)
    ensures forall k :: LastWriter(opts, k, s) ==> ValueOf(ApplyAll(c, opts), s) == WrittenValue(opts[k])
    decreases |opts|
  {
    if |opts| > 0 {
      var init := opts[..|opts| - 1];
      ApplyAllSetting(c, init, s);
      if NoWriter(opts, s) {
        assert NoWriter(init, s) by {
          forall j | 0 <= j < |init| ensures SettingOf(init[j]) != s {
            assert init[j] == opts[j];
          }
        }
      }
      forall k | LastWriter(opts, k, s)
        ensures ValueOf(ApplyAll(c, opts), s) == WrittenValue(opts[k])
      {
        if k < |opts| - 1 {
          LastWriterOfPrefix(opts, k, s);
        }
      }
    }
  }

  /** The timeout ends up as the last timeout option wrote, or unchanged if none did. */
  lemma ApplyAllTimeout(c: Client, opts: seq<ClientOption>)
    ensures NoWriter(opts, TimeoutSetting) ==> ApplyAll(c, opts).timeout == c.timeout
    ensures forall k :: LastWriter(opts, k, TimeoutSetting) ==> ApplyAll(c, opts).timeout == opts[k].timeout
  {
    ApplyAllSetting(c, opts, TimeoutSetting);
  }

  /** The retry bound ends up as the last retry option wrote, or unchanged if none did. */
  lemma ApplyAllMaxRetries(c: Client, opts: seq<ClientOption>)
    ensures NoWriter(opts, MaxRetriesSetting) ==> ApplyAll(c, opts).maxRetries == c.maxRetries
    ensures forall k :: LastWriter(opts, k, MaxRetriesSetting) ==> ApplyAll(c, opts).maxRetries == opts[k].maxRetries
  {
    ApplyAllSetting(c, opts, MaxRetriesSetting);
  }

  /** The transport ends up as the last transport option wrote (possibly nil), or
      unchanged if none did. */
  lemma ApplyAllHttpClient(c: Client, opts: seq<ClientOption>)
    ensures NoWriter(opts, HttpClientSetting) ==> ApplyAll(c, opts).httpClient == c.httpClient
    ensures forall k :: LastWriter(opts, k, HttpClientSetting) ==> ApplyAll(c, opts).httpClient == opts[k].httpClient
  {
    ApplyAllSetting(c, opts, HttpClientSetting);
  }

  /** Builds a client from credentials and options: defaults first, then the options in
      order, then a default transport bound to the final timeout if none was supplied. */
  function NewClient(appKey: string, appSecret: string, fromCode: string,
                     opts: seq<ClientOption>): (c: Client)
    ensures c.appKey == appKey && c.appSecret == appSecret && c.fromCode == fromCode
    ensures !c.debug
    ensures NoWriter(opts, TimeoutSetting) ==> c.timeout == DefaultTimeout
    ensures NoWriter(opts, MaxRetriesSetting) ==> c.maxRetries == DefaultMaxRetries
    ensures forall k :: LastWriter(opts, k, TimeoutSetting) ==> c.timeout == opts[k].timeout
    ensures forall k :: LastWriter(opts, k, MaxRetriesSetting) ==> c.maxRetries == opts[k].maxRetries
    // A supplied transport is kept as is; otherwise a default one gets the final timeout.
    ensures forall k :: LastWriter(opts, k, HttpClientSetting) && opts[k].httpClient.Some? ==>
              c.httpClient == opts[k].httpClient
    ensures forall k :: LastWriter(opts, k, HttpClientSetting) && opts[k].httpClient.None? ==>
              c.httpClient == Some(Default(c.timeout))
    ensures NoWriter(opts, HttpClientSetting) ==> c.httpClient == Some(Default(c.timeout))
    ensures c.httpClient.Some?
  {
    var initial := Client(appKey, appSecret, fromCode, false, None, DefaultTimeout, DefaultMaxRetries);
    var configured := ApplyAll(initial, opts);
    ApplyAllTimeout(initial, opts);
    ApplyAllMaxRetries(initial, opts);
    ApplyAllHttpClient(initial, opts);
    if configured.httpClient == None then
      configured.(httpClient := Some(Default(configured.timeout)))
    else
      configured
  }

  /** Running two option lists one after the other is running their concatenation. */
  lemma {:induction false} ApplyAllConcat(c: Client, a: seq<ClientOption>, b: seq<ClientOption>)
    ensures ApplyAll(c, a + b) == ApplyAll(ApplyAll(c, a), b)
    decreases |b|
  {
    if |b| == 0 {
      assert a + b == a;
    } else {
      var b' := b[..|b| - 1];
      assert (a + b)[..|a + b| - 1] == a + b';
      assert (a + b)[|a + b| - 1] == b[|b| - 1];
      ApplyAllConcat(c, a, b');
    }
  }

  /** With no options the client gets the documented defaults. */
  lemma NewClientDefaults(appKey: string, appSecret: string, fromCode: string)
    ensures NewClient(appKey, appSecret, fromCode, [])
         == Client(appKey, appSecret, fromCode, false, Some(Default(30 * Second)), 30 * Second, 3)
  {
  }

  /** Later options overwrite earlier ones; the default transport uses the last timeout
      even when the timeout option comes after a nil transport option, and a supplied
      transport is not rebound to a later timeout. */
  lemma LastOptionWins(appKey: string, appSecret: string, fromCode: string, n1: int, n2: int, t1: int, t2: int)
    ensures var c := NewClient(appKey, appSecret, fromCode,
                               [WithMaxRetries(n1), WithTimeout(t1), WithHttpClient(None),
                                WithMaxRetries(n2), WithTimeout(t2)]);
            c.maxRetries == n2 && c.timeout == t2 && c.httpClient == Some(Default(t2))
    ensures var c := NewClient(appKey, appSecret, fromCode,
                               [WithHttpClient(Some(Supplied(7))), WithTimeout(t1)]);
            c.timeout == t1 && c.httpClient == Some(Supplied(7))
  {
    var opts1 := [WithMaxRetries(n1), WithTimeout(t1), WithHttpClient(None),
                  WithMaxRetries(n2), WithTimeout(t2)];
    assert LastWriter(opts1, 3, MaxRetriesSetting);
    assert LastWriter(opts1, 4, TimeoutSetting);
    assert LastWriter(opts1, 2, HttpClientSetting);
    var opts2 := [WithHttpClient(Some(Supplied(7))), WithTimeout(t1)];
    assert LastWriter(opts2, 1, TimeoutSetting);
    assert LastWriter(opts2, 0, HttpClientSetting);
  }
}
