/** `ChromeActions`: the browser's launch options built from a request, the
    pipeline (pre-actions, the readiness action, the caller's actions) and the
    mapping of the worker's `finished` value to success. */
module ChromeAction {

  import opened Base
  import Models
  import Browser
  import Worker

  /** The launch options chromedp accepts, as far as the program uses them.
      `AllocatorDefault(i)` is entry `i` of chromedp's default option list,
      whose entry 2 is the headless flag. */
  datatype ExecOpt =
    | AllocatorDefault(index: nat)
    | Flag(name: string, value: bool)
    | IgnoreCertErrors
    | NoFirstRun
    | NoDefaultBrowserCheck
    | NoSandbox
    | DisableGPU
    | UserAgent(ua: string)
    | WindowSize(width: int, height: int)
    | ProxyServer(proxy: string)

  /** Everything a request runs against besides its own fields: the package's
      debug switch, the length of chromedp's default option list, how the
      browser answers while rendering the page, how the browser that photographs
      the overlay page answers, the formatted current time, and the name of the
      temporary file the overlay page is written to. */
  datatype Env = Env(
    debug: bool,
    defaultCount: nat,
    page: Browser.Session,
    overlay: Browser.Session,
    now: string,
    tempFile: string)

  /** chromedp's default list is long enough for the debug-mode slicing. */
  predicate Launchable(env: Env) {
    env.debug ==> env.defaultCount >= 3
  }

  /** The user agent the browser is given: the request's, else the default. */
  function EffectiveUserAgent(input: Models.ChromeActionInput): (ua: string)
    ensures ua != ""
    ensures input.userAgent != "" ==> ua == input.userAgent
    ensures input.userAgent == "" ==> ua == Models.DefaultUserAgent
  {
    if input.userAgent == "" then Models.DefaultUserAgent else input.userAgent
  }

  /** chromedp's default options, `count` of them. */
  function Defaults(count: nat): (d: seq<ExecOpt>)
    ensures |d| == count && forall i :: 0 <= i < count ==> d[i] == AllocatorDefault(i)
  {
    seq(count, i requires 0 <= i < count => AllocatorDefault(i))
  }

  /** The options added after the defaults, before the user agent. */
  const FixedFlags: seq<ExecOpt> := [
    Flag("headless", true),
    Flag("incognito", true),
    Flag("ignore-certificate-errors", true),
    Flag("enable-automation", true),
    Flag("disable-extensions", true),
    Flag("disable-setuid-sandbox", true),
    Flag("disable-web-security", true),
    Flag("disable-dev-shm-usage", true),
    IgnoreCertErrors,
    NoFirstRun,
    NoDefaultBrowserCheck,
    NoSandbox,
    DisableGPU ]

  /** The launch option list. In debug mode it is replaced by the defaults
      without entry 2 plus the devtools flag. */
  function LaunchOptions(input: Models.ChromeActionInput, debug: bool, count: nat): seq<ExecOpt>
    requires debug ==> count >= 3
  {
    if debug then
      Defaults(count)[..2] + Defaults(count)[3..] + [Flag("auto-open-devtools-for-tabs", true)]
    else
      Defaults(count) + FixedFlags
      + [UserAgent(EffectiveUserAgent(input)), WindowSize(1024, 768)]
      + (if input.proxy != "" then [ProxyServer(input.proxy)] else [])
  }

  /** Builds the option list by successive appends. `debug` is the package-level
      switch and `count` the length of chromedp's default list. */
  method BuildOptions(input: Models.ChromeActionInput, debug: bool, count: nat) returns (opts: seq<ExecOpt>)
    requires debug ==> count >= 3
    ensures opts == LaunchOptions(input, debug, count)
  {
    var userAgent := input.userAgent;
    if userAgent == "" {
      userAgent := Models.DefaultUserAgent;
    }
    opts := Defaults(count) + FixedFlags + [UserAgent(userAgent), WindowSize(1024, 768)];
    if input.proxy != "" {
      opts := opts + [ProxyServer(input.proxy)];
    }
    if debug {
      opts := Defaults(count)[..2] + Defaults(count)[3..];
      opts := opts + [Flag("auto-open-devtools-for-tabs", true)];
    }
  }

  /** The proxies an option list sets, in order. */
  function Proxies(opts: seq<ExecOpt>): seq<string> {
    if opts == [] then []
    else Proxies(opts[..|opts| - 1]) + (if opts[|opts| - 1].ProxyServer? then [opts[|opts| - 1].proxy] else [])
  }

  /** The user agents an option list sets, in order. */
  function UserAgents(opts: seq<ExecOpt>): seq<string> {
    if opts == [] then []
    else UserAgents(opts[..|opts| - 1]) + (if opts[|opts| - 1].UserAgent? then [opts[|opts| - 1].ua] else [])
  }

  lemma {:induction false} SettingsAppend(a: seq<ExecOpt>, b: seq<ExecOpt>)
    ensures Proxies(a + b) == Proxies(a) + Proxies(b)
    ensures UserAgents(a + b) == UserAgents(a) + UserAgents(b)
    decreases |b|
  {
    if b == [] {
      assert a + b == a;
    } else {
      var b' := b[..|b| - 1];
      assert (a + b)[..|a + b| - 1] == a + b';
      SettingsAppend(a, b');
    }
  }

  /** A list of defaults, or of fixed flags, sets neither a proxy nor a user agent. */
  lemma {:induction false} NoSettings(opts: seq<ExecOpt>)
    requires forall i :: 0 <= i < |opts| ==> opts[i].AllocatorDefault? || opts[i].Flag? || opts[i] in FixedFlags
    ensures Proxies(opts) == [] && UserAgents(opts) == []
    decreases |opts|
  {
    if opts != [] {
      NoSettings(opts[..|opts| - 1]);
    }
  }

  /** Outside debug mode the browser gets exactly one user agent, the effective
      one, and a proxy exactly when the request names one. */
  lemma NormalSettings(input: Models.ChromeActionInput, count: nat)
    ensures UserAgents(LaunchOptions(input, false, count)) == [EffectiveUserAgent(input)]
    ensures Proxies(LaunchOptions(input, false, count)) == if input.proxy != "" then [input.proxy] else []
  {
    NormalSplit(input, count);
    NormalUserAgents(input, count);
    NormalProxies(input, count);
  }

  /** The defaults and fixed flags, the user agent and window size, and the
      optional proxy. */
  function NormalMiddle(input: Models.ChromeActionInput): seq<ExecOpt> {
    [UserAgent(EffectiveUserAgent(input)), WindowSize(1024, 768)]
  }

  function NormalProxy(input: Models.ChromeActionInput): seq<ExecOpt> {
    if input.proxy != "" then [ProxyServer(input.proxy)] else []
  }

  lemma NormalSplit(input: Models.ChromeActionInput, count: nat)
    ensures LaunchOptions(input, false, count) == (Defaults(count) + FixedFlags) + NormalMiddle(input) + NormalProxy(input)
  {
  }

  /** The defaults and the fixed flags set nothing. */
  lemma NormalHead(count: nat)
    ensures Proxies(Defaults(count) + FixedFlags) == [] && UserAgents(Defaults(count) + FixedFlags) == []
  {
    SettingsAppend(Defaults(count), FixedFlags);
    NoSettings(Defaults(count));
    NoSettings(FixedFlags);
  }

  lemma MiddleSettings(input: Models.ChromeActionInput)
    ensures UserAgents(NormalMiddle(input)) == [EffectiveUserAgent(input)]
    ensures Proxies(NormalMiddle(input)) == []
  {
    var mid := NormalMiddle(input);
    assert mid[..1] == [UserAgent(EffectiveUserAgent(input))];
    assert mid[..1][..0] == [];
    assert UserAgents(mid[..1]) == [EffectiveUserAgent(input)];
    assert UserAgents(mid) == UserAgents(mid[..1]);
    assert Proxies(mid[..1]) == [];
  }

  lemma ProxySettings(input: Models.ChromeActionInput)
    ensures UserAgents(NormalProxy(input)) == []
    ensures Proxies(NormalProxy(input)) == if input.proxy != "" then [input.proxy] else []
  {
    if input.proxy != "" {
      assert NormalProxy(input)[..0] == [];
    }
  }

  lemma NormalUserAgents(input: Models.ChromeActionInput, count: nat)
    ensures UserAgents((Defaults(count) + FixedFlags) + NormalMiddle(input) + NormalProxy(input)) == [EffectiveUserAgent(input)]
  {
    var head := Defaults(count) + FixedFlags;
    SettingsAppend(head + NormalMiddle(input), NormalProxy(input));
    SettingsAppend(head, NormalMiddle(input));
    NormalHead(count);
    MiddleSettings(input);
    ProxySettings(input);
  }

  lemma NormalProxies(input: Models.ChromeActionInput, count: nat)
    ensures Proxies((Defaults(count) + FixedFlags) + NormalMiddle(input) + NormalProxy(input))
      == if input.proxy != "" then [input.proxy] else []
  {
    var head := Defaults(count) + FixedFlags;
    SettingsAppend(head + NormalMiddle(input), NormalProxy(input));
    SettingsAppend(head, NormalMiddle(input));
    NormalHead(count);
    MiddleSettings(input);
    ProxySettings(input);
  }

  /** In debug mode the list sets no proxy and no user agent whatever the request,
      and the headless default is gone. */
  lemma DebugSettings(input: Models.ChromeActionInput, count: nat)
    requires count >= 3
    ensures UserAgents(LaunchOptions(input, true, count)) == []
    ensures Proxies(LaunchOptions(input, true, count)) == []
    ensures AllocatorDefault(2) !in LaunchOptions(input, true, count)
    ensures |LaunchOptions(input, true, count)| == count
  {
    var opts := LaunchOptions(input, true, count);
    NoSettings(opts);
    var d := Defaults(count);
    assert opts == d[..2] + d[3..] + [Flag("auto-open-devtools-for-tabs", true)];
    forall i | 0 <= i < |opts| ensures opts[i] != AllocatorDefault(2) {
      if 2 <= i < count - 1 {
        assert opts[i] == d[i + 1];
      }
    }
  }

  /** Outside debug mode the list ends with the user agent and the window size,
      then the proxy when there is one. */
  lemma NormalTail(input: Models.ChromeActionInput, count: nat)
    ensures var opts := LaunchOptions(input, false, count);
      if input.proxy != "" then
        opts[|opts| - 3..] == [UserAgent(EffectiveUserAgent(input)), WindowSize(1024, 768), ProxyServer(input.proxy)]
      else
        opts[|opts| - 2..] == [UserAgent(EffectiveUserAgent(input)), WindowSize(1024, 768)]
  {
  }

  /** The list the pipeline runs, built by appends: the pre-actions (none when
      nil), the readiness action, then the caller's actions. */
  function Pipeline(pre: Option<seq<Browser.Action>>, input: Models.ChromeActionInput, actions: seq<Browser.Action>): seq<Browser.Action> {
    (if pre.None? then [] else pre.value) + [Browser.Readiness(input.url, input.sleep)] + actions
  }

  /** The error `ChromeActions` reports for the error `Run` returned: one whose
      text is `finished` becomes nil, any other is kept. */
  function MapFinished(e: Option<Error>): (r: Option<Error>)
    ensures r.None? <==> (e.None? || e.value.Text() == "finished")
    ensures r.Some? ==> r == e
  {
    if e.Some? && e.value.Text() == "finished" then None else e
  }

  /** `ChromeActions`: the option list (given to the allocator), then the
      pipeline run on the session, writing into `slots`. */
  method ChromeActions(input: Models.ChromeActionInput, pre: Option<seq<Browser.Action>>, actions: seq<Browser.Action>,
                       debug: bool, count: nat, s: Browser.Session, slots: Browser.Slots)
    returns (opts: seq<ExecOpt>, err: Option<Error>)
    requires debug ==> count >= 3
    modifies slots
    ensures opts == LaunchOptions(input, debug, count)
    ensures var r := Browser.RunSpec(Pipeline(pre, input, actions), s, old(slots.Values()));
      err == MapFinished(r.0) && slots.Values() == r.1
  {
    opts := BuildOptions(input, debug, count);
    var realActions := [Browser.Readiness(input.url, input.sleep)];
    var preActions := if pre.None? then [] else pre.value;
    realActions := preActions + realActions;
    realActions := realActions + actions;
    err := Browser.Run(realActions, s, slots);
    if err.Some? && err.value.Text() == "finished" {
      err := None;
    }
  }

  /** The pipeline's result: a launch failure, else the first failing
      pre-action, else the readiness outcome, else the caller's actions. */
  lemma PipelineOutcome(pre: Option<seq<Browser.Action>>, input: Models.ChromeActionInput, actions: seq<Browser.Action>,
                        s: Browser.Session, v: Browser.SlotValues)
    requires s.launch.None?
    ensures var p := if pre.None? then [] else pre.value;
      var r0 := Browser.Exec(p, s, v);
      var ready := Worker.Readiness(input.url, input.sleep, s.worker, true);
      Browser.RunSpec(Pipeline(pre, input, actions), s, v) ==
        if r0.0.Some? then r0
        else if ready.Some? then (ready, r0.1)
        else Browser.Exec(actions, s, r0.1)
  {
    var p := if pre.None? then [] else pre.value;
    var r := [Browser.Readiness(input.url, input.sleep)];
    Browser.ExecAppend(p + r, actions, s, v);
    Browser.ExecAppend(p, r, s, v);
    var r0 := Browser.Exec(p, s, v);
    assert r[1..] == [];
  }

  /** Nil pre-actions and an empty list give the same pipeline. */
  lemma NilPreActions(input: Models.ChromeActionInput, actions: seq<Browser.Action>)
    ensures Pipeline(None, input, actions) == Pipeline(Some([]), input, actions)
    ensures Pipeline(None, input, actions) == [Browser.Readiness(input.url, input.sleep)] + actions
  {
  }

  /** With genuine browser answers the readiness action never reports the
      worker's own `finished` sentinel; a timeout lets the caller's actions run.
      A browser error whose text happens to be `finished` is still turned into
      success by the mapping, wherever it comes from. */
  lemma ReadinessNeverMapped(input: Models.ChromeActionInput, s: Browser.Session)
    requires Worker.Genuine(s.worker)
    ensures var ready := Worker.Readiness(input.url, input.sleep, s.worker, true);
      ready != Some(Finished) && (s.worker.timerFirst ==> ready.None?)
  {
    Worker.NeverFinished(input.url, input.sleep, s.worker, true);
    Worker.ReadinessDecided(input.url, input.sleep, s.worker, true);
  }
}
