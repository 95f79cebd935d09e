/** The HTTP service in main.go: its own, older pipeline (`chromeActions`), the
    two entry points built on it (`screenshotURL`, `renderURLDOM`), its own
    overlay step (`AddUrlToTitle` with `fullScreenshot`), and the replies the
    `/screenshot` and `/renderDom` handlers write. */
module Server {

  import opened Base
  import Models
  import Browser
  import ChromeAction
  import Worker
  import Overlay
  import Network
  import Base64
  import Json

  /** The older pipeline: only the readiness action of this version, then the
      caller's actions; there are no pre-actions. */
  function LegacyPipeline(input: Models.ChromeActionInput, actions: seq<Browser.Action>): seq<Browser.Action> {
    [Browser.LegacyReadiness(input.url)] + actions
  }

  /** `chromeActions`: the same option list as the package version, then the
      older pipeline. The error `Run` returns is returned as it is. */
  method LegacyChromeActions(input: Models.ChromeActionInput, actions: seq<Browser.Action>,
                             debug: bool, count: nat, s: Browser.Session, slots: Browser.Slots)
    returns (opts: seq<ChromeAction.ExecOpt>, err: Option<Error>)
    requires debug ==> count >= 3
    modifies slots
    ensures opts == ChromeAction.LaunchOptions(input, debug, count)
    ensures (err, slots.Values()) == Browser.RunSpec(LegacyPipeline(input, actions), s, old(slots.Values()))
  {
    opts := ChromeAction.BuildOptions(input, debug, count);
    var realActions := [Browser.LegacyReadiness(input.url)];
    realActions := realActions + actions;
    err := Browser.Run(realActions, s, slots);
  }

  /** The older readiness action: nil when the timer wins, else the navigation
      error, else the outcome of waiting for the body. */
  function LegacyReady(input: Models.ChromeActionInput, s: Browser.Session): Option<Error> {
    Worker.Readiness(input.url, 0, s.worker, false)
  }

  /** The older pipeline's result: a launch failure, else the readiness
      outcome, else the caller's actions. */
  lemma LegacyPipelineOutcome(input: Models.ChromeActionInput, actions: seq<Browser.Action>, s: Browser.Session, v: Browser.SlotValues)
    requires s.launch.None?
    ensures LegacyReady(input, s) ==
      if s.worker.timerFirst then None else if s.worker.navigate.Some? then s.worker.navigate else s.worker.waitBody
    ensures Browser.RunSpec(LegacyPipeline(input, actions), s, v) ==
      if LegacyReady(input, s).Some? then (LegacyReady(input, s), v) else Browser.Exec(actions, s, v)
  {
    Worker.ReadinessDecided(input.url, 0, s.worker, false);
    assert LegacyPipeline(input, actions)[1..] == actions;
  }

  /** Unlike the package version, the older pipeline does not turn an error
      whose text is `finished` into success. */
  lemma LegacyKeepsFinishedText(input: Models.ChromeActionInput, s: Browser.Session, v: Browser.SlotValues)
    requires s.launch.None? && LegacyReady(input, s).None?
    requires Worker.Readiness(input.url, input.sleep, s.worker, true).None?
    ensures Browser.RunSpec(LegacyPipeline(input, [Browser.Custom(Some(Error("finished")))]), s, v).0 == Some(Error("finished"))
    ensures ChromeAction.MapFinished(Browser.RunSpec(ChromeAction.Pipeline(None, input, [Browser.Custom(Some(Error("finished")))]), s, v).0).None?
  {
    var actions := [Browser.Custom(Some(Error("finished")))];
    LegacyPipelineOutcome(input, actions, s, v);
    ChromeAction.PipelineOutcome(None, input, actions, s, v);
    assert Browser.Exec([], s, v) == (None, v);
  }

  /** The optional sleep, appended first when the request asks for one. */
  function SleepFirst(sleep: int): seq<Browser.Action> {
    if sleep > 0 then [Browser.Sleep(sleep)] else []
  }

  /** `screenshotURL`'s actions, appended one by one. */
  method ScreenshotActions(sleep: int) returns (actions: seq<Browser.Action>)
    ensures actions == SleepFirst(sleep) + [Browser.CaptureScreenshot, Browser.Title, Browser.Location]
  {
    actions := [];
    if sleep > 0 {
      actions := actions + [Browser.Sleep(sleep)];
    }
    actions := actions + [Browser.CaptureScreenshot];
    actions := actions + [Browser.Title];
    actions := actions + [Browser.Location];
  }

  /** `renderURLDOM`'s actions, appended one by one. */
  method RenderActions(sleep: int) returns (actions: seq<Browser.Action>)
    ensures actions == SleepFirst(sleep) + [Browser.DocumentHtml, Browser.Title, Browser.Location]
  {
    actions := [];
    if sleep > 0 {
      actions := actions + [Browser.Sleep(sleep)];
    }
    actions := actions + [Browser.DocumentHtml];
    actions := actions + [Browser.Title];
    actions := actions + [Browser.Location];
  }

  /** The sleep action is present exactly when the request asks for a positive
      sleep, and it always comes first. */
  lemma SleepFirstShape(sleep: int, rest: seq<Browser.Action>)
    ensures Browser.Sleep(sleep) in SleepFirst(sleep) + rest <==> sleep > 0 || Browser.Sleep(sleep) in rest
    ensures sleep > 0 ==> (SleepFirst(sleep) + rest)[0] == Browser.Sleep(sleep) && (SleepFirst(sleep) + rest)[1..] == rest
    ensures sleep <= 0 ==> SleepFirst(sleep) + rest == rest
  {
  }

  /** `fullScreenshot`: navigate, then a full-page capture at the given quality. */
  function FullScreenshotTasks(urlstr: string, quality: int): (tasks: seq<Browser.Action>)
    ensures tasks != [] && tasks[0] == Browser.Navigate(urlstr)
    ensures Browser.FullScreenshot(quality) in tasks && Browser.CaptureScreenshot !in tasks
  {
    [Browser.Navigate(urlstr), Browser.FullScreenshot(quality)]
  }

  /** Photographing the overlay page written to the temporary file. */
  function OverlayShot(env: ChromeAction.Env): (Option<Error>, Browser.SlotValues) {
    Browser.RunSpec(FullScreenshotTasks("file://" + env.tempFile, 100), env.overlay, Browser.Empty)
  }

  /** `AddUrlToTitle`: the overlay page and the full-page capture of it, or the
      capture's error. A failure to write the temporary file is overwritten by the
      capture's outcome. */
  method AddUrlToTitle(url: string, picBuf: seq<byte>, hasTimeStamp: bool, env: ChromeAction.Env)
    returns (html: string, result: Option<seq<byte>>, err: Option<Error>)
    ensures html == Overlay.Document(Overlay.Page, url, picBuf, if hasTimeStamp then Some(env.now) else None)
    ensures var r := OverlayShot(env);
      if r.0.Some? then result.None? && err == r.0 else result == Some(r.1.buf) && err.None?
  {
    html := Overlay.Build(Overlay.Page, url, picBuf, hasTimeStamp, env.now);
    var slots := new Browser.Slots();
    err := Browser.Run(FullScreenshotTasks("file://" + env.tempFile, 100), env.overlay, slots);
    if err.Some? {
      return html, None, err;
    }
    result := Some(slots.buf);
  }

  /** A started browser that navigates to the file gives the full-page capture
      taken at quality 100. */
  lemma OverlayShotValue(env: ChromeAction.Env)
    requires env.overlay.launch.None? && env.overlay.navigate.None? && env.overlay.fullCapture.Ok?
    ensures OverlayShot(env) == (None, Browser.Empty.(buf := env.overlay.fullCapture.value))
    ensures FullScreenshotTasks("file://" + env.tempFile, 100)[1] == Browser.FullScreenshot(100)
  {
    var tasks := FullScreenshotTasks("file://" + env.tempFile, 100);
    assert tasks[1..] == [Browser.FullScreenshot(100)];
    assert [Browser.FullScreenshot(100)][1..] == [];
    assert Browser.Exec(tasks, env.overlay, Browser.Empty)
      == (None, Browser.Empty.(buf := env.overlay.fullCapture.value));
  }

  /** The run of `screenshotURL`'s pipeline. */
  function ShotRun(options: Models.ChromeParam, env: ChromeAction.Env): (Option<Error>, Browser.SlotValues) {
    Browser.RunSpec(LegacyPipeline(options.input,
      SleepFirst(options.input.sleep) + [Browser.CaptureScreenshot, Browser.Title, Browser.Location]), env.page, Browser.Empty)
  }

  /** What `screenshotURL` returns. */
  function ShotOutcome(options: Models.ChromeParam, env: ChromeAction.Env): (Option<Models.ScreenshotOutput>, Option<Error>) {
    var r := ShotRun(options, env);
    if r.0.Some? then (None, Some(Errorf("screenShot failed(", r.0.value, "): ", options.input.url)))
    else if !options.addUrl then (Some(Models.ScreenshotOutput(r.1.buf, r.1.title, r.1.location)), None)
    else
      var a := OverlayShot(env);
      if a.0.Some? then (None, Some(Errorf("add url title failed(", a.0.value, "): ", options.input.url)))
      else (Some(Models.ScreenshotOutput(a.1.buf, r.1.title, r.1.location)), None)
  }

  /** `screenshotURL`. */
  method ScreenshotURL(options: Models.ChromeParam, env: ChromeAction.Env)
    returns (out: Option<Models.ScreenshotOutput>, err: Option<Error>)
    requires ChromeAction.Launchable(env)
    ensures (out, err) == ShotOutcome(options, env)
  {
    var actions := ScreenshotActions(options.input.sleep);
    var slots := new Browser.Slots();
    var opts;
    opts, err := LegacyChromeActions(options.input, actions, env.debug, env.defaultCount, env.page, slots);
    if err.Some? {
      return None, Some(Errorf("screenShot failed(", err.value, "): ", options.input.url));
    }
    var buf := slots.buf;
    if options.addUrl {
      var html, tmp, err2 := AddUrlToTitle(options.input.url, buf, options.addTimeStamp, env);
      if err2.Some? {
        return None, Some(Errorf("add url title failed(", err2.value, "): ", options.input.url));
      }
      buf := tmp.value;
    }
    out := Some(Models.ScreenshotOutput(buf, slots.title, slots.location));
  }

  /** The run of `renderURLDOM`'s pipeline. */
  function DomRun(options: Models.ChromeParam, env: ChromeAction.Env): (Option<Error>, Browser.SlotValues) {
    Browser.RunSpec(LegacyPipeline(options.input,
      SleepFirst(options.input.sleep) + [Browser.DocumentHtml, Browser.Title, Browser.Location]), env.page, Browser.Empty)
  }

  /** What `renderURLDOM` returns. */
  function DomOutcome(options: Models.ChromeParam, env: ChromeAction.Env): (Option<Models.RenderDomOutput>, Option<Error>) {
    var r := DomRun(options, env);
    if r.0.Some? then (None, Some(Errorf("renderURLDOM failed(", r.0.value, "): ", options.input.url)))
    else (Some(Models.RenderDomOutput(r.1.html, r.1.title, r.1.location)), None)
  }

  /** `renderURLDOM`. */
  method RenderURLDOM(options: Models.ChromeParam, env: ChromeAction.Env)
    returns (out: Option<Models.RenderDomOutput>, err: Option<Error>)
    requires ChromeAction.Launchable(env)
    ensures (out, err) == DomOutcome(options, env)
  {
    var actions := RenderActions(options.input.sleep);
    var slots := new Browser.Slots();
    var opts;
    opts, err := LegacyChromeActions(options.input, actions, env.debug, env.defaultCount, env.page, slots);
    if err.Some? {
      return None, Some(Errorf("renderURLDOM failed(", err.value, "): ", options.input.url));
    }
    out := Some(Models.RenderDomOutput(slots.html, slots.title, slots.location));
  }

  /** Exactly one of output and error is present; the error wraps the cause and
      names the URL. */
  lemma OutcomeShapes(options: Models.ChromeParam, env: ChromeAction.Env)
    ensures var (out, err) := ShotOutcome(options, env);
      (out.None? <==> err.Some?)
      && (err.Some? ==>
            err.value.Wrapped?
            && (err.value.Text() == "screenShot failed(" + err.value.inner.Text() + "): " + options.input.url
                || err.value.Text() == "add url title failed(" + err.value.inner.Text() + "): " + options.input.url))
    ensures var (out, err) := DomOutcome(options, env);
      (out.None? <==> err.Some?)
      && (err.Some? ==>
            err.value.Wrapped?
            && err.value.Text() == "renderURLDOM failed(" + err.value.inner.Text() + "): " + options.input.url)
  {
  }

  /** A sleep that fails stops `renderURLDOM` before the document is read. */
  lemma SleepFailureStopsRender(options: Models.ChromeParam, env: ChromeAction.Env)
    requires env.page.launch.None? && LegacyReady(options.input, env.page).None?
    requires options.input.sleep > 0 && env.page.sleep.Some?
    ensures DomRun(options, env) == (env.page.sleep, Browser.Empty)
    ensures DomOutcome(options, env) == (None, Some(Errorf("renderURLDOM failed(", env.page.sleep.value, "): ", options.input.url)))
  {
    var actions := SleepFirst(options.input.sleep) + [Browser.DocumentHtml, Browser.Title, Browser.Location];
    LegacyPipelineOutcome(options.input, actions, env.page, Browser.Empty);
    assert actions[0] == Browser.Sleep(options.input.sleep);
  }

  /** A failed document lookup returns before the outer HTML is read: the html
      slot stays empty and title and location are not read. */
  lemma DocumentFailureStopsRender(options: Models.ChromeParam, env: ChromeAction.Env)
    requires env.page.launch.None? && LegacyReady(options.input, env.page).None?
    requires options.input.sleep > 0 ==> env.page.sleep.None?
    requires env.page.document.Some?
    ensures DomRun(options, env) == (env.page.document, Browser.Empty)
  {
    var rest := [Browser.DocumentHtml, Browser.Title, Browser.Location];
    var actions := SleepFirst(options.input.sleep) + rest;
    LegacyPipelineOutcome(options.input, actions, env.page, Browser.Empty);
    if options.input.sleep > 0 {
      assert actions[1..] == rest;
    } else {
      assert actions == rest;
    }
  }

  /** A reply reporting a failure. */
  function Failure(e: Error): Models.Result {
    Models.Result(500, e.Text(), "", "", "", "")
  }

  /** The `/screenshot` reply for a decoded request body. */
  function ScreenshotReply(decoded: Result<Models.ChromeParam>, env: ChromeAction.Env): Models.Result {
    if decoded.Err? then Failure(decoded.error)
    else
      var options := Network.WithDefaultTimeout(decoded.value);
      var (out, err) := ShotOutcome(options, env);
      if err.Some? then Failure(err.value)
      else Models.Result(200, "", options.input.url, Base64.Encode(out.value.data), out.value.title, out.value.location)
  }

  /** The `/renderDom` reply for a decoded request body. */
  function RenderDomReply(decoded: Result<Models.ChromeParam>, env: ChromeAction.Env): Models.Result {
    if decoded.Err? then Failure(decoded.error)
    else
      var options := Network.WithDefaultTimeout(decoded.value);
      var (out, err) := DomOutcome(options, env);
      if err.Some? then Failure(err.value)
      else Models.Result(200, "", options.input.url, out.value.html, out.value.title, out.value.location)
  }

  /** The `/screenshot` handler: the reply and the body written. */
  method HandleScreenshot(decoded: Result<Models.ChromeParam>, env: ChromeAction.Env)
    returns (reply: Models.Result, body: string)
    requires ChromeAction.Launchable(env)
    ensures reply == ScreenshotReply(decoded, env) && body == Models.Bytes(reply)
  {
    var options, err := Network.GetOptionFromRequest(decoded);
    if options.None? {
      reply := Failure(err.value);
    } else {
      var out, err2 := ScreenshotURL(options.value, env);
      if err2.Some? {
        reply := Failure(err2.value);
      } else {
        reply := Models.Result(200, "", options.value.input.url, Base64.Encode(out.value.data), out.value.title, out.value.location);
      }
    }
    body := Models.Bytes(reply);
  }

  /** The `/renderDom` handler: the reply and the body written. */
  method HandleRenderDom(decoded: Result<Models.ChromeParam>, env: ChromeAction.Env)
    returns (reply: Models.Result, body: string)
    requires ChromeAction.Launchable(env)
    ensures reply == RenderDomReply(decoded, env) && body == Models.Bytes(reply)
  {
    var options, err := Network.GetOptionFromRequest(decoded);
    if options.None? {
      reply := Failure(err.value);
    } else {
      var out, err2 := RenderURLDOM(options.value, env);
      if err2.Some? {
        reply := Failure(err2.value);
      } else {
        reply := Models.Result(200, "", options.value.input.url, out.value.html, out.value.title, out.value.location);
      }
    }
    body := Models.Bytes(reply);
  }

  /** A `/screenshot` reply is 500 with the error's text exactly when decoding or
      the entry point failed, and otherwise 200 with the request's URL, the
      picture in base64 and the page's title and location. */
  lemma ScreenshotReplyCases(decoded: Result<Models.ChromeParam>, env: ChromeAction.Env)
    ensures var reply := ScreenshotReply(decoded, env);
      if decoded.Err? then reply == Failure(decoded.error)
      else
        var options := Network.WithDefaultTimeout(decoded.value);
        var (out, err) := ShotOutcome(options, env);
        (reply.code == 500 <==> err.Some?)
        && (err.Some? ==> reply == Failure(err.value))
        && (err.None? ==>
              reply.code == 200 && reply.message == "" && reply.url == decoded.value.input.url
              && Base64.Decode(reply.data) == Some(out.value.data)
              && reply.title == out.value.title && reply.location == out.value.location)
  {
    if decoded.Ok? {
      var options := Network.WithDefaultTimeout(decoded.value);
      var (out, err) := ShotOutcome(options, env);
      OutcomeShapes(options, env);
      if err.None? {
        Base64.DecodeEncode(out.value.data);
      }
    }
  }

  /** A `/renderDom` reply is 500 with the error's text exactly when decoding or
      the entry point failed, and otherwise 200 with the request's URL and the
      page's html, title and location. */
  lemma RenderDomReplyCases(decoded: Result<Models.ChromeParam>, env: ChromeAction.Env)
    ensures var reply := RenderDomReply(decoded, env);
      if decoded.Err? then reply == Failure(decoded.error)
      else
        var options := Network.WithDefaultTimeout(decoded.value);
        var (out, err) := DomOutcome(options, env);
        (reply.code == 500 <==> err.Some?)
        && (err.Some? ==> reply == Failure(err.value))
        && (err.None? ==> reply == Models.Result(200, "", decoded.value.input.url,
              out.value.html, out.value.title, out.value.location))
  {
    if decoded.Ok? {
      OutcomeShapes(Network.WithDefaultTimeout(decoded.value), env);
    }
  }

  /** The body of a failure reply is a JSON object with exactly two members:
      the code 500 and the message, which is present even when empty. */
  lemma FailureBody(e: Error)
    ensures Json.ReadObject(Models.Bytes(Failure(e))) == Some([("code", Json.Int(500)), ("message", Json.Str(e.Text()))])
  {
    Models.BareBytes(Failure(e));
  }
}
