/** `ScreenshotURL` of the screenshot package: capture, title and location
    after the readiness action, optionally re-photographed inside the overlay
    page that shows the URL. */
module Screenshot {

  import opened Base
  import Models
  import Browser
  import ChromeAction
  import Overlay
  import Worker

  /** The caller's actions, appended one by one: capture, title, location. */
  method BuildActions() returns (actions: seq<Browser.Action>)
    ensures actions == [Browser.CaptureScreenshot, Browser.Title, Browser.Location]
  {
    actions := [];
    actions := actions + [Browser.CaptureScreenshot];
    actions := actions + [Browser.Title];
    actions := actions + [Browser.Location];
  }

  /** The tasks that photograph a page: navigate to it, then capture. The
      quality argument is not used. */
  function FullScreenshot(urlstr: string, quality: int): (tasks: seq<Browser.Action>)
    ensures tasks != [] && tasks[0] == Browser.Navigate(urlstr)
    ensures Browser.CaptureScreenshot in tasks
    ensures forall a :: a in tasks ==> !a.FullScreenshot?
  {
    [Browser.Navigate(urlstr), Browser.CaptureScreenshot]
  }

  /** The quality given makes no difference to the tasks. */
  lemma FullScreenshotIgnoresQuality(urlstr: string, q1: int, q2: int)
    ensures FullScreenshot(urlstr, q1) == FullScreenshot(urlstr, q2)
    ensures FullScreenshot(urlstr, q1)[0] == Browser.Navigate(urlstr)
  {
  }

  /** Photographing the overlay page written to the temporary file. */
  function OverlayShot(env: ChromeAction.Env): (Option<Error>, Browser.SlotValues) {
    Browser.RunSpec(FullScreenshot("file://" + env.tempFile, 100), env.overlay, Browser.Empty)
  }

  /** `AddUrlToTitle`: the overlay page (which is written to the temporary
      file) and the picture captured of it, or the capture's error. */
  method AddUrlToTitle(url: string, picBuf: seq<byte>, hasTimeStamp: bool, env: ChromeAction.Env)
    returns (html: string, result: Option<seq<byte>>, err: Option<Error>)
    ensures html == Overlay.Document(Overlay.Page, url, picBuf, if hasTimeStamp then Some(env.now) else None)
    ensures var r := OverlayShot(env);
      if r.0.Some? then result.None? && err == r.0 else result == Some(r.1.buf) && err.None?
  {
    html := Overlay.Build(Overlay.Page, url, picBuf, hasTimeStamp, env.now);
    var slots := new Browser.Slots();
    err := Browser.Run(FullScreenshot("file://" + env.tempFile, 100), env.overlay, slots);
    if err.Some? {
      return html, None, err;
    }
    result := Some(slots.buf);
  }

  /** The page pipeline: no pre-actions, the readiness action, then capture,
      title and location. */
  function PageRun(options: Models.ChromeParam, env: ChromeAction.Env): (Option<Error>, Browser.SlotValues) {
    Browser.RunSpec(ChromeAction.Pipeline(None, options.input,
      [Browser.CaptureScreenshot, Browser.Title, Browser.Location]), env.page, Browser.Empty)
  }

  /** What `ScreenshotURL` returns. */
  function Outcome(options: Models.ChromeParam, env: ChromeAction.Env): (Option<Models.ScreenshotOutput>, Option<Error>) {
    var r := PageRun(options, env);
    var e := ChromeAction.MapFinished(r.0);
    if e.Some? then (None, Some(Errorf("screenShot failed(", e.value, "): ", options.input.url)))
    else if !options.addUrl then (Some(Models.ScreenshotOutput(r.1.buf, r.1.title, r.1.location)), None)
    else
      var a := OverlayShot(env);
      if a.0.Some? then (None, Some(Errorf("add url title failed(", a.0.value, "): ", options.input.url)))
      else (Some(Models.ScreenshotOutput(a.1.buf, r.1.title, r.1.location)), None)
  }

  /** `ScreenshotURL`. */
  method ScreenshotURL(options: Models.ChromeParam, env: ChromeAction.Env)
    returns (out: Option<Models.ScreenshotOutput>, err: Option<Error>)
    requires ChromeAction.Launchable(env)
    ensures (out, err) == Outcome(options, env)
  {
    var actions := BuildActions();
    var slots := new Browser.Slots();
    var opts;
    opts, err := ChromeAction.ChromeActions(options.input, None, actions, env.debug, env.defaultCount, env.page, slots);
    if err.Some? {
      return None, Some(Errorf("screenShot failed(", err.value, "): ", options.input.url));
    }
    var buf := slots.buf;
    if options.addUrl {
      var html, tmp, err2 := AddUrlToTitle(options.input.url, buf, options.addTimeStamp, env);
      if err2.Some? {
        return None, Some(Errorf("add url title failed(", err2.value, "): ", options.input.url));
      }
      buf := tmp.value;
    }
    out := Some(Models.ScreenshotOutput(buf, slots.title, slots.location));
  }

  /** Exactly one of output and error is present; the error keeps the cause and
      names the URL. */
  lemma OutcomeShape(options: Models.ChromeParam, env: ChromeAction.Env)
    ensures var (out, err) := Outcome(options, env);
      (out.None? <==> err.Some?)
      && (err.Some? ==>
            err.value.Wrapped?
            && (err.value.Text() == "screenShot failed(" + err.value.inner.Text() + "): " + options.input.url
                || err.value.Text() == "add url title failed(" + err.value.inner.Text() + "): " + options.input.url))
  {
  }

  /** The readiness action's outcome for this request. */
  function Ready(options: Models.ChromeParam, env: ChromeAction.Env): Option<Error> {
    Worker.Readiness(options.input.url, options.input.sleep, env.page.worker, true)
  }

  /** When every command succeeds, the output holds the captured picture (or,
      with `addUrl`, the picture of the overlay page), the title and the
      location the browser reported. */
  lemma CapturedValues(options: Models.ChromeParam, env: ChromeAction.Env)
    requires env.page.launch.None? && Ready(options, env).None?
    requires env.page.capture.Ok? && env.page.title.Ok? && env.page.location.Ok?
    requires options.addUrl ==> env.overlay.launch.None? && env.overlay.navigate.None? && env.overlay.capture.Ok?
    ensures Outcome(options, env) == (Some(Models.ScreenshotOutput(
      if options.addUrl then env.overlay.capture.value else env.page.capture.value,
      env.page.title.value, env.page.location.value)), None)
  {
    var actions := [Browser.CaptureScreenshot, Browser.Title, Browser.Location];
    ChromeAction.PipelineOutcome(None, options.input, actions, env.page, Browser.Empty);
    assert Browser.Exec([], env.page, Browser.Empty) == (None, Browser.Empty);
    assert actions[1..] == [Browser.Title, Browser.Location];
    assert actions[1..][1..] == [Browser.Location];
    if options.addUrl {
      var tasks := FullScreenshot("file://" + env.tempFile, 100);
      assert tasks[1..] == [Browser.CaptureScreenshot];
      assert [Browser.CaptureScreenshot][1..] == [];
      assert Browser.Exec(tasks, env.overlay, Browser.Empty)
        == (None, Browser.Empty.(buf := env.overlay.capture.value));
    }
  }

  /** A readiness failure is reported wrapped, and nothing is captured. */
  lemma ReadinessFailure(options: Models.ChromeParam, env: ChromeAction.Env)
    requires env.page.launch.None? && Ready(options, env).Some?
    requires Ready(options, env).value.Text() != "finished"
    ensures PageRun(options, env) == (Ready(options, env), Browser.Empty)
    ensures Outcome(options, env) == (None, Some(Errorf("screenShot failed(", Ready(options, env).value, "): ", options.input.url)))
  {
    ChromeAction.PipelineOutcome(None, options.input, [Browser.CaptureScreenshot, Browser.Title, Browser.Location], env.page, Browser.Empty);
    assert Browser.Exec([], env.page, Browser.Empty) == (None, Browser.Empty);
  }

  /** With `addUrl`, a page run that succeeded and an overlay capture that failed
      give the `add url title failed(...)` error, wrapping the overlay's error. */
  lemma OverlayFailure(options: Models.ChromeParam, env: ChromeAction.Env)
    requires options.addUrl && ChromeAction.MapFinished(PageRun(options, env).0).None?
    requires OverlayShot(env).0.Some?
    ensures Outcome(options, env) == (None, Some(Errorf("add url title failed(", OverlayShot(env).0.value, "): ", options.input.url)))
  {
  }
}
