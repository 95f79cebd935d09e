/** `RenderDom` of the render_dom package: the page's serialised document,
    title and location after the readiness action. */
module RenderDom {

  import opened Base
  import Models
  import Browser
  import ChromeAction
  import Worker

  /** The caller's actions, appended one by one: the document's outer HTML, the
      title, the location. */
  method BuildActions() returns (actions: seq<Browser.Action>)
    ensures actions == [Browser.DocumentHtml, Browser.Title, Browser.Location]
  {
    actions := [];
    actions := actions + [Browser.DocumentHtml];
    actions := actions + [Browser.Title];
    actions := actions + [Browser.Location];
  }

  /** The page pipeline: no pre-actions, the readiness action, then the three
      actions above. */
  function PageRun(options: Models.ChromeParam, env: ChromeAction.Env): (Option<Error>, Browser.SlotValues) {
    Browser.RunSpec(ChromeAction.Pipeline(None, options.input,
      [Browser.DocumentHtml, Browser.Title, Browser.Location]), env.page, Browser.Empty)
  }

  /** What `RenderDom` returns. */
  function Outcome(options: Models.ChromeParam, env: ChromeAction.Env): (Option<Models.RenderDomOutput>, Option<Error>) {
    var r := PageRun(options, env);
    var e := ChromeAction.MapFinished(r.0);
    if e.Some? then (None, Some(Errorf("RenderDom failed(", e.value, "): ", options.input.url)))
    else (Some(Models.RenderDomOutput(r.1.html, r.1.title, r.1.location)), None)
  }

  /** `RenderDom`. */
  method RenderDom(options: Models.ChromeParam, env: ChromeAction.Env)
    returns (out: Option<Models.RenderDomOutput>, err: Option<Error>)
    requires ChromeAction.Launchable(env)
    ensures (out, err) == Outcome(options, env)
  {
    var actions := BuildActions();
    var slots := new Browser.Slots();
    var opts;
    opts, err := ChromeAction.ChromeActions(options.input, None, actions, env.debug, env.defaultCount, env.page, slots);
    if err.Some? {
      return None, Some(Errorf("RenderDom failed(", err.value, "): ", options.input.url));
    }
    out := Some(Models.RenderDomOutput(slots.html, slots.title, slots.location));
  }

  /** The readiness action's outcome for this request. */
  function Ready(options: Models.ChromeParam, env: ChromeAction.Env): Option<Error> {
    Worker.Readiness(options.input.url, options.input.sleep, env.page.worker, true)
  }

  /** Exactly one of output and error is present; the error wraps the cause
      and names the URL. */
  lemma OutcomeShape(options: Models.ChromeParam, env: ChromeAction.Env)
    ensures var (out, err) := Outcome(options, env);
      (out.None? <==> err.Some?)
      && (err.Some? ==>
            err.value.Wrapped?
            && err.value.Text() == "RenderDom failed(" + err.value.inner.Text() + "): " + options.input.url)
  {
  }

  /** The runs of the three actions after a successful readiness action. */
  lemma ActionsRun(options: Models.ChromeParam, env: ChromeAction.Env)
    requires env.page.launch.None? && Ready(options, env).None?
    ensures PageRun(options, env) == Browser.Exec([Browser.DocumentHtml, Browser.Title, Browser.Location], env.page, Browser.Empty)
  {
    ChromeAction.PipelineOutcome(None, options.input, [Browser.DocumentHtml, Browser.Title, Browser.Location], env.page, Browser.Empty);
    assert Browser.Exec([], env.page, Browser.Empty) == (None, Browser.Empty);
  }

  /** When every command succeeds, the output holds the document's outer HTML,
      the title and the location the browser reported. */
  lemma RenderedValues(options: Models.ChromeParam, env: ChromeAction.Env)
    requires env.page.launch.None? && Ready(options, env).None?
    requires env.page.document.None? && env.page.outerHtml.err.None?
    requires env.page.title.Ok? && env.page.location.Ok?
    ensures Outcome(options, env) == (Some(Models.RenderDomOutput(
      env.page.outerHtml.html, env.page.title.value, env.page.location.value)), None)
  {
    ActionsRun(options, env);
    var actions := [Browser.DocumentHtml, Browser.Title, Browser.Location];
    assert actions[1..] == [Browser.Title, Browser.Location];
    assert actions[1..][1..] == [Browser.Location];
  }

  /** A failed document lookup (with the text of anything but `finished`) is
      reported wrapped, and neither the title nor the location is read. */
  lemma DocumentFailure(options: Models.ChromeParam, env: ChromeAction.Env)
    requires env.page.launch.None? && Ready(options, env).None?
    requires env.page.document.Some? && env.page.document.value.Text() != "finished"
    ensures PageRun(options, env) == (env.page.document, Browser.Empty)
    ensures Outcome(options, env) == (None, Some(Errorf("RenderDom failed(", env.page.document.value, "): ", options.input.url)))
  {
    ActionsRun(options, env);
  }

  /** A failure of the readiness action (other than `finished`) is reported
      wrapped, and nothing is read from the page. */
  lemma ReadinessFailure(options: Models.ChromeParam, env: ChromeAction.Env)
    requires env.page.launch.None? && Ready(options, env).Some?
    requires Ready(options, env).value.Text() != "finished"
    ensures PageRun(options, env) == (Ready(options, env), Browser.Empty)
    ensures Outcome(options, env) == (None, Some(Errorf("RenderDom failed(", Ready(options, env).value, "): ", options.input.url)))
  {
    ChromeAction.PipelineOutcome(None, options.input, [Browser.DocumentHtml, Browser.Title, Browser.Location], env.page, Browser.Empty);
    assert Browser.Exec([], env.page, Browser.Empty) == (None, Browser.Empty);
  }
}
