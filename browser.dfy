/** chromedp as the rest of the program sees it: lists of actions run in order
    against a browser whose answers are given, stopping at the first error.
    Actions that capture something write it into output slots, which stand for
    the variables the caller passes by pointer. */
module Browser {

  import opened Base
  import Worker

  /** The actions the program builds. `Custom` is any other action, given by the
      outcome it has. */
  datatype Action =
    | Readiness(url: string, sleep: int) // the readiness action of the package version
    | LegacyReadiness(url: string)       // the readiness action of the older version in main.go
    | Sleep(seconds: int)
    | CaptureScreenshot                  // writes the buffer slot
    | FullScreenshot(quality: int)       // writes the buffer slot
    | Title                              // writes the title slot
    | Location                           // writes the location slot
    | DocumentHtml                       // GetDocument then GetOuterHTML; writes the html slot
    | Navigate(url: string)
    | Custom(outcome: Option<Error>)

  /** The answer to GetOuterHTML: Go assigns the returned text whatever the error. */
  datatype OuterHtmlReply = OuterHtmlReply(html: string, err: Option<Error>)

  /** How the browser answers each kind of command during one run. */
  datatype Session = Session(
    launch: Option<Error>,          // starting the browser on the first Run
    worker: Worker.Outcomes,        // the commands of the readiness worker
    sleep: Option<Error>,
    capture: Result<seq<byte>>,
    fullCapture: Result<seq<byte>>,
    title: Result<string>,
    location: Result<string>,
    navigate: Option<Error>,
    document: Option<Error>,
    outerHtml: OuterHtmlReply)

  /** The values held by the output slots. */
  datatype SlotValues = SlotValues(buf: seq<byte>, title: string, location: string, html: string)

  const Empty := SlotValues([], "", "", "")

  /** One action: its error, and the slots after it. A capture that fails leaves
      its slot as it was. */
  function Step(a: Action, s: Session, v: SlotValues): (Option<Error>, SlotValues) {
    match a
    case Readiness(url, sleep) => (Worker.Readiness(url, sleep, s.worker, true), v)
    case LegacyReadiness(url) => (Worker.Readiness(url, 0, s.worker, false), v)
    case Sleep(_) => (s.sleep, v)
    case CaptureScreenshot =>
      if s.capture.Ok? then (None, v.(buf := s.capture.value)) else (Some(s.capture.error), v)
    case FullScreenshot(_) =>
      if s.fullCapture.Ok? then (None, v.(buf := s.fullCapture.value)) else (Some(s.fullCapture.error), v)
    case Title =>
      if s.title.Ok? then (None, v.(title := s.title.value)) else (Some(s.title.error), v)
    case Location =>
      if s.location.Ok? then (None, v.(location := s.location.value)) else (Some(s.location.error), v)
    case DocumentHtml =>
      if s.document.Some? then (s.document, v)
      else (s.outerHtml.err, v.(html := s.outerHtml.html))
    case Navigate(_) => (s.navigate, v)
    case Custom(outcome) => (outcome, v)
  }

  /** The actions in order, stopping at the first error, which is the result. */
  function Exec(actions: seq<Action>, s: Session, v: SlotValues): (Option<Error>, SlotValues)
    decreases |actions|
  {
    if actions == [] then (None, v)
    else
      var r := Step(actions[0], s, v);
      if r.0.Some? then r else Exec(actions[1..], s, r.1)
  }

  /** `chromedp.Run`: the browser is started first, and a failure to start is
      the result. */
  function RunSpec(actions: seq<Action>, s: Session, v: SlotValues): (Option<Error>, SlotValues) {
    if s.launch.Some? then (s.launch, v) else Exec(actions, s, v)
  }

  /** The variables the actions write to through pointers. */
  class Slots {
    var buf: seq<byte>
    var title: string
    var location: string
    var html: string

    /** Fresh variables, holding Go's zero values. */
    constructor ()
      ensures Values() == Empty
    {
      buf, title, location, html := [], "", "", "";
    }

    function Values(): SlotValues
      reads this
    {
      SlotValues(buf, title, location, html)
    }

    /** Performs one action; the readiness action runs the worker and the race. */
    method Apply(a: Action, s: Session) returns (err: Option<Error>)
      modifies this
      ensures (err, Values()) == Step(a, s, old(Values()))
    {
      match a {
        case Readiness(url, sleep) =>
          var trace := Worker.Work(url, sleep, s.worker, true);
          err := Worker.Select(s.worker.timerFirst, Worker.Messages(trace));
        case LegacyReadiness(url) =>
          var trace := Worker.Work(url, 0, s.worker, false);
          err := Worker.Select(s.worker.timerFirst, Worker.Messages(trace));
        case Sleep(_) =>
          err := s.sleep;
        case CaptureScreenshot =>
          err := None;
          if s.capture.Ok? { buf := s.capture.value; } else { err := Some(s.capture.error); }
        case FullScreenshot(_) =>
          err := None;
          if s.fullCapture.Ok? { buf := s.fullCapture.value; } else { err := Some(s.fullCapture.error); }
        case Title =>
          err := None;
          if s.title.Ok? { title := s.title.value; } else { err := Some(s.title.error); }
        case Location =>
          err := None;
          if s.location.Ok? { location := s.location.value; } else { err := Some(s.location.error); }
        case DocumentHtml =>
          err := s.document;
          if err.None? {
            html := s.outerHtml.html;
            err := s.outerHtml.err;
          }
        case Navigate(_) =>
          err := s.navigate;
        case Custom(outcome) =>
          err := outcome;
      }
    }
  }

  /** `chromedp.Run`: starts the browser, then performs the actions in order until
      one fails. */
  method Run(actions: seq<Action>, s: Session, slots: Slots) returns (err: Option<Error>)
    modifies slots
    ensures (err, slots.Values()) == RunSpec(actions, s, old(slots.Values()))
  {
    if s.launch.Some? {
      return s.launch;
    }
    var i := 0;
    while i < |actions|
      invariant 0 <= i <= |actions|
      invariant Exec(actions, s, old(slots.Values())) == Exec(actions[i..], s, slots.Values())
      decreases |actions| - i
    {
      assert actions[i..][1..] == actions[i + 1..];
      err := slots.Apply(actions[i], s);
      if err.Some? {
        return;
      }
      i := i + 1;
    }
    return None;
  }

  /** Running two lists one after the other: the second runs only when the
      first succeeds, and starts from the slots the first left. */
  lemma {:induction false} ExecAppend(a: seq<Action>, b: seq<Action>, s: Session, v: SlotValues)
    ensures Exec(a + b, s, v) ==
      var r := Exec(a, s, v);
      if r.0.Some? then r else Exec(b, s, r.1)
    decreases |a|
  {
    if a == [] {
      assert a + b == b;
    } else {
      assert (a + b)[0] == a[0];
      assert (a + b)[1..] == a[1..] + b;
      ExecAppend(a[1..], b, s, Step(a[0], s, v).1);
    }
  }

  /** Only capturing actions write slots, each its own one. */
  lemma StepWrites(a: Action, s: Session, v: SlotValues)
    ensures var w := Step(a, s, v).1;
      (w.buf != v.buf ==> a.CaptureScreenshot? || a.FullScreenshot?)
      && (w.title != v.title ==> a.Title?)
      && (w.location != v.location ==> a.Location?)
      && (w.html != v.html ==> a.DocumentHtml?)
  {
  }

  /** A failed lookup of the document stops the action before the html slot is
      written. */
  lemma DocumentFailureKeepsHtml(s: Session, v: SlotValues)
    requires s.document.Some?
    ensures Step(DocumentHtml, s, v) == (s.document, v)
  {
  }
}
