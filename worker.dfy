/** The readiness worker that opens every browser pipeline, and the race between
    its first message and the timer. The worker runs in its own goroutine and
    reports on a channel; here it is run to completion as a sequence of events
    (the commands it issues and the messages it sends), and the race is decided
    by a flag saying whether the timer fired first. */
module Worker {

  import opened Base
  import Strings

  /** What the browser answers to each command the worker issues, and who wins
      the race. */
  datatype Outcomes = Outcomes(
    navigate: Option<Error>,        // Navigate(url)
    waitBody: Option<Error>,        // WaitReady("body")
    outerHtml: Result<string>,      // OuterHTML("html") after the body is ready
    waitVisible: Option<Error>,     // WaitVisible("div") in the second pass
    outerHtmlAgain: Result<string>, // OuterHTML("html") in the second pass
    settle: Option<Error>,          // the settle Sleep(in.Sleep)
    timerFirst: bool)               // the timer fires before a message arrives

  /** The browser never answers with the worker's own `finished` value. */
  predicate Genuine(o: Outcomes) {
    o.navigate != Some(Finished) && o.waitBody != Some(Finished) && o.settle != Some(Finished)
  }

  datatype Event =
    | Navigated(url: string)
    | WaitedBody
    | FetchedHtml
    | WaitedVisible
    | FetchedHtmlAgain
    | Slept(seconds: int)
    | Sent(msg: Option<Error>)

  /** The heuristic for pages built by a script framework, on lower-cased HTML:
      it mentions `javascript`, or holds a closing script tag followed by an
      apostrophe (a plain `</script>` does not count). */
  function FrameworkMarker(low: string): (b: bool)
    ensures b <==> (exists i :: 0 <= i && i + 10 <= |low| &&
                      (Strings.IsPrefix("javascript", low[i..]) || Strings.IsPrefix("</script>'", low[i..])))
  {
    Strings.ContainsAt(low, "javascript");
    Strings.ContainsAt(low, "</script>'");
    Strings.Contains(low, "javascript") || Strings.Contains(low, "</script>'")
  }

  /** The HTML the worker has read when it applies the heuristic: the page's
      outer HTML when the body became ready and the read succeeded, else empty. */
  function FirstHtml(o: Outcomes): string {
    if o.waitBody.None? && o.outerHtml.Ok? then o.outerHtml.value else ""
  }

  predicate SecondPass(o: Outcomes) {
    FrameworkMarker(Strings.ToLower(FirstHtml(o)))
  }

  /** Everything the worker does, in order; `settles` selects the package version,
      which after reporting sleeps, reports a sleep failure and then `finished`. */
  function Trace(url: string, sleep: int, o: Outcomes, settles: bool): seq<Event> {
    Navigation(url, o) + Reading(o) + [Sent(o.waitBody)] + (if settles then Settle(sleep, o) else [])
  }

  /** Navigating, and reporting a navigation failure at once. */
  function Navigation(url: string, o: Outcomes): seq<Event> {
    [Navigated(url)] + (if o.navigate.Some? then [Sent(o.navigate)] else [])
  }

  /** Waiting for the body, reading the HTML when the body is ready, and the
      second pass when the heuristic asks for it. */
  function Reading(o: Outcomes): seq<Event> {
    [WaitedBody]
    + (if o.waitBody.None? then [FetchedHtml] else [])
    + (if SecondPass(o) then [WaitedVisible, FetchedHtmlAgain] else [])
  }

  function Settle(sleep: int, o: Outcomes): seq<Event> {
    [Slept(sleep)] + (if o.settle.Some? then [Sent(o.settle)] else []) + [Sent(Some(Finished))]
  }

  /** The worker goroutine: `err` and `htmlDom` are reassigned as the commands
      return, and every send is recorded in the trace. */
  method Work(url: string, sleep: int, o: Outcomes, settles: bool) returns (trace: seq<Event>)
    ensures trace == Trace(url, sleep, o, settles)
  {
    trace := [Navigated(url)];
    var err := o.navigate;
    if err.Some? {
      trace := trace + [Sent(err)];
    }
    assert trace == Navigation(url, o);
    var reading := [WaitedBody];
    var htmlDom := "";
    err := o.waitBody;
    if err.None? {
      reading := reading + [FetchedHtml];
      // a failed read leaves htmlDom as it was; the failure is not reported
      if o.outerHtml.Ok? {
        htmlDom := o.outerHtml.value;
      }
    }
    assert htmlDom == FirstHtml(o);
    var low := Strings.ToLower(htmlDom);
    if FrameworkMarker(low) {
      reading := reading + [WaitedVisible, FetchedHtmlAgain];
      if o.outerHtmlAgain.Ok? {
        htmlDom := o.outerHtmlAgain.value;
      }
    }
    assert reading == Reading(o);
    trace := trace + reading + [Sent(err)];
    if settles {
      var settle := [Slept(sleep)];
      err := o.settle;
      if err.Some? {
        settle := settle + [Sent(err)];
      }
      settle := settle + [Sent(Some(Finished))];
      assert settle == Settle(sleep, o);
      trace := trace + settle;
    } else {
      assert trace == trace + [];
    }
  }

  /** The messages put on the channel, in order. */
  function Messages(t: seq<Event>): seq<Option<Error>> {
    if t == [] then []
    else Messages(t[..|t| - 1]) + (if t[|t| - 1].Sent? then [t[|t| - 1].msg] else [])
  }

  lemma {:induction false} MessagesAppend(a: seq<Event>, b: seq<Event>)
    ensures Messages(a + b) == Messages(a) + Messages(b)
    decreases |b|
  {
    if b == [] {
      assert a + b == a;
    } else {
      var b' := b[..|b| - 1];
      assert (a + b)[..|a + b| - 1] == a + b';
      MessagesAppend(a, b');
      var last := if b[|b| - 1].Sent? then [b[|b| - 1].msg] else [];
      assert Messages(a + b) == Messages(a) + Messages(b') + last;
      assert Messages(b) == Messages(b') + last;
    }
  }

  /** The `select`: nothing when the timer fires first, otherwise the first
      message, which is returned when it is an error and is nil otherwise. */
  function Select(timerFirst: bool, msgs: seq<Option<Error>>): (r: Option<Error>)
    ensures r.Some? <==> !timerFirst && msgs != [] && msgs[0].Some?
    ensures r.Some? ==> r == msgs[0]
  {
    if timerFirst || msgs == [] then None else msgs[0]
  }

  /** What the readiness action returns. */
  function Readiness(url: string, sleep: int, o: Outcomes, settles: bool): Option<Error> {
    Select(o.timerFirst, Messages(Trace(url, sleep, o, settles)))
  }

  lemma MessagesOfSends(e: Option<Error>)
    ensures Messages([Sent(e)]) == [e]
  {
    assert [Sent(e)][..0] == [];
  }

  lemma MessagesOfSilent(t: seq<Event>)
    requires forall i :: 0 <= i < |t| ==> !t[i].Sent?
    ensures Messages(t) == []
    decreases |t|
  {
    if t != [] {
      MessagesOfSilent(t[..|t| - 1]);
    }
  }

  lemma SettleMessages(sleep: int, o: Outcomes)
    ensures Messages(Settle(sleep, o)) == (if o.settle.Some? then [o.settle] else []) + [Some(Finished)]
  {
    var mid := if o.settle.Some? then [Sent(o.settle)] else [];
    MessagesAppend([Slept(sleep)] + mid, [Sent(Some(Finished))]);
    MessagesAppend([Slept(sleep)], mid);
    MessagesOfSilent([Slept(sleep)]);
    MessagesOfSends(Some(Finished));
    if o.settle.Some? {
      MessagesOfSends(o.settle);
    } else {
      MessagesOfSilent(mid);
    }
  }

  /** The messages, in order: the navigation error if navigation failed, the
      outcome of waiting for the body (nil on success), and, in the package
      version, the settle sleep's error if it failed and finally `finished`. */
  lemma {:induction false} MessagesShape(url: string, sleep: int, o: Outcomes, settles: bool)
    ensures Messages(Trace(url, sleep, o, settles)) ==
      (if o.navigate.Some? then [o.navigate] else []) + [o.waitBody]
      + (if settles then (if o.settle.Some? then [o.settle] else []) + [Some(Finished)] else [])
  {
    var head := Navigation(url, o) + Reading(o) + [Sent(o.waitBody)];
    var tail := if settles then Settle(sleep, o) else [];
    MessagesAppend(head, tail);
    HeadMessages(url, o);
    if settles {
      SettleMessages(sleep, o);
    } else {
      assert Messages(tail) == [];
    }
  }

  /** Up to the deciding send: the navigation error if any, then the body's
      outcome. */
  lemma HeadMessages(url: string, o: Outcomes)
    ensures Messages(Navigation(url, o) + Reading(o) + [Sent(o.waitBody)]) ==
      (if o.navigate.Some? then [o.navigate] else []) + [o.waitBody]
  {
    NavigationMessages(url, o);
    ReadingMessages(o);
    MessagesOfHead(Navigation(url, o), Reading(o), o.waitBody);
  }

  lemma MessagesOfHead(nav: seq<Event>, read: seq<Event>, e: Option<Error>)
    requires Messages(read) == []
    ensures Messages(nav + read + [Sent(e)]) == Messages(nav) + [e]
  {
    MessagesAppend(nav + read, [Sent(e)]);
    MessagesAppend(nav, read);
    MessagesOfSends(e);
  }

  /** Reading the page sends nothing. */
  lemma ReadingMessages(o: Outcomes)
    ensures Messages(Reading(o)) == []
  {
    MessagesOfSilent(Reading(o));
  }

  lemma NavigationMessages(url: string, o: Outcomes)
    ensures Messages(Navigation(url, o)) == if o.navigate.Some? then [o.navigate] else []
  {
    var mid := if o.navigate.Some? then [Sent(o.navigate)] else [];
    MessagesAppend([Navigated(url)], mid);
    MessagesOfSilent([Navigated(url)]);
    if o.navigate.Some? {
      MessagesOfSends(o.navigate);
    } else {
      MessagesOfSilent(mid);
    }
  }

  /** Unless the timer wins, the readiness action returns the navigation error
      when navigation failed and otherwise the outcome of waiting for the body;
      when the timer wins it returns nil, so a timeout is never an error. */
  lemma ReadinessDecided(url: string, sleep: int, o: Outcomes, settles: bool)
    ensures Readiness(url, sleep, o, settles) ==
      if o.timerFirst then None
      else if o.navigate.Some? then o.navigate
      else o.waitBody
  {
    MessagesShape(url, sleep, o, settles);
  }

  /** The `finished` value is never the deciding message: it comes last in a
      sequence of at least two messages, and the action never returns it. */
  lemma NeverFinished(url: string, sleep: int, o: Outcomes, settles: bool)
    requires Genuine(o)
    ensures var msgs := Messages(Trace(url, sleep, o, settles));
      |msgs| >= 1 && msgs[0] != Some(Finished) && (settles ==> msgs[|msgs| - 1] == Some(Finished))
    ensures Readiness(url, sleep, o, settles) != Some(Finished)
  {
    MessagesShape(url, sleep, o, settles);
    ReadinessDecided(url, sleep, o, settles);
  }

  /** The outcome depends only on navigation, the wait for the body and the race:
      the HTML reads, the second pass, the settle sleep and its length change
      nothing. */
  lemma ReadinessIgnoresLaterSteps(url: string, s1: int, s2: int, o1: Outcomes, o2: Outcomes, settles1: bool, settles2: bool)
    requires o1.navigate == o2.navigate && o1.waitBody == o2.waitBody && o1.timerFirst == o2.timerFirst
    ensures Readiness(url, s1, o1, settles1) == Readiness(url, s2, o2, settles2)
  {
    ReadinessDecided(url, s1, o1, settles1);
    ReadinessDecided(url, s2, o2, settles2);
  }

  /** The second pass happens exactly when the lower-cased HTML read first shows
      the framework marker; that HTML is empty when waiting for the body failed,
      and then there is no second pass. */
  lemma SecondPassExactly(url: string, sleep: int, o: Outcomes, settles: bool)
    ensures WaitedVisible in Trace(url, sleep, o, settles) <==> FrameworkMarker(Strings.ToLower(FirstHtml(o)))
    ensures o.waitBody.Some? ==> FirstHtml(o) == "" && !SecondPass(o)
  {
    var t := Trace(url, sleep, o, settles);
    var p5 := [Sent(o.waitBody)] + (if settles then Settle(sleep, o) else []);
    assert t == Navigation(url, o) + Reading(o) + p5;
    assert WaitedVisible !in Navigation(url, o);
    assert WaitedVisible !in p5;
    assert WaitedVisible in Reading(o) <==> SecondPass(o);
    if o.waitBody.Some? {
      assert Strings.ToLower("") == "";
      NoMarkerInShort("", "javascript");
      NoMarkerInShort("", "</script>'");
    }
  }

  /** A needle longer than the text does not occur in it. */
  lemma NoMarkerInShort(s: string, sub: string)
    requires |s| < |sub|
    ensures !Strings.Contains(s, sub)
  {
    Strings.ContainsAt(s, sub);
  }

  /** A plain closing script tag is no marker, whatever its case; with the
      apostrophe it is. */
  lemma PlainScriptTagIsNoMarker()
    ensures !FrameworkMarker(Strings.ToLower("</SCRIPT>"))
    ensures !FrameworkMarker(Strings.ToLower("</script>"))
    ensures FrameworkMarker(Strings.ToLower("</script>'"))
  {
    NoMarkerInShort(Strings.ToLower("</SCRIPT>"), "javascript");
    NoMarkerInShort(Strings.ToLower("</SCRIPT>"), "</script>'");
    NoMarkerInShort(Strings.ToLower("</script>"), "javascript");
    NoMarkerInShort(Strings.ToLower("</script>"), "</script>'");
    var low := Strings.ToLower("</script>'");
    assert low == "</script>'";
    assert Strings.IsPrefix("</script>'", low);
  }

  /** The settle sleep comes after the deciding message: whenever the worker
      sleeps, the first message is already on the channel. */
  lemma {:induction false} SettleAfterDecision(url: string, sleep: int, o: Outcomes, settles: bool)
    ensures var t := Trace(url, sleep, o, settles);
      forall j :: 0 <= j < |t| && t[j].Slept? ==>
        Messages(t[..j]) != [] && Messages(t[..j])[0] == Messages(t)[0]
  {
    var t := Trace(url, sleep, o, settles);
    var head := Navigation(url, o) + Reading(o) + [Sent(o.waitBody)];
    var tail := if settles then Settle(sleep, o) else [];
    assert t == head + tail;
    HeadHasNoSleep(url, o);
    HeadMessages(url, o);
    MessagesAppend(head, tail);
    forall j | 0 <= j < |t| && t[j].Slept?
      ensures Messages(t[..j]) != [] && Messages(t[..j])[0] == Messages(t)[0]
    {
      assert j == |head|;
      assert t[..j] == head;
    }
  }

  /** Nothing before the deciding send is a sleep. */
  lemma HeadHasNoSleep(url: string, o: Outcomes)
    ensures var head := Navigation(url, o) + Reading(o) + [Sent(o.waitBody)];
      forall i :: 0 <= i < |head| ==> !head[i].Slept?
  {
  }
}
