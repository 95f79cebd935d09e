# chrome_proxy, modelled in Dafny

chrome_proxy is an HTTP service that drives a headless Chrome through chromedp.
A request names a URL, and optionally a proxy, a user agent, a settle time and
a timeout. The service answers with either a screenshot of the page (in base64)
or its rendered DOM, plus the page's title and final location, as a JSON record.
A screenshot can also be re-photographed inside an HTML "browser window" overlay
that displays the URL and, optionally, a timestamp.

The project models the sequential decision logic around the browser. Every
browser command is given as its outcome: success, a value or an error. The
modelled parts are:

- the launch-option list, built from the request (`ChromeAction`);
- the readiness worker, which navigates, waits for the body, reads the HTML and
  optionally runs a second pass for script-framework pages, and reports on a
  channel; the race between its first message and the timer (`Worker`);
- chromedp's `Run`: actions in order, stopping at the first error, with output
  variables written through pointers as fields of a `Slots` object (`Browser`);
- the pipeline of pre-actions, the readiness action and the caller's actions,
  and the mapping of the worker's `finished` error to success (`ChromeAction`);
- the entry points `ScreenshotURL` (`Screenshot`) and `RenderDom` (`RenderDom`)
  of the packages, and the older copies in main.go: `chromeActions`,
  `screenshotURL`, `renderURLDOM`, `AddUrlToTitle`, and the two handlers
  (`Server`);
- request defaulting (`Network`);
- the reply record and its JSON encoding (`Models`, `Json`);
- the overlay page with its base64 payload (`Overlay`, `Base64`);
- the text truncation, canvas layout and encoder choice of the nav-bar
  composition (`AddTitle`).

The modules, in dependency order, are:

- `Base`: errors, `fmt.Errorf` with `%w`.
- `Strings`: `strings.ToLower` and `strings.Contains`.
- `Json`: the parts of `encoding/json` the reply uses.
- `Base64`: RFC 4648 section 4 standard padded encoding.
- `Models`.
- `Worker`.
- `Browser`.
- `ChromeAction`.
- `Overlay`.
- `Screenshot`.
- `RenderDom`.
- `Network`.
- `AddTitle`.
- `Server`.

Inputs from outside the program are parameters:

- `Browser.Session` holds the browser's answers.
- `Worker.Outcomes` holds the answers to the worker's commands, plus whether the
  timer fires first.
- `ChromeAction.Env` holds the following:
  - the debug switch;
  - the length of chromedp's default option list;
  - the two browsers: the page's, and the one that photographs the overlay;
  - the formatted current time;
  - the temporary file's name.

The second readiness pass starts when the lower-cased page contains
`javascript` or `</script>'` with its closing quote
(chrome_action/chrome_action.go:85, main.go:106); a plain `</script>` does not
start it (`Worker.PlainScriptTagIsNoMarker`).

## Model

| member | source | states |
|---|---|---|
| Base.Errorf | screenshot/screenshot.go:33 | the wrapped error keeps the inner error for unwrapping, and its text is the prefix, the inner error's text, the infix and the argument |
| Strings.ToLower | chrome_action/chrome_action.go:84 | same length, every character lower-cased; exact on every character Go lower-cases into ASCII |
| Strings.ContainsAt | chrome_action/chrome_action.go:85 | `strings.Contains` holds exactly when the needle occurs at some position |
| Json.EscapeChar | models/model.go:59 | a character is written as itself exactly when it is HTML-safe, otherwise as an escape starting with a backslash |
| Json.EscapeSafe | models/model.go:59 | a string of safe characters is written unchanged |
| Json.ReadQuote | models/model.go:59 | every string literal the encoder writes reads back as the original string |
| Json.ReadIntText | models/model.go:50 | the decimal text of any integer reads back as that integer |
| Json.EmitOne | models/model.go:50-55 | a field is dropped exactly when its tag has the option `omitempty` and its value is empty; otherwise it gives one member with its name and value |
| Json.Marshal | models/model.go:58-61 | the encoder writes an object delimited by braces, and writes the empty object `{}` exactly when no field is emitted |
| Json.ReadMarshal | models/model.go:58-61 | the encoder's output is a JSON object whose members, read back, are exactly the emitted fields in declaration order |
| Base64.Encode | main.go:413 | four characters for every three bytes or part of three |
| Base64.EncodeAlphabet | screenshot/screenshot.go:136 | every character of an encoding is from the standard alphabet or the pad `=` |
| Base64.DecodeEncode | screenshot/screenshot.go:136 | decoding an encoding gives back the bytes |
| Models.MessageTagKeepsEmpty | models/model.go:51-52 | `message` is written even when empty, because its tag option `omitempt` is not `omitempty`; an empty `url` is dropped |
| Models.OmitEmptyField | models/model.go:52-55 | a string field tagged `omitempty` gives its member unless the string is empty |
| Models.EmittedFields | models/model.go:49-56 | the members are `code`, `message`, then `url`, `data`, `title`, `location` each only when non-empty, in that order |
| Models.BytesReadBack | models/model.go:49-61 | `Bytes(r)` reads back as an object with `code` as an integer, `message` always, and the other four only when non-empty, in declaration order |
| Models.Bytes | models/model.go:58-61 | the reply is never the empty object: it is delimited by braces and holds more than them, because `code` is always written |
| Models.BareBytes | models/model.go:49-61 | a record whose four optional fields are empty reads back as exactly its `code` and `message` members |
| Models.PlainBytes | models/model.go:49-61 | a record with all fields set and no characters needing escapes is written as its six members in declaration order |
| Models.SampleBytes | models/model_test.go:32-33 | the exact text the package's test expects for its sample record |
| Worker.FrameworkMarker | chrome_action/chrome_action.go:84-85 | the second pass is asked for exactly when `javascript` or `</script>'` starts at some position of the lower-cased HTML |
| Worker.Work | chrome_action/chrome_action.go:71-101 | the worker's commands and sends, in order, are those of `Trace`: navigate and report a failure at once; wait for the body and read the HTML only if the body is ready; run the second pass only on the marker; send the body's outcome; then sleep, report a sleep failure and send `finished` |
| Worker.MessagesShape | chrome_action/chrome_action.go:72-100 | the channel receives the navigation error if any, then the body's outcome, then (package version) the sleep error if any and `finished` |
| Worker.Select | chrome_action/chrome_action.go:103-111 | the race yields an error only when the channel's first message arrives before the timer and is an error, and then it is that message; a timeout or a nil first message gives nil |
| Worker.ReadinessDecided | chrome_action/chrome_action.go:103-111 | the readiness action returns nil when the timer wins, else the navigation error, else the body's outcome; a timeout is never an error |
| Worker.NeverFinished | chrome_action/chrome_action.go:93-100 | with genuine browser answers, the deciding message is never `finished`, which always comes last |
| Worker.ReadinessIgnoresLaterSteps | chrome_action/chrome_action.go:76-101 | the HTML reads, the second pass and the settle sleep never change the outcome |
| Worker.SecondPassExactly | chrome_action/chrome_action.go:76-91 | the second pass runs exactly when the lower-cased HTML contains `javascript` or `</script>'`; the HTML is empty, and there is no second pass, when waiting for the body failed |
| Worker.PlainScriptTagIsNoMarker | chrome_action/chrome_action.go:85 | a plain `</script>` in any case is no marker, and `</script>'` is one |
| Worker.SettleAfterDecision | chrome_action/chrome_action.go:93-99 | whenever the worker sleeps, the deciding message is already on the channel |
| Browser.Slots.constructor | render_dom/render_dom.go:17-31 | fresh output variables hold Go's zero values |
| Browser.Slots.Apply | render_dom/render_dom.go:20-32 | one action writes its own slot, and only on success; the document action writes the html whenever the lookup succeeded |
| Browser.Run | chrome_action/chrome_action.go:124 | starting the browser first, then running the actions in order and stopping at the first error, gives the error and slots of `RunSpec` |
| Browser.ExecAppend | chrome_action/chrome_action.go:120-121 | a concatenated list runs the second part only when the first succeeds, starting from the slots the first part left |
| Browser.StepWrites | main.go:153-158 | only a capture writes the buffer, only `Title` the title, only `Location` the location, only the document action the html |
| Browser.DocumentFailureKeepsHtml | render_dom/render_dom.go:21-24 | a failed document lookup returns before the html is written |
| ChromeAction.EffectiveUserAgent | chrome_action/chrome_action.go:18-21 | the request's user agent when given, else the default; never empty |
| ChromeAction.BuildOptions | chrome_action/chrome_action.go:18-51 | the list built by appends is `LaunchOptions`: defaults, fixed flags, user agent, window size, the proxy when given, or the debug list |
| ChromeAction.NormalSettings | chrome_action/chrome_action.go:24-45 | outside debug mode the list sets exactly one user agent, the effective one, and a proxy exactly when the request names one |
| ChromeAction.DebugSettings | chrome_action/chrome_action.go:47-51 | in debug mode the list sets no proxy and no user agent whatever the request, lacks default entry 2, and is as long as the default list |
| ChromeAction.NormalTail | chrome_action/chrome_action.go:38-45 | outside debug mode the list ends with user agent and window size 1024x768, then the proxy when given |
| ChromeAction.MapFinished | chrome_action/chrome_action.go:126-131 | the result is nil exactly when there was no error or its text is `finished`; any other error passes through unchanged |
| ChromeAction.ChromeActions | chrome_action/chrome_action.go:15-132 | the option list, and the mapped error and slots of running pre-actions, readiness and actions in that order |
| ChromeAction.PipelineOutcome | chrome_action/chrome_action.go:115-124 | the pipeline's result is the first failing pre-action, else the readiness outcome, else the caller's actions |
| ChromeAction.NilPreActions | chrome_action/chrome_action.go:116-118 | nil pre-actions act as an empty list |
| ChromeAction.ReadinessNeverMapped | chrome_action/chrome_action.go:100-111 | with genuine answers the readiness action never reports the worker's own `finished` sentinel, and reports nil when the timer wins |
| Overlay.Build | screenshot/screenshot.go:136-149 | the page built by appends is the template head, the title box, the URL, the time box with the time when asked for, the image prefix, the base64 picture and the tail |
| Overlay.Layout | screenshot/screenshot.go:139-149 | positions in the page: the URL verbatim right after the title box, the stamp text, the payload, then the fixed tail |
| Overlay.PayloadDecodes | screenshot/screenshot.go:136 | the payload read back from the page decodes to the picture |
| Overlay.StampPlacement | screenshot/screenshot.go:142-146 | the time box and the time appear exactly when a timestamp is asked for, right after the URL |
| Screenshot.BuildActions | screenshot/screenshot.go:20-27 | the actions are capture, title, location, in that order, with no sleep |
| Screenshot.FullScreenshot | screenshot/screenshot.go:174-179 | the tasks navigate first and take a viewport capture; despite the name, none is a full-page capture |
| Screenshot.FullScreenshotIgnoresQuality | screenshot/screenshot.go:174-179 | the tasks are navigate then capture; the quality makes no difference |
| Screenshot.AddUrlToTitle | screenshot/screenshot.go:55-168 | the overlay page written, and the picture captured of it or the capture's error |
| Screenshot.ScreenshotURL | screenshot/screenshot.go:17-52 | the output or error of `Outcome`: nil pre-actions; the wrapped `screenShot failed(...)` error; the captured buffer, or with `AddUrl` the overlay's picture or the wrapped `add url title failed(...)` error |
| Screenshot.OutcomeShape | screenshot/screenshot.go:32-43 | exactly one of output and error; the error wraps its cause and ends with the URL |
| Screenshot.CapturedValues | screenshot/screenshot.go:39-51 | when every command succeeds, the output holds the capture (or the overlay's capture) and the page's title and location |
| Screenshot.ReadinessFailure | screenshot/screenshot.go:29-34 | a readiness failure is returned wrapped with nothing captured |
| Screenshot.OverlayFailure | screenshot/screenshot.go:38-43 | with `AddUrl`, after a successful page run, an overlay failure is returned as `add url title failed(<err>): <url>` wrapping the overlay's error, with no output |
| RenderDom.BuildActions | render_dom/render_dom.go:18-32 | the actions are the document's outer HTML, title, location, in that order |
| RenderDom.RenderDom | render_dom/render_dom.go:14-47 | the output or error of `Outcome`: nil pre-actions; the wrapped `RenderDom failed(...)` error; else the three slot values |
| RenderDom.OutcomeShape | render_dom/render_dom.go:38-46 | exactly one of output and error; the error wraps its cause and ends with the URL |
| RenderDom.RenderedValues | render_dom/render_dom.go:42-46 | when every command succeeds, the output holds the outer HTML, title and location the browser gave |
| RenderDom.DocumentFailure | render_dom/render_dom.go:21-24 | a failed document lookup is returned wrapped, with the html unwritten and title and location not read |
| RenderDom.ReadinessFailure | render_dom/render_dom.go:34-40 | a readiness failure is returned wrapped, with nothing read from the page |
| Network.WithDefaultTimeout | utils/network.go:17-19 | a zero timeout becomes 20; any other, negative included, and every other field is kept; the result is never zero |
| Network.GetOptionFromRequest | utils/network.go:9-21 | a decoding error is returned as it is with no options; otherwise the decoded request with the timeout defaulted |
| Network.DefaultingIdempotent | utils/network.go:17-19 | defaulting twice is defaulting once |
| Network.DefaultingKeepsRequest | utils/network.go:10-20 | defaulting changes only a zero timeout; URL, proxy, user agent, sleep and both flags are as decoded |
| AddTitle.TruncateNav | add_title.go:34-39 | the title cut to 35 bytes when longer than 36, the URL cut to 175 when longer than 176 |
| AddTitle.TruncatedIsBoundedPrefix | add_title.go:34-39 | a truncated text is a prefix of the text within the limit; it is unchanged exactly when it fits, else one byte shorter than the limit |
| AddTitle.TruncatedIdempotent | add_title.go:34-39 | truncating again changes nothing |
| AddTitle.NavTextsFit | add_title.go:34-39 | both drawn texts fit their limits and are prefixes of the inputs |
| AddTitle.Compose | add_title.go:52-61 | the canvas starts at the origin and is as wide as the screenshot; the bar is at the top, as high as the resized bar image; the screenshot starts right below the bar and ends at the canvas's bottom |
| AddTitle.ComposeTiles | add_title.go:52-61 | the canvas is as wide as the screenshot and as high as screenshot and bar; bar and moved screenshot cover it exactly, without overlap |
| AddTitle.Ext | add_title.go:75 | the extension is empty or a suffix of the path starting with its last dot, with no separator or dot after it |
| AddTitle.ExtOfSuffix | add_title.go:75 | a path ending in a dot and a plain word has that extension |
| AddTitle.SaveFormat | add_title.go:74-84 | JPEG at quality 100 for `.jpeg`/`.jpg`, PNG for `.png`, in any case; otherwise `unsupported file format: ` with the extension as written |
| AddTitle.SaveFormatIgnoresCase | add_title.go:76 | the choice depends only on the lower-cased extension |
| AddTitle.TempFileIsJpeg | add_title.go:159-165 | the bar's temporary file, named after `chrome_proxy_*.jpg`, is always written as JPEG at quality 100 |
| AddTitle.UpperCaseJpeg | add_title.go:76-78 | `.JPEG` selects JPEG |
| AddTitle.MixedCasePng | add_title.go:79-80 | `.Png` selects PNG |
| AddTitle.UnknownKeepsCase | add_title.go:81-82 | `.GIF` is refused with the extension in its original case |
| Server.LegacyChromeActions | main.go:37-135 | the same option list as the package version; the error and slots of the readiness action then the caller's actions, with no pre-actions and no mapping |
| Server.LegacyPipelineOutcome | main.go:88-132 | the readiness action returns nil on timeout, else the navigation error, else the body's outcome; the actions run only after it succeeds |
| Server.LegacyKeepsFinishedText | main.go:132-134 | an action failing with the text `finished` fails the older pipeline but is success in the package version |
| Server.ScreenshotActions | main.go:148-158 | a sleep first exactly when the request's sleep is positive, then capture, title, location |
| Server.RenderActions | main.go:195-213 | a sleep first exactly when positive, then the document action, title, location |
| Server.SleepFirstShape | main.go:150-152 | the sleep action is present exactly for a positive sleep, and first |
| Server.AddUrlToTitle | main.go:332-445 | the overlay page written, and the full-page capture of it or the capture's error |
| Server.FullScreenshotTasks | main.go:451-456 | the tasks navigate first and then take a full-page capture at the given quality, with no viewport capture |
| Server.OverlayShotValue | main.go:440-456 | the overlay is captured with `FullScreenshot` at quality 100, and a successful capture is the result |
| Server.ScreenshotURL | main.go:145-183 | the output or error of `ShotOutcome`: the wrapped `screenShot failed(...)` error, the buffer, or the overlay's picture or the wrapped `add url title failed(...)` error |
| Server.RenderURLDOM | main.go:192-228 | the output or error of `DomOutcome`: the wrapped `renderURLDOM failed(...)` error, else the three slot values |
| Server.OutcomeShapes | main.go:163-174 | exactly one of output and error for both entry points; each error wraps its cause and ends with the URL |
| Server.SleepFailureStopsRender | main.go:197-213 | a failing sleep stops `renderURLDOM` before the document is read |
| Server.DocumentFailureStopsRender | main.go:201-205 | a failed document lookup returns before the outer HTML is read, leaving the html empty |
| Server.HandleScreenshot | main.go:263-292 | the `/screenshot` reply and the body written, as in `ScreenshotReply` |
| Server.HandleRenderDom | main.go:294-322 | the `/renderDom` reply and the body written, as in `RenderDomReply` |
| Server.ScreenshotReplyCases | main.go:266-291 | code 500 with the error's text exactly on a decoding or pipeline failure; otherwise 200 with the request's URL, the picture in base64 (which decodes back) and the title and location |
| Server.RenderDomReplyCases | main.go:297-321 | code 500 with the error's text exactly on failure; otherwise 200 with the URL, the html as data, and the title and location |
| Server.FailureBody | main.go:268-271 | a failure reply's body is an object with exactly `code` 500 and `message`, present even when empty |

## Left out

- Every chromedp and DevTools command is an outcome given in `Browser.Session` or `Worker.Outcomes`. The browser itself is not modelled.
- The worker goroutine, its channel and `time.After` are not modelled as concurrency. The race is a `timerFirst` flag plus the first message sent. The worker blocking on later sends into the one-slot channel, and its sleep continuing after the action returned, are not modelled.
- The timeout value and the context deadline are not modelled. The race is the `timerFirst` flag. A command cancelled by the deadline, which starts before the timer and covers every action of the run, is one of its error outcomes in `Worker.Outcomes` or `Browser.Session`.
- Starting and killing the browser process (the allocator and `os.Kill`) is OS process work. Only a failure to start, `Session.launch`, is modelled.
- chromedp's `DefaultExecAllocatorOptions`, a library declaration, is abstracted as `count` entries `AllocatorDefault(i)`. The in-place aliasing by the debug-mode append is not modelled, only the resulting list.
- The HTTP server, its routing and header writes, and the JSON decoding of request bodies are left out. The decoding result is an input.
- main.go's own `getOptionFromRequest` is the same code as utils/network.go, and is modelled once by `Network.GetOptionFromRequest`. main.go's `chromeParam` and `result` have the same fields and JSON keys as `models.ChromeParam` and `models.Result`, so they are modelled by the same records.
- Image decoding, resizing, drawing, font rendering and encoding are not modelled. Only the encoder choice is. `log.Fatal` paths end the process.
- `addNavBar`'s truncation is modelled on bytes; the UTF-8 encoding of Go strings is not modelled.
- The package-level `Debug` switch (models/model.go:12) is an input of every request (`Env.debug`), not a constant. `DefaultTmpFilePrefix` (models/model.go:15) is used only by `WriteTempFile`.
- `WriteTempFile` and the temporary file's contents are filesystem I/O. The file's name is an input, and its write error is discarded as in the source, where the capture's result overwrites it.
- `time.Now()` is an input: the formatted time.
- Logging is left out. This includes the debug logs at chrome_action/chrome_action.go:79-80 and main.go:100-101, whose condition tests `err` instead of `err2`.
- `Strings.ToLower` is not Unicode's full lower-casing: it is exact only for characters Go lower-cases into ASCII, which is all the ASCII substring tests need.
- `Json` covers only what the reply record uses: integers, strings, struct tags and HTML-safe escaping. Struct tags are given already split into a name and options. Go writes invalid UTF-8 in a string as `\ufffd`; that case does not arise here, because the model's strings are sequences of characters.
- `AddTitle.Ext` treats only `/` as a path separator, as `filepath.Ext` does on Unix; the Windows separator `\` is not modelled.
- Integers are unbounded: Go's `int` width is not modelled.
