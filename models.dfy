/** The shared records and constants of the service, and the JSON form of the
    reply record `Result`. */
module Models {

  import opened Base
  import Json

  /** The user agent used when a request gives none. */
  const DefaultUserAgent: string := "Mozilla/5.0 (Windows NT 10.0; Win64; x64) AppleWebKit/537.36 (KHTML, like Gecko) Chrome/102.0.5005.124 Safari/537.36 Edg/102.0.1245.44"

  /** What a request asks of the browser. */
  datatype ChromeActionInput = ChromeActionInput(
    url: string,
    proxy: string,
    userAgent: string,
    sleep: int,
    timeout: int)

  /** A decoded request body. */
  datatype ChromeParam = ChromeParam(
    addUrl: bool,
    addTimeStamp: bool,
    input: ChromeActionInput)

  datatype RenderDomOutput = RenderDomOutput(html: string, title: string, location: string)

  datatype ScreenshotOutput = ScreenshotOutput(data: seq<byte>, title: string, location: string)

  /** The reply every handler writes. */
  datatype Result = Result(
    code: int,
    message: string,
    url: string,
    data: string,
    title: string,
    location: string)

  /** The fields of `Result` with their `json` struct tags, in declaration order.
      The tag of `message` reads `message,omitempt`: its option `omitempt` is not
      one the encoder knows. */
  function Fields(r: Result): seq<Json.Field> {
    [ Json.Field("code", [], Json.Int(r.code)),
      Json.Field("message", ["omitempt"], Json.Str(r.message)),
      Json.Field("url", ["omitempty"], Json.Str(r.url)),
      Json.Field("data", ["omitempty"], Json.Str(r.data)),
      Json.Field("title", ["omitempty"], Json.Str(r.title)),
      Json.Field("location", ["omitempty"], Json.Str(r.location)) ]
  }

  /** `Result.Bytes`: the text `json.Marshal` produces for `r` (the reply is its
      UTF-8 encoding). Marshalling this struct cannot fail, so discarding the
      error loses nothing. */
  function Bytes(r: Result): (b: string)
    ensures |b| > 2 && b[0] == '{' && b[|b| - 1] == '}'
  {
    EmittedFields(r);
    Json.Marshal(Fields(r))
  }

  /** A member that is present only when its value is not empty. */
  function Optional(key: string, value: string): seq<(string, Json.Value)> {
    if value == "" then [] else [(key, Json.Str(value))]
  }

  /** The field `message` is written even when empty, because its tag's option
      is `omitempt` and not `omitempty`; `url` is dropped when empty. */
  lemma MessageTagKeepsEmpty(r: Result)
    ensures Json.EmitOne(Fields(r)[1]) == [("message", Json.Str(r.message))]
    ensures r.url == "" ==> Json.EmitOne(Fields(r)[2]) == []
  {
  }

  /** A field tagged `omitempty` holding a string gives its member unless the
      string is empty. */
  lemma OmitEmptyField(name: string, v: string)
    ensures Json.EmitOne(Json.Field(name, ["omitempty"], Json.Str(v))) == Optional(name, v)
  {
  }

  lemma EmittedSix(a: Json.Field, b: Json.Field, c: Json.Field, d: Json.Field, e: Json.Field, g: Json.Field)
    ensures Json.Emitted([a, b, c, d, e, g]) ==
      Json.EmitOne(a) + (Json.EmitOne(b) + (Json.EmitOne(c) + (Json.EmitOne(d) + (Json.EmitOne(e) + Json.EmitOne(g)))))
  {
    assert [a, b, c, d, e, g] == [a] + ([b] + ([c] + ([d] + ([e] + ([g] + [])))));
    Json.EmittedCons(g, []);
    Json.EmittedCons(e, [g] + []);
    Json.EmittedCons(d, [e] + ([g] + []));
    Json.EmittedCons(c, [d] + ([e] + ([g] + [])));
    Json.EmittedCons(b, [c] + ([d] + ([e] + ([g] + []))));
    Json.EmittedCons(a, [b] + ([c] + ([d] + ([e] + ([g] + [])))));
  }

  /** The members the encoder emits for `r`: `code` and `message` always, the
      other four only when not empty. */
  lemma EmittedFields(r: Result)
    ensures Json.Emitted(Fields(r)) ==
      [("code", Json.Int(r.code))] + ([("message", Json.Str(r.message))]
      + (Optional("url", r.url) + (Optional("data", r.data)
      + (Optional("title", r.title) + Optional("location", r.location)))))
  {
    var f := Fields(r);
    EmittedSix(f[0], f[1], f[2], f[3], f[4], f[5]);
    MessageTagKeepsEmpty(r);
    OmitEmptyField("url", r.url);
    OmitEmptyField("data", r.data);
    OmitEmptyField("title", r.title);
    OmitEmptyField("location", r.location);
  }

  /** Read back as JSON, `Bytes(r)` is an object whose members are, in this order:
      `code` (always, an integer), `message` (always, even when empty), then `url`,
      `data`, `title` and `location`, each only when it is not empty. */
  lemma BytesReadBack(r: Result)
    ensures Json.ReadObject(Bytes(r)) == Some(
      [("code", Json.Int(r.code))] + ([("message", Json.Str(r.message))]
      + (Optional("url", r.url) + (Optional("data", r.data)
      + (Optional("title", r.title) + Optional("location", r.location))))))
  {
    Json.ReadMarshal(Fields(r));
    EmittedFields(r);
  }

  /** A record with only a code and a message reads back as those two members. */
  lemma BareBytes(r: Result)
    requires r.url == "" && r.data == "" && r.title == "" && r.location == ""
    ensures Json.ReadObject(Bytes(r)) == Some([("code", Json.Int(r.code)), ("message", Json.Str(r.message))])
  {
    BytesReadBack(r);
    var members: seq<(string, Json.Value)> := [("code", Json.Int(r.code))] + ([("message", Json.Str(r.message))] + ([] + ([] + ([] + []))));
    assert members == [("code", Json.Int(r.code)), ("message", Json.Str(r.message))];
  }

  /** A string the encoder writes without escapes. */
  predicate Plain(s: string) {
    forall i :: 0 <= i < |s| ==> Json.HtmlSafe(s[i])
  }

  lemma QuotePlain(s: string)
    requires Plain(s)
    ensures Json.Quote(s) == "\"" + s + "\""
  {
    Json.EscapeSafe(s);
  }

  lemma PlainKeys()
    ensures Plain("message") && Plain("url") && Plain("data") && Plain("title") && Plain("location")
  {
  }

  /** How a member with a plain string value is written. */
  function PlainMember(k: string, v: string): string {
    "\"" + k + "\":\"" + v + "\""
  }

  lemma StrMember(k: string, v: string)
    requires Plain(k) && Plain(v)
    ensures Json.RenderMember((k, Json.Str(v))) == PlainMember(k, v)
  {
    QuotePlain(k);
    QuotePlain(v);
  }

  lemma CodeMember()
    ensures Json.RenderMember(("code", Json.Int(200))) == "\"code\":200"
  {
    QuotePlain("code");
    assert Json.IntText(200) == "200";
  }

  /** Six members are written separated by commas. */
  lemma Members6(a: (string, Json.Value), b: (string, Json.Value), c: (string, Json.Value), d: (string, Json.Value), e: (string, Json.Value), f: (string, Json.Value))
    ensures Json.RenderMembers([a, b, c, d, e, f]) ==
      Json.RenderMember(a) + "," + (Json.RenderMember(b) + "," + (Json.RenderMember(c) + "," + (Json.RenderMember(d) + "," + (Json.RenderMember(e) + "," + Json.RenderMember(f)))))
  {
    var ms := [a, b, c, d, e, f];
    assert ms[1..] == [b, c, d, e, f];
    assert ms[1..][1..] == [c, d, e, f];
    assert ms[1..][1..][1..] == [d, e, f];
    assert ms[1..][1..][1..][1..] == [e, f];
    assert ms[1..][1..][1..][1..][1..] == [f];
    assert Json.RenderMembers([f]) == Json.RenderMember(f);
    assert Json.RenderMembers([e, f]) == Json.RenderMember(e) + "," + Json.RenderMembers([f]);
    assert Json.RenderMembers([d, e, f]) == Json.RenderMember(d) + "," + Json.RenderMembers([e, f]);
    assert Json.RenderMembers([c, d, e, f]) == Json.RenderMember(c) + "," + Json.RenderMembers([d, e, f]);
    assert Json.RenderMembers([b, c, d, e, f]) == Json.RenderMember(b) + "," + Json.RenderMembers([c, d, e, f]);
  }

  /** For a record whose strings need no escaping and whose optional fields are
      all set, the text is the six members in declaration order. */
  lemma PlainBytes(r: Result)
    requires Plain(r.message) && Plain(r.url) && Plain(r.data) && Plain(r.title) && Plain(r.location)
    requires r.url != "" && r.data != "" && r.title != "" && r.location != ""
    ensures Bytes(r) == "{" + (Json.RenderMember(("code", Json.Int(r.code)))
      + "," + (PlainMember("message", r.message)
      + "," + (PlainMember("url", r.url)
      + "," + (PlainMember("data", r.data)
      + "," + (PlainMember("title", r.title)
      + "," + PlainMember("location", r.location)))))) + "}"
  {
    EmittedFields(r);
    var ms := Json.Emitted(Fields(r));
    assert ms == [("code", Json.Int(r.code)), ("message", Json.Str(r.message)), ("url", Json.Str(r.url)),
      ("data", Json.Str(r.data)), ("title", Json.Str(r.title)), ("location", Json.Str(r.location))];
    Members6(ms[0], ms[1], ms[2], ms[3], ms[4], ms[5]);
    PlainKeys();
    StrMember("message", r.message);
    StrMember("url", r.url);
    StrMember("data", r.data);
    StrMember("title", r.title);
    StrMember("location", r.location);
  }

  /** The record of the package's own test. */
  const Sample := Result(200, "success", "https://example.com", "sample", "this is a test result", "https://example.com")

  lemma MessageText()
    ensures PlainMember("message", "success") == "\"message\":\"success\""
  {
  }

  lemma UrlText()
    ensures PlainMember("url", "https://example.com") == "\"url\":\"https://example.com\""
  {
  }

  lemma DataText()
    ensures PlainMember("data", "sample") == "\"data\":\"sample\""
  {
  }

  lemma TitleText()
    ensures PlainMember("title", "this is a test result") == "\"title\":\"this is a test result\""
  {
  }

  lemma LocationText()
    ensures PlainMember("location", "https://example.com") == "\"location\":\"https://example.com\""
  {
  }

  lemma PlainSample()
    ensures Plain(Sample.message) && Plain(Sample.url) && Plain(Sample.data) && Plain(Sample.title) && Plain(Sample.location)
  {
    PlainUrl();
    PlainTitle();
    assert Plain("success") && Plain("sample");
  }

  lemma PlainUrl()
    ensures Plain("https://example.com")
  {
  }

  lemma PlainTitle()
    ensures Plain("this is a test result")
  {
  }

  /** The exact text the package's test expects for `Sample`. */
  lemma SampleBytes()
    ensures Bytes(Sample) == "{" + ("\"code\":200"
      + "," + ("\"message\":\"success\""
      + "," + ("\"url\":\"https://example.com\""
      + "," + ("\"data\":\"sample\""
      + "," + ("\"title\":\"this is a test result\""
      + "," + "\"location\":\"https://example.com\""))))) + "}"
  {
    PlainSample();
    PlainBytes(Sample);
    CodeMember();
    MessageText();
    UrlText();
    DataText();
    TitleText();
    LocationText();
  }
}
