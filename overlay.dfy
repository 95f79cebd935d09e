/** The HTML page the screenshot is embedded in before the window decoration is
    captured: fixed template text around the URL, an optional timestamp and the
    picture as a base64 `data:` URL. The templates are the same in main.go and
    screenshot/screenshot.go. */
module Overlay {

  import opened Base
  import Base64

  /** The page up to the window buttons. */
  const Part1: string := "<!DOCTYPE html>\n<html lang=\"en\">\n<head>\n    <meta charset=\"UTF-8\">\n    <title>Title</title>\n    <style>\n        .window {\n                border-radius: 5px;\n                -moz-box-shadow:1em 1em 3em #333333; -webkit-box-shadow:1em 1em 3em #333333; box-shadow:1em 1em 3em #333333;\n                margin: 25px;\n            }\n        .window-header .btn {\n            width: 10px;\n            height: 10px;\n            margin: 6px 0 6px 10px;\n            border-radius: 50%;\n            padding: 0;\n            display: inline-block;\n            font-size: 14px;\n            font-weight: 400;\n            line-height: 1.42857143;\n            text-align: center;\n            white-space: nowrap;\n            vertical-align: middle;\n            touch-action: manipulation;\n            cursor: pointer;\n        }\n        .window-header .btn.red {\n            border: 1px solid #ff3125;\n            background-color: #ff6158;\n        }\n        .window-header .btn.yellow {\n            border: 1px solid #f9ab00;\n            background-color: #ffbd2d;\n        }\n        .window-header .btn.green {\n            border: 1px solid #21a435;\n            background-color: #2ace43;\n        }\n        .window-header {\n            display: block;\n            border-radius: 5px 5px 0 0;\n            border-top: solid 1px #f3f1f3;\n            background-image: -webkit-linear-gradient(#e3dfe3,#d0cdd0);\n            background-image: linear-gradient(#e3dfe3,#d0cdd0);\n            width: 100%;\n            height: 22px;\n        }\n        body {\n            font-family: \"Helvetica Neue\",Helvetica, \"microsoft yahei\", arial, STHeiTi, sans-serif;\n        }\n    </style>\n</head>\n<body>\n    <div>\n        <div class=\"window\">\n            <div class=\"window-header\">\n                <div class=\"btn red\"></div>\n                <div class=\"btn yellow\"></div>\n                <div class=\"btn green\"></div>\n"

  /** Opens the box that shows the URL. */
  const TitlePart: string := "<div class=\"btn\" style=\"margin-top: -7px;margin-left: 1%;\">\n                    <b style=\"color:#48576a\">"

  /** Closes the URL box and opens the one that shows the time. */
  const TimeStampPart: string := "</b>\n                </div>\n                <div class=\"btn\" style=\"margin-top: 2px;margin-right: 18%;float: right;\">\n                    <b style=\"color:#48576a\">"

  /** Closes the text boxes and opens the image's `src` attribute. */
  const Base64Part: string := "</b>\n                </div>\n            </div>\n            <div style=\"max-height:800px;overflow:hidden;\">\n                <img  style=\"width:100%;\" src=\"data:image/png;base64,"

  /** Closes the image and the page. */
  const Part3: string := "\" />\n            </div>\n        </div>\n    </div>\n</body>\n</html>"

  /** The five pieces of template text, in page order. */
  datatype Templates = Templates(part1: string, title: string, timeStamp: string, base64: string, part3: string)

  /** The templates the program uses. */
  const Page := Templates(Part1, TitlePart, TimeStampPart, Base64Part, Part3)

  /** The text after the URL: the time box when a time is given. */
  function StampText(t: Templates, stamp: Option<string>): string {
    if stamp.Some? then t.timeStamp + stamp.value else ""
  }

  /** The page for `url` and the picture `pic`, with the time `stamp` if any. */
  function Document(t: Templates, url: string, pic: seq<byte>, stamp: Option<string>): string {
    t.part1 + t.title + url + StampText(t, stamp) + t.base64 + Base64.Encode(pic) + t.part3
  }

  /** Builds the page by appends; `now` is the formatted current time, used only
      when a timestamp is asked for. */
  method Build(t: Templates, url: string, pic: seq<byte>, hasTimeStamp: bool, now: string) returns (html: string)
    ensures html == Document(t, url, pic, if hasTimeStamp then Some(now) else None)
  {
    var encoded := Base64.Encode(pic);
    html := t.part1 + t.title + url;
    if hasTimeStamp {
      html := html + t.timeStamp;
      html := html + now;
    }
    html := html + t.base64 + encoded + t.part3;
  }

  /** Where the URL starts. */
  function UrlStart(t: Templates): nat {
    |t.part1| + |t.title|
  }

  /** Where the base64 payload starts. */
  function PayloadStart(t: Templates, url: string, stamp: Option<string>): nat {
    UrlStart(t) + |url| + |StampText(t, stamp)| + |t.base64|
  }

  /** The page is the fixed head, the URL verbatim, the stamp text, the image
      prefix, the payload and the fixed tail, at these positions. */
  lemma Layout(t: Templates, url: string, pic: seq<byte>, stamp: Option<string>)
    ensures var doc := Document(t, url, pic, stamp);
      var a, p := UrlStart(t), PayloadStart(t, url, stamp);
      |doc| == p + |Base64.Encode(pic)| + |t.part3|
      && doc[..a] == t.part1 + t.title
      && doc[a..a + |url|] == url
      && doc[a + |url|..a + |url| + |StampText(t, stamp)|] == StampText(t, stamp)
      && doc[p..p + |Base64.Encode(pic)|] == Base64.Encode(pic)
      && doc[p + |Base64.Encode(pic)|..] == t.part3
  {
    var head, st, enc := t.part1 + t.title, StampText(t, stamp), Base64.Encode(pic);
    var doc := Document(t, url, pic, stamp);
    assert doc == head + url + st + t.base64 + enc + t.part3;
    var a := UrlStart(t);
    assert doc[..a] == head;
    assert doc[a..a + |url|] == url;
    assert doc[a + |url|..a + |url| + |st|] == st;
    var p := PayloadStart(t, url, stamp);
    assert doc[p..p + |enc|] == enc;
    assert doc[p + |enc|..] == t.part3;
  }

  /** The payload read back from the page decodes to the picture. */
  lemma PayloadDecodes(t: Templates, url: string, pic: seq<byte>, stamp: Option<string>)
    ensures var doc := Document(t, url, pic, stamp);
      var p := PayloadStart(t, url, stamp);
      Base64.Decode(doc[p..p + |Base64.Encode(pic)|]) == Some(pic)
  {
    Layout(t, url, pic, stamp);
    Base64.DecodeEncode(pic);
  }

  /** The time box appears exactly when a time is given, right after the URL. */
  lemma StampPlacement(t: Templates, url: string, pic: seq<byte>, now: string)
    ensures Document(t, url, pic, None) == t.part1 + t.title + url + t.base64 + Base64.Encode(pic) + t.part3
    ensures Document(t, url, pic, Some(now)) == t.part1 + t.title + url + t.timeStamp + now + t.base64 + Base64.Encode(pic) + t.part3
  {
    var doc := t.part1 + t.title + url;
    assert doc + StampText(t, None) == doc;
    assert doc + StampText(t, Some(now)) == doc + t.timeStamp + now;
  }
}
