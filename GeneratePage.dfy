/** The generator form in the browser: its state, the content field that
    routes what is typed to `text` or `url`, the checks run before a request
    is sent, and the JSON payload it posts to `/api/generate-qr`. Rendering,
    the file reader and the network are not modelled: a chosen file is
    represented by the data URL the reader would produce for it. */
module GeneratePage {
  import opened JsValues
  import Route

  datatype QrType = Text | Url | Logo | Background

  /** The string the form sends as `type`. */
  function TypeName(t: QrType): (s: string)
    ensures s in {"text", "url", "logo", "background"}
  {
    match t
    case Text => "text"
    case Url => "url"
    case Logo => "logo"
    case Background => "background"
  }

  /** A file picked in an `<input type="file">`, as the data URL that
      `FileReader.readAsDataURL` yields for it. */
  datatype File = File(dataUrl: string)

  /** The sizes the size selector offers. */
  predicate IsSizeOption(n: int)
  {
    n == 256 || n == 512 || n == 1024
  }

  const EnterTextMsg: string := "Please enter some text"
  const EnterUrlMsg: string := "Please enter a URL"
  const UploadLogoMsg: string := "Please upload a logo image"
  const UploadBackgroundMsg: string := "Please upload a background image"
  const EnterContentMsg: string := "Please enter text or URL for the QR code"

  // ---------------------------------------------------------------------
  // The content field of the logo and background modes

  /** `value.startsWith('http://') || value.startsWith('https://')` */
  predicate LooksLikeUrl(value: string)
  {
    StartsWith(value, "http://") || StartsWith(value, "https://")
  }

  /** The `(text, url)` pair the content field's change handler leaves:
      exactly one side holds what was typed, the other is cleared, and the
      field, which shows `text || url`, shows back what was typed. */
  function ClassifyContent(value: string): (r: (string, string))
    ensures r.0 == [] || r.1 == []
    ensures r.1 != [] ==> LooksLikeUrl(value) && r.1 == value
    ensures r.0 != [] ==> !LooksLikeUrl(value) && r.0 == value
    ensures LooksLikeUrl(value) ==> r.0 == []
    ensures value != [] ==> (r.1 != [] <==> LooksLikeUrl(value))
    ensures (if r.0 != [] then r.0 else r.1) == value
  {
    if LooksLikeUrl(value) then ([], value) else (value, [])
  }

  // ---------------------------------------------------------------------
  // Checks before sending

  /** The checks at the top of `generateQR`, in order; `Some(message)` is
      the error shown instead of sending. For logo and background modes a
      missing file is reported before missing content. */
  function CheckInputs(t: QrType, text: string, url: string,
                       logo: Option<File>, bgImage: Option<File>): (r: Option<string>)
    ensures t == Text ==> (r.None? <==> !AllWhitespace(text)) && (r.Some? ==> r.value == EnterTextMsg)
    ensures t == Url ==> (r.None? <==> !AllWhitespace(url)) && (r.Some? ==> r.value == EnterUrlMsg)
    ensures t == Logo && logo.None? ==> r == Some(UploadLogoMsg)
    ensures t == Background && bgImage.None? ==> r == Some(UploadBackgroundMsg)
    ensures (t == Logo && logo.Some?) || (t == Background && bgImage.Some?) ==>
              (r.None? <==> !AllWhitespace(text) || !AllWhitespace(url)) &&
              (r.Some? ==> r.value == EnterContentMsg)
  {
    TrimEmptyIffAllWhitespace(text);
    TrimEmptyIffAllWhitespace(url);
    if t == Text && Trim(text) == [] then Some(EnterTextMsg)
    else if t == Url && Trim(url) == [] then Some(EnterUrlMsg)
    else if t == Logo && logo.None? then Some(UploadLogoMsg)
    else if t == Logo && Trim(text) == [] && Trim(url) == [] then Some(EnterContentMsg)
    else if t == Background && bgImage.None? then Some(UploadBackgroundMsg)
    else if t == Background && Trim(text) == [] && Trim(url) == [] then Some(EnterContentMsg)
    else None
  }

  // ---------------------------------------------------------------------
  // The payload

  /** The request body after `JSON.stringify`: a field that was never set,
      or was set to `undefined`, is absent (None). */
  datatype Payload = Payload(
    qrType: string,
    size: int,
    color: string,
    backgroundColor: string,
    text: Option<string>,
    url: Option<string>,
    logo: Option<string>,
    bgImage: Option<string>)

  /** The payload the form sends: always type, size and both colours; the
      content of its own mode, where logo and background send `text` when it
      is not blank and `url` otherwise, never both; and each image only in its
      own mode, as the data part of the file's data URL. */
  function PayloadFor(t: QrType, text: string, url: string, size: int, color: string,
                      backgroundColor: string, logo: Option<File>, bgImage: Option<File>): (p: Payload)
    ensures p.qrType == TypeName(t) && p.size == size
    ensures p.color == color && p.backgroundColor == backgroundColor
    ensures t == Text ==> p.text == Some(text) && p.url.None?
    ensures t == Url ==> p.url == Some(url) && p.text.None?
    ensures t == Logo || t == Background ==>
              && !(p.text.Some? && p.url.Some?)
              && (p.text.Some? <==> !AllWhitespace(text))
              && (p.url.Some? <==> AllWhitespace(text) && !AllWhitespace(url))
    ensures p.text.Some? ==> p.text.value == text
    ensures p.url.Some? ==> p.url.value == url
    ensures p.logo.Some? ==> t == Logo && logo.Some?
    ensures p.bgImage.Some? ==> t == Background && bgImage.Some?
    ensures t == Logo && logo.Some? ==> p.logo == DataPart(logo.value.dataUrl)
    ensures t == Background && bgImage.Some? ==> p.bgImage == DataPart(bgImage.value.dataUrl)
  {
    TrimEmptyIffAllWhitespace(text);
    TrimEmptyIffAllWhitespace(url);
    var textField :=
      if t == Text then Some(text)
      else if (t == Logo || t == Background) && Trim(text) != [] then Some(text)
      else None;
    var urlField :=
      if t == Url then Some(url)
      else if (t == Logo || t == Background) && Trim(text) == [] && Trim(url) != [] then Some(url)
      else None;
    Payload(TypeName(t), size, color, backgroundColor, textField, urlField,
            if t == Logo && logo.Some? then DataPart(logo.value.dataUrl) else None,
            if t == Background && bgImage.Some? then DataPart(bgImage.value.dataUrl) else None)
  }

  /** Outcome of pressing the button: an error shown in the form, or a POST. */
  datatype Submit = ClientError(message: string) | Send(payload: Payload)

  /** What `generateQR` does with the form state up to the request: the first
      failing check's message, or the payload. A request is only ever sent
      with non-blank content, and in logo and background modes only with the
      file chosen. */
  function SubmitFor(t: QrType, text: string, url: string, size: int, color: string,
                     backgroundColor: string, logo: Option<File>, bgImage: Option<File>): (s: Submit)
    ensures s.ClientError? <==> CheckInputs(t, text, url, logo, bgImage).Some?
    ensures s.Send? ==> s.payload == PayloadFor(t, text, url, size, color, backgroundColor, logo, bgImage)
    ensures s.Send? ==>
              || (s.payload.text.Some? && !AllWhitespace(s.payload.text.value))
              || (s.payload.url.Some? && !AllWhitespace(s.payload.url.value))
    ensures s.Send? && t == Logo ==> logo.Some?
    ensures s.Send? && t == Background ==> bgImage.Some?
  {
    match CheckInputs(t, text, url, logo, bgImage)
    case Some(m) => ClientError(m)
    case None => Send(PayloadFor(t, text, url, size, color, backgroundColor, logo, bgImage))
  }

  /** The JSON object the handler parses from the payload. */
  function ToBody(p: Payload): (b: Route.Body)
    ensures b.qrType == Str(p.qrType) && b.size == Num(p.size)
    ensures b.color == Str(p.color) && b.backgroundColor == Str(p.backgroundColor)
    ensures b.text == (if p.text.Some? then Str(p.text.value) else Undefined)
    ensures b.url == (if p.url.Some? then Str(p.url.value) else Undefined)
    ensures b.logo == (if p.logo.Some? then Str(p.logo.value) else Undefined)
    ensures b.bgImage == (if p.bgImage.Some? then Str(p.bgImage.value) else Undefined)
  {
    Route.Body(Str(p.qrType), Field(p.text), Field(p.url), Num(p.size), Str(p.color),
               Str(p.backgroundColor), Field(p.logo), Field(p.bgImage))
  }

  /** A payload field as the handler reads it: absent keys are `undefined`. */
  function Field(f: Option<string>): (v: JsValue)
    ensures v == Undefined <==> f.None?
  {
    if f.Some? then Str(f.value) else Undefined
  }

  // ---------------------------------------------------------------------
  // What the server makes of what the form sends

  /** In text and URL modes, whatever the form lets through the server
      accepts too, encoding exactly the string typed: a string that is not
      blank is not empty. */
  lemma ClientAcceptedTextOrUrlIsServerAccepted(t: QrType, text: string, url: string, size: int,
                                                color: string, backgroundColor: string,
                                                logo: Option<File>, bgImage: Option<File>)
    requires t == Text || t == Url
    requires IsSizeOption(size)
    requires CheckInputs(t, text, url, logo, bgImage).None?
    ensures var b := ToBody(PayloadFor(t, text, url, size, color, backgroundColor, logo, bgImage));
            Route.Validate(b) == Route.Accept(Str(if t == Text then text else url))
  {
    var b := ToBody(PayloadFor(t, text, url, size, color, backgroundColor, logo, bgImage));
    var content := if t == Text then text else url;
    TextOrUrlModeBody(t, text, url, size, color, backgroundColor, logo, bgImage);
    Route.TextOrUrlModeAccepted(b, content);
  }

  /** The fields the server's checks look at, in a body the form sent in
      text or URL mode after its own check passed. */
  lemma TextOrUrlModeBody(t: QrType, text: string, url: string, size: int,
                          color: string, backgroundColor: string,
                          logo: Option<File>, bgImage: Option<File>)
    requires t == Text || t == Url
    requires IsSizeOption(size)
    requires CheckInputs(t, text, url, logo, bgImage).None?
    ensures var b := ToBody(PayloadFor(t, text, url, size, color, backgroundColor, logo, bgImage));
            var content := if t == Text then text else url;
            && Truthy(b.size) && content != []
            && ((Route.IsType(b, "text") && b.text == Str(content)) ||
                (Route.IsType(b, "url") && b.url == Str(content)))
  {
    if t == Text {
      NotBlankIsTruthy(text);
    } else {
      NotBlankIsTruthy(url);
    }
  }

  /** In logo and background modes the form's checks and the server's agree
      as long as the file's data part is not empty: the server then encodes
      the content the form chose, `text` when it is not blank, else `url`. */
  lemma ClientAcceptedImageModeIsServerAccepted(t: QrType, text: string, url: string, size: int,
                                                color: string, backgroundColor: string,
                                                logo: Option<File>, bgImage: Option<File>)
    requires t == Logo || t == Background
    requires IsSizeOption(size)
    requires CheckInputs(t, text, url, logo, bgImage).None?
    requires t == Logo ==> DataPart(logo.value.dataUrl).Some? && DataPart(logo.value.dataUrl).value != []
    requires t == Background ==>
               DataPart(bgImage.value.dataUrl).Some? && DataPart(bgImage.value.dataUrl).value != []
    ensures var b := ToBody(PayloadFor(t, text, url, size, color, backgroundColor, logo, bgImage));
            Route.Validate(b) == Route.Accept(Str(if !AllWhitespace(text) then text else url))
  {
    var b := ToBody(PayloadFor(t, text, url, size, color, backgroundColor, logo, bgImage));
    var content := if !AllWhitespace(text) then text else url;
    ImageModeBody(t, text, url, size, color, backgroundColor, logo, bgImage);
    Route.ImageModeAccepted(b, content);
  }

  /** The fields the server's checks look at, in a body the form sent in
      logo or background mode after its own checks passed. */
  lemma ImageModeBody(t: QrType, text: string, url: string, size: int,
                      color: string, backgroundColor: string,
                      logo: Option<File>, bgImage: Option<File>)
    requires t == Logo || t == Background
    requires IsSizeOption(size)
    requires !AllWhitespace(text) || !AllWhitespace(url)
    requires t == Logo ==> logo.Some? && DataPart(logo.value.dataUrl).Some? &&
                           DataPart(logo.value.dataUrl).value != []
    requires t == Background ==> bgImage.Some? && DataPart(bgImage.value.dataUrl).Some? &&
                                 DataPart(bgImage.value.dataUrl).value != []
    ensures var b := ToBody(PayloadFor(t, text, url, size, color, backgroundColor, logo, bgImage));
            var content := if !AllWhitespace(text) then text else url;
            && Truthy(b.size)
            && ((Route.IsType(b, "logo") && Truthy(b.logo)) ||
                (Route.IsType(b, "background") && Truthy(b.bgImage)))
            && content != [] && Or(b.text, b.url) == Str(content)
  {
    var p := PayloadFor(t, text, url, size, color, backgroundColor, logo, bgImage);
    ImageFieldSent(t, p, logo, bgImage);
    ContentFieldSent(t, p, text, url);
  }

  /** The image of a logo or background payload reaches the server as a
      truthy `logo` or `bgImage` of the right type. */
  lemma ImageFieldSent(t: QrType, p: Payload, logo: Option<File>, bgImage: Option<File>)
    requires t == Logo || t == Background
    requires IsSizeOption(p.size) && p.qrType == TypeName(t)
    requires t == Logo ==> logo.Some? && p.logo == DataPart(logo.value.dataUrl) &&
                           p.logo.Some? && p.logo.value != []
    requires t == Background ==> bgImage.Some? && p.bgImage == DataPart(bgImage.value.dataUrl) &&
                                 p.bgImage.Some? && p.bgImage.value != []
    ensures var b := ToBody(p);
            && Truthy(b.size)
            && ((Route.IsType(b, "logo") && Truthy(b.logo)) ||
                (Route.IsType(b, "background") && Truthy(b.bgImage)))
  {
    var b := ToBody(p);
    assert b.size == Num(p.size);
    if t == Logo {
      assert b.qrType == Str("logo") && b.logo == Str(p.logo.value);
    } else {
      assert b.qrType == Str("background") && b.bgImage == Str(p.bgImage.value);
    }
  }

  /** The content of a logo or background payload reaches the server as
      `text || url`: the text when it is not blank, the URL otherwise. */
  lemma ContentFieldSent(t: QrType, p: Payload, text: string, url: string)
    requires t == Logo || t == Background
    requires !AllWhitespace(text) || !AllWhitespace(url)
    requires p.text.Some? <==> !AllWhitespace(text)
    requires p.url.Some? <==> AllWhitespace(text) && !AllWhitespace(url)
    requires p.text.Some? ==> p.text.value == text
    requires p.url.Some? ==> p.url.value == url
    ensures var b := ToBody(p);
            var content := if !AllWhitespace(text) then text else url;
            content != [] && Or(b.text, b.url) == Str(content)
  {
    var b := ToBody(p);
    if !AllWhitespace(text) {
      NotBlankIsTruthy(text);
      assert b.text == Str(text);
    } else {
      NotBlankIsTruthy(url);
      assert b.text == Undefined && b.url == Str(url);
    }
  }

  /** An empty file passes the form (it is a chosen file) but its data URL
      has an empty data part, so the payload carries no logo and the server
      answers with its missing-logo message. */
  lemma EmptyLogoFileRejectedByServer(text: string, header: string)
    requires ',' !in header && !AllWhitespace(text)
    ensures var logo := Some(File(header + ","));
            && CheckInputs(Logo, text, [], logo, None).None?
            && Route.Validate(ToBody(PayloadFor(Logo, text, [], 512, "#000000", "#ffffff", logo, None)))
               == Route.Reject(Route.LogoRequiredMsg)
  {
    var logo := Some(File(header + ","));
    DataPartOfDataUrl(header, []);
    assert header + "," + [] == header + ",";
    assert CheckInputs(Logo, text, [], logo, None).None?;
    var p := PayloadFor(Logo, text, [], 512, "#000000", "#ffffff", logo, None);
    assert p.logo == Some([]) && p.qrType == "logo";
    var b := ToBody(p);
    assert b.logo == Str([]) && b.qrType == Str("logo") && b.size == Num(512);
    assert Truthy(b.size) && Route.IsType(b, "logo") && !Truthy(b.logo);
  }

  // ---------------------------------------------------------------------
  // The form's state

  /** The component's state hooks. */
  class GeneratorForm {
    var qrType: QrType
    var text: string
    var url: string
    var size: int
    var color: string
    var backgroundColor: string
    var logo: Option<File>
    var bgImage: Option<File>

    /** The size always comes from the selector. */
    ghost predicate Valid()
      reads this
    {
      IsSizeOption(size)
    }

    /** Initial state: text mode, empty content, 512 px, black on white, no files. */
    constructor ()
      ensures Valid()
      ensures qrType == Text && text == [] && url == [] && size == 512
      ensures color == "#000000" && backgroundColor == "#ffffff"
      ensures logo.None? && bgImage.None?
    {
      qrType, text, url, size := Text, [], [], 512;
      color, backgroundColor := "#000000", "#ffffff";
      logo, bgImage := None, None;
    }

    /** What the content field of the logo and background modes shows: `text || url`. */
    function ContentShown(): (shown: string)
      reads this
      ensures shown == [] <==> text == [] && url == []
    {
      if text != [] then text else url
    }

    /** The change handler of that content field: a value starting with
        `http://` or `https://` goes to `url` and clears `text`, anything else
        goes to `text` and clears `url`. */
    method OnContentChange(value: string)
      requires Valid()
      modifies this`text, this`url
      ensures Valid()
      ensures (text, url) == ClassifyContent(value)
      ensures text == [] || url == []
      ensures ContentShown() == value
    {
      if StartsWith(value, "http://") || StartsWith(value, "https://") {
        url := value;
        text := [];
      } else {
        text := value;
        url := [];
      }
    }

    /** The text-mode textarea sets `text` alone; `url` keeps whatever it held. */
    method OnTextChange(value: string)
      requires Valid()
      modifies this`text
      ensures Valid()
      ensures text == value
    {
      text := value;
    }

    /** The URL-mode input sets `url` alone; `text` keeps whatever it held. */
    method OnUrlChange(value: string)
      requires Valid()
      modifies this`url
      ensures Valid()
      ensures url == value
    {
      url := value;
    }

    /** The file inputs keep the first selected file, and keep the previous
        choice when the selection is empty. */
    method OnLogoChange(files: seq<File>)
      requires Valid()
      modifies this`logo
      ensures Valid()
      ensures logo == if files != [] then Some(files[0]) else old(logo)
    {
      if files != [] {
        logo := Some(files[0]);
      }
    }

    method OnBackgroundChange(files: seq<File>)
      requires Valid()
      modifies this`bgImage
      ensures Valid()
      ensures bgImage == if files != [] then Some(files[0]) else old(bgImage)
    {
      if files != [] {
        bgImage := Some(files[0]);
      }
    }

    /** The size selector. */
    method OnSizeChange(value: int)
      requires IsSizeOption(value)
      modifies this`size
      ensures Valid() && size == value
    {
      size := value;
    }

    /** `generateQR` up to the request: the checks, each ending the attempt
        with its message, then the payload assembled field by field. */
    method Generate() returns (s: Submit)
      requires Valid()
      ensures s == SubmitFor(qrType, text, url, size, color, backgroundColor, logo, bgImage)
      ensures s.Send? ==> IsSizeOption(s.payload.size)
    {
      if qrType == Text && Trim(text) == [] {
        return ClientError(EnterTextMsg);
      }
      if qrType == Url && Trim(url) == [] {
        return ClientError(EnterUrlMsg);
      }
      if qrType == Logo {
        if logo.None? {
          return ClientError(UploadLogoMsg);
        }
        if Trim(text) == [] && Trim(url) == [] {
          return ClientError(EnterContentMsg);
        }
      }
      if qrType == Background {
        if bgImage.None? {
          return ClientError(UploadBackgroundMsg);
        }
        if Trim(text) == [] && Trim(url) == [] {
          return ClientError(EnterContentMsg);
        }
      }

      var payload := Payload(TypeName(qrType), size, color, backgroundColor, None, None, None, None);
      if qrType == Text {
        payload := payload.(text := Some(text));
      } else if qrType == Url {
        payload := payload.(url := Some(url));
      } else if qrType == Logo || qrType == Background {
        if Trim(text) != [] {
          payload := payload.(text := Some(text));
        } else if Trim(url) != [] {
          payload := payload.(url := Some(url));
        }
      }
      if qrType == Logo && logo.Some? {
        payload := payload.(logo := DataPart(logo.value.dataUrl));
      }
      if qrType == Background && bgImage.Some? {
        payload := payload.(bgImage := DataPart(bgImage.value.dataUrl));
      }
      return Send(payload);
    }
  }
}
