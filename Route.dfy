/** The `POST /api/generate-qr` handler: the ordered validation chain, the
    resolution of the QR content, the colour defaults handed to the QR encoder,
    the logo placement arithmetic, and the mapping of failures to HTTP
    responses. The QR encoder and the imaging library are not modelled: each
    call into them is one step of a trace, and a `Backend` says which kinds of
    step throw and with what. */
module Route {
  import opened JsValues

  /** The fields the handler destructures from the JSON body. */
  datatype Body = Body(
    qrType: JsValue,
    text: JsValue,
    url: JsValue,
    size: JsValue,
    color: JsValue,
    backgroundColor: JsValue,
    logo: JsValue,
    bgImage: JsValue)

  const MissingFieldsMsg: string := "Missing required fields: type and size"
  const TextRequiredMsg: string := "Text is required for text type"
  const UrlRequiredMsg: string := "URL is required for url type"
  const LogoRequiredMsg: string := "Logo is required for logo type"
  const BackgroundRequiredMsg: string := "Background image is required for background type"
  const ContentRequiredMsg: string := "Text or URL is required for logo and background types"
  const LogoFailedMsg: string := "Failed to process logo image"
  const BackgroundFailedMsg: string := "Failed to process background image"
  const GenericFailureMsg: string := "Failed to generate QR code"

  /** Outcome of the validation chain: a 400 message, or the content to encode. */
  datatype Validation = Reject(message: string) | Accept(content: JsValue)

  predicate IsType(b: Body, name: string)
  {
    b.qrType == Str(name)
  }

  /** The checks in source order, each returning early with its own message,
      then the content resolution. The contract states, message by message,
      exactly which bodies get it: a missing `type` or `size` wins over every
      other rule, and the image-field checks come before the content check, so
      a logo request missing both its logo and its text and url gets the logo
      message. An unknown `type` passes every check with content `''`. */
  function Validate(b: Body): (r: Validation)
    ensures r == Reject(MissingFieldsMsg) <==> !Truthy(b.qrType) || !Truthy(b.size)
    ensures r == Reject(TextRequiredMsg) <==>
              Truthy(b.size) && IsType(b, "text") && !Truthy(b.text)
    ensures r == Reject(UrlRequiredMsg) <==>
              Truthy(b.size) && IsType(b, "url") && !Truthy(b.url)
    ensures r == Reject(LogoRequiredMsg) <==>
              Truthy(b.size) && IsType(b, "logo") && !Truthy(b.logo)
    ensures r == Reject(BackgroundRequiredMsg) <==>
              Truthy(b.size) && IsType(b, "background") && !Truthy(b.bgImage)
    ensures r == Reject(ContentRequiredMsg) <==>
              && Truthy(b.size)
              && ((IsType(b, "logo") && Truthy(b.logo)) ||
                  (IsType(b, "background") && Truthy(b.bgImage)))
              && !Truthy(b.text) && !Truthy(b.url)
    ensures r.Accept? <==>
              && Truthy(b.qrType) && Truthy(b.size)
              && (IsType(b, "text") ==> Truthy(b.text))
              && (IsType(b, "url") ==> Truthy(b.url))
              && (IsType(b, "logo") ==> Truthy(b.logo) && (Truthy(b.text) || Truthy(b.url)))
              && (IsType(b, "background") ==> Truthy(b.bgImage) && (Truthy(b.text) || Truthy(b.url)))
    ensures r.Accept? && IsType(b, "text") ==> r.content == b.text
    ensures r.Accept? && IsType(b, "url") ==> r.content == b.url
    ensures r.Accept? && (IsType(b, "logo") || IsType(b, "background")) ==>
              r.content == (if Truthy(b.text) then b.text else b.url) && Truthy(r.content)
    ensures (r.Accept? && !IsType(b, "text") && !IsType(b, "url") && !IsType(b, "logo") &&
             !IsType(b, "background")) ==> r.content == Str("")
  {
    if !Truthy(b.qrType) || !Truthy(b.size) then Reject(MissingFieldsMsg)
    else if IsType(b, "text") && !Truthy(b.text) then Reject(TextRequiredMsg)
    else if IsType(b, "url") && !Truthy(b.url) then Reject(UrlRequiredMsg)
    else if IsType(b, "logo") && !Truthy(b.logo) then Reject(LogoRequiredMsg)
    else if IsType(b, "background") && !Truthy(b.bgImage) then Reject(BackgroundRequiredMsg)
    else if IsType(b, "text") then Accept(b.text)
    else if IsType(b, "url") then Accept(b.url)
    else if IsType(b, "logo") || IsType(b, "background") then
      var content := Or(b.text, b.url);
      if !Truthy(content) then Reject(ContentRequiredMsg) else Accept(content)
    else Accept(Str(""))
  }

  /** A text request with non-empty `text`, or a URL request with non-empty
      `url`, is accepted with that string as content. */
  lemma TextOrUrlModeAccepted(b: Body, c: string)
    requires Truthy(b.size) && c != []
    requires (IsType(b, "text") && b.text == Str(c)) || (IsType(b, "url") && b.url == Str(c))
    ensures Validate(b) == Accept(Str(c))
  {
    assert Truthy(b.qrType);
  }

  /** A logo or background request with its image and a truthy `text || url`
      is accepted with that content. */
  lemma ImageModeAccepted(b: Body, c: string)
    requires Truthy(b.size)
    requires (IsType(b, "logo") && Truthy(b.logo)) || (IsType(b, "background") && Truthy(b.bgImage))
    requires c != [] && Or(b.text, b.url) == Str(c)
    ensures Validate(b) == Accept(Str(c))
  {
    assert Truthy(b.qrType);
    assert !IsType(b, "text") && !IsType(b, "url");
  }

  // ---------------------------------------------------------------------
  // Encoder options and colour defaults

  /** The options object handed to `QRCode.toDataURL`. */
  datatype QrOptions = QrOptions(width: JsValue, dark: JsValue, light: JsValue, margin: int)

  const DefaultDark: JsValue := Str("#000000")
  const White: JsValue := Str("#ffffff")

  /** Options of the base render: the caller's colours, defaulting to black
      modules on white. */
  function BaseOptions(b: Body): (o: QrOptions)
    ensures o.width == b.size && o.margin == 1
    ensures o.dark == (if Truthy(b.color) then b.color else DefaultDark)
    ensures o.light == (if Truthy(b.backgroundColor) then b.backgroundColor else White)
    ensures Truthy(o.dark) && Truthy(o.light)
  {
    QrOptions(b.size, Or(b.color, DefaultDark), Or(b.backgroundColor, White), 1)
  }

  /** Options of the second render in background mode: same modules, always a
      white light colour, so the white can be keyed out afterwards. */
  function OverlayOptions(b: Body): (o: QrOptions)
    ensures o.light == White
    ensures o.width == BaseOptions(b).width && o.dark == BaseOptions(b).dark
    ensures o.margin == BaseOptions(b).margin
  {
    QrOptions(b.size, Or(b.color, DefaultDark), White, 1)
  }

  // ---------------------------------------------------------------------
  // Logo placement

  /** Side and top-left corner of the logo inside a `size` x `size` image. */
  datatype Placement = Placement(side: int, x: int, y: int)

  /** `logoSize = Math.floor(size * 0.3)`, `x = y = Math.floor((size - logoSize) / 2)`,
      with 0.3 taken as the exact fraction 3/10. Dafny's `/` with a positive
      divisor rounds down, as `Math.floor` does, also for negative sizes.
      For a non-negative size the logo lies inside the square, centred to
      within one pixel. */
  function LogoPlacement(size: int): (p: Placement)
    ensures p.x == p.y
    ensures 10 * p.side <= 3 * size < 10 * p.side + 10
    ensures size >= 0 ==> 0 <= p.side <= size
    ensures size >= 0 ==> 0 <= p.x && p.x + p.side <= size
    ensures size >= 0 ==> 0 <= p.y && p.y + p.side <= size
    ensures 0 <= (size - (p.x + p.side)) - p.x <= 1
  {
    var side := (3 * size) / 10;
    var offset := (size - side) / 2;
    Placement(side, offset, offset)
  }

  /** The placement for the `size` field: only a JSON number is modelled;
      JS coercion of other truthy values is not. */
  function PlacementFor(size: JsValue): (r: Option<Placement>)
    ensures r.Some? <==> size.Num?
    ensures size.Num? ==> r.value == LogoPlacement(size.n)
  {
    if size.Num? then Some(LogoPlacement(size.n)) else None
  }

  // ---------------------------------------------------------------------
  // The handler

  /** What a library call can throw: an `Error` carries a message. */
  datatype Thrown = ErrorObject(message: string) | OtherThrown

  /** Each call the handler makes into the encoder or the imaging library. */
  datatype Call =
    | EncodeQr(content: JsValue, options: QrOptions)  // QRCode.toDataURL + data-URL split + base64 decode
    | ReadQr                                            // Jimp.read of the base render
    | ReadLogo(logo: JsValue)                           // base64 decode + Jimp.read of the logo
    | ResizeLogo(placement: Option<Placement>)
    | CompositeLogo(placement: Option<Placement>)
    | ReadBackground(photo: JsValue)                    // base64 decode + Jimp.read of the photo
    | CoverBackground(width: JsValue)
    | EncodeOverlay(content: JsValue, options: QrOptions)  // toDataURL + split + base64 decode
    | ReadOverlay
    | PunchWhite                                        // the scan that keys out white
    | CompositeOverlay
    | EncodePng                                         // getBufferAsync(MIME_PNG)

  /** Kinds of call, so that a backend can say which of them throw. */
  datatype Stage =
    | EncodeStage | ReadQrStage | ReadLogoStage | ResizeLogoStage | CompositeLogoStage
    | ReadBackgroundStage | CoverStage | EncodeOverlayStage | ReadOverlayStage
    | PunchStage | CompositeOverlayStage | PngStage

  function StageOf(c: Call): (s: Stage)
    ensures s == EncodeStage <==> c.EncodeQr?
    ensures s == PngStage <==> c.EncodePng?
  {
    match c
    case EncodeQr(_, _) => EncodeStage
    case ReadQr => ReadQrStage
    case ReadLogo(_) => ReadLogoStage
    case ResizeLogo(_) => ResizeLogoStage
    case CompositeLogo(_) => CompositeLogoStage
    case ReadBackground(_) => ReadBackgroundStage
    case CoverBackground(_) => CoverStage
    case EncodeOverlay(_, _) => EncodeOverlayStage
    case ReadOverlay => ReadOverlayStage
    case PunchWhite => PunchStage
    case CompositeOverlay => CompositeOverlayStage
    case EncodePng => PngStage
  }

  /** The calls whose failures reach the outer catch: the base render and
      its decoding, and the final PNG encoding. */
  predicate OuterCatchStage(s: Stage)
  {
    s == EncodeStage || s == ReadQrStage || s == PngStage
  }

  /** The calls inside the logo branch's `try`. */
  predicate LogoStage(s: Stage)
  {
    s == ReadLogoStage || s == ResizeLogoStage || s == CompositeLogoStage
  }

  /** The calls inside the background branch's `try`. */
  predicate BackgroundStage(s: Stage)
  {
    || s == ReadBackgroundStage || s == CoverStage || s == EncodeOverlayStage
    || s == ReadOverlayStage || s == PunchStage || s == CompositeOverlayStage
  }

  /** The foreign code, as far as the handler can observe it: which kinds of
      call throw, and what. */
  datatype Backend = Backend(failing: map<Stage, Thrown>)

  /** No call of `t` throws. */
  predicate Clean(t: seq<Call>, be: Backend)
  {
    forall j :: 0 <= j < |t| ==> StageOf(t[j]) !in be.failing
  }

  /** Index of the first call of `calls` that throws, if any. */
  function FirstFailure(calls: seq<Call>, be: Backend): (r: Option<nat>)
    ensures r.Some? ==> r.value < |calls| && StageOf(calls[r.value]) in be.failing
    ensures r.Some? ==> forall j :: 0 <= j < r.value ==> StageOf(calls[j]) !in be.failing
    ensures r.None? ==> Clean(calls, be)
  {
    if calls == [] then None
    else if StageOf(calls[0]) in be.failing then Some(0)
    else
      match FirstFailure(calls[1..], be)
      case None => None
      case Some(k) => Some(k + 1)
  }

  /** The layers of the image that is returned. */
  datatype Image =
    | QrImage(content: JsValue, options: QrOptions)
      /** the uploaded logo, resized to the placement's side, drawn over `base` at its corner */
    | WithLogo(base: Image, logo: JsValue, placement: Option<Placement>)
      /** `qr` after the scan that makes its near-white pixels transparent */
    | WhiteKeyedOut(qr: Image)
      /** the uploaded photo covered to `width` x `width`, with `overlay` drawn over it at (0, 0) */
    | OverBackground(overlay: Image, photo: JsValue, width: JsValue)

  datatype Response = Png(image: Image) | JsonError(status: int, message: string)

  /** The response together with the calls made into foreign code, in order. */
  datatype Handled = Handled(response: Response, trace: seq<Call>)

  /** The message of the outer catch: the error's message, or a fixed phrase
      when what was thrown is not an `Error`. */
  function UnexpectedMessage(t: Thrown): (m: string)
    ensures t.ErrorObject? ==> m == t.message
    ensures t.OtherThrown? ==> m == GenericFailureMsg
  {
    match t
    case ErrorObject(m) => m
    case OtherThrown => GenericFailureMsg
  }

  /** The base render: encode, then decode it into an image. */
  function BaseCalls(b: Body, content: JsValue): (cs: seq<Call>)
    ensures forall i :: 0 <= i < |cs| ==> OuterCatchStage(StageOf(cs[i]))
  {
    [EncodeQr(content, BaseOptions(b)), ReadQr]
  }

  /** The logo branch: read, resize to the logo side, composite. */
  function LogoCalls(b: Body): (cs: seq<Call>)
    ensures forall i :: 0 <= i < |cs| ==> LogoStage(StageOf(cs[i]))
  {
    [ReadLogo(b.logo), ResizeLogo(PlacementFor(b.size)), CompositeLogo(PlacementFor(b.size))]
  }

  /** The background branch: read and cover the photo, render the overlay
      on white, decode it, key out the white, composite it over the photo. */
  function BackgroundCalls(b: Body, content: JsValue): (cs: seq<Call>)
    ensures forall i :: 0 <= i < |cs| ==> BackgroundStage(StageOf(cs[i]))
  {
    [ReadBackground(b.bgImage), CoverBackground(b.size), EncodeOverlay(content, OverlayOptions(b)),
     ReadOverlay, PunchWhite, CompositeOverlay]
  }

  /** The logo branch's calls, when the request takes that branch. */
  function LogoPart(b: Body): (cs: seq<Call>)
    ensures cs != [] <==> IsType(b, "logo") && Truthy(b.logo)
  {
    if IsType(b, "logo") && Truthy(b.logo) then LogoCalls(b) else []
  }

  /** The background branch's calls, when the request takes that branch. */
  function BackgroundPart(b: Body, content: JsValue): (cs: seq<Call>)
    ensures cs != [] <==> IsType(b, "background") && Truthy(b.bgImage)
  {
    if IsType(b, "background") && Truthy(b.bgImage) then BackgroundCalls(b, content) else []
  }

  /** Every call an accepted request makes when nothing throws, in order:
      the base render, the branch of its type, the PNG encoding. */
  function Path(b: Body, content: JsValue): (p: seq<Call>)
    ensures |p| >= 3 && p[0] == EncodeQr(content, BaseOptions(b)) && p[|p| - 1] == EncodePng
  {
    BaseCalls(b, content) + (LogoPart(b) + (BackgroundPart(b, content) + [EncodePng]))
  }

  /** The calls actually made along `p`: all of them, or those up to and
      including the first that throws, since a throw leaves the `try`. */
  function Upto(p: seq<Call>, be: Backend): (t: seq<Call>)
    ensures t <= p
    ensures FirstFailure(p, be).None? ==> t == p
    ensures FirstFailure(p, be).Some? ==> |t| == FirstFailure(p, be).value + 1
  {
    match FirstFailure(p, be)
    case None => p
    case Some(k) => p[..k + 1]
  }

  /** The first failure of `a + b` is the first of `a`, or else the first of
      `b` shifted past `a`. */
  lemma {:induction false} FirstFailureConcat(a: seq<Call>, b: seq<Call>, be: Backend)
    ensures FirstFailure(a + b, be) ==
              if FirstFailure(a, be).Some? then FirstFailure(a, be)
              else if FirstFailure(b, be).Some? then Some(|a| + FirstFailure(b, be).value)
              else None
  {
    if a == [] {
      assert a + b == b;
    } else {
      assert (a + b)[0] == a[0];
      assert (a + b)[1..] == a[1..] + b;
      FirstFailureConcat(a[1..], b, be);
    }
  }

  /** Running `a` then `b` stops inside `a` when `a` throws, and otherwise
      makes all of `a` and then what `b` makes. */
  lemma {:induction false} UptoConcat(a: seq<Call>, b: seq<Call>, be: Backend)
    ensures Upto(a + b, be) == if FirstFailure(a, be).Some? then Upto(a, be) else a + Upto(b, be)
  {
    FirstFailureConcat(a, b, be);
    match FirstFailure(a, be)
    case Some(k) =>
      assert (a + b)[..k + 1] == a[..k + 1];
    case None =>
      match FirstFailure(b, be)
      case None =>
      case Some(j) =>
        assert (a + b)[..|a| + j + 1] == a + b[..j + 1];
  }

  /** A step whose calls throw stops there: what it made is what running
      those calls followed by `rest` makes. */
  lemma {:induction false} StopTrace(done: seq<Call>, calls: seq<Call>, rest: seq<Call>, be: Backend)
    requires RunCalls(done, calls, be).Threw?
    ensures RunCalls(done, calls, be).trace == done + Upto(calls + rest, be)
  {
    UptoConcat(calls, rest, be);
  }

  /** A step whose calls all return hands on to `rest`: running both makes
      all of `calls` and then what `rest` makes. */
  lemma {:induction false} ThenTrace(done: seq<Call>, calls: seq<Call>, rest: seq<Call>, be: Backend, t: seq<Call>)
    requires FirstFailure(calls, be).None?
    requires t == (done + calls) + Upto(rest, be)
    ensures t == done + Upto(calls + rest, be)
  {
    UptoConcat(calls, rest, be);
    AppendAssoc(done, calls, Upto(rest, be));
  }

  lemma AppendAssoc(a: seq<Call>, b: seq<Call>, c: seq<Call>)
    ensures (a + b) + c == a + (b + c)
  {
  }

  /** Runs `calls` after `done`: Ok with the extended trace, or the trace up to
      and including the call that threw, with what it threw. */
  datatype Run = Completed(trace: seq<Call>) | Threw(trace: seq<Call>, thrown: Thrown)

  function RunCalls(done: seq<Call>, calls: seq<Call>, be: Backend): (r: Run)
    ensures r.Completed? <==> FirstFailure(calls, be).None?
    ensures r.Completed? ==> r.trace == done + calls
    ensures r.trace == done + Upto(calls, be)
    ensures r.Threw? ==> var k := FirstFailure(calls, be).value;
              r.trace == done + calls[..k + 1] && r.thrown == be.failing[StageOf(calls[k])]
    ensures r.Threw? ==> |r.trace| >= 1 && StageOf(r.trace[|r.trace| - 1]) in be.failing
    ensures r.Threw? ==> r.trace[|r.trace| - 1] == calls[FirstFailure(calls, be).value]
    ensures r.Threw? && Clean(done, be) ==>
              FirstFailure(r.trace, be) == Some(|r.trace| - 1)
    ensures r.Completed? && Clean(done, be) ==>
              Clean(r.trace, be)
  {
    match FirstFailure(calls, be)
    case None => Completed(done + calls)
    case Some(k) =>
      FailureAtEnd(done, calls, k, be);
      Threw(done + calls[..k + 1], be.failing[StageOf(calls[k])])
  }

  /** When everything before `calls` ran cleanly, the first failure of the
      trace is the call that threw, which ends it. */
  lemma {:induction false} FailureAtEnd(done: seq<Call>, calls: seq<Call>, k: nat, be: Backend)
    requires FirstFailure(calls, be) == Some(k)
    ensures Clean(done, be) ==>
              FirstFailure(done + calls[..k + 1], be) == Some(|done| + k)
  {
    if Clean(done, be) {
      FirstFailureOfPrefix(calls, k, be);
      FirstFailureAfterClean(done, calls[..k + 1], be);
    }
  }

  /** Cutting the calls just after the first failing one keeps that failure. */
  lemma {:induction false} FirstFailureOfPrefix(calls: seq<Call>, k: nat, be: Backend)
    requires FirstFailure(calls, be) == Some(k)
    ensures FirstFailure(calls[..k + 1], be) == Some(k)
  {
    var cut := calls[..k + 1];
    assert cut[0] == calls[0];
    if k > 0 {
      assert cut[1..] == calls[1..][..k];
      FirstFailureOfPrefix(calls[1..], k - 1, be);
    }
  }

  /** Calls that all ran cleanly only shift the index of the first failure. */
  lemma {:induction false} FirstFailureAfterClean(done: seq<Call>, rest: seq<Call>, be: Backend)
    requires Clean(done, be)
    ensures FirstFailure(done + rest, be) ==
              if FirstFailure(rest, be).Some? then Some(|done| + FirstFailure(rest, be).value)
              else None
  {
    if done == [] {
      assert done + rest == rest;
    } else {
      assert (done + rest)[0] == done[0] && StageOf(done[0]) !in be.failing;
      assert (done + rest)[1..] == done[1..] + rest;
      assert Clean(done[1..], be) by {
        forall j | 0 <= j < |done[1..]| ensures StageOf(done[1..][j]) !in be.failing {
          assert done[1..][j] == done[j + 1];
        }
      }
      FirstFailureAfterClean(done[1..], rest, be);
    }
  }

  /** How a finished request reports what happened: a PNG exactly when no
      call threw; otherwise a 500 whose trace ends at the call that threw,
      with the message of the `catch` that encloses that call. */
  predicate ReportsFailure(h: Handled, be: Backend)
    ensures ReportsFailure(h, be) && h.response.JsonError? ==>
              h.response.status == 500 && h.trace != [] && StageOf(h.trace[|h.trace| - 1]) in be.failing
  {
    && (h.response.Png? <==> FirstFailure(h.trace, be).None?)
    && (h.response.JsonError? ==>
          && h.response.status == 500
          && FirstFailure(h.trace, be) == Some(|h.trace| - 1)
          && var s := StageOf(h.trace[|h.trace| - 1]);
          && (OuterCatchStage(s) ==> h.response.message == UnexpectedMessage(be.failing[s]))
          && (LogoStage(s) ==> h.response.message == LogoFailedMsg)
          && (BackgroundStage(s) ==> h.response.message == BackgroundFailedMsg))
  }

  /** The PNG encoding that ends every accepted request, after the calls `t`,
      none of which threw; a failure here reaches the outer catch. */
  function Finish(t: seq<Call>, img: Image, be: Backend): (h: Handled)
    requires Clean(t, be)
    ensures ReportsFailure(h, be)
    ensures |h.trace| == |t| + 1 && h.trace[..|t|] == t
    ensures h.response.Png? <==> PngStage !in be.failing
    ensures h.response.Png? ==> h == Handled(Png(img), t + [EncodePng])
    ensures h.trace == t + Upto([EncodePng], be)
  {
    match RunCalls(t, [EncodePng], be)
    case Threw(t3, e) => Handled(JsonError(500, UnexpectedMessage(e)), t3)
    case Completed(t3) => Handled(Png(img), t3)
  }

  /** The background branch (when it applies), then the PNG encoding. */
  function BackgroundStep(b: Body, content: JsValue, t1: seq<Call>, img1: Image, be: Backend)
    : (h: Handled)
    requires Clean(t1, be)
    ensures ReportsFailure(h, be)
    ensures |h.trace| > |t1| && h.trace[..|t1|] == t1
    ensures IsType(b, "background") && Truthy(b.bgImage) &&
            FirstFailure(BackgroundCalls(b, content), be).Some? ==>
              h.response == JsonError(500, BackgroundFailedMsg)
    ensures !(IsType(b, "background") && Truthy(b.bgImage)) ==> h == Finish(t1, img1, be)
    ensures h.trace == t1 + Upto(BackgroundPart(b, content) + [EncodePng], be)
  {
    if IsType(b, "background") && Truthy(b.bgImage) then
      var calls := BackgroundCalls(b, content);
      var r := RunCalls(t1, calls, be);
      if r.Threw? then
        BackgroundThrew(b, content, t1, be);
        StopTrace(t1, calls, [EncodePng], be);
        Handled(JsonError(500, BackgroundFailedMsg), r.trace)
      else
        var overlay := WhiteKeyedOut(QrImage(content, OverlayOptions(b)));
        var h := Finish(r.trace, OverBackground(overlay, b.bgImage, b.size), be);
        PrefixOfPrefix(h.trace, r.trace, t1);
        ThenTrace(t1, calls, [EncodePng], be, h.trace);
        h
    else
      assert BackgroundPart(b, content) + [EncodePng] == [EncodePng];
      Finish(t1, img1, be)
  }

  /** The logo branch (when it applies), then the background branch and the
      PNG encoding. */
  function LogoStep(b: Body, content: JsValue, t0: seq<Call>, be: Backend): (h: Handled)
    requires Clean(t0, be)
    ensures ReportsFailure(h, be)
    ensures |h.trace| > |t0| && h.trace[..|t0|] == t0
    ensures IsType(b, "logo") && Truthy(b.logo) && FirstFailure(LogoCalls(b), be).Some? ==>
              h.response == JsonError(500, LogoFailedMsg)
    ensures !(IsType(b, "logo") && Truthy(b.logo)) ==>
              h == BackgroundStep(b, content, t0, QrImage(content, BaseOptions(b)), be)
    ensures h.trace == t0 + Upto(LogoPart(b) + (BackgroundPart(b, content) + [EncodePng]), be)
  {
    var base := QrImage(content, BaseOptions(b));
    var rest := BackgroundPart(b, content) + [EncodePng];
    if IsType(b, "logo") && Truthy(b.logo) then
      var calls := LogoCalls(b);
      var r := RunCalls(t0, calls, be);
      if r.Threw? then
        LogoThrew(b, t0, be);
        StopTrace(t0, calls, rest, be);
        Handled(JsonError(500, LogoFailedMsg), r.trace)
      else
        var h := BackgroundStep(b, content, r.trace, WithLogo(base, b.logo, PlacementFor(b.size)), be);
        PrefixOfPrefix(h.trace, r.trace, t0);
        ThenTrace(t0, calls, rest, be, h.trace);
        h
    else
      assert LogoPart(b) + rest == rest;
      BackgroundStep(b, content, t0, base, be)
  }

  /** A failing logo call is answered by the logo branch's catch. */
  lemma {:induction false} LogoThrew(b: Body, t0: seq<Call>, be: Backend)
    requires Clean(t0, be)
    requires RunCalls(t0, LogoCalls(b), be).Threw?
    ensures ReportsFailure(Handled(JsonError(500, LogoFailedMsg), RunCalls(t0, LogoCalls(b), be).trace), be)
  {
    var calls := LogoCalls(b);
    var k := FirstFailure(calls, be).value;
    assert LogoStage(StageOf(calls[k]));
  }

  /** A failing background call is answered by the background branch's catch. */
  lemma {:induction false} BackgroundThrew(b: Body, content: JsValue, t1: seq<Call>, be: Backend)
    requires Clean(t1, be)
    requires RunCalls(t1, BackgroundCalls(b, content), be).Threw?
    ensures var t := RunCalls(t1, BackgroundCalls(b, content), be).trace;
            ReportsFailure(Handled(JsonError(500, BackgroundFailedMsg), t), be)
  {
    var calls := BackgroundCalls(b, content);
    var k := FirstFailure(calls, be).value;
    assert BackgroundStage(StageOf(calls[k]));
  }

  lemma {:induction false} PrefixOfPrefix(a: seq<Call>, b: seq<Call>, c: seq<Call>)
    requires |c| <= |b| <= |a| && a[..|b|] == b && b[..|c|] == c
    ensures a[..|c|] == c
  {
    assert a[..|c|] == a[..|b|][..|c|];
  }

  /** What the handler answers for the body `b` whose validation chain gave
      `v`, with the backend `be`: statuses 400 and 500 only for errors; a 400
      exactly on rejection, with its message and no call into foreign code;
      for an accepted request, exactly the calls of `Path` up to and including
      the first that throws, starting with the base render; a PNG exactly
      when no call threw; and a 500 whose trace ends at the call that threw,
      with the message of the `catch` that encloses that call. */
  predicate Answers(b: Body, v: Validation, be: Backend, h: Handled)
  {
    && (h.response.JsonError? ==> h.response.status in {400, 500})
    && ((h.response.JsonError? && h.response.status == 400) <==> v.Reject?)
    && (v.Reject? ==> h == Handled(JsonError(400, v.message), []))
    && (v.Accept? ==> |h.trace| >= 1 && h.trace[0] == EncodeQr(v.content, BaseOptions(b)))
    && (v.Accept? ==> h.trace == Upto(Path(b, v.content), be))
    && (v.Accept? && EncodeStage in be.failing ==>
          h == Handled(JsonError(500, UnexpectedMessage(be.failing[EncodeStage])),
                       [EncodeQr(v.content, BaseOptions(b))]))
    && (&& v.Accept? && IsType(b, "logo")
        && FirstFailure(BaseCalls(b, v.content), be).None?
        && FirstFailure(LogoCalls(b), be).Some?
        ==> h.response == JsonError(500, LogoFailedMsg))
    && (&& v.Accept? && IsType(b, "background")
        && FirstFailure(BaseCalls(b, v.content), be).None?
        && FirstFailure(BackgroundCalls(b, v.content), be).Some?
        ==> h.response == JsonError(500, BackgroundFailedMsg))
    && (h.response.Png? <==> v.Accept? && FirstFailure(h.trace, be).None?)
    && (h.response.JsonError? && h.response.status == 500 ==>
          && FirstFailure(h.trace, be) == Some(|h.trace| - 1)
          && var s := StageOf(h.trace[|h.trace| - 1]);
          && (OuterCatchStage(s) ==> h.response.message == UnexpectedMessage(be.failing[s]))
          && (LogoStage(s) ==> h.response.message == LogoFailedMsg)
          && (BackgroundStage(s) ==> h.response.message == BackgroundFailedMsg))
  }

  /** The whole handler. Validation decides first; then the base render
      (whose failures reach the outer catch), then the logo or background
      branch (whose failures each have their own catch and message), then the
      PNG encoding (outer catch again). */
  function Post(b: Body, be: Backend): (h: Handled)
    ensures Answers(b, Validate(b), be, h)
  {
    Respond(b, Validate(b), be)
  }

  /** The handler after its validation chain gave `v`: a 400 with the
      rejection's message, or the accepted request's calls. */
  function Respond(b: Body, v: Validation, be: Backend): (h: Handled)
    requires v.Accept? ==> Validate(b) == v
    ensures Answers(b, v, be, h)
  {
    match v
    case Reject(msg) => Handled(JsonError(400, msg), [])
    case Accept(content) => Accepted(b, content, be)
  }

  /** An accepted request: the base render, then the logo and background
      branches and the PNG encoding. */
  function Accepted(b: Body, content: JsValue, be: Backend): (h: Handled)
    requires Validate(b) == Accept(content)
    ensures ReportsFailure(h, be)
    ensures |h.trace| >= 1 && h.trace[0] == EncodeQr(content, BaseOptions(b))
    ensures EncodeStage in be.failing ==>
              h == Handled(JsonError(500, UnexpectedMessage(be.failing[EncodeStage])),
                           [EncodeQr(content, BaseOptions(b))])
    ensures && IsType(b, "logo")
            && FirstFailure(BaseCalls(b, content), be).None?
            && FirstFailure(LogoCalls(b), be).Some?
            ==> h.response == JsonError(500, LogoFailedMsg)
    ensures && IsType(b, "background")
            && FirstFailure(BaseCalls(b, content), be).None?
            && FirstFailure(BackgroundCalls(b, content), be).Some?
            ==> h.response == JsonError(500, BackgroundFailedMsg)
    ensures h.trace == Upto(Path(b, content), be)
  {
    var calls := BaseCalls(b, content);
    var r := RunCalls([], calls, be);
    UptoConcat(calls, LogoPart(b) + (BackgroundPart(b, content) + [EncodePng]), be);
    if r.Threw? then
      BaseThrew(b, content, be);
      Handled(JsonError(500, UnexpectedMessage(r.thrown)), r.trace)
    else
      var h := LogoStep(b, content, r.trace, be);
      assert h.trace[0] == h.trace[..|r.trace|][0];
      assert [] + calls == calls;
      h
  }

  /** A failing base render or decode is answered by the outer catch. */
  lemma {:induction false} BaseThrew(b: Body, content: JsValue, be: Backend)
    requires RunCalls([], BaseCalls(b, content), be).Threw?
    ensures var r := RunCalls([], BaseCalls(b, content), be);
            && ReportsFailure(Handled(JsonError(500, UnexpectedMessage(r.thrown)), r.trace), be)
            && r.trace[0] == EncodeQr(content, BaseOptions(b))
            && (EncodeStage in be.failing ==> r.trace == [EncodeQr(content, BaseOptions(b))])
  {
    var calls := BaseCalls(b, content);
    assert Clean([], be);
    var k := FirstFailure(calls, be).value;
    assert OuterCatchStage(StageOf(calls[k]));
    if EncodeStage in be.failing {
      assert k == 0;
    }
  }

  /** A failing base render or decode ends the request in the outer catch:
      a 500 with what the call threw, after exactly the calls up to it. */
  lemma BaseFailure(b: Body, be: Backend, k: nat)
    requires Validate(b).Accept?
    requires FirstFailure(BaseCalls(b, Validate(b).content), be) == Some(k)
    ensures var calls := BaseCalls(b, Validate(b).content);
            Post(b, be) ==
              Handled(JsonError(500, UnexpectedMessage(be.failing[StageOf(calls[k])])), calls[..k + 1])
  {
    var c := Validate(b).content;
    var calls := BaseCalls(b, c);
    FirstFailureConcat(calls, LogoPart(b) + (BackgroundPart(b, c) + [EncodePng]), be);
    assert Path(b, c)[..k + 1] == calls[..k + 1];
    assert OuterCatchStage(StageOf(calls[k]));
  }

  /** When every other call succeeds but the PNG encoding throws, the outer
      catch answers with what it threw, after the whole path. */
  lemma PngFailure(b: Body, be: Backend)
    requires Validate(b).Accept? && PngStage in be.failing
    requires var p := Path(b, Validate(b).content); Clean(p[..|p| - 1], be)
    ensures Post(b, be) ==
              Handled(JsonError(500, UnexpectedMessage(be.failing[PngStage])), Path(b, Validate(b).content))
  {
    var c := Validate(b).content;
    var p := Path(b, c);
    LastFails(p, be);
    var h := Accepted(b, c, be);
    assert Post(b, be) == h;
    OuterCatchReport(h, be);
  }

  /** A response that fails at a call of the outer `try` carries what that
      call threw. */
  lemma OuterCatchReport(h: Handled, be: Backend)
    requires ReportsFailure(h, be) && h.trace != []
    requires FirstFailure(h.trace, be) == Some(|h.trace| - 1)
    requires OuterCatchStage(StageOf(h.trace[|h.trace| - 1]))
    ensures h.response == JsonError(500, UnexpectedMessage(be.failing[StageOf(h.trace[|h.trace| - 1])]))
  {
  }

  /** Every stage belongs to exactly one `try`, so a reported failure carries
      one of the three catch messages. */
  lemma FailureMessages(h: Handled, be: Backend)
    requires ReportsFailure(h, be) && h.response.JsonError?
    ensures var s := StageOf(h.trace[|h.trace| - 1]);
            h.response.message in {UnexpectedMessage(be.failing[s]), LogoFailedMsg, BackgroundFailedMsg}
  {
  }

  /** A run whose calls all return but the last throws makes all of them. */
  lemma {:induction false} LastFails(p: seq<Call>, be: Backend)
    requires p != [] && Clean(p[..|p| - 1], be) && StageOf(p[|p| - 1]) in be.failing
    ensures FirstFailure(p, be) == Some(|p| - 1) && Upto(p, be) == p
  {
    var last := [p[|p| - 1]];
    FirstFailureAfterClean(p[..|p| - 1], last, be);
    assert FirstFailure(last, be) == Some(0);
    assert p[..|p| - 1] + last == p;
    assert p[..|p|] == p;
  }

  /** With no failing call, a text, URL or unknown-type request answers with
      the base render alone, after encoding and decoding it and encoding the
      PNG. */
  lemma PlainSuccess(b: Body, be: Backend)
    requires Validate(b).Accept? && !IsType(b, "logo") && !IsType(b, "background")
    requires FirstFailure(BaseCalls(b, Validate(b).content) + [EncodePng], be).None?
    ensures var c := Validate(b).content;
            Post(b, be) == Handled(Png(QrImage(c, BaseOptions(b))), BaseCalls(b, c) + [EncodePng])
  {
    var calls := BaseCalls(b, Validate(b).content) + [EncodePng];
    assert StageOf(calls[0]) !in be.failing && StageOf(calls[1]) !in be.failing;
    assert StageOf(calls[2]) !in be.failing;
  }

  /** With no call on its path failing, a background request answers with
      the keyed overlay (light colour always white) composited on the covered
      photo, after exactly this sequence of calls. */
  lemma BackgroundSuccess(b: Body, be: Backend)
    requires Validate(b).Accept? && IsType(b, "background")
    requires FirstFailure(Path(b, Validate(b).content), be).None?
    ensures var c := Validate(b).content;
            && Post(b, be).response ==
               Png(OverBackground(WhiteKeyedOut(QrImage(c, OverlayOptions(b))), b.bgImage, b.size))
            && Post(b, be).trace == BaseCalls(b, c) + BackgroundCalls(b, c) + [EncodePng]
  {
    CleanPath(b, Validate(b).content, be);
  }

  /** With no call on its path failing, a logo request answers with the base
      render and the logo placed by `LogoPlacement`. */
  lemma LogoSuccess(b: Body, be: Backend, n: int)
    requires Validate(b).Accept? && IsType(b, "logo") && b.size == Num(n)
    requires FirstFailure(Path(b, Validate(b).content), be).None?
    ensures Post(b, be).response ==
              Png(WithLogo(QrImage(Validate(b).content, BaseOptions(b)), b.logo, Some(LogoPlacement(n))))
    ensures Post(b, be).trace ==
              BaseCalls(b, Validate(b).content) + LogoCalls(b) + [EncodePng]
  {
    CleanPath(b, Validate(b).content, be);
  }

  /** No call on a path fails exactly when none fails in any of its parts. */
  lemma CleanPath(b: Body, c: JsValue, be: Backend)
    requires FirstFailure(Path(b, c), be).None?
    ensures FirstFailure(BaseCalls(b, c), be).None?
    ensures FirstFailure(LogoPart(b), be).None?
    ensures FirstFailure(BackgroundPart(b, c), be).None?
    ensures PngStage !in be.failing
  {
    var tail := BackgroundPart(b, c) + [EncodePng];
    FirstFailureConcat(BaseCalls(b, c), LogoPart(b) + tail, be);
    FirstFailureConcat(LogoPart(b), tail, be);
    FirstFailureConcat(BackgroundPart(b, c), [EncodePng], be);
    assert StageOf([EncodePng][0]) == PngStage;
  }
}
