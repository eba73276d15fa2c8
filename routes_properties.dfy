/** What the request layer promises: the upload filter, the order of the
    checks and the status each outcome gets, and the choices each handler
    makes before the image library runs. */
module RouteProperties {
  import opened Wrappers
  import opened Json
  import opened Text
  import opened JsMath
  import opened Schema
  import opened Sharp
  import opened Routes

  // ---------------------------------------------------------------- upload

  /** A part is accepted iff its declared type starts with "image/" and it
      holds at most 50 MiB; a non-image is refused as such whatever its size. */
  lemma UploadAcceptance(f: IncomingFile)
    ensures Receive(Some(f)).Success? <==> StartsWith(f.mimetype, "image/") && |f.buffer| <= 50 * 1024 * 1024
    ensures !StartsWith(f.mimetype, "image/") ==> Receive(Some(f)) == Failure(NotAnImage)
    ensures Receive(Some(f)).Success? ==> Receive(Some(f)).value.Some? && Receive(Some(f)).value.value.size == |f.buffer|
  {
  }

  lemma UploadFilterExamples()
    ensures FileFilter("image/png") && FileFilter("image/")
    ensures !FileFilter("text/plain") && !FileFilter("image") && !FileFilter("IMAGE/PNG")
  {
    assert "image/png"[..6] == "image/";
    assert "text/plain"[..6] != "image/" by { assert "text/plain"[0] != "image/"[0]; }
    assert "IMAGE/PNG"[..6] != "image/" by { assert "IMAGE/PNG"[0] != "image/"[0]; }
  }

  /** A refused upload (a non-image, or an image over the limit) never reaches a handler, so neither the settings nor
      the image library play any part in the reply. */
  lemma RefusedUploadNeverDecoded(ep: Endpoint, part: Option<IncomingFile>, settings: Option<string>, settings': Option<string>,
                                  rt: Runtime, rt': Runtime)
    requires Receive(part).Failure?
    ensures part.Some?
    ensures Serve(ep, part, settings, rt) == UploadRefused(Receive(part).error)
    ensures !FileFilter(part.value.mimetype) ==> Serve(ep, part, settings, rt) == UploadRefused(NotAnImage)
    ensures Serve(ep, part, settings, rt) == Serve(ep, part, settings', rt')
  {
  }

  // ---------------------------------------------------------------- order of checks

  /** Without a file every endpoint answers 400 before looking at anything else. */
  lemma MissingFileFirst(ep: Endpoint, settings: Option<string>, rt: Runtime)
    ensures Handle(ep, Request(None, settings), rt) == Response(400, ErrorMessage("No image file provided"))
  {
  }

  /** Settings that do not parse are a 500 (the parse throws inside the
      handler's try); settings that parse but fail the schema are a 400
      carrying the schema's error. Either way the image is never touched. */
  lemma SettingsCheckedBeforeImage(tool: Tool, req: Request, rt: Runtime, lib: Library)
    requires req.file.Some?
    requires var j := rt.parseJson(SettingsText(req.settings)); j.None? || Validate(tool, j.value).Failure?
    ensures var j := rt.parseJson(SettingsText(req.settings));
      Handle(Transform(tool), req, rt) ==
        if j.None? then Response(500, ErrorMessage(FailureMessage(tool)))
        else Response(400, SettingsRejected(Validate(tool, j.value).error))
    ensures Handle(Transform(tool), req, rt) == Handle(Transform(tool), req, rt.(lib := lib))
  {
  }

  /** The statuses a handler can give, and when each occurs. */
  lemma StatusCodes(ep: Endpoint, req: Request, rt: Runtime)
    ensures Handle(ep, req, rt).status in {200, 400, 500, 501}
    ensures Handle(ep, req, rt).status == 501 <==> ep == RemoveBackground && req.file.Some?
    ensures Handle(ep, req, rt).status == 400 <==>
              || req.file.None?
              || (ep.Transform? && rt.parseJson(SettingsText(req.settings)).Some?
                  && Validate(ep.tool, rt.parseJson(SettingsText(req.settings)).value).Failure?)
    ensures Handle(ep, req, rt).status == 200 ==> req.file.Some? && ep != RemoveBackground
  {
  }

  /** A data URL always opens with the image scheme and the format's name. */
  lemma DataUrlPrefix(format: Option<string>, payload: string)
    ensures StartsWith(DataUrl(format, payload), "data:image/" + Interpolate(format) + ";base64,")
    ensures StartsWith(DataUrl(format, payload), "data:image/")
  {
    var head := "data:image/" + Interpolate(format) + ";base64,";
    assert DataUrl(format, payload)[..|head|] == head;
    assert DataUrl(format, payload)[..11] == "data:image/";
  }

  /** A successful transform decoded the upload, reports its size and format
      beside the output's, and hands back a data URL of the output. */
  lemma SuccessfulTransform(tool: Tool, req: Request, rt: Runtime)
    requires Handle(Transform(tool), req, rt).status == 200
    ensures req.file.Some? && rt.lib.metadata(req.file.value.buffer).Some?
    ensures var r := Handle(Transform(tool), req, rt);
      && r.body.Processed?
      && r.body.result.originalSize == req.file.value.size
      && r.body.result.originalFormat == rt.lib.metadata(req.file.value.buffer).value.format
      && StartsWith(r.body.result.dataUrl, "data:image/" + Interpolate(r.body.result.processedFormat) + ";base64,")
  {
    var file := req.file.value;
    var m := rt.lib.metadata(file.buffer).value;
    var s := Validate(tool, rt.parseJson(SettingsText(req.settings)).value).value;
    var out := rt.lib.toBuffer(file.buffer, Plan(s, m)).value;
    var pm := rt.lib.metadata(out).value;
    assert Handle(Transform(tool), req, rt) == Response(200, Processed(ResultFor(file, m, out, pm, rt.base64)));
    DataUrlPrefix(pm.format, rt.base64(out));
  }

  /** The response's width and height: `|| 0` falls back to 0 only when the
      output's metadata lacks the dimension (a 0 stays 0 either way). */
  lemma DimensionFallbacks(file: UploadedFile, m: Metadata, out: Bytes, pm: Metadata, base64: Bytes -> string)
    ensures ResultFor(file, m, out, pm, base64).width == pm.width.GetOr(0)
    ensures ResultFor(file, m, out, pm, base64).height == pm.height.GetOr(0)
    ensures ResultFor(file, m, out, pm, base64).processedSize == |out|
  {
  }

  /** remove-background answers 501 to every request that carries a file. */
  lemma RemoveBackgroundIsPlaceholder(req: Request, rt: Runtime)
    requires req.file.Some?
    ensures Handle(RemoveBackground, req, rt) == Response(501, ErrorMessage(RemoveBackgroundMessage))
  {
  }

  /** After the input is decoded, the planned pipeline is encoded, compress
      also takes statistics, and the output is decoded again: the library
      calls a transform's 200 depends on. */
  predicate LibrarySucceeds(tool: Tool, file: UploadedFile, s: Settings, lib: Library) {
    && lib.metadata(file.buffer).Some?
    && var p := Plan(s, lib.metadata(file.buffer).value);
       && lib.toBuffer(file.buffer, p).Some?
       && (tool == CompressTool ==> lib.stats(file.buffer, p))
       && lib.metadata(lib.toBuffer(file.buffer, p).value).Some?
  }

  /** Once the settings parse and validate, a transform answers 200 iff every
      library call succeeds, with the body built from the decoded input, the
      encoded output and its metadata; any library failure is the handler's 500. */
  lemma TransformLibraryOutcome(tool: Tool, req: Request, rt: Runtime)
    requires req.file.Some?
    requires var j := rt.parseJson(SettingsText(req.settings)); j.Some? && Validate(tool, j.value).Success?
    ensures var file := req.file.value;
      var s := Validate(tool, rt.parseJson(SettingsText(req.settings)).value).value;
      var r := Handle(Transform(tool), req, rt);
      && (r.status == 200 <==> LibrarySucceeds(tool, file, s, rt.lib))
      && (r.status != 200 ==> r == Response(500, ErrorMessage(FailureMessage(tool))))
      && (r.status == 200 ==>
            var m := rt.lib.metadata(file.buffer).value;
            var out := rt.lib.toBuffer(file.buffer, Plan(s, m)).value;
            r.body == Processed(ResultFor(file, m, out, rt.lib.metadata(out).value, rt.base64)))
  {
  }

  /** info answers 200 iff decoding and statistics succeed, with the input's
      metadata as the body; otherwise it is info's 500. */
  lemma InfoLibraryOutcome(file: UploadedFile, settings: Option<string>, rt: Runtime)
    ensures var r := Handle(InfoEndpoint, Request(Some(file), settings), rt);
      && (r.status == 200 <==> rt.lib.metadata(file.buffer).Some? && rt.lib.stats(file.buffer, Pipeline([], KeepFormat)))
      && (r.status != 200 ==> r == Response(500, ErrorMessage(InfoFailureMessage)))
      && (r.status == 200 ==>
            var m := rt.lib.metadata(file.buffer).value;
            r.body == Info(ImageInfo(file.originalname, m.format, m.width, m.height, file.size, m.space, m.hasAlpha)))
  {
  }

  /** info reads metadata only: it ignores the settings and never encodes. */
  lemma InfoNeverEncodes(file: UploadedFile, settings: Option<string>, rt: Runtime, toBuffer: (Bytes, Pipeline) -> Option<Bytes>)
    ensures Handle(InfoEndpoint, Request(Some(file), settings), rt)
         == Handle(InfoEndpoint, Request(Some(file), None), rt.(lib := rt.lib.(toBuffer := toBuffer)))
    ensures Handle(InfoEndpoint, Request(Some(file), settings), rt).status in {200, 500}
  {
  }

  /** An absent or empty settings field reads as "{}": compress and resize
      run on their defaults, while convert, rotate and watermark are refused
      for their required field. */
  lemma AbsentSettingsMeanDefaults(file: UploadedFile, settings: Option<string>, rt: Runtime)
    requires settings == None || settings == Some("")
    requires rt.parseJson("{}") == Some(JObject(map[]))
    ensures Handle(Transform(CompressTool), Request(Some(file), settings), rt)
         == TransformOutcome(CompressTool, file, CompressWith(CompressSettings(80.0, Lossy, None)), rt)
    ensures Handle(Transform(ResizeTool), Request(Some(file), settings), rt)
         == TransformOutcome(ResizeTool, file, ResizeWith(ResizeSettings(None, None, None, true)), rt)
    ensures Handle(Transform(ConvertTool), Request(Some(file), settings), rt)
         == Response(400, SettingsRejected(InvalidFields(["targetFormat"])))
    ensures Handle(Transform(RotateTool), Request(Some(file), settings), rt).status == 400
    ensures Handle(Transform(WatermarkTool), Request(Some(file), settings), rt).status == 400
  {
    assert "lossy" in ModeNames;
    var c := ValidateCompress(JObject(map[]));
    assert c.Success?;
    assert c.value.mode == Lossy by {
      assert JString(ModeName(c.value.mode)) == JString("lossy");
      assert ParseMode(ModeName(c.value.mode)) == Some(c.value.mode);
    }
  }

  // ---------------------------------------------------------------- compress

  /** Lossless always writes PNG at compression level 9; lossy keeps PNG for
      PNG input and writes JPEG otherwise, at the requested quality. */
  lemma CompressEncoderChoice(s: CompressSettings, inputFormat: Option<string>)
    ensures s.mode == Lossless ==> CompressEncoder(s, inputFormat) == PngOut(None, Some(9))
    ensures s.mode == Lossy && inputFormat == Some("png") ==> CompressEncoder(s, inputFormat) == PngOut(Some(s.quality), Some(9))
    ensures s.mode == Lossy && inputFormat != Some("png") ==> CompressEncoder(s, inputFormat) == JpegOut(s.quality)
    ensures EncoderFormat(CompressEncoder(s, inputFormat)) == Some("png") <==> s.mode == Lossless || inputFormat == Some("png")
    ensures EncoderFormat(CompressEncoder(s, inputFormat)) in {Some("png"), Some("jpeg")}
  {
  }

  /** Lossy compression keeps the format of PNG and JPEG input; lossless
      compression of a JPEG changes its format to PNG. */
  lemma CompressFormatPreservation(s: CompressSettings, inputFormat: Option<string>)
    ensures s.mode == Lossy && inputFormat in {Some("png"), Some("jpeg")} ==>
              EncoderFormat(CompressEncoder(s, inputFormat)) == inputFormat
    ensures s.mode == Lossless && inputFormat == Some("jpeg") ==>
              EncoderFormat(CompressEncoder(s, inputFormat)) != inputFormat
  {
  }

  // ---------------------------------------------------------------- convert

  /** The format convert writes for each target: jpg is written as jpeg, and
      tiff and heic fall back to PNG; JPEG and WebP use quality 90. */
  lemma ConvertEncoderChoice(t: ImageFormat)
    ensures EncoderFormat(ConvertEncoder(t)) ==
              Some(match t case Jpg => "jpeg" case Tiff => "png" case Heic => "png" case _ => FormatName(t))
    ensures ConvertEncoder(t).JpegOut? ==> ConvertEncoder(t).quality == 90.0
    ensures ConvertEncoder(t).WebpOut? ==> ConvertEncoder(t).quality == 90.0
    ensures t in {Png, Tiff, Heic} ==> ConvertEncoder(t) == PngOut(None, None)
    ensures t in {Jpeg, Jpg} ==> ConvertEncoder(t) == JpegOut(90.0)
    ensures t == Webp ==> ConvertEncoder(t) == WebpOut(90.0)
    ensures t == Gif ==> ConvertEncoder(t) == GifOut
    ensures t == Bmp ==> ConvertEncoder(t) == FormatOut("bmp")
  {
  }

  // ---------------------------------------------------------------- resize

  /** For validated settings a given field is a truthy one, so presence alone
      decides each branch of the option computation. */
  lemma ValidResizeFieldsAreTruthy(s: ResizeSettings)
    requires s.Valid()
    ensures Truthy(s.width) == s.width.Some?
    ensures Truthy(s.height) == s.height.Some?
    ensures Truthy(s.scalePercent) == s.scalePercent.Some?
  {
  }

  /** The resize options: a scale wins and sets both dimensions with no fit;
      otherwise given dimensions pass through, fitted inside iff the aspect
      ratio is kept; otherwise nothing is requested. */
  lemma ResizeOptionsChoice(s: ResizeSettings, m: Metadata)
    requires s.Valid()
    ensures var o := ResizeOptionsFor(s, m);
      && (s.scalePercent.Some? ==>
            o == ResizeOptions(Some(Scaled(m.width, s.scalePercent.value) as real),
                               Some(Scaled(m.height, s.scalePercent.value) as real), None))
      && (s.scalePercent.None? && (s.width.Some? || s.height.Some?) ==>
            o.width == s.width && o.height == s.height && (o.fit == Some(Inside) <==> s.maintainAspectRatio))
      && (s.scalePercent.None? && s.width.None? && s.height.None? ==> o == ResizeOptions(None, None, None))
  {
    ValidResizeFieldsAreTruthy(s);
  }

  /** A scaled dimension is the nearest integer to n * p / 100 (halves up),
      with an unknown dimension counted as 0. */
  lemma ScaledIsNearest(n: Option<int>, p: real)
    ensures var exact := n.GetOr(0) as real * p / 100.0;
      Scaled(n, p) as real - 0.5 <= exact < Scaled(n, p) as real + 0.5
    ensures n.None? ==> Scaled(n, p) == 0
  {
    var k := OrDefault(n, 0) as real;
    assert k == n.GetOr(0) as real;
    assert k * (p / 100.0) == k * p / 100.0;
    if n.None? {
      assert k * (p / 100.0) == 0.0;
    }
  }

  /** Half of an 800x600 image is requested as 400x300, and 2.5 rounds up to 3. */
  lemma ResizeExamples()
    ensures ResizeOptionsFor(ResizeSettings(None, None, Some(50.0), true), Metadata(None, Some(800), Some(600), None, None))
         == ResizeOptions(Some(400.0), Some(300.0), None)
    ensures Scaled(Some(5), 50.0) == 3
  {
    RoundInteger(400);
    RoundInteger(300);
    assert 800 as real * (50.0 / 100.0) == 400.0;
    assert 600 as real * (50.0 / 100.0) == 300.0;
    assert 5 as real * (50.0 / 100.0) == 2.5;
  }

  // ---------------------------------------------------------------- rotate

  /** `parseInt` of the degree strings gives the angles 90, 180 and 270. */
  lemma AngleValues(d: Degrees)
    ensures Angle(d) == match d case D90 => 90 case D180 => 180 case D270 => 270
  {
    match d
    case D90 =>
      assert DegreesName(d) == NatToString(90);
      ParseRendered(90);
    case D180 =>
      assert DegreesName(d) == NatToString(180);
      ParseRendered(180);
    case D270 =>
      assert DegreesName(d) == NatToString(270);
      ParseRendered(270);
  }

  /** The rotation comes first, then the mirror left-right, then the mirror
      top-bottom, each flip present iff requested. */
  lemma RotateOrder(s: RotateSettings)
    ensures var ops := RotateOps(s);
      && |ops| >= 1 && ops[0] == Rotate(Angle(s.degrees)) && Angle(s.degrees) in {90, 180, 270}
      && (Flop in ops <==> s.flipHorizontal)
      && (Flip in ops <==> s.flipVertical)
      && (s.flipHorizontal && s.flipVertical ==> ops == [Rotate(Angle(s.degrees)), Flop, Flip])
      && |ops| == 1 + (if s.flipHorizontal then 1 else 0) + (if s.flipVertical then 1 else 0)
  {
    AngleValues(s.degrees);
  }

  // ---------------------------------------------------------------- watermark

  predicate OnLeft(p: Position) { p.TopLeft? || p.BottomLeft? }
  predicate OnRight(p: Position) { p.TopRight? || p.BottomRight? }
  predicate OnTop(p: Position) { p.TopLeft? || p.TopRight? }
  predicate OnBottom(p: Position) { p.BottomLeft? || p.BottomRight? }

  lemma TopLeftWords()
    ensures Contains("top-left", "left") && Contains("top-left", "top")
    ensures !Contains("top-left", "right") && !Contains("top-left", "bottom")
  {
    assert "top-left"[4..8] == "left"; ContainsAt("top-left", "left", 4); assert "top-left"[0..3] == "top"; ContainsAt("top-left", "top", 0);
    MissingCharNotContained("top-left", "right", 'r'); MissingCharNotContained("top-left", "bottom", 'b');
  }

  lemma TopRightWords()
    ensures Contains("top-right", "right") && Contains("top-right", "top")
    ensures !Contains("top-right", "left") && !Contains("top-right", "bottom")
  {
    assert "top-right"[4..9] == "right"; ContainsAt("top-right", "right", 4); assert "top-right"[0..3] == "top"; ContainsAt("top-right", "top", 0);
    MissingCharNotContained("top-right", "left", 'l'); MissingCharNotContained("top-right", "bottom", 'b');
  }

  lemma BottomLeftWords()
    ensures Contains("bottom-left", "left") && Contains("bottom-left", "bottom")
    ensures !Contains("bottom-left", "right") && !Contains("bottom-left", "top")
  {
    assert "bottom-left"[7..11] == "left"; ContainsAt("bottom-left", "left", 7); assert "bottom-left"[0..6] == "bottom"; ContainsAt("bottom-left", "bottom", 0);
    MissingCharNotContained("bottom-left", "right", 'r'); MissingCharNotContained("bottom-left", "top", 'p');
  }

  lemma BottomRightWords()
    ensures Contains("bottom-right", "right") && Contains("bottom-right", "bottom")
    ensures !Contains("bottom-right", "left") && !Contains("bottom-right", "top")
  {
    assert "bottom-right"[7..12] == "right"; ContainsAt("bottom-right", "right", 7);
    assert "bottom-right"[0..6] == "bottom"; ContainsAt("bottom-right", "bottom", 0);
    MissingCharNotContained("bottom-right", "left", 'l');
    MissingCharNotContained("bottom-right", "top", 'p');
  }

  lemma CenterWords()
    ensures !Contains("center", "left") && !Contains("center", "right")
    ensures !Contains("center", "top") && !Contains("center", "bottom")
  {
    MissingCharNotContained("center", "left", 'l'); MissingCharNotContained("center", "right", 'g');
    MissingCharNotContained("center", "top", 'p'); MissingCharNotContained("center", "bottom", 'b');
  }

  /** Which of the words the placement tests look for each position name holds. */
  lemma PositionWords(p: Position)
    ensures Contains(PositionName(p), "left") <==> OnLeft(p)
    ensures Contains(PositionName(p), "right") <==> OnRight(p)
    ensures Contains(PositionName(p), "top") <==> OnTop(p)
    ensures Contains(PositionName(p), "bottom") <==> OnBottom(p)
  {
    match p
    case TopLeft => TopLeftWords();
    case TopRight => TopRightWords();
    case BottomLeft => BottomLeftWords();
    case BottomRight => BottomRightWords();
    case Center => CenterWords();
  }

  /** Where the watermark text is anchored for each of the five positions. */
  lemma WatermarkPlacement(p: Position, w: real, h: real)
    ensures GetXPosition(PositionName(p), w) ==
              if OnLeft(p) then 30.0 else if OnRight(p) then w - 30.0 else w / 2.0
    ensures GetYPosition(PositionName(p), h) ==
              if OnTop(p) then 50.0 else if OnBottom(p) then h - 30.0 else h / 2.0
    ensures TextAnchor(PositionName(p)) == if OnRight(p) then "end" else if p == Center then "middle" else "start"
  {
    PositionWords(p);
  }

  /** The overlay covers the image, or an 800x600 canvas when a dimension is
      unknown or 0; the text is placed on that canvas for the chosen position,
      so the default bottom-right text then sits at (770, 570), end-anchored. */
  lemma WatermarkCanvas(s: WatermarkSettings, m: Metadata)
    ensures var o := WatermarkOverlay(s, m);
      && o.canvasWidth == (if m.width.Some? && m.width.value != 0 then m.width.value else 800)
      && o.canvasHeight == (if m.height.Some? && m.height.value != 0 then m.height.value else 600)
      && (s.position == BottomRight && m.width.None? && m.height.None? ==>
            o.x == 770.0 && o.y == 570.0 && o.anchor == "end")
      && o.x == (if OnLeft(s.position) then 30.0
                 else if OnRight(s.position) then o.canvasWidth as real - 30.0
                 else o.canvasWidth as real / 2.0)
      && o.y == (if OnTop(s.position) then 50.0
                 else if OnBottom(s.position) then o.canvasHeight as real - 30.0
                 else o.canvasHeight as real / 2.0)
      && o.anchor == (if OnRight(s.position) then "end" else if s.position == Center then "middle" else "start")
      && o.text == s.text && o.opacity == s.opacity && o.fontSize == s.fontSize
  {
    WatermarkPlacement(s.position, OrDefault(m.width, 800) as real, OrDefault(m.height, 600) as real);
  }
}
