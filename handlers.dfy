/** The route handlers, step by step as the source runs them. Each `HandleX`
    checks the file, parses and validates the settings; each `ProcessX` then
    drives one `Image` pipeline, reassigning its locals as the source does.
    Each is proved to give the response `Routes` specifies for its endpoint. */
module Handlers {
  import opened Wrappers
  import opened Json
  import opened JsMath
  import opened Schema
  import opened Sharp
  import opened Routes

  /** Reads the output's metadata back and builds the success body. */
  method DescribeOutput(tool: Tool, file: UploadedFile, metadata: Metadata, processed: Bytes, rt: Runtime)
    returns (resp: Response)
    ensures resp == Describe(tool, file, metadata, processed, rt)
  {
    var processedImage := new Image(processed);
    var processedMetadata := processedImage.ReadMetadata(rt.lib);
    if processedMetadata.None? {
      return Response(500, ErrorMessage(FailureMessage(tool)));
    }
    var pm := processedMetadata.value;
    var result := ProcessedImageResult(file.size, |processed|, metadata.format, pm.format,
                                       OrDefault(pm.width, 0), OrDefault(pm.height, 0),
                                       DataUrl(pm.format, rt.base64(processed)));
    resp := Response(200, Processed(result));
  }

  // ---------------------------------------------------------------- compress

  method ProcessCompress(file: UploadedFile, s: CompressSettings, rt: Runtime) returns (resp: Response)
    ensures resp == TransformOutcome(CompressTool, file, CompressWith(s), rt)
  {
    var quality, mode := s.quality, s.mode;
    var image := new Image(file.buffer);
    var metadata := image.ReadMetadata(rt.lib);
    if metadata.None? {
      return Response(500, ErrorMessage(FailureMessage(CompressTool)));
    }
    if mode == Lossless {
      image.SetEncoder(PngOut(None, Some(9)));
    } else if metadata.value.format == Some("png") {
      image.SetEncoder(PngOut(Some(quality), Some(9)));
    } else {
      image.SetEncoder(JpegOut(quality));
    }
    assert image.Pending() == Plan(CompressWith(s), metadata.value);
    var processed := image.ToBuffer(rt.lib);
    if processed.None? {
      return Response(500, ErrorMessage(FailureMessage(CompressTool)));
    }
    var statsOk := image.Stats(rt.lib);
    if !statsOk {
      return Response(500, ErrorMessage(FailureMessage(CompressTool)));
    }
    resp := DescribeOutput(CompressTool, file, metadata.value, processed.value, rt);
  }

  /** POST /api/compress */
  method HandleCompress(req: Request, rt: Runtime) returns (resp: Response)
    ensures resp == Handle(Transform(CompressTool), req, rt)
  {
    if req.file.None? {
      return Response(400, ErrorMessage(NoFileMessage));
    }
    var json := rt.parseJson(SettingsText(req.settings));
    if json.None? {
      return Response(500, ErrorMessage(FailureMessage(CompressTool)));
    }
    var validation := ValidateCompress(json.value);
    if validation.Failure? {
      return Response(400, SettingsRejected(validation.error));
    }
    resp := ProcessCompress(req.file.value, validation.value, rt);
  }

  // ---------------------------------------------------------------- convert

  method ProcessConvert(file: UploadedFile, s: ConvertSettings, rt: Runtime) returns (resp: Response)
    ensures resp == TransformOutcome(ConvertTool, file, ConvertWith(s), rt)
  {
    var targetFormat := s.targetFormat;
    var image := new Image(file.buffer);
    var metadata := image.ReadMetadata(rt.lib);
    if metadata.None? {
      return Response(500, ErrorMessage(FailureMessage(ConvertTool)));
    }
    match targetFormat {
      case Jpeg => image.SetEncoder(JpegOut(90.0));
      case Jpg => image.SetEncoder(JpegOut(90.0));
      case Png => image.SetEncoder(PngOut(None, None));
      case Webp => image.SetEncoder(WebpOut(90.0));
      case Gif => image.SetEncoder(GifOut);
      case Bmp => image.SetEncoder(FormatOut("bmp"));
      case _ => image.SetEncoder(PngOut(None, None));
    }
    assert image.Pending() == Plan(ConvertWith(s), metadata.value);
    var processed := image.ToBuffer(rt.lib);
    if processed.None? {
      return Response(500, ErrorMessage(FailureMessage(ConvertTool)));
    }
    resp := DescribeOutput(ConvertTool, file, metadata.value, processed.value, rt);
  }

  /** POST /api/convert */
  method HandleConvert(req: Request, rt: Runtime) returns (resp: Response)
    ensures resp == Handle(Transform(ConvertTool), req, rt)
  {
    if req.file.None? {
      return Response(400, ErrorMessage(NoFileMessage));
    }
    var json := rt.parseJson(SettingsText(req.settings));
    if json.None? {
      return Response(500, ErrorMessage(FailureMessage(ConvertTool)));
    }
    var validation := ValidateConvert(json.value);
    if validation.Failure? {
      return Response(400, SettingsRejected(validation.error));
    }
    resp := ProcessConvert(req.file.value, validation.value, rt);
  }

  // ---------------------------------------------------------------- resize

  method ProcessResize(file: UploadedFile, s: ResizeSettings, rt: Runtime) returns (resp: Response)
    ensures resp == TransformOutcome(ResizeTool, file, ResizeWith(s), rt)
  {
    var image := new Image(file.buffer);
    var metadata := image.ReadMetadata(rt.lib);
    if metadata.None? {
      return Response(500, ErrorMessage(FailureMessage(ResizeTool)));
    }
    var resizeOptions := ResizeOptions(None, None, None);
    if Truthy(s.scalePercent) {
      resizeOptions := ResizeOptions(Some(Scaled(metadata.value.width, s.scalePercent.value) as real),
                                     Some(Scaled(metadata.value.height, s.scalePercent.value) as real), None);
    } else if Truthy(s.width) || Truthy(s.height) {
      resizeOptions := ResizeOptions(s.width, s.height, None);
      if s.maintainAspectRatio {
        resizeOptions := resizeOptions.(fit := Some(Inside));
      }
    }
    image.AddResize(resizeOptions);
    assert image.Pending() == Plan(ResizeWith(s), metadata.value);
    var processed := image.ToBuffer(rt.lib);
    if processed.None? {
      return Response(500, ErrorMessage(FailureMessage(ResizeTool)));
    }
    resp := DescribeOutput(ResizeTool, file, metadata.value, processed.value, rt);
  }

  /** POST /api/resize */
  method HandleResize(req: Request, rt: Runtime) returns (resp: Response)
    ensures resp == Handle(Transform(ResizeTool), req, rt)
  {
    if req.file.None? {
      return Response(400, ErrorMessage(NoFileMessage));
    }
    var json := rt.parseJson(SettingsText(req.settings));
    if json.None? {
      return Response(500, ErrorMessage(FailureMessage(ResizeTool)));
    }
    var validation := ValidateResize(json.value);
    if validation.Failure? {
      return Response(400, SettingsRejected(validation.error));
    }
    resp := ProcessResize(req.file.value, validation.value, rt);
  }

  // ---------------------------------------------------------------- rotate

  method ProcessRotate(file: UploadedFile, s: RotateSettings, rt: Runtime) returns (resp: Response)
    ensures resp == TransformOutcome(RotateTool, file, RotateWith(s), rt)
  {
    var image := new Image(file.buffer);
    var metadata := image.ReadMetadata(rt.lib);
    if metadata.None? {
      return Response(500, ErrorMessage(FailureMessage(RotateTool)));
    }
    image.AddRotate(Angle(s.degrees));
    if s.flipHorizontal {
      image.AddFlop();
    }
    if s.flipVertical {
      image.AddFlip();
    }
    assert image.Pending() == Plan(RotateWith(s), metadata.value);
    var processed := image.ToBuffer(rt.lib);
    if processed.None? {
      return Response(500, ErrorMessage(FailureMessage(RotateTool)));
    }
    resp := DescribeOutput(RotateTool, file, metadata.value, processed.value, rt);
  }

  /** POST /api/rotate */
  method HandleRotate(req: Request, rt: Runtime) returns (resp: Response)
    ensures resp == Handle(Transform(RotateTool), req, rt)
  {
    if req.file.None? {
      return Response(400, ErrorMessage(NoFileMessage));
    }
    var json := rt.parseJson(SettingsText(req.settings));
    if json.None? {
      return Response(500, ErrorMessage(FailureMessage(RotateTool)));
    }
    var validation := ValidateRotate(json.value);
    if validation.Failure? {
      return Response(400, SettingsRejected(validation.error));
    }
    resp := ProcessRotate(req.file.value, validation.value, rt);
  }

  // ---------------------------------------------------------------- watermark

  method ProcessWatermark(file: UploadedFile, s: WatermarkSettings, rt: Runtime) returns (resp: Response)
    ensures resp == TransformOutcome(WatermarkTool, file, WatermarkWith(s), rt)
  {
    var image := new Image(file.buffer);
    var metadata := image.ReadMetadata(rt.lib);
    if metadata.None? {
      return Response(500, ErrorMessage(FailureMessage(WatermarkTool)));
    }
    var width := OrDefault(metadata.value.width, 800);
    var height := OrDefault(metadata.value.height, 600);
    var position := PositionName(s.position);
    var overlay := TextOverlay(width, height, GetXPosition(position, width as real),
                               GetYPosition(position, height as real), TextAnchor(position),
                               s.fontSize, s.opacity, s.text);
    image.AddComposite(overlay, 0, 0);
    assert image.Pending() == Plan(WatermarkWith(s), metadata.value);
    var processed := image.ToBuffer(rt.lib);
    if processed.None? {
      return Response(500, ErrorMessage(FailureMessage(WatermarkTool)));
    }
    resp := DescribeOutput(WatermarkTool, file, metadata.value, processed.value, rt);
  }

  /** POST /api/watermark */
  method HandleWatermark(req: Request, rt: Runtime) returns (resp: Response)
    ensures resp == Handle(Transform(WatermarkTool), req, rt)
  {
    if req.file.None? {
      return Response(400, ErrorMessage(NoFileMessage));
    }
    var json := rt.parseJson(SettingsText(req.settings));
    if json.None? {
      return Response(500, ErrorMessage(FailureMessage(WatermarkTool)));
    }
    var validation := ValidateWatermark(json.value);
    if validation.Failure? {
      return Response(400, SettingsRejected(validation.error));
    }
    resp := ProcessWatermark(req.file.value, validation.value, rt);
  }

  // ---------------------------------------------------------------- info and background removal

  /** POST /api/info */
  method HandleInfo(req: Request, rt: Runtime) returns (resp: Response)
    ensures resp == Handle(InfoEndpoint, req, rt)
  {
    if req.file.None? {
      return Response(400, ErrorMessage(NoFileMessage));
    }
    var file := req.file.value;
    var image := new Image(file.buffer);
    var metadata := image.ReadMetadata(rt.lib);
    if metadata.None? {
      return Response(500, ErrorMessage(InfoFailureMessage));
    }
    var statsOk := image.Stats(rt.lib);
    if !statsOk {
      return Response(500, ErrorMessage(InfoFailureMessage));
    }
    var m := metadata.value;
    resp := Response(200, Info(ImageInfo(file.originalname, m.format, m.width, m.height, file.size, m.space, m.hasAlpha)));
  }

  /** POST /api/remove-background: a placeholder answering 501 to every upload. */
  method HandleRemoveBackground(req: Request, rt: Runtime) returns (resp: Response)
    ensures resp == Handle(RemoveBackground, req, rt)
  {
    if req.file.None? {
      return Response(400, ErrorMessage(NoFileMessage));
    }
    resp := Response(501, ErrorMessage(RemoveBackgroundMessage));
  }
}
