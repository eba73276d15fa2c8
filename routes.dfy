/** The request layer: the upload filter and size limit, the per-endpoint
    choices each handler makes, and `Handle`, the response every handler
    gives as a function of the request, the JSON parser and the image library. */
module Routes {
  import opened Wrappers
  import opened Json
  import opened Text
  import opened JsMath
  import opened Schema
  import opened Sharp

  // ---------------------------------------------------------------- upload

  /** The upload size limit: 50 MiB. */
  const MaxFileSize: nat := 50 * 1024 * 1024

  /** A file part as it arrives, before the upload middleware accepts it. */
  datatype IncomingFile = IncomingFile(originalname: string, mimetype: string, buffer: Bytes)

  /** `req.file` once accepted. */
  datatype UploadedFile = UploadedFile(originalname: string, mimetype: string, buffer: Bytes, size: nat)

  /** Why the middleware refused a part ("Only image files are allowed", or the file-size limit). */
  datatype UploadError = NotAnImage | FileTooLarge

  /** The file filter: only declared image types pass. */
  predicate FileFilter(mimetype: string) {
    StartsWith(mimetype, "image/")
  }

  /** The upload middleware: no part leaves `req.file` undefined; the filter
      runs before the data is counted, so a non-image is refused as such
      whatever its size. */
  function Receive(part: Option<IncomingFile>): (r: Result<Option<UploadedFile>, UploadError>)
    ensures part.None? ==> r == Success(None)
    ensures r.Success? && r.value.Some? ==>
              FileFilter(r.value.value.mimetype) && r.value.value.size == |r.value.value.buffer| <= MaxFileSize
  {
    match part
    case None => Success(None)
    case Some(f) =>
      if !FileFilter(f.mimetype) then Failure(NotAnImage)
      else if |f.buffer| > MaxFileSize then Failure(FileTooLarge)
      else Success(Some(UploadedFile(f.originalname, f.mimetype, f.buffer, |f.buffer|)))
  }

  // ---------------------------------------------------------------- requests and responses

  /** A request as the handlers see it: `req.file` and `req.body.settings`. */
  datatype Request = Request(file: Option<UploadedFile>, settings: Option<string>)

  /** What the handlers rely on outside this repository: `JSON.parse` (None
      when it throws), the image library, and base64 encoding of a buffer. */
  datatype Runtime = Runtime(parseJson: string -> Option<Json>, lib: Library, base64: Bytes -> string)

  datatype ProcessedImageResult = ProcessedImageResult(
    originalSize: nat, processedSize: nat,
    originalFormat: Option<string>, processedFormat: Option<string>,
    width: int, height: int, dataUrl: string)

  /** The info endpoint's body; `undefined` members are left out of the JSON. */
  datatype ImageInfo = ImageInfo(filename: string, format: Option<string>, width: Option<int>, height: Option<int>,
                                 size: nat, colorSpace: Option<string>, hasAlpha: Option<bool>)

  datatype Body =
    | ErrorMessage(message: string)
    | SettingsRejected(error: ValidationError)
    | Processed(result: ProcessedImageResult)
    | Info(info: ImageInfo)

  datatype Response = Response(status: int, body: Body)

  const NoFileMessage := "No image file provided"

  const RemoveBackgroundMessage := "Advanced AI background removal requires external AI services (e.g., Remove.bg, DeepAI). This is a demo placeholder. For production use, please integrate with a dedicated background removal API service."

  const InfoFailureMessage := "Failed to get image info"

  // ---------------------------------------------------------------- endpoints

  datatype Tool = CompressTool | ConvertTool | ResizeTool | RotateTool | WatermarkTool

  datatype Endpoint = Transform(tool: Tool) | InfoEndpoint | RemoveBackground

  /** The validated settings of one transform endpoint. */
  datatype Settings =
    | CompressWith(compress: CompressSettings)
    | ConvertWith(convert: ConvertSettings)
    | ResizeWith(resize: ResizeSettings)
    | RotateWith(rotate: RotateSettings)
    | WatermarkWith(watermark: WatermarkSettings)

  function FailureMessage(tool: Tool): string {
    match tool
    case CompressTool => "Failed to compress image"
    case ConvertTool => "Failed to convert image"
    case ResizeTool => "Failed to resize image"
    case RotateTool => "Failed to rotate image"
    case WatermarkTool => "Failed to add watermark"
  }

  /** The schema each transform endpoint validates its settings with. */
  function Validate(tool: Tool, j: Json): Result<Settings, ValidationError> {
    match tool
    case CompressTool => (match ValidateCompress(j) case Success(s) => Success(CompressWith(s)) case Failure(e) => Failure(e))
    case ConvertTool => (match ValidateConvert(j) case Success(s) => Success(ConvertWith(s)) case Failure(e) => Failure(e))
    case ResizeTool => (match ValidateResize(j) case Success(s) => Success(ResizeWith(s)) case Failure(e) => Failure(e))
    case RotateTool => (match ValidateRotate(j) case Success(s) => Success(RotateWith(s)) case Failure(e) => Failure(e))
    case WatermarkTool =>
      (match ValidateWatermark(j) case Success(s) => Success(WatermarkWith(s)) case Failure(e) => Failure(e))
  }

  /** `req.body.settings || "{}"`: an absent or empty field reads as an empty object. */
  function SettingsText(settings: Option<string>): string {
    if settings.None? || settings.value == "" then "{}" else settings.value
  }

  /** `n || d` for a metadata number: `undefined` and 0 both fall back to `d`. */
  function OrDefault(n: Option<int>, d: int): int {
    if n.Some? && n.value != 0 then n.value else d
  }

  /** A number option's truth value in JavaScript: present and non-zero. */
  predicate Truthy(x: Option<real>) {
    x.Some? && x.value != 0.0
  }

  // ---------------------------------------------------------------- per-endpoint choices

  /** Compress: lossless re-encodes as PNG at compression level 9; lossy keeps
      PNG for PNG input and otherwise re-encodes as JPEG, at the requested quality. */
  function CompressEncoder(s: CompressSettings, inputFormat: Option<string>): Encoder {
    if s.mode == Lossless then PngOut(None, Some(9))
    else if inputFormat == Some("png") then PngOut(Some(s.quality), Some(9))
    else JpegOut(s.quality)
  }

  /** Convert: the target format's encoder, quality 90 for JPEG and WebP; any
      other target (tiff, heic) falls back to PNG. */
  function ConvertEncoder(target: ImageFormat): Encoder {
    match target
    case Jpeg => JpegOut(90.0)
    case Jpg => JpegOut(90.0)
    case Png => PngOut(None, None)
    case Webp => WebpOut(90.0)
    case Gif => GifOut
    case Bmp => FormatOut("bmp")
    case _ => PngOut(None, None)
  }

  /** `Math.round((n || 0) * (scalePercent / 100))`: a decoded dimension scaled by a percentage. */
  function Scaled(n: Option<int>, scalePercent: real): int {
    Round(OrDefault(n, 0) as real * (scalePercent / 100.0))
  }

  /** Resize: a scale percentage wins and scales the decoded dimensions (0 when
      unknown); otherwise given dimensions pass through, fitted inside when the
      aspect ratio is kept; otherwise the options are empty. */
  function ResizeOptionsFor(s: ResizeSettings, m: Metadata): ResizeOptions {
    if Truthy(s.scalePercent) then
      ResizeOptions(Some(Scaled(m.width, s.scalePercent.value) as real),
                    Some(Scaled(m.height, s.scalePercent.value) as real), None)
    else if Truthy(s.width) || Truthy(s.height) then
      ResizeOptions(s.width, s.height, if s.maintainAspectRatio then Some(Inside) else None)
    else
      ResizeOptions(None, None, None)
  }

  /** `parseInt(degrees)` */
  function Angle(d: Degrees): int {
    ParseDecimal(DegreesName(d))
  }

  /** Rotate: the rotation, then the horizontal flop, then the vertical flip. */
  function RotateOps(s: RotateSettings): seq<Op> {
    [Rotate(Angle(s.degrees))] + (if s.flipHorizontal then [Flop] else []) + (if s.flipVertical then [Flip] else [])
  }

  /** `getXPosition` */
  function GetXPosition(position: string, width: real): real {
    if Contains(position, "left") then 30.0
    else if Contains(position, "right") then width - 30.0
    else width / 2.0
  }

  /** `getYPosition` */
  function GetYPosition(position: string, height: real): real {
    if Contains(position, "top") then 50.0
    else if Contains(position, "bottom") then height - 30.0
    else height / 2.0
  }

  /** The SVG text-anchor of the watermark. */
  function TextAnchor(position: string): string {
    if Contains(position, "right") then "end" else if position == "center" then "middle" else "start"
  }

  /** Watermark: an overlay the size of the image (800x600 when unknown). */
  function WatermarkOverlay(s: WatermarkSettings, m: Metadata): (o: TextOverlay)
    ensures o.canvasWidth != 0 && o.canvasHeight != 0
  {
    var width := OrDefault(m.width, 800);
    var height := OrDefault(m.height, 600);
    var position := PositionName(s.position);
    TextOverlay(width, height, GetXPosition(position, width as real), GetYPosition(position, height as real),
                TextAnchor(position), s.fontSize, s.opacity, s.text)
  }

  /** The pipeline each transform asks the library to run. */
  function Plan(s: Settings, m: Metadata): Pipeline {
    match s
    case CompressWith(c) => Pipeline([], CompressEncoder(c, m.format))
    case ConvertWith(c) => Pipeline([], ConvertEncoder(c.targetFormat))
    case ResizeWith(r) => Pipeline([Resize(ResizeOptionsFor(r, m))], KeepFormat)
    case RotateWith(r) => Pipeline(RotateOps(r), KeepFormat)
    case WatermarkWith(w) => Pipeline([Composite(WatermarkOverlay(w, m), 0, 0)], KeepFormat)
  }

  // ---------------------------------------------------------------- responses

  /** A template literal of a possibly-undefined string. */
  function Interpolate(s: Option<string>): string {
    if s.Some? then s.value else "undefined"
  }

  function DataUrl(format: Option<string>, payload: string): string {
    "data:image/" + Interpolate(format) + ";base64," + payload
  }

  function ResultFor(file: UploadedFile, m: Metadata, out: Bytes, pm: Metadata, base64: Bytes -> string)
    : ProcessedImageResult
  {
    ProcessedImageResult(file.size, |out|, m.format, pm.format, OrDefault(pm.width, 0), OrDefault(pm.height, 0),
                         DataUrl(pm.format, base64(out)))
  }

  /** The response once the output buffer exists: its own metadata is read
      back, and reading it may fail. */
  function Describe(tool: Tool, file: UploadedFile, m: Metadata, out: Bytes, rt: Runtime): (r: Response)
    ensures r.status in {200, 500}
    ensures r.status == 200 ==> r.body.Processed? && r.body.result.processedSize == |out|
  {
    match rt.lib.metadata(out)
    case None => Response(500, ErrorMessage(FailureMessage(tool)))
    case Some(pm) => Response(200, Processed(ResultFor(file, m, out, pm, rt.base64)))
  }

  /** Running the planned pipeline; every library failure is a 500. Only
      compress also asks for statistics. */
  function Render(tool: Tool, file: UploadedFile, m: Metadata, p: Pipeline, rt: Runtime): Response {
    match rt.lib.toBuffer(file.buffer, p)
    case None => Response(500, ErrorMessage(FailureMessage(tool)))
    case Some(out) =>
      if tool == CompressTool && !rt.lib.stats(file.buffer, p) then Response(500, ErrorMessage(FailureMessage(tool)))
      else Describe(tool, file, m, out, rt)
  }

  function TransformOutcome(tool: Tool, file: UploadedFile, s: Settings, rt: Runtime): Response {
    match rt.lib.metadata(file.buffer)
    case None => Response(500, ErrorMessage(FailureMessage(tool)))
    case Some(m) => Render(tool, file, m, Plan(s, m), rt)
  }

  function InfoOutcome(file: UploadedFile, rt: Runtime): (r: Response)
    ensures r.status in {200, 500}
    ensures r.status == 200 ==> r.body.Info? && r.body.info.size == file.size && r.body.info.filename == file.originalname
  {
    match rt.lib.metadata(file.buffer)
    case None => Response(500, ErrorMessage(InfoFailureMessage))
    case Some(m) =>
      if !rt.lib.stats(file.buffer, Pipeline([], KeepFormat)) then Response(500, ErrorMessage(InfoFailureMessage))
      else Response(200, Info(ImageInfo(file.originalname, m.format, m.width, m.height, file.size, m.space, m.hasAlpha)))
  }

  /** The response of each endpoint: a missing file first, then (for the
      transforms) parsing and validating the settings, then the library work. */
  function Handle(ep: Endpoint, req: Request, rt: Runtime): Response {
    match req.file
    case None => Response(400, ErrorMessage(NoFileMessage))
    case Some(file) =>
      match ep
      case RemoveBackground => Response(501, ErrorMessage(RemoveBackgroundMessage))
      case InfoEndpoint => InfoOutcome(file, rt)
      case Transform(tool) =>
        match rt.parseJson(SettingsText(req.settings))
        case None => Response(500, ErrorMessage(FailureMessage(tool)))
        case Some(j) =>
          match Validate(tool, j)
          case Failure(e) => Response(400, SettingsRejected(e))
          case Success(s) => TransformOutcome(tool, file, s, rt)
  }

  /** What the client gets: a refusal by the upload middleware (answered by the
      web framework, outside these handlers), or the handler's response. */
  datatype Reply = UploadRefused(reason: UploadError) | Replied(response: Response)

  function Serve(ep: Endpoint, part: Option<IncomingFile>, settings: Option<string>, rt: Runtime): Reply {
    match Receive(part)
    case Failure(e) => UploadRefused(e)
    case Success(file) => Replied(Handle(ep, Request(file, settings), rt))
  }
}
