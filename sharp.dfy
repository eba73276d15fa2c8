/** The image library as the handlers see it. Its pixel work (decoding,
    encoding, resizing, rotating, compositing) is not modelled: a `Library`
    value supplies its observable results as functions, where `None` or
    `false` stands for a thrown exception. What is modelled is the pipeline a
    handler builds: an `Image` records, in call order, the operations and the
    output encoder that are requested before `toBuffer` runs them. */
module Sharp {
  import opened Wrappers

  type Bytes = seq<bv8>

  datatype Fit = Inside

  /** The options object passed to `resize`; absent members are `undefined`. */
  datatype ResizeOptions = ResizeOptions(width: Option<real>, height: Option<real>, fit: Option<Fit>)

  /** The text layer composited onto the image: an SVG canvas of the given size
      holding one text element at (x, y) with the given anchor. */
  datatype TextOverlay = TextOverlay(canvasWidth: int, canvasHeight: int, x: real, y: real, anchor: string,
                                     fontSize: real, opacity: real, text: string)

  datatype Op =
    | Rotate(angle: int)
    | Flop                      // mirror left-right
    | Flip                      // mirror top-bottom
    | Resize(options: ResizeOptions)
    | Composite(overlay: TextOverlay, top: int, left: int)

  /** The output encoder selected by `jpeg()`, `png()`, `webp()`, `gif()` or
      `toFormat(name)`; `KeepFormat` when none was called. */
  datatype Encoder =
    | KeepFormat
    | JpegOut(quality: real)
    | PngOut(pngQuality: Option<real>, compressionLevel: Option<int>)
    | WebpOut(quality: real)
    | GifOut
    | FormatOut(name: string)

  /** The format name an encoder produces; `None` keeps the input's format. */
  function EncoderFormat(e: Encoder): Option<string> {
    match e
    case KeepFormat => None
    case JpegOut(_) => Some("jpeg")
    case PngOut(_, _) => Some("png")
    case WebpOut(_) => Some("webp")
    case GifOut => Some("gif")
    case FormatOut(name) => Some(name)
  }

  datatype Pipeline = Pipeline(ops: seq<Op>, encoder: Encoder)

  /** What `metadata()` reports; every member may be `undefined`. */
  datatype Metadata = Metadata(format: Option<string>, width: Option<int>, height: Option<int>,
                               space: Option<string>, hasAlpha: Option<bool>)

  datatype Library = Library(
    metadata: Bytes -> Option<Metadata>,
    stats: (Bytes, Pipeline) -> bool,
    toBuffer: (Bytes, Pipeline) -> Option<Bytes>)

  /** A `sharp(buffer)` instance. Its chaining methods change the instance and
      return it, so reassigning `image = image.rotate(..)` keeps the same object. */
  class Image {
    const input: Bytes
    var ops: seq<Op>
    var encoder: Encoder

    constructor (input: Bytes)
      ensures this.input == input && ops == [] && encoder == KeepFormat
    {
      this.input := input;
      ops := [];
      encoder := KeepFormat;
    }

    /** The pipeline `toBuffer` would run now. */
    function Pending(): Pipeline
      reads this
    {
      Pipeline(ops, encoder)
    }

    method ReadMetadata(lib: Library) returns (m: Option<Metadata>)
      ensures m == lib.metadata(input)
    {
      m := lib.metadata(input);
    }

    method Stats(lib: Library) returns (ok: bool)
      ensures ok == lib.stats(input, Pending())
    {
      ok := lib.stats(input, Pipeline(ops, encoder));
    }

    method ToBuffer(lib: Library) returns (out: Option<Bytes>)
      ensures out == lib.toBuffer(input, Pending())
    {
      out := lib.toBuffer(input, Pipeline(ops, encoder));
    }

    method AddRotate(angle: int)
      modifies this
      ensures ops == old(ops) + [Rotate(angle)] && encoder == old(encoder)
    {
      ops := ops + [Rotate(angle)];
    }

    method AddFlop()
      modifies this
      ensures ops == old(ops) + [Flop] && encoder == old(encoder)
    {
      ops := ops + [Flop];
    }

    method AddFlip()
      modifies this
      ensures ops == old(ops) + [Flip] && encoder == old(encoder)
    {
      ops := ops + [Flip];
    }

    method AddResize(options: ResizeOptions)
      modifies this
      ensures ops == old(ops) + [Resize(options)] && encoder == old(encoder)
    {
      ops := ops + [Resize(options)];
    }

    method AddComposite(overlay: TextOverlay, top: int, left: int)
      modifies this
      ensures ops == old(ops) + [Composite(overlay, top, left)] && encoder == old(encoder)
    {
      ops := ops + [Composite(overlay, top, left)];
    }

    /** `jpeg()`, `png()`, `webp()`, `gif()`, `toFormat()`: choose the output encoder. */
    method SetEncoder(e: Encoder)
      modifies this
      ensures encoder == e && ops == old(ops)
    {
      encoder := e;
    }
  }
}
