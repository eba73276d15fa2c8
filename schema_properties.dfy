/** Properties of the settings schemas: what each accepts and rejects, the
    defaults, and that validating the serialised form of a validated value
    gives that value back (so validation is idempotent). */
module SchemaProperties {
  import opened Wrappers
  import opened Json
  import opened Schema

  // ---------------------------------------------------------------- serialisation

  /** The settings object as the client serialises it (`JSON.stringify`):
      absent optional fields are omitted. */
  function CompressToJson(s: CompressSettings): Json {
    JObject(map["quality" := JNumber(s.quality), "mode" := JString(ModeName(s.mode))]
      + (if s.format.Some? then map["format" := JString(FormatName(s.format.value))] else map[]))
  }

  function ConvertToJson(s: ConvertSettings): Json {
    JObject(map["targetFormat" := JString(FormatName(s.targetFormat))])
  }

  function OptionalNumber(key: string, x: Option<real>): map<string, Json> {
    if x.Some? then map[key := JNumber(x.value)] else map[]
  }

  function ResizeToJson(s: ResizeSettings): Json {
    JObject(OptionalNumber("width", s.width) + OptionalNumber("height", s.height)
      + OptionalNumber("scalePercent", s.scalePercent) + map["maintainAspectRatio" := JBool(s.maintainAspectRatio)])
  }

  function RotateToJson(s: RotateSettings): Json {
    JObject(map["degrees" := JString(DegreesName(s.degrees)), "flipHorizontal" := JBool(s.flipHorizontal),
                "flipVertical" := JBool(s.flipVertical)])
  }

  function WatermarkToJson(s: WatermarkSettings): Json {
    JObject(map["text" := JString(s.text), "position" := JString(PositionName(s.position)),
                "opacity" := JNumber(s.opacity), "fontSize" := JNumber(s.fontSize)])
  }

  // ---------------------------------------------------------------- names

  lemma ModeNameInjective(a: CompressionMode, b: CompressionMode)
    requires ModeName(a) == ModeName(b)
    ensures a == b
  {
    assert ParseMode(ModeName(a)) == Some(a);
  }

  lemma FormatNameInjective(a: ImageFormat, b: ImageFormat)
    requires FormatName(a) == FormatName(b)
    ensures a == b
  {
    assert ParseFormat(FormatName(a)) == Some(a);
  }

  lemma DegreesNameInjective(a: Degrees, b: Degrees)
    requires DegreesName(a) == DegreesName(b)
    ensures a == b
  {
    assert ParseDegrees(DegreesName(a)) == Some(a);
  }

  lemma PositionNameInjective(a: Position, b: Position)
    requires PositionName(a) == PositionName(b)
    ensures a == b
  {
    assert ParsePosition(PositionName(a)) == Some(a);
  }

  // ---------------------------------------------------------------- round trips

  /** Every valid compress setting survives serialisation and validation unchanged. */
  lemma CompressRoundTrip(s: CompressSettings)
    requires s.Valid()
    ensures ValidateCompress(CompressToJson(s)) == Success(s)
  {
    var j := CompressToJson(s);
    assert ModeName(s.mode) in ModeNames by { assert ParseMode(ModeName(s.mode)).Some?; }
    if s.format.Some? {
      assert FormatName(s.format.value) in FormatNames by { assert ParseFormat(FormatName(s.format.value)).Some?; }
      assert "format" in j.fields;
    }
    var r := ValidateCompress(j);
    ModeNameInjective(r.value.mode, s.mode);
    if s.format.Some? {
      FormatNameInjective(r.value.format.value, s.format.value);
    }
  }

  lemma ConvertRoundTrip(s: ConvertSettings)
    ensures ValidateConvert(ConvertToJson(s)) == Success(s)
  {
    assert FormatName(s.targetFormat) in FormatNames by { assert ParseFormat(FormatName(s.targetFormat)).Some?; }
    FormatNameInjective(ValidateConvert(ConvertToJson(s)).value.targetFormat, s.targetFormat);
  }

  lemma ResizeRoundTrip(s: ResizeSettings)
    requires s.Valid()
    ensures ValidateResize(ResizeToJson(s)) == Success(s)
  {
    var o := ResizeToJson(s).fields;
    assert "width" in o <==> s.width.Some?;
    assert "height" in o <==> s.height.Some?;
    assert "scalePercent" in o <==> s.scalePercent.Some?;
    var r := ValidateResize(ResizeToJson(s));
    assert r.Success?;
  }

  lemma RotateRoundTrip(s: RotateSettings)
    ensures ValidateRotate(RotateToJson(s)) == Success(s)
  {
    assert DegreesName(s.degrees) in DegreesNames by { assert ParseDegrees(DegreesName(s.degrees)).Some?; }
    DegreesNameInjective(ValidateRotate(RotateToJson(s)).value.degrees, s.degrees);
  }

  lemma WatermarkRoundTrip(s: WatermarkSettings)
    requires s.Valid()
    ensures ValidateWatermark(WatermarkToJson(s)) == Success(s)
  {
    assert PositionName(s.position) in PositionNames by { assert ParsePosition(PositionName(s.position)).Some?; }
    PositionNameInjective(ValidateWatermark(WatermarkToJson(s)).value.position, s.position);
  }

  /** Defaults fill only absent keys, so validating the serialised result of a
      successful validation changes nothing. */
  lemma ValidationIdempotent(j: Json)
    ensures ValidateCompress(j).Success? ==> ValidateCompress(CompressToJson(ValidateCompress(j).value)) == ValidateCompress(j)
    ensures ValidateConvert(j).Success? ==> ValidateConvert(ConvertToJson(ValidateConvert(j).value)) == ValidateConvert(j)
    ensures ValidateResize(j).Success? ==> ValidateResize(ResizeToJson(ValidateResize(j).value)) == ValidateResize(j)
    ensures ValidateRotate(j).Success? ==> ValidateRotate(RotateToJson(ValidateRotate(j).value)) == ValidateRotate(j)
    ensures ValidateWatermark(j).Success? ==>
              ValidateWatermark(WatermarkToJson(ValidateWatermark(j).value)) == ValidateWatermark(j)
  {
    if ValidateCompress(j).Success? { CompressRoundTrip(ValidateCompress(j).value); }
    if ValidateConvert(j).Success? { ConvertRoundTrip(ValidateConvert(j).value); }
    if ValidateResize(j).Success? { ResizeRoundTrip(ValidateResize(j).value); }
    if ValidateRotate(j).Success? { RotateRoundTrip(ValidateRotate(j).value); }
    if ValidateWatermark(j).Success? { WatermarkRoundTrip(ValidateWatermark(j).value); }
  }

  // ---------------------------------------------------------------- single fields

  /** Compress quality is accepted exactly on [1, 100]. */
  lemma CompressQualityBounds(q: real)
    ensures ValidateCompress(JObject(map["quality" := JNumber(q)])).Success? <==> 1.0 <= q <= 100.0
  {
    assert "lossy" in ModeNames;
  }

  /** An empty settings object compresses lossily at quality 80, with no format. */
  lemma CompressDefaults()
    ensures ValidateCompress(JObject(map[])) == Success(CompressSettings(80.0, Lossy, None))
  {
    assert "lossy" in ModeNames;
    var r := ValidateCompress(JObject(map[]));
    ModeNameInjective(r.value.mode, Lossy);
  }

  /** Compress mode is one of the two names; a present format must be one of the eight. */
  lemma CompressModeAndFormat(m: string, f: string)
    ensures ValidateCompress(JObject(map["mode" := JString(m)])).Success? <==> m == "lossless" || m == "lossy"
    ensures ValidateCompress(JObject(map["format" := JString(f)])).Success? <==> f in FormatNames
  {
    assert "lossy" in ModeNames;
  }

  /** Convert has no default target: an absent key or an unknown name is refused. */
  lemma ConvertTargetRequired(f: string)
    ensures ValidateConvert(JObject(map[])) == Failure(InvalidFields(["targetFormat"]))
    ensures ValidateConvert(JObject(map["targetFormat" := JString(f)])).Success? <==>
              f in {"jpeg", "jpg", "png", "webp", "gif", "bmp", "tiff", "heic"}
  {
  }

  /** Resize dimensions must be strictly positive; the scale lies in (0, 1000]. */
  lemma ResizeBounds(w: real, p: real)
    ensures ValidateResize(JObject(map["width" := JNumber(w)])).Success? <==> w > 0.0
    ensures ValidateResize(JObject(map["height" := JNumber(w)])).Success? <==> w > 0.0
    ensures ValidateResize(JObject(map["scalePercent" := JNumber(p)])).Success? <==> 0.0 < p <= 1000.0
    ensures ValidateResize(JObject(map[])) == Success(ResizeSettings(None, None, None, true))
  {
  }

  /** Rotation degrees must be one of three strings: the number 90 is refused,
      and both flips default to false. */
  lemma RotateDegreesAreStrings(v: Json)
    ensures ValidateRotate(JObject(map["degrees" := v])).Success? <==>
              v == JString("90") || v == JString("180") || v == JString("270")
    ensures ValidateRotate(JObject(map["degrees" := JNumber(90.0)])).Failure?
    ensures ValidateRotate(JObject(map["degrees" := JString("180")])) == Success(RotateSettings(D180, false, false))
  {
    var r := ValidateRotate(JObject(map["degrees" := JString("180")]));
    DegreesNameInjective(r.value.degrees, D180);
  }

  /** Watermark text must be non-empty; the other three fields default to
      bottom-right, 0.5 and 24. */
  lemma WatermarkTextAndDefaults(t: string)
    ensures ValidateWatermark(JObject(map["text" := JString(t)])).Success? <==> |t| >= 1
    ensures ValidateWatermark(JObject(map["text" := JString("")])).Failure?
    ensures |t| >= 1 ==>
              ValidateWatermark(JObject(map["text" := JString(t)])) == Success(WatermarkSettings(t, BottomRight, 0.5, 24.0))
  {
    assert "bottom-right" in PositionNames;
    if |t| >= 1 {
      var r := ValidateWatermark(JObject(map["text" := JString(t)]));
      PositionNameInjective(r.value.position, BottomRight);
    }
  }

  /** Watermark opacity lies in [0, 1] and the font size is strictly positive. */
  lemma WatermarkBounds(x: real)
    ensures ValidateWatermark(JObject(map["text" := JString("a"), "opacity" := JNumber(x)])).Success? <==>
              0.0 <= x <= 1.0
    ensures ValidateWatermark(JObject(map["text" := JString("a"), "fontSize" := JNumber(x)])).Success? <==> x > 0.0
  {
    assert "bottom-right" in PositionNames;
  }
}
