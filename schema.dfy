/** The per-endpoint settings schemas (zod object schemas in the source): each
    checks numeric bounds and enum membership, fills in defaults for absent keys,
    strips unknown keys and rejects anything that is not a JSON object. */
module Schema {
  import opened Wrappers
  import opened Json

  // ---------------------------------------------------------------- enums

  datatype ImageFormat = Jpeg | Jpg | Png | Webp | Gif | Bmp | Tiff | Heic

  const FormatNames: set<string> := {"jpeg", "jpg", "png", "webp", "gif", "bmp", "tiff", "heic"}

  function FormatName(f: ImageFormat): string {
    match f
    case Jpeg => "jpeg"
    case Jpg => "jpg"
    case Png => "png"
    case Webp => "webp"
    case Gif => "gif"
    case Bmp => "bmp"
    case Tiff => "tiff"
    case Heic => "heic"
  }

  function ParseFormat(s: string): (r: Option<ImageFormat>)
    ensures r.Some? <==> s in FormatNames
    ensures r.Some? ==> FormatName(r.value) == s
  {
    if s == "jpeg" then Some(Jpeg)
    else if s == "jpg" then Some(Jpg)
    else if s == "png" then Some(Png)
    else if s == "webp" then Some(Webp)
    else if s == "gif" then Some(Gif)
    else if s == "bmp" then Some(Bmp)
    else if s == "tiff" then Some(Tiff)
    else if s == "heic" then Some(Heic)
    else None
  }

  datatype CompressionMode = Lossless | Lossy

  const ModeNames: set<string> := {"lossless", "lossy"}

  function ModeName(m: CompressionMode): string {
    match m
    case Lossless => "lossless"
    case Lossy => "lossy"
  }

  function ParseMode(s: string): (r: Option<CompressionMode>)
    ensures r.Some? <==> s in ModeNames
    ensures r.Some? ==> ModeName(r.value) == s
  {
    if s == "lossless" then Some(Lossless) else if s == "lossy" then Some(Lossy) else None
  }

  /** Rotation angles travel as strings: the schema accepts exactly "90", "180", "270". */
  datatype Degrees = D90 | D180 | D270

  const DegreesNames: set<string> := {"90", "180", "270"}

  function DegreesName(d: Degrees): string {
    match d
    case D90 => "90"
    case D180 => "180"
    case D270 => "270"
  }

  function ParseDegrees(s: string): (r: Option<Degrees>)
    ensures r.Some? <==> s in DegreesNames
    ensures r.Some? ==> DegreesName(r.value) == s
  {
    if s == "90" then Some(D90) else if s == "180" then Some(D180) else if s == "270" then Some(D270) else None
  }

  datatype Position = TopLeft | TopRight | BottomLeft | BottomRight | Center

  const PositionNames: set<string> := {"top-left", "top-right", "bottom-left", "bottom-right", "center"}

  function PositionName(p: Position): string {
    match p
    case TopLeft => "top-left"
    case TopRight => "top-right"
    case BottomLeft => "bottom-left"
    case BottomRight => "bottom-right"
    case Center => "center"
  }

  function ParsePosition(s: string): (r: Option<Position>)
    ensures r.Some? <==> s in PositionNames
    ensures r.Some? ==> PositionName(r.value) == s
  {
    if s == "top-left" then Some(TopLeft)
    else if s == "top-right" then Some(TopRight)
    else if s == "bottom-left" then Some(BottomLeft)
    else if s == "bottom-right" then Some(BottomRight)
    else if s == "center" then Some(Center)
    else None
  }

  // ---------------------------------------------------------------- bounds

  predicate QualityInRange(q: real) { 1.0 <= q <= 100.0 }
  predicate Positive(x: real) { x > 0.0 }
  predicate ScaleInRange(x: real) { 0.0 < x <= 1000.0 }
  predicate OpacityInRange(x: real) { 0.0 <= x <= 1.0 }

  // ---------------------------------------------------------------- settings

  datatype CompressSettings = CompressSettings(quality: real, mode: CompressionMode, format: Option<ImageFormat>) {
    predicate Valid() { QualityInRange(quality) }
  }

  datatype ConvertSettings = ConvertSettings(targetFormat: ImageFormat)

  datatype ResizeSettings = ResizeSettings(width: Option<real>, height: Option<real>, scalePercent: Option<real>,
                                           maintainAspectRatio: bool) {
    predicate Valid() {
      && (width.Some? ==> Positive(width.value))
      && (height.Some? ==> Positive(height.value))
      && (scalePercent.Some? ==> ScaleInRange(scalePercent.value))
    }
  }

  datatype RotateSettings = RotateSettings(degrees: Degrees, flipHorizontal: bool, flipVertical: bool)

  datatype WatermarkSettings = WatermarkSettings(text: string, position: Position, opacity: real, fontSize: real) {
    predicate Valid() { |text| >= 1 && OpacityInRange(opacity) && Positive(fontSize) }
  }

  /** zod's error, reduced to what it says: the input was not an object, or
      the keys (in schema order) whose values were refused. */
  datatype ValidationError = NotAnObject | InvalidFields(keys: seq<string>)

  // ---------------------------------------------------------------- reference reading

  /** The value a field is checked against: what the object holds, or the default when the key is absent. */
  function Lookup(o: map<string, Json>, key: string, default: Json): Json {
    if key in o then o[key] else default
  }

  predicate IsNumberIn(v: Json, inRange: real -> bool) { v.JNumber? && inRange(v.n) }
  predicate IsNameIn(v: Json, names: set<string>) { v.JString? && v.s in names }
  predicate IsBool(v: Json) { v.JBool? }

  // ---------------------------------------------------------------- field readers

  /** What one schema field made of its key: a value, or an issue at that key. */
  datatype Field<T> = Ok(value: T) | Issue(key: string) {
    function Issues(): seq<string> {
      if Ok? then [] else [key]
    }
  }

  /** `z.number()` with bounds and `.default(d)`; the default goes through the same checks. */
  function NumberField(o: map<string, Json>, key: string, inRange: real -> bool, default: real): (f: Field<real>)
    ensures f.Ok? <==> IsNumberIn(Lookup(o, key, JNumber(default)), inRange)
    ensures f.Ok? ==> JNumber(f.value) == Lookup(o, key, JNumber(default))
    ensures f.Issues() == if f.Ok? then [] else [key]
  {
    if key !in o then (if inRange(default) then Ok(default) else Issue(key))
    else match o[key]
      case JNumber(n) => if inRange(n) then Ok(n) else Issue(key)
      case _ => Issue(key)
  }

  /** `z.number()` with bounds and `.optional()`. */
  function OptionalNumberField(o: map<string, Json>, key: string, inRange: real -> bool): (f: Field<Option<real>>)
    ensures f.Ok? <==> (key in o ==> IsNumberIn(o[key], inRange))
    ensures f.Ok? ==> (f.value.Some? <==> key in o) && (f.value.Some? ==> o[key] == JNumber(f.value.value))
    ensures f.Issues() == if f.Ok? then [] else [key]
  {
    if key !in o then Ok(None)
    else match o[key]
      case JNumber(n) => if inRange(n) then Ok(Some(n)) else Issue(key)
      case _ => Issue(key)
  }

  /** `z.boolean().default(d)`. */
  function BoolField(o: map<string, Json>, key: string, default: bool): (f: Field<bool>)
    ensures f.Ok? <==> IsBool(Lookup(o, key, JBool(default)))
    ensures f.Ok? ==> JBool(f.value) == Lookup(o, key, JBool(default))
    ensures f.Issues() == if f.Ok? then [] else [key]
  {
    if key !in o then Ok(default)
    else match o[key]
      case JBool(b) => Ok(b)
      case _ => Issue(key)
  }

  /** `z.enum([...])`, with `.default(d)` when `default` is given and required otherwise. */
  function EnumField<T>(o: map<string, Json>, key: string, parse: string -> Option<T>, default: Option<T>): (f: Field<T>)
    ensures key !in o ==> (f.Ok? <==> default.Some?) && (f.Ok? ==> f.value == default.value)
    ensures key in o ==> (f.Ok? <==> o[key].JString? && parse(o[key].s).Some?)
    ensures key in o && f.Ok? ==> parse(o[key].s) == Some(f.value)
    ensures f.Issues() == if f.Ok? then [] else [key]
  {
    if key !in o then (if default.Some? then Ok(default.value) else Issue(key))
    else match o[key]
      case JString(s) => (match parse(s) case Some(v) => Ok(v) case None => Issue(key))
      case _ => Issue(key)
  }

  /** `z.enum([...]).optional()`. */
  function OptionalEnumField<T>(o: map<string, Json>, key: string, parse: string -> Option<T>): (f: Field<Option<T>>)
    ensures f.Ok? <==> (key in o ==> o[key].JString? && parse(o[key].s).Some?)
    ensures f.Ok? ==> (f.value.Some? <==> key in o) && (f.value.Some? ==> parse(o[key].s) == f.value)
    ensures f.Issues() == if f.Ok? then [] else [key]
  {
    if key !in o then Ok(None)
    else match o[key]
      case JString(s) => (match parse(s) case Some(v) => Ok(Some(v)) case None => Issue(key))
      case _ => Issue(key)
  }

  /** `z.string().min(n)`, required. */
  function StringField(o: map<string, Json>, key: string, minLength: nat): (f: Field<string>)
    ensures f.Ok? <==> key in o && o[key].JString? && |o[key].s| >= minLength
    ensures f.Ok? ==> o[key] == JString(f.value)
    ensures f.Issues() == if f.Ok? then [] else [key]
  {
    if key !in o then Issue(key)
    else match o[key]
      case JString(s) => if |s| >= minLength then Ok(s) else Issue(key)
      case _ => Issue(key)
  }

  // ---------------------------------------------------------------- schemas

  /** compressImageSchema */
  function ValidateCompress(j: Json): (r: Result<CompressSettings, ValidationError>)
    ensures !j.JObject? ==> r == Failure(NotAnObject)
    ensures j.JObject? ==> (r.Success? <==>
      && IsNumberIn(Lookup(j.fields, "quality", JNumber(80.0)), QualityInRange)
      && IsNameIn(Lookup(j.fields, "mode", JString("lossy")), ModeNames)
      && ("format" in j.fields ==> IsNameIn(j.fields["format"], FormatNames)))
    ensures r.Success? ==> (j.JObject? && r.value.Valid()
      && JNumber(r.value.quality) == Lookup(j.fields, "quality", JNumber(80.0))
      && JString(ModeName(r.value.mode)) == Lookup(j.fields, "mode", JString("lossy"))
      && (r.value.format.Some? <==> "format" in j.fields)
      && (r.value.format.Some? ==> j.fields["format"] == JString(FormatName(r.value.format.value))))
    ensures r.Failure? && j.JObject? ==> (r.error.InvalidFields? && |r.error.keys| > 0
      && ("quality" in r.error.keys <==> !IsNumberIn(Lookup(j.fields, "quality", JNumber(80.0)), QualityInRange))
      && ("mode" in r.error.keys <==> !IsNameIn(Lookup(j.fields, "mode", JString("lossy")), ModeNames))
      && ("format" in r.error.keys <==> "format" in j.fields && !IsNameIn(j.fields["format"], FormatNames)))
  {
    if !j.JObject? then Failure(NotAnObject)
    else
      var o := j.fields;
      var quality := NumberField(o, "quality", QualityInRange, 80.0);
      var mode := EnumField(o, "mode", ParseMode, Some(Lossy));
      var format := OptionalEnumField(o, "format", ParseFormat);
      var issues := quality.Issues() + mode.Issues() + format.Issues();
      if issues == [] then Success(CompressSettings(quality.value, mode.value, format.value))
      else Failure(InvalidFields(issues))
  }

  /** convertImageSchema: `targetFormat` is required and has no default. */
  function ValidateConvert(j: Json): (r: Result<ConvertSettings, ValidationError>)
    ensures !j.JObject? ==> r == Failure(NotAnObject)
    ensures j.JObject? ==> (r.Success? <==> "targetFormat" in j.fields && IsNameIn(j.fields["targetFormat"], FormatNames))
    ensures r.Success? ==> (j.JObject? && "targetFormat" in j.fields
      && j.fields["targetFormat"] == JString(FormatName(r.value.targetFormat)))
    ensures r.Failure? && j.JObject? ==> r.error == InvalidFields(["targetFormat"])
  {
    if !j.JObject? then Failure(NotAnObject)
    else
      var target := EnumField(j.fields, "targetFormat", ParseFormat, None);
      if target.Ok? then Success(ConvertSettings(target.value)) else Failure(InvalidFields(target.Issues()))
  }

  /** resizeImageSchema */
  function ValidateResize(j: Json): (r: Result<ResizeSettings, ValidationError>)
    ensures !j.JObject? ==> r == Failure(NotAnObject)
    ensures j.JObject? ==> (r.Success? <==>
      && ("width" in j.fields ==> IsNumberIn(j.fields["width"], Positive))
      && ("height" in j.fields ==> IsNumberIn(j.fields["height"], Positive))
      && ("scalePercent" in j.fields ==> IsNumberIn(j.fields["scalePercent"], ScaleInRange))
      && IsBool(Lookup(j.fields, "maintainAspectRatio", JBool(true))))
    ensures r.Success? ==> (j.JObject? && r.value.Valid()
      && (r.value.width.Some? <==> "width" in j.fields)
      && (r.value.width.Some? ==> j.fields["width"] == JNumber(r.value.width.value))
      && (r.value.height.Some? <==> "height" in j.fields)
      && (r.value.height.Some? ==> j.fields["height"] == JNumber(r.value.height.value))
      && (r.value.scalePercent.Some? <==> "scalePercent" in j.fields)
      && (r.value.scalePercent.Some? ==> j.fields["scalePercent"] == JNumber(r.value.scalePercent.value))
      && JBool(r.value.maintainAspectRatio) == Lookup(j.fields, "maintainAspectRatio", JBool(true)))
    ensures r.Failure? && j.JObject? ==> (r.error.InvalidFields? && |r.error.keys| > 0
      && ("width" in r.error.keys <==> "width" in j.fields && !IsNumberIn(j.fields["width"], Positive))
      && ("height" in r.error.keys <==> "height" in j.fields && !IsNumberIn(j.fields["height"], Positive))
      && ("scalePercent" in r.error.keys <==>
            "scalePercent" in j.fields && !IsNumberIn(j.fields["scalePercent"], ScaleInRange))
      && ("maintainAspectRatio" in r.error.keys <==> !IsBool(Lookup(j.fields, "maintainAspectRatio", JBool(true)))))
  {
    if !j.JObject? then Failure(NotAnObject)
    else
      var o := j.fields;
      var width := OptionalNumberField(o, "width", Positive);
      var height := OptionalNumberField(o, "height", Positive);
      var scale := OptionalNumberField(o, "scalePercent", ScaleInRange);
      var keep := BoolField(o, "maintainAspectRatio", true);
      var issues := width.Issues() + height.Issues() + scale.Issues() + keep.Issues();
      if issues == [] then Success(ResizeSettings(width.value, height.value, scale.value, keep.value))
      else Failure(InvalidFields(issues))
  }

  /** rotateImageSchema: `degrees` is a required string; both flips default to false. */
  function ValidateRotate(j: Json): (r: Result<RotateSettings, ValidationError>)
    ensures !j.JObject? ==> r == Failure(NotAnObject)
    ensures j.JObject? ==> (r.Success? <==>
      && "degrees" in j.fields && IsNameIn(j.fields["degrees"], DegreesNames)
      && IsBool(Lookup(j.fields, "flipHorizontal", JBool(false)))
      && IsBool(Lookup(j.fields, "flipVertical", JBool(false))))
    ensures r.Success? ==> (j.JObject? && "degrees" in j.fields
      && j.fields["degrees"] == JString(DegreesName(r.value.degrees))
      && JBool(r.value.flipHorizontal) == Lookup(j.fields, "flipHorizontal", JBool(false))
      && JBool(r.value.flipVertical) == Lookup(j.fields, "flipVertical", JBool(false)))
    ensures r.Failure? && j.JObject? ==> (r.error.InvalidFields? && |r.error.keys| > 0
      && ("degrees" in r.error.keys <==> !("degrees" in j.fields && IsNameIn(j.fields["degrees"], DegreesNames)))
      && ("flipHorizontal" in r.error.keys <==> !IsBool(Lookup(j.fields, "flipHorizontal", JBool(false))))
      && ("flipVertical" in r.error.keys <==> !IsBool(Lookup(j.fields, "flipVertical", JBool(false)))))
  {
    if !j.JObject? then Failure(NotAnObject)
    else
      var o := j.fields;
      var degrees := EnumField(o, "degrees", ParseDegrees, None);
      var flipH := BoolField(o, "flipHorizontal", false);
      var flipV := BoolField(o, "flipVertical", false);
      var issues := degrees.Issues() + flipH.Issues() + flipV.Issues();
      if issues == [] then Success(RotateSettings(degrees.value, flipH.value, flipV.value))
      else Failure(InvalidFields(issues))
  }

  /** watermarkImageSchema */
  function ValidateWatermark(j: Json): (r: Result<WatermarkSettings, ValidationError>)
    ensures !j.JObject? ==> r == Failure(NotAnObject)
    ensures j.JObject? ==> (r.Success? <==>
      && "text" in j.fields && j.fields["text"].JString? && |j.fields["text"].s| >= 1
      && IsNameIn(Lookup(j.fields, "position", JString("bottom-right")), PositionNames)
      && IsNumberIn(Lookup(j.fields, "opacity", JNumber(0.5)), OpacityInRange)
      && IsNumberIn(Lookup(j.fields, "fontSize", JNumber(24.0)), Positive))
    ensures r.Success? ==> (j.JObject? && r.value.Valid()
      && "text" in j.fields && j.fields["text"] == JString(r.value.text)
      && JString(PositionName(r.value.position)) == Lookup(j.fields, "position", JString("bottom-right"))
      && JNumber(r.value.opacity) == Lookup(j.fields, "opacity", JNumber(0.5))
      && JNumber(r.value.fontSize) == Lookup(j.fields, "fontSize", JNumber(24.0)))
    ensures r.Failure? && j.JObject? ==> (r.error.InvalidFields? && |r.error.keys| > 0
      && ("text" in r.error.keys <==>
            !("text" in j.fields && j.fields["text"].JString? && |j.fields["text"].s| >= 1))
      && ("position" in r.error.keys <==>
            !IsNameIn(Lookup(j.fields, "position", JString("bottom-right")), PositionNames))
      && ("opacity" in r.error.keys <==> !IsNumberIn(Lookup(j.fields, "opacity", JNumber(0.5)), OpacityInRange))
      && ("fontSize" in r.error.keys <==> !IsNumberIn(Lookup(j.fields, "fontSize", JNumber(24.0)), Positive)))
  {
    if !j.JObject? then Failure(NotAnObject)
    else
      var o := j.fields;
      var text := StringField(o, "text", 1);
      var position := EnumField(o, "position", ParsePosition, Some(BottomRight));
      var opacity := NumberField(o, "opacity", OpacityInRange, 0.5);
      var fontSize := NumberField(o, "fontSize", Positive, 24.0);
      var issues := text.Issues() + position.Issues() + opacity.Issues() + fontSize.Issues();
      if issues == [] then Success(WatermarkSettings(text.value, position.value, opacity.value, fontSize.value))
      else Failure(InvalidFields(issues))
  }
}
