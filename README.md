# Image tool server, modelled in Dafny

This project models the logic of a small web service that wraps the `sharp`
image library. Users upload an image with a JSON `settings` field and get back
a compressed, converted, resized, rotated or watermarked copy as a data URL,
or they ask for the image's metadata. The model has three parts:

- **Settings schemas** (`shared/schema.ts`). Each zod object schema becomes a
  validator from a JSON value to `Result<Settings, ValidationError>`
  (`schema.dfy`). The validator checks bounds and enum membership and fills
  in the defaults. A default is itself validated, as zod's `.default()` does.
  A present `null` is refused. Unknown keys are dropped. `z.number()` is a
  `real`.
- **Request handling** (`server/routes.ts`).
  - `Routes.Receive` is the upload middleware: the `image/` MIME filter and
    the 50 MiB limit.
  - `Routes.Handle` gives each endpoint's response as a function of the
    request and a `Runtime`. The runtime holds `JSON.parse`, the image
    library and base64 encoding as parameters.
  - `handlers.dfy` holds the route handlers as methods. They reassign locals
    step by step, as the source does. They drive a `Sharp.Image` object,
    which records the lazily built pipeline: the operations in call order
    and the output encoder. Each method is proved to produce exactly
    `Routes.Handle`'s response.
  - The library is uninterpreted. `Sharp.Library` holds functions for
    metadata, stats and encoding, and a `None` or `false` result stands for
    a thrown error.
- **Client helpers** (`client/src/lib/image-api.ts`). These are
  `calculateReduction` and `formatBytes`, with JavaScript's `Math.round`
  (halves toward +∞) and `toFixed(2)` written out (`image_api.dfy`).

Files:

- `wrappers.dfy`: Option and Result.
- `json.dfy`: JSON values.
- `text.dfy`: `startsWith`, `includes`, decimal rendering and parsing.
- `jsmath.dfy`: `Math.round`.
- `schema.dfy`: the validators.
- `schema_properties.dfy`: the validators' round trips and boundaries.
- `sharp.dfy`: the library interface and the `Image` pipeline object.
- `routes.dfy`: the upload filter and each endpoint's response.
- `handlers.dfy`: the imperative route handlers.
- `routes_properties.dfy`: ordering, statuses and the handlers' choices.
- `image_api.dfy`: the client helpers.

## Model

| member | source | states |
|---|---|---|
| Schema.ParseFormat | shared/schema.ts:3-12 | a name is accepted iff it is one of the eight format names, and it reads back as that name |
| Schema.ParseMode | shared/schema.ts:14 | only "lossless" and "lossy" are modes |
| Schema.ParseDegrees | shared/schema.ts:34 | only the strings "90", "180", "270" are degrees |
| Schema.ParsePosition | shared/schema.ts:41 | only the five position names are positions |
| Schema.NumberField | shared/schema.ts:17 | a number key accepts an in-range number; if absent, its default is used and checked; anything else is an issue on that key |
| Schema.OptionalNumberField | shared/schema.ts:27-29 | an absent key is None; a present one must be an in-range number |
| Schema.BoolField | shared/schema.ts:30 | an absent key takes the default; a present one must be a boolean |
| Schema.EnumField | shared/schema.ts:18 | an enum key accepts exactly the listed names, with the default used when absent |
| Schema.OptionalEnumField | shared/schema.ts:19 | an absent enum key is None; a present one must be a listed name |
| Schema.StringField | shared/schema.ts:40 | a string key must be present and at least the given length |
| Schema.ValidateCompress | shared/schema.ts:16-20 | a non-object is refused; an object is accepted iff quality is in [1,100], mode is a mode and a present format is a format (defaults 80, "lossy"); the result keeps present values; a failure lists exactly the bad keys |
| Schema.ValidateConvert | shared/schema.ts:22-24 | accepted iff targetFormat is present and a format name; otherwise the only issue is targetFormat |
| Schema.ValidateResize | shared/schema.ts:26-31 | accepted iff present width and height are > 0, a present scalePercent is in (0,1000] and a present maintainAspectRatio is boolean (default true); a failure lists exactly the bad keys |
| Schema.ValidateRotate | shared/schema.ts:33-37 | accepted iff degrees is one of the three strings and the flips are booleans (default false); a failure lists exactly the bad keys |
| Schema.ValidateWatermark | shared/schema.ts:39-44 | accepted iff text is a non-empty string, position is one of five (default "bottom-right"), opacity is in [0,1] (default 0.5) and fontSize is > 0 (default 24); a failure lists exactly the bad keys |
| SchemaProperties.ModeNameInjective | shared/schema.ts:14 | distinct modes have distinct names |
| SchemaProperties.FormatNameInjective | shared/schema.ts:3-12 | distinct formats have distinct names |
| SchemaProperties.DegreesNameInjective | shared/schema.ts:34 | distinct degrees have distinct names |
| SchemaProperties.PositionNameInjective | shared/schema.ts:41 | distinct positions have distinct names |
| SchemaProperties.CompressRoundTrip | shared/schema.ts:16-20 | every valid compress setting, serialised as the client sends it, validates back to itself |
| SchemaProperties.ConvertRoundTrip | shared/schema.ts:22-24 | every convert setting validates back to itself |
| SchemaProperties.ResizeRoundTrip | shared/schema.ts:26-31 | every valid resize setting validates back to itself |
| SchemaProperties.RotateRoundTrip | shared/schema.ts:33-37 | every rotate setting validates back to itself |
| SchemaProperties.WatermarkRoundTrip | shared/schema.ts:39-44 | every valid watermark setting validates back to itself |
| SchemaProperties.ValidationIdempotent | shared/schema.ts:16-44 | for all five schemas, validating the serialised result of a validation gives the same result |
| SchemaProperties.CompressQualityBounds | shared/schema.ts:17 | quality is accepted iff 1 ≤ q ≤ 100 |
| SchemaProperties.CompressDefaults | shared/schema.ts:17-19 | `{}` compresses lossily at quality 80 with no format |
| SchemaProperties.CompressModeAndFormat | shared/schema.ts:18-19 | mode is accepted iff it is "lossless" or "lossy"; format iff it is one of the eight names |
| SchemaProperties.ConvertTargetRequired | shared/schema.ts:23 | a missing targetFormat is refused; a present one is accepted iff it is a format name |
| SchemaProperties.ResizeBounds | shared/schema.ts:27-30 | width and height are accepted iff > 0; scalePercent iff in (0, 1000]; `{}` gives no dimensions and maintainAspectRatio true |
| SchemaProperties.RotateDegreesAreStrings | shared/schema.ts:34-36 | degrees is accepted iff it is one of three strings; the number 90 is refused; flips default to false |
| SchemaProperties.WatermarkTextAndDefaults | shared/schema.ts:40-43 | text is accepted iff non-empty; the other fields default to bottom-right, 0.5 and 24 |
| SchemaProperties.WatermarkBounds | shared/schema.ts:42-43 | opacity is accepted iff in [0,1]; fontSize iff > 0 |
| RouteProperties.UploadAcceptance | server/routes.ts:13-25 | a part is accepted iff its MIME type starts with "image/" and it is at most 50·1024·1024 bytes; a non-image is refused as such whatever its size |
| RouteProperties.UploadFilterExamples | server/routes.ts:19 | "image/png" passes; "text/plain", "image" and "IMAGE/PNG" do not |
| RouteProperties.RefusedUploadNeverDecoded | server/routes.ts:13-25 | every refused part (a non-image, or an image over 50 MiB) is answered with its refusal and never reaches a handler: the reply does not depend on the settings or the library; a non-image is refused as such |
| RouteProperties.MissingFileFirst | server/routes.ts:31-33 | every endpoint answers 400 "No image file provided" without a file, before anything else |
| RouteProperties.SettingsCheckedBeforeImage | server/routes.ts:35-38 | unparsable settings give 500 with the handler's message; invalid settings give 400 with the schema's error; neither depends on the image library |
| RouteProperties.StatusCodes | server/routes.ts:29-317 | the only statuses are 200, 400, 500 and 501; 501 iff remove-background with a file; 400 iff there is no file or the settings parse but fail validation |
| RouteProperties.DataUrlPrefix | server/routes.ts:67 | the data URL opens with `data:image/<format>;base64,` |
| RouteProperties.SuccessfulTransform | server/routes.ts:60-68 | a 200 from a transform means the upload was decoded; the body reports its size and format, and a data URL opening with `data:image/<output format>;base64,` |
| RouteProperties.TransformLibraryOutcome | server/routes.ts:41-72 | once settings parse and validate, a transform answers 200 iff decoding, encoding the planned pipeline, compress's stats and decoding the output all succeed; the 200 body is built from the input's metadata, the output, the output's metadata and its base64; any other outcome is the handler's 500 |
| RouteProperties.InfoLibraryOutcome | server/routes.ts:285-300 | info answers 200 iff decoding and stats succeed, with the input's metadata, name and size as the body; otherwise its 500 "Failed to get image info" |
| RouteProperties.DimensionFallbacks | server/routes.ts:65-66 | the reported width and height are the output's, or 0 when unknown; the processed size is the output's length |
| RouteProperties.RemoveBackgroundIsPlaceholder | server/routes.ts:304-312 | remove-background answers 501 with its fixed message to every request with a file |
| RouteProperties.InfoNeverEncodes | server/routes.ts:279-302 | info ignores the settings and never encodes; it answers 200 or 500 |
| RouteProperties.AbsentSettingsMeanDefaults | server/routes.ts:35 | absent or empty settings read as `{}`: compress and resize run on their defaults; convert is refused for targetFormat; rotate and watermark are refused |
| RouteProperties.CompressEncoderChoice | server/routes.ts:46-54 | lossless gives PNG level 9 for any input; lossy gives PNG with the quality for PNG input and JPEG with the quality otherwise; the output is PNG iff lossless or PNG input |
| RouteProperties.CompressFormatPreservation | server/routes.ts:46-54 | lossy compression keeps a PNG or JPEG input's format; lossless changes a JPEG to PNG |
| RouteProperties.ConvertEncoderChoice | server/routes.ts:92-111 | jpeg and jpg give the JPEG encoder at quality 90, webp the WebP encoder at quality 90, gif the GIF encoder, bmp `toFormat("bmp")`, and png, tiff and heic the default PNG encoder; the written format is the target's, except jpg is written as jpeg and tiff and heic as PNG |
| RouteProperties.ValidResizeFieldsAreTruthy | server/routes.ts:148-154 | for validated settings, the truthiness tests are presence tests |
| RouteProperties.ResizeOptionsChoice | server/routes.ts:146-159 | a scale wins and sets both rounded dimensions with no fit; otherwise the given dimensions pass through with fit inside iff the aspect ratio is kept; otherwise the options are empty |
| RouteProperties.ScaledIsNearest | server/routes.ts:149-152 | in the model, with exact arithmetic, a scaled dimension is the integer nearest to n·p/100 with halves rounded up; an unknown dimension counts as 0 |
| RouteProperties.ResizeExamples | server/routes.ts:148-153 | 50% of 800×600 requests 400×300; 2.5 rounds to 3 |
| RouteProperties.AngleValues | server/routes.ts:195 | `parseInt` of the degree strings gives 90, 180 and 270 |
| RouteProperties.RotateOrder | server/routes.ts:195-203 | the rotation comes first, then the flop, then the flip; each flip is present iff requested |
| RouteProperties.TopLeftWords | server/routes.ts:324-334 | "top-left" contains "left" and "top" but not "right" or "bottom" |
| RouteProperties.TopRightWords | server/routes.ts:324-334 | "top-right" contains "right" and "top" but not "left" or "bottom" |
| RouteProperties.BottomLeftWords | server/routes.ts:324-334 | "bottom-left" contains "left" and "bottom" but not "right" or "top" |
| RouteProperties.BottomRightWords | server/routes.ts:324-334 | "bottom-right" contains "right" and "bottom" but not "left" or "top" |
| RouteProperties.CenterWords | server/routes.ts:324-334 | "center" contains none of the four words |
| RouteProperties.PositionWords | server/routes.ts:324-334 | a position's name contains "left", "right", "top" or "bottom" iff the position lies on that side |
| RouteProperties.WatermarkPlacement | server/routes.ts:251 | x is 30, width−30 or width/2 for left, right and center; y is 50, height−30 or height/2 for top, bottom and center; the anchor is end for right, middle for center, start otherwise |
| RouteProperties.WatermarkCanvas | server/routes.ts:239-253 | the canvas is the image's size, or 800×600 when a dimension is unknown or 0; for the chosen position the text sits at x 30, width−30 or width/2 and y 50, height−30 or height/2 on that canvas, anchored end, middle or start; the default bottom-right text sits at (770, 570) |
| Routes.Receive | server/routes.ts:13-25 | no part leaves the file undefined; an accepted file is an image type, at most 50 MiB, and its size is its length (partner: RouteProperties.UploadAcceptance) |
| Routes.Serve | server/routes.ts:13-25 | a refused part never reaches a handler; an accepted one is answered by `Handle` (partner: RouteProperties.RefusedUploadNeverDecoded) |
| Routes.Handle | server/routes.ts:29-317 | each endpoint's response: file check, settings parse and validation, then the library work (partners: RouteProperties.StatusCodes, RouteProperties.SettingsCheckedBeforeImage, and the Handlers methods proved equal to it) |
| Routes.CompressEncoder | server/routes.ts:46-54 | the compress encoder for a mode and input format (partner: RouteProperties.CompressEncoderChoice) |
| Routes.ConvertEncoder | server/routes.ts:92-111 | the convert encoder for a target (partner: RouteProperties.ConvertEncoderChoice) |
| Routes.ResizeOptionsFor | server/routes.ts:146-159 | the resize options for validated settings (partner: RouteProperties.ResizeOptionsChoice) |
| Routes.Scaled | server/routes.ts:149-152 | a decoded dimension scaled by a percentage and rounded, in exact arithmetic (partner: RouteProperties.ScaledIsNearest) |
| Routes.RotateOps | server/routes.ts:195-203 | the operations rotate appends, in order (partner: RouteProperties.RotateOrder) |
| Routes.GetXPosition | server/routes.ts:324-328 | the watermark's x for a position name (partner: RouteProperties.WatermarkPlacement) |
| Routes.GetYPosition | server/routes.ts:330-334 | the watermark's y for a position name (partner: RouteProperties.WatermarkPlacement) |
| Routes.TextAnchor | server/routes.ts:251 | the SVG text-anchor for a position name (partner: RouteProperties.WatermarkPlacement) |
| Routes.WatermarkOverlay | server/routes.ts:239-258 | the canvas is never 0 wide or high, because an unknown or zero dimension falls back; the text is placed for the chosen position on that canvas (partner: RouteProperties.WatermarkCanvas) |
| Routes.InfoOutcome | server/routes.ts:285-301 | info answers 200 or 500, and a 200 carries the upload's name and size |
| Routes.Describe | server/routes.ts:57-68 | after encoding, the handler answers 200 or 500, and a 200 reports the output's length |
| Routes.ResultFor | server/routes.ts:60-68 | the success body (partners: RouteProperties.DimensionFallbacks, RouteProperties.DataUrlPrefix) |
| Routes.FileFilter | server/routes.ts:18-24 | a part passes iff its MIME type starts with "image/" (partners: RouteProperties.UploadAcceptance, RouteProperties.UploadFilterExamples) |
| Routes.SettingsText | server/routes.ts:35 | an absent or empty settings field reads as "{}" (partner: RouteProperties.AbsentSettingsMeanDefaults) |
| Routes.Validate | server/routes.ts:35-36 | each transform endpoint validates with its own schema (partners: RouteProperties.SettingsCheckedBeforeImage, RouteProperties.AbsentSettingsMeanDefaults) |
| Routes.TransformOutcome | server/routes.ts:41-43 | decoding the input comes first, and its failure is the handler's 500 (partner: RouteProperties.TransformLibraryOutcome; every Handlers.ProcessX is proved equal to it) |
| Routes.Render | server/routes.ts:47-56 | encoding the planned pipeline and, for compress only, the stats call; each failure is the handler's 500 (partner: RouteProperties.TransformLibraryOutcome) |
| Routes.Plan | server/routes.ts:46-54 | the pipeline each handler builds: the compress or convert encoder, the resize options, the rotate operations, or the watermark overlay (partners: RouteProperties.CompressEncoderChoice, ConvertEncoderChoice, ResizeOptionsChoice, RotateOrder, WatermarkCanvas) |
| Routes.Angle | server/routes.ts:195 | `parseInt(degrees)` gives 90, 180 or 270 (partner: RouteProperties.AngleValues) |
| Routes.DataUrl | server/routes.ts:67 | `data:image/<format>;base64,` followed by the payload (partner: RouteProperties.DataUrlPrefix) |
| ImageApi.FormatBytes | client/src/lib/image-api.ts:51-55 | a byte count with its unit (partner: ImageApi.FormatBytesMeaning) |
| Handlers.DescribeOutput | server/routes.ts:57-68 | the output's metadata is read back into the success body, or the handler fails with 500 |
| Handlers.ProcessCompress | server/routes.ts:40-72 | the compress pipeline and its failures give the specified response |
| Handlers.HandleCompress | server/routes.ts:29-73 | POST /api/compress answers exactly as the compress endpoint is specified |
| Handlers.ProcessConvert | server/routes.ts:86-128 | the convert dispatch and its failures give the specified response |
| Handlers.HandleConvert | server/routes.ts:75-129 | POST /api/convert answers exactly as specified |
| Handlers.ProcessResize | server/routes.ts:142-177 | the resize options built step by step, and the failures, give the specified response |
| Handlers.HandleResize | server/routes.ts:131-178 | POST /api/resize answers exactly as specified |
| Handlers.ProcessRotate | server/routes.ts:191-221 | the rotate, flop and flip calls in order, and the failures, give the specified response |
| Handlers.HandleRotate | server/routes.ts:180-222 | POST /api/rotate answers exactly as specified |
| Handlers.ProcessWatermark | server/routes.ts:235-276 | the overlay placement and the failures give the specified response |
| Handlers.HandleWatermark | server/routes.ts:224-277 | POST /api/watermark answers exactly as specified |
| Handlers.HandleInfo | server/routes.ts:279-302 | POST /api/info answers exactly as specified |
| Handlers.HandleRemoveBackground | server/routes.ts:304-317 | POST /api/remove-background answers exactly as specified |
| Sharp.Image.AddRotate | server/routes.ts:195 | appends a rotation to the pipeline and changes nothing else |
| Sharp.Image.AddFlop | server/routes.ts:198 | appends a left-right mirror |
| Sharp.Image.AddFlip | server/routes.ts:202 | appends a top-bottom mirror |
| Sharp.Image.AddResize | server/routes.ts:161 | appends a resize with the given options |
| Sharp.Image.AddComposite | server/routes.ts:257-258 | appends an overlay at the given offset |
| Sharp.Image.SetEncoder | server/routes.ts:47-52 | sets the output encoder and keeps the operations |
| Text.ParseRendered | server/routes.ts:195 | rendering a non-negative integer in decimal and parsing it back gives the integer |
| Text.MissingCharNotContained | server/routes.ts:325-332 | `includes` fails when the string lacks one of the word's characters |
| JsMath.Round | server/routes.ts:151-152 | `Math.round` gives the integer within a half, with halves going up |
| JsMath.RoundMonotone | client/src/lib/image-api.ts:58 | rounding preserves order |
| ImageApi.CalculateReduction | client/src/lib/image-api.ts:57-59 | a percentage iff the original is non-empty, within a half of 100·(o−p)/o; NaN for 0/0 and −∞ otherwise |
| ImageApi.ReductionBounds | client/src/lib/image-api.ts:58 | an unchanged size gives 0, an empty output 100, a smaller output a value in [0,100], and a larger one ≤ 0 |
| ImageApi.ReductionMonotone | client/src/lib/image-api.ts:58 | a larger output never reports a larger saving |
| ImageApi.ReductionExamples | client/src/lib/image-api.ts:58 | 250 of 1000 is 75; 1 of 8 is 88; an empty original gives −∞ |
| ImageApi.Hundredths | client/src/lib/image-api.ts:53-54 | `toFixed(2)` picks the hundredths nearest to the quotient, the larger on a tie |
| ImageApi.Fixed2RoundTrip | client/src/lib/image-api.ts:53-54 | the two-decimal text reads back as the hundredths it shows |
| ImageApi.FormatBytesMeaning | client/src/lib/image-api.ts:51-55 | " B" below 1024 with the exact count; " KB" below 1048576 and " MB" above, each showing the size in that unit to the nearest hundredth |
| ImageApi.FormatBytesJustBelowMiB | client/src/lib/image-api.ts:53 | 1048575 bytes shows as "1024.00 KB" |

## Left out

- Pixel work by `sharp` (decoding, encoders, resize with `fit: inside`, rotation, mirrors, compositing) is uninterpreted. The model states which calls the handlers make and in what order, not what the pixels become. Whether the library supports a given output format (for example bmp) is the library's business; an unsupported format shows up as an encoding failure and so as a 500.
- `JSON.parse` and base64 encoding are parameters of `Routes.Runtime`. So are the mapping from decimal text to doubles and number ranges beyond double precision.
- zod's error message text (`validation.error.message`) is left out; the model returns the failing keys in schema order.
- The SVG markup of the watermark is left out; only its size, the text's x, y and anchor, and the font size, opacity and text are modelled. The text is inserted unescaped in the source, and the model does not capture that.
- multer's storage, Express and the HTTP server are left out, as is the status the framework gives a refused upload. The model only reports the refusal.
- The compress `format` setting is validated but never used by the handler, and the model does the same.
- The convert data URL's `format === 'jpeg' ? 'jpeg' : format` always yields the format itself, so it is modelled as the plain format.
- `console.error` logging is left out.
- Routes.Scaled and RouteProperties.ScaledIsNearest use exact rationals for `scalePercent / 100` and the product, but the source computes both in doubles. A product within a double's rounding error of a half can therefore round differently in the source. For example, 50 px at 29% is 14.499999999999998 there and rounds to 14, while the model rounds the exact 14.5 to 15.
- Refused uploads: the multer file filter calls back with a plain `Error`, so the status of a refused upload comes from the web framework, outside these handlers. `Routes.Serve` reports the refusal without a status.
- `Math.round` rounds halves toward +infinity (−2.5 becomes −2), and `JsMath.Round` does the same.
- ImageApi.CalculateReduction computes with exact rationals rather than doubles, so a quotient that falls within rounding error of a half may round differently in the source.
- ImageApi.FormatBytesMeaning covers sizes whose quotient is exact in doubles. Sizes of 2^53 bytes or more, and the exponent notation `toFixed` uses from 10^21 up, are not modelled.
- `processImage`, `getImageInfo` and `downloadImage` (fetch, FormData and DOM calls) are I/O and are left out, as are the React pages and components.
