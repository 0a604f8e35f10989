# KML preset of gopro-telemetry, modelled in Dafny

This project models the KML preset of gopro-telemetry (`code/presets/toKml.js`).
The preset takes a parsed telemetry object and returns a KML 2.0 document:

- It walks the device entries in insertion order and remembers the last `device name` it saw.
- It stops at the first device whose `streams` object holds a `GPS5` entry with a `samples` field.
- It turns each valid sample of that stream into a `<Placemark>`. A sample is valid when it has at least two values.
- Each placemark carries the accumulated sticky metadata and the 2D/3D speeds as its description.
- Each placemark has longitude/latitude/altitude coordinates, an optional `absolute` altitude mode and an optional time stamp.
- The placemarks are wrapped in a document whose description is built from the device name, the frame rate, the stream name and the units.

Modules, one per part of the preset:

- `Wrappers`: the `Option` type.
- `Telemetry`: the input schema, with explicit optional fields and ordered objects (sequences of key/value pairs). It also holds the host's `join` and the `filter(e => e != null)` of the descriptions.
- `Sticky`: the sticky map, the object spread that updates it, and the `translations` table.
- `Samples`: the placemark of one sample, its markup, and the sample loop. The loop is an imperative method proved against the functional `Placemarks`/`StickyAfter` specification.
- `Kml`: the scan over devices and streams, its imperative form `GetGps5Data` proved against the functional `Gps5Data`, the document, and the exported wrapper `ToKml`.
- `Scenarios`: concrete conversions worked through the model.

Modelling choices:

- The host date conversion is a parameter `toIso: SampleDate -> Option<string>`. It stands for Date construction followed by `toISOString`, and `None` means it threw.
- A sample date carries what the conversion needs apart from what the catch branch prints. A date object holds its millisecond time value (absent when it is not a Date with a valid time) and, separately, the string form printed on failure; two Date objects in the same second have the same string form but different time values. A raw date records whether it was a number or a string, since `new Date(0)` and `new Date("0")` differ.
- The fallback text follows the code. A non-object date is replaced by `new Date(raw)` before the `try`, so the catch branch prints the Date object. For a raw date that failed to convert, that text is `Invalid Date`, not the raw input. A date that already was an object prints its own string form.
- The frame rate arrives as the text of the rounded number, and the model appends ` fps`.
- Sample values, sticky values and units are opaque text tokens.
- Markup is modelled element by element, without indentation.

## Model

| member | source | states |
|---|---|---|
| `Telemetry.IsValid` | code/presets/toKml.js:33 | a sample is converted exactly when its `value` is present with more than one entry; `PlacemarkCount`, `PlacemarkAt` and `InvalidSampleIgnored` state what that means for the output |
| `Telemetry.Join` | code/presets/toKml.js:52-54 | the host's `join`; `JoinTwo`, `JoinThree` and `JoinSnoc` state that the separator goes between consecutive parts (also used at lines 88 and 100) |
| `Telemetry.JoinTwo` | code/presets/toKml.js:88 | two parts join to the first, the separator and the second |
| `Telemetry.JoinThree` | code/presets/toKml.js:88 | three parts join with the separator between each pair |
| `Telemetry.JoinSnoc` | code/presets/toKml.js:52-54 | joining one more part appends the separator and that part, for every non-empty list |
| `Telemetry.PresentAppend` | code/presets/toKml.js:98-100 | dropping the absent parts of a description distributes over concatenation, so the present parts keep their order |
| `Telemetry.Present` | code/presets/toKml.js:98-108 | `filter(e => e != null)` on the description parts: never longer than its input; `PresentAppend` states that the present parts are kept in order, and `DocumentOnMatch`/`DocumentNoMatch` use it for the descriptions |
| `Sticky.Label` | code/presets/toKml.js:4-7 | `precision` is labelled `GPS Accuracy`, `fix` is labelled `GPS Fix`, and every other key is its own label |
| `Sticky.Labels` | code/presets/toKml.js:41-44 | one line per sticky key, in map order, each `Label: value` for that entry |
| `Sticky.Keys` | code/presets/toKml.js:41 | the keys of an ordered object, one per entry, in iteration order |
| `Sticky.Lookup` | code/presets/toKml.js:43 | a key has a value exactly when it is one of the object's keys; which value is stated by `LookupStored` and `LookupFirstEntry` |
| `Sticky.LookupStored` | code/presets/toKml.js:43 | a value read under a key is the value stored in the first entry with that key |
| `Sticky.LookupFirstEntry` | code/presets/toKml.js:43 | when entry i is the first with key k, reading k gives entry i's value |
| `Sticky.Put` | code/presets/toKml.js:35 | assigning a property: an existing key keeps its position and its place in the key order, a new key is appended, the key then reads the new value and every other key reads what it read before |
| `Sticky.NewKeys` | code/presets/toKml.js:35 | the keys a spread appends are not yet known and come from the spread object, and they keep a duplicate-free key list duplicate-free |
| `Sticky.Overlay` | code/presets/toKml.js:35 | the spread `{ ...sticky, ...s.sticky }` as the properties of the sample's object assigned one by one; its keys are stated by `OverlayKeys` and `OverlayKeepsKeys`, its values by `OverlayLookup` |
| `Sticky.OverlayKeys` | code/presets/toKml.js:35 | after `{ ...sticky, ...s.sticky }` the keys are the old keys in their old places followed by the spread object's new keys in that object's order |
| `Sticky.OverlayLookup` | code/presets/toKml.js:35 | after the spread, a key of the sample's sticky object has that object's value and every other key keeps its old value |
| `Sticky.OverlayKeepsKeys` | code/presets/toKml.js:35 | the spread never drops a key: the earlier keys stay at their positions, and the keys afterwards are exactly the old keys and the sample's keys |
| `Sticky.OverlayUniqueKeys` | code/presets/toKml.js:35 | spreading onto a map with unique keys leaves a map with unique keys |
| `Samples.StampOf` | code/presets/toKml.js:56-73 | the host's ISO text when the conversion succeeds; when it throws, a fallback that raises the diagnostic and prints the date object: its own text for an object date, `Invalid Date` for a raw one |
| `Samples.DescriptionParts` | code/presets/toKml.js:41-48 | the sticky lines in map order, then `2D Speed: v[3]` exactly when there are more than three values, then `3D Speed: v[4]` exactly when there are more than four |
| `Samples.Coordinates` | code/presets/toKml.js:75-78 | longitude (`v[1]`) then latitude (`v[0]`), then `v[2]` exactly when there are more than two values |
| `Samples.Step` | code/presets/toKml.js:33-35 | the sticky map after one sample: only a valid sample carrying a `sticky` object spreads it onto the map; `InvalidSampleIgnored` and `StickyTakesEffect` state the consequences |
| `Samples.DescriptionElement` | code/presets/toKml.js:50-54 | the `<description>` element holding the parts joined with `; `, omitted when there are no parts |
| `Samples.AltitudeElement` | code/presets/toKml.js:79-80 | the `<altitudeMode>absolute</altitudeMode>` element, present only for the absolute mode |
| `Samples.TimeElement` | code/presets/toKml.js:59-67 | the `<TimeStamp><when>…</when></TimeStamp>` block with the stamp's text, omitted without a date |
| `Samples.Render` | code/presets/toKml.js:83-91 | the placemark markup in element order: description, altitude mode, point with the `,`-joined coordinates, time stamp; `ProcessSample` proves the source's string building equal to it |
| `Samples.RenderAll` | code/presets/toKml.js:93 | the `inner +=` accumulation: the markups of the placemarks in order; `RenderAllAppend` states that it splits over concatenation and `ConvertSamples` proves the loop equal to it |
| `Samples.MakePlacemark` | code/presets/toKml.js:50-91 | the altitude mode is present exactly when the coordinates carry an altitude, the description is omitted exactly when there are no sticky keys and no speeds, and a time stamp is present exactly when the sample has a date |
| `Samples.CollectParts` | code/presets/toKml.js:36-48 | the pushes onto `partialSticky` produce exactly the description lines of the sample |
| `Samples.ProcessSample` | code/presets/toKml.js:31-95 | the per-sample step: the sticky map takes one step and the emitted markup is the rendered placemark of a valid sample, or nothing for an invalid one |
| `Samples.ConvertSamples` | code/presets/toKml.js:28-96 | the sample loop leaves in `inner` the markup of all placemarks of the stream, starting from an empty sticky map |
| `Samples.RenderSnoc` | code/presets/toKml.js:93 | one more sample appends its placemark markup (if valid) to `inner` and takes one sticky step |
| `Samples.Placemarks` | code/presets/toKml.js:30-93 | the sample loop as a function: `PlacemarkCount` (one placemark per valid sample), `PlacemarkAt` (sample order, each after its own merge), `InvalidSampleIgnored` and `PlacemarksAppend` state what it yields |
| `Samples.StickyAfter` | code/presets/toKml.js:30-36 | the sticky map carried through the loop: `StickyAfterKeepsKeys` (keys never expire and stay unique), `StickyPersists` (an unset key keeps its value) and `StickyAfterAppend` state how it evolves |
| `Samples.StickyAfterAppend` | code/presets/toKml.js:30-36 | the sticky map after samples `a + b` is the map `b` leaves when started from the map `a` leaves |
| `Samples.CountValidAppend` | code/presets/toKml.js:33 | the valid samples of `a + b` are those of `a` and those of `b` |
| `Samples.PlacemarksAppend` | code/presets/toKml.js:30-96 | converting samples `a + b` is converting `a` and then `b` from the sticky map `a` leaves; the valid-sample counts add up |
| `Samples.PlacemarkCount` | code/presets/toKml.js:33 | the number of placemarks equals the number of valid samples |
| `Samples.PlacemarkAt` | code/presets/toKml.js:30-93 | the valid sample at index i gives the placemark at index "number of valid samples before i", built after that sample's own sticky merge; placemarks are in sample order |
| `Samples.InvalidSampleIgnored` | code/presets/toKml.js:33-35 | inserting a sample with fewer than two values changes neither the placemarks nor the sticky map, even when it carries a sticky object |
| `Samples.StickyAfterKeepsKeys` | code/presets/toKml.js:35 | sticky keys never expire within a stream, and the map keeps unique keys |
| `Samples.StickyPersists` | code/presets/toKml.js:35 | a key that no later valid sample sets keeps its value to the end of the stream |
| `Samples.StickyTakesEffect` | code/presets/toKml.js:33-44 | a valid sample's sticky value is in the map used for its own placemark, and its `Label: value` line is among that placemark's description parts |
| `Kml.FirstGps5` | code/presets/toKml.js:19-21 | a streams object yields a stream exactly when some entry is keyed `GPS5` with `samples` present; the stream it yields is that of the first such entry, and it has samples |
| `Kml.ScanFrom` | code/presets/toKml.js:16-21 | the scan as a function; a stream it returns always has its `samples` field, and which stream it returns is stated by `ScanFirstMatch` and `ScanNoMatch` |
| `Kml.FrameRate` | code/presets/toKml.js:14-15 | the frame-rate text is present exactly when the top-level `frames/second` value is, and comes from no device |
| `Kml.UnitsText` | code/presets/toKml.js:25-27 | the units text is present exactly when the stream has units |
| `Kml.GetGps5Data` | code/presets/toKml.js:10-110 | the nested loops with the early return produce the placemark markup and the description of the functional extraction `Gps5Data` |
| `Kml.Gps5Data` | code/presets/toKml.js:10-110 | `getGPGS5Data` as a function: with a match, the matched stream's placemarks and the `. `-joined device name, frame rate, stream name and units; without one, no placemarks and device name and frame rate only; its properties are stated by `DocumentOnMatch`, `DocumentNoMatch` and `DocumentPlacemarkCount`, and `GetGps5Data` proves the loops equal to it |
| `Kml.RenderDocument` | code/presets/toKml.js:115-123 | the KML envelope: XML declaration, `kml` element with the KML 2.0 namespace, `Document` with the name, the description and the placemark markup in order |
| `Kml.ToKml` | code/presets/toKml.js:113-125 | the exported conversion returns the KML text of the document with the caller's name, the description and the placemarks |
| `Kml.DocumentOf` | code/presets/toKml.js:113-123 | the document: the caller's name with the extraction's description and placemarks; `DocumentOnMatch`, `DocumentNoMatch` and `DocumentPlacemarkCount` state its contents, and `ToKml` proves its text equal to `RenderDocument` of it |
| `Kml.ScanFirstMatch` | code/presets/toKml.js:16-21 | when device i is the first with a GPS5 stream with samples, the scan returns that stream and the last device name among devices 0..i |
| `Kml.ScanNoMatch` | code/presets/toKml.js:16-19 | when no device has such a stream, the scan returns no stream and the last device name of the whole dataset |
| `Kml.LaterDevicesIgnored` | code/presets/toKml.js:101 | once the scan has matched, devices appended after the dataset do not change its result |
| `Kml.LastNameIsLast` | code/presets/toKml.js:17 | the remembered device name is that of the last visited device that has one |
| `Kml.LastName` | code/presets/toKml.js:17 | the remembered `device name` after a run of devices; `LastNameIsLast` states it is that of the last device with a name, `LastNameUnnamed` that unnamed devices leave it unchanged, and `ScanFirstMatch`/`ScanNoMatch` that the scan reports it |
| `Kml.LastNameUnnamed` | code/presets/toKml.js:17 | devices without a `device name` leave the remembered name unchanged |
| `Kml.DocumentOnMatch` | code/presets/toKml.js:98-101 | on a match at device i: the document has the caller's name, the description joins the present members of device name, frame rate, stream name and units with `. `, and the placemarks are those of the matched stream |
| `Kml.DocumentNoMatch` | code/presets/toKml.js:106-109 | without a match: the caller's name, the description from device name and frame rate only, and no placemarks |
| `Kml.DocumentPlacemarkCount` | code/presets/toKml.js:30-33 | the document has as many placemarks as the matched stream has valid samples, and none without a match |
| `Scenarios.TwoValues` | code/presets/toKml.js:75-81 | values `[10, 20]` give coordinates `20,10` and no altitude mode |
| `Scenarios.ThreeValues` | code/presets/toKml.js:75-81 | values `[10, 20, 5]` give coordinates `20,10,5` and the absolute altitude mode |
| `Scenarios.FiveValues` | code/presets/toKml.js:41-54 | a sticky `fix` and five values give the description `GPS Fix: 3; 2D Speed: 4; 3D Speed: 5` |
| `Scenarios.StickyPropagation` | code/presets/toKml.js:35-44 | a precision set by the first sample is still described as `GPS Accuracy: 5` on a second sample without sticky data |
| `Scenarios.TimestampFallback` | code/presets/toKml.js:56-73 | an unconvertible raw date still gives a time stamp, reading `Invalid Date`; an object date reads its own text |
| `Scenarios.SameSecondStamps` | code/presets/toKml.js:58-62 | two Date objects in the same second, with the same string form, get time stamps that differ in the milliseconds, as `toISOString` writes them |
| `Scenarios.CamDocument` | code/presets/toKml.js:113-123 | the one-device example converts to the document named `Track` with description `Cam1. GPS. deg,deg,m,m/s,m/s` and one placemark |
| `Scenarios.EndToEnd` | code/presets/toKml.js:113-123 | in that document the single placemark has coordinates `2,1,3` and the absolute altitude mode |
| `Scenarios.EmptySamplesStillMatch` | code/presets/toKml.js:21 | a GPS5 stream with an empty `samples` array ends the scan: a later device with samples is ignored, there are no placemarks, and the stream name is in the description |

## Left out

- The per-sample `promisify` yield and the `async`/`await` around the extraction: they only hand control back to the event loop. The loop is modelled synchronously.
- The `console.error` scheduled with `setImmediate` in the catch branch: a logging side effect. A `Fallback` time stamp marks the samples that raise it.
- Date construction and `toISOString`: host library code. They are the parameter `toIso`.
- `Math.round` of the frame rate and the host's number-to-text formatting: floating point. The frame rate and all sample values arrive as text.
- `units.toString()`: modelled as joining a list of unit texts with `,`, not as general host coercion.
- Indentation and the `.trim()` calls of the templates: the model keeps element order and presence only.
- The in-place replacement `s.date = new Date(s.date)`: it mutates the caller's sample. The model does not mutate its input; only the text this replacement leads to in the catch branch is kept.
- Host object key order for integer-like keys (they iterate first, in ascending order): ordered objects are modelled in insertion order only.
- `translations[key] || key` for keys inherited from the object prototype (such as `constructor`): the model's table knows only its own two keys.
- Top-level entries that are not device objects: the `frames/second` number reads as a device without name or streams, and a `null` entry would throw. The model lists device entries separately from the top-level frame rate.
- Values of unexpected types (a non-array `value`, a non-object `sticky`): each field has one type here.
- The options argument of `toKml`: it is assumed present with a `name` string. A missing `name` prints `undefined`, and a missing options object throws; `ToKml` takes the name as a plain string.
- No XML escaping: the source inserts names, values and dates verbatim, and so does the model.
- Duplicate keys: a host object cannot hold the same key twice, but an ordered sequence can. Where the order of a sequence with duplicate keys matters, the model takes the first `GPS5` entry with samples, and the lemmas about sticky values assume unique keys in sample sticky objects.
- `Telemetry.Present`: its own contract only bounds the length; the order of the kept parts is stated by `PresentAppend` and by the concrete scenarios.
