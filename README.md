# Camouflage detector: a verified model of its request and UI logic

This project models the part of the camouflage-detection web application that carries logic
rather than markup or numerics, and proves properties of it in Dafny:

- **The `analyze-camouflage` edge function** (`edge_function.dfy`, `fence.dfy`). It answers a CORS
  preflight, then runs a fixed chain of early exits: missing image, missing API key, a thrown
  gateway error, a non-ok gateway status, missing model content. It strips a Markdown code
  fence from the model's reply. The `json`-tagged fence is tried first, then a plain fence, and
  otherwise the whole text is used. A value that parses is passed through untouched; one that
  does not parse becomes a fixed fallback record with status 200. Every error becomes the
  zeroed error record with status 500. The two regular expressions are modelled exactly as
  JavaScript matches them: the leftmost match, the optional newline after the opener, and a
  lazy group that stops at the first `\n```` or ```` ``` ````.
- **The result panel** (`results_view.dfy`). A pure map from an analysis record and the
  preview image to the facts the panel shows. These are the banner, the species line, two
  three-band ratings, the bounding box, one overlay and one legend line per region with their
  opacities and hues, the "Overall" badge and the adaptations list.
- **The detection page** (`detect_page.dfy`). A class with the page's four state fields. The
  `await` in `analyzeImage` is split into a start event and a completion event that carries
  an abstract outcome. Derived functions say when the Analyze button and the results panel
  are shown.
- **The upload widget** (`image_upload.dfy`). A class with the preview, dragging and
  input-value state. It has a MIME check, first-file selection from a drop or the picker, and
  the `FileReader`'s `onload` as an explicit event. It also says which controls exist and
  which are enabled while an analysis runs.

Shared records and decimal rendering of numbers live in `records.dfy`.

Inputs from outside the program are parameters:

- `JSON.parse` is a partial function `parse: string -> Option<J>`.
- The gateway round trip is an `Upstream` value: a thrown message, or a status with the
  optional content.
- `Deno.env.get('LOVABLE_API_KEY')` is an `Option<string>`.
- The backend's reply to the page is an abstract `Outcome<J>`.

## Model

| member | source | states |
|---|---|---|
| Records.NatToString | supabase/functions/analyze-camouflage/index.ts:102 | the decimal text of a status is non-empty, all digits, and has no leading zero |
| Records.NatToStringValue | supabase/functions/analyze-camouflage/index.ts:102 | reading the decimal text back gives the number again |
| Records.IntToString | src/components/AnalysisResults.tsx:166-169 | the text of a displayed number is non-empty and starts with '-' exactly for a negative number |
| Records.IntToStringInjective | src/components/AnalysisResults.tsx:166-169 | different numbers are displayed as different texts |
| Fence.FindClose | supabase/functions/analyze-camouflage/index.ts:117 | the lazy group ends at the least index at or after its start where "\n```" or "```" begins, and at none if no such index exists |
| Fence.CaptureStart | supabase/functions/analyze-camouflage/index.ts:117 | the group starts right after the opener or one character later, and one later exactly when that character is a newline |
| Fence.MatchAt | supabase/functions/analyze-camouflage/index.ts:117 | a match at an index needs the opener at that index |
| Fence.FirstMatch | supabase/functions/analyze-camouflage/index.ts:117 | the search finds nothing exactly when no start index from `i` on gives a match |
| Fence.FirstMatchIsLeftmost | supabase/functions/analyze-camouflage/index.ts:117 | when the pattern matches at `x` and at no earlier index, the search returns the group of the match at `x`: the leftmost match, as JavaScript's `match` does |
| Fence.ExtractJson | supabase/functions/analyze-camouflage/index.ts:117-118 | the text parsed is either the whole reply or a fence-free group; any other result is the leftmost capture of the `json` pattern or of the plain pattern; when only the plain pattern matches, its leftmost capture is what is parsed |
| Fence.CaptureHasNoFence | supabase/functions/analyze-camouflage/index.ts:117 | a captured group never contains three backticks |
| Fence.FirstMatchHasNoFence | supabase/functions/analyze-camouflage/index.ts:117 | the leftmost capture contains no three backticks |
| Fence.NoMatchWithoutFence | supabase/functions/analyze-camouflage/index.ts:117-118 | neither pattern matches text without three backticks |
| Fence.UnfencedUnchanged | supabase/functions/analyze-camouflage/index.ts:117-118 | text without a fence is parsed whole |
| Fence.ExtractIdempotent | supabase/functions/analyze-camouflage/index.ts:117-118 | extracting twice gives the same text as extracting once, for every reply |
| Fence.JsonFenceFirst | supabase/functions/analyze-camouflage/index.ts:117-118 | when the `json` pattern matches, its group is used and the plain pattern is not consulted |
| Fence.JsonFenceOutranksEarlierPlainFence | supabase/functions/analyze-camouflage/index.ts:117-118 | in a reply with a plain fence before a `json` fence, the plain pattern alone picks the first fence, but extraction returns the `json` fence's body |
| Fence.PlainPatternPicksFirstFence | supabase/functions/analyze-camouflage/index.ts:117 | the plain pattern picks the leftmost fence of that reply |
| Fence.JsonPatternPicksSecondFence | supabase/functions/analyze-camouflage/index.ts:117 | the `json` pattern skips the earlier plain fence and captures the later body |
| Fence.JsonFencedRoundTrip | supabase/functions/analyze-camouflage/index.ts:117-118 | wrapping fence-free text in "```json\n" and "\n```" and extracting gives the text back |
| Fence.PlainFencedRoundTrip | supabase/functions/analyze-camouflage/index.ts:117-118 | wrapping fence-free text in "```\n" and "\n```" and extracting gives the text back |
| Fence.NoJsonOpenerInPlainFence | supabase/functions/analyze-camouflage/index.ts:117 | the `json` pattern finds nothing in a plain-fenced block of fence-free text |
| EdgeFunction.AnalysisBody | supabase/functions/analyze-camouflage/index.ts:114-133 | the body is the parsed value, unchanged, exactly when the extracted text parses; otherwise it is the fallback record; a parse failure is never an error |
| EdgeFunction.HandleReply | supabase/functions/analyze-camouflage/index.ts:99-169 | a thrown gateway error, a non-ok status `s` ("AI analysis failed: s") and missing content each give status 500 with their message and the zeroed record; usable content gives status 200 with the parsed value or the fallback |
| EdgeFunction.Serve | supabase/functions/analyze-camouflage/index.ts:9-170 | a preflight gets status 200, the CORS headers and no body, before the body is read; then the early exits run in source order (unreadable body, no image, no key); the gateway is called exactly when image and key are both present; every other answer is a 500 with the zeroed record or a 200 |
| EdgeFunction.FenceIsTransparent | supabase/functions/analyze-camouflage/index.ts:117-133 | a fenced block of fence-free text, with either kind of fence, is answered exactly as the bare text would be |
| EdgeFunction.GatewayFailedMessageInjective | supabase/functions/analyze-camouflage/index.ts:99-103 | different gateway statuses give different error messages |
| ResultsView.CamouflageLabel | src/components/AnalysisResults.tsx:79-80 | "Excellent" exactly for values of 70 or more, "Moderate" exactly for 40 to 69, "Low" exactly below 40 |
| ResultsView.ConfidenceLabel | src/components/AnalysisResults.tsx:102-103 | "Very High" exactly for 80 or more, "High" exactly for 60 to 79, "Moderate" exactly below 60 |
| ResultsView.CamouflageLabelMonotone | src/components/AnalysisResults.tsx:79-80 | a higher camouflage percentage never gets a lower band |
| ResultsView.ConfidenceLabelMonotone | src/components/AnalysisResults.tsx:102-103 | a higher confidence never gets a lower band |
| ResultsView.StyleMapsMonotone | src/components/AnalysisResults.tsx:159-164 | every opacity and hue of an overlay is non-decreasing in the intensity |
| ResultsView.OpacitiesInRange | src/components/AnalysisResults.tsx:159-164 | for intensities 0 to 100 every opacity lies in [0,1] and the first gradient hue in [35,85] |
| ResultsView.Overlays | src/components/AnalysisResults.tsx:150-172 | one overlay per region, in list order, each the overlay of its own region |
| ResultsView.LegendEntries | src/components/AnalysisResults.tsx:184-195 | one legend line per region, in order, with the region's hue and its "description - N% intensity" text |
| ResultsView.Render | src/components/AnalysisResults.tsx:37-222 | the heading is the detected text exactly when `detected`; the species line appears exactly for a non-empty species; the gauges show the raw values with their bands; a box is drawn exactly when one is given, verbatim; the overlays are exactly one overlay per region in order, with its rectangle, gradient, border, glow, tooltip and "N%" badge; the legend exists exactly for a non-empty region list and then has exactly one line per region in order; the adaptations section exists exactly for a non-empty list and shows it in order |
| ResultsView.LegendMatchesOverlays | src/components/AnalysisResults.tsx:159-189 | each legend dot has the hue of its overlay's first gradient stop |
| ResultsView.LeafInsectScenario | src/components/AnalysisResults.tsx:37-222 | a leaf-insect record renders the detected heading, "Excellent", "Very High", its box, one "75%" overlay and its adaptation |
| DetectPage.Detect.constructor | src/pages/Detect.tsx:14-17 | the page starts with no file, an empty preview, no analysis and no result |
| DetectPage.Detect.HandleImageSelect | src/pages/Detect.tsx:20-24 | the file and the preview are stored and any earlier result is dropped; a running analysis is left alone; with a non-empty preview the Analyze button is shown and the results panel is not (visibility rules of lines 91-107) |
| DetectPage.Detect.StartAnalysis | src/pages/Detect.tsx:26-39 | without a selected file nothing changes and nothing is sent; otherwise the selected file is sent and "Analyzing" is set, whether or not a request is already out |
| DetectPage.Detect.CompleteAnalysis | src/pages/Detect.tsx:41-61 | "Analyzing" ends whatever the outcome; only a successful reply replaces the stored result; the toast says success or failure; a stored result shows the results panel and hides the button; after a failure a button that was shown can be pressed again (lines 91-107) |
| DetectPage.Detect.AnalyzeButtonText | src/pages/Detect.tsx:99 | the button reads "Analyzing..." exactly while an analysis runs |
| DetectPage.Detect.PressAnalyze | src/pages/Detect.tsx:93-96 | pressing the enabled button sends the selected file, keeps it selected, and leaves exactly that request in flight while "Analyzing" shows |
| DetectPage.ButtonAndResultsExclusive | src/pages/Detect.tsx:91-107 | the Analyze button and the results panel are never shown together |
| DetectPage.DeliverSelection | src/pages/Detect.tsx:85-88 | a finished read sets the widget's preview and hands the same file and data URL to the page, which drops its earlier result; the read is no longer pending, and the widget's other state and the page's requests are unchanged |
| DetectPage.PressAnalyzeAndRender | src/pages/Detect.tsx:85-96 | the selected file is sent and is the only request in flight; once the widget is told, it offers neither the clear button nor the picker; every other field of page and widget is unchanged |
| DetectPage.StaleReplyOverNewImage | src/pages/Detect.tsx:41-46 | a reply is stored without checking which file it was for: after pressing Analyze for one file, dropping another during the analysis and letting its read finish, the first file's reply shows the results panel over the second file's preview and hides its Analyze button |
| ImageUpload.Uploader.constructor | src/components/ImageUpload.tsx:11-14 | the widget starts with no preview, not dragging and an empty input |
| ImageUpload.Uploader.SetAnalyzing | src/components/ImageUpload.tsx:11 | a new `isAnalyzing` prop changes nothing else |
| ImageUpload.Uploader.HandleFile | src/components/ImageUpload.tsx:17-34 | a file whose type does not start with "image/" gets the destructive toast and changes nothing; an image starts a read and raises no toast |
| ImageUpload.Uploader.ReadComplete | src/components/ImageUpload.tsx:28-32 | the data URL becomes the preview and the same file and string are handed on once; a non-empty data URL replaces the picker, and the clear button is shown exactly when no analysis runs (lines 84-122) |
| ImageUpload.Uploader.HandleDrop | src/components/ImageUpload.tsx:36-42 | dragging ends; only the first dropped file is handled: a non-image gets the destructive "Invalid file type" toast, an image starts a read; with no file nothing else happens; a running analysis does not block it |
| ImageUpload.Uploader.HandleFileInput | src/components/ImageUpload.tsx:44-47 | only the first picked file is handled: a non-image gets the destructive "Invalid file type" toast, an image starts a read; with no file nothing else happens |
| ImageUpload.Uploader.DragOver | src/components/ImageUpload.tsx:70-73 | dragging starts and nothing else changes |
| ImageUpload.Uploader.DragLeave | src/components/ImageUpload.tsx:74 | dragging ends and nothing else changes |
| ImageUpload.Uploader.ClearImage | src/components/ImageUpload.tsx:49-54 | the preview goes and the input is emptied; dragging, reads already started and the parent are untouched; the clear button goes and the picker comes back, enabled exactly when no analysis runs (lines 84-122) |
| ImageUpload.Uploader.Look | src/components/ImageUpload.tsx:63-69 | the drop zone looks "dragging" exactly while dragging, and "with preview" exactly over a preview when not dragging |

## Left out

- The gateway request itself (URL, prompt text, model, temperature, token limit, bearer header) is an input value. Its result is all the model needs.
- `Deno.env.get` is not modelled as such: the key it returns is the `apiKey` parameter, which decides the "LOVABLE_API_KEY not configured" answer. `console.log`/`console.error` are left out; they do not affect the answer.
- The `response.text()` read after a non-ok status is not modelled as a separate step. Its text is only logged. If the read is rejected, the 500 carries the rejection's message rather than "AI analysis failed: s"; the model covers this only as an `Upstream.Thrown` with that message.
- `JSON.parse` is a parameter; its grammar is not modelled. `JSON.stringify` of the body is left out, and bodies are kept as values.
- EdgeFunction.Serve: a thrown value that is not an `Error` would give "Unknown error occurred". The model's thrown gateway errors always carry a message, so that branch is not represented.
- EdgeFunction.Serve: `image` and `content` are modelled as optional strings. A non-string truthy `content` would make `.match` throw inside the inner `try`, which yields the fallback record; that case is not represented.
- The Python backend, its network, training and subset tools, and the Home, About, Navigation and radar-animation components hold no modelled logic: they are numerics, I/O, timers or static markup.
- Toasts are returned as values; how they are displayed is not modelled. CSS classes and the exact `hsla(...)` strings are left out; the hues and opacities they carry are modelled as reals.
- Percentages, intensities and box coordinates are unbounded integers. The source neither checks nor clamps them, and the model keeps that. Two things are lost. JSON numbers can be fractional: 69.5 is rated "Moderate" and shown as "69.5%", and the model has no such values. JavaScript also prints numbers of 1e21 or more in exponent form, such as "1e+21", which `IntToString` does not reproduce.
- Asynchrony: each `await` is split into a start event and a completion event. Interleavings are whatever order the caller runs these events in.
- DetectPage.Detect.CompleteAnalysis: a backend body that parses to a falsy JSON value is modelled as `None`, so it reads as "no result", just as the page would treat it.
- ImageUpload.Uploader.ReadComplete: the promises about the picker and the clear button are stated for a non-empty data URL only. The model's data URL is any string, while the browser's always starts with "data:".
- ImageUpload.Uploader.ClearImage: the guard on the input ref is folded. While a preview is shown the input is not mounted, and it remounts empty, so the model always empties the input value.
- `triggerFileInput` (ImageUpload.tsx:56-58) only opens the browser's file dialog, which is I/O; the picked files arrive through `HandleFileInput`.
