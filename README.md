# Robolectric core, modelled in Dafny

This project models four pieces of Robolectric, the Android test harness, and proves what they promise:

- **ShadowBitmap** (module `Bitmaps`, `shadow_bitmap.dfy`). The simulated `android.graphics.Bitmap` has:
  - a width, a height, a configuration and mutable/recycled flags;
  - a description and the `createdFrom*` provenance fields;
  - an optional flat pixel buffer indexed `y * width + x`.

  The Bitmap and its shadow are one `class`, because every Bitmap has exactly one shadow. The pixel getter and setter are proved against value-level functions (`PixelAt`, `WritePixel`) whose read-after-write laws are lemmas. The model also covers the factory methods, byte sizes, `equals` and `hashCode`.
- **RoboProcessor** (module `RoboProcessing`, `robo_processor.dfy`). This annotation processor does two things:
  - it hands every element of each compilation round to the validator registered for its annotation;
  - on its first round it prepares the binding model and renders the generated `org.robolectric.Shadows` class.

  `render` is a sequence of loop methods writing to a `PrintWriter` object. Each method is proved against the specification function `ShadowsSource`, whose layout (import lines, class list, `shadowOf` overloads, `reset()` body) is proved in lemmas. `process` records what it does in an event trace. Its invariant says the class is rendered at most once over all rounds, and always after `prepare`.
- **FakeSettings** (module `FakeSettings`, `fake_settings.dfy`). This is the shared `dataMap` of per-resolver `HashMap`s behind `Settings.System` and `Settings.Secure`. It is modelled as objects updated in place, and its abstract contents are a `map<ContentResolver, map<string, int>>`. The put/get laws are lemmas over that value.
- **RobolectricTestRunner** (module `TestRunner`, `test_runner.dfy`). Only its selection and caching rules are modelled:
  - the emulated and reported SDK choice;
  - `@Config` layering, proved equal to a "last layer that sets it wins" reference;
  - the most-recently-used environment shortcut, proved to yield the environment the holder holds;
  - once-per-class `@BeforeClass` bookkeeping;
  - the static memo tables;
  - the try/finally cleanup chain after a test body, proved to run its steps in order and to propagate the exception thrown last.

`wrappers.dfy` holds `Option` (a Java reference that may be null) and `Result` (a value or a thrown exception). `java_lang.dfy` holds the pieces of `java.lang` that the bitmap text and hash codes use: decimal printing, 32-bit wrap-around and `String.hashCode` over UTF-16 code units.

Two behaviours of the code are easy to miss, and the model states them:
- `pickReportedSdkVersion` (RobolectricTestRunner.java:439-445) never reads `emulateSdk`, so a test configured with `emulateSdk=18` does not report SDK 18 from inside the test. Such a test reports `reportSdk`, else the manifest's target SDK, else ICE_CREAM_SANDWICH (`TestRunner.EmulatedSdkIsNotReported`).
- The cleanup steps after a test body do not all run whatever the earlier ones do. Restoring the context class loader shares a `finally` block with the second `resetStaticState`, so it is skipped when that call throws (RobolectricTestRunner.java:238-240, `TestRunner.MethodBlockTail`).

## Model

| member | source | states |
|---|---|---|
| Bitmaps.BytesPerPixel | robolectric/src/main/java/org/robolectric/shadows/ShadowBitmap.java:399-414 | A null config fails with NullPointerException("Bitmap config was null."), and only a null config fails; otherwise the size is between 1 and 4 bytes |
| Bitmaps.BytesPerPixelIsChannelBytes | robolectric/src/main/java/org/robolectric/shadows/ShadowBitmap.java:399-414 | ARGB_8888→4, RGB_565→2, ARGB_4444→2, ALPHA_8→1 are exactly the total channel bits spelled out by each config name, divided by 8 |
| Bitmaps.PixelIndexInRange | robolectric/src/main/java/org/robolectric/shadows/ShadowBitmap.java:259-283 | The offset y*width+x of an in-range pixel lies inside a width*height buffer |
| Bitmaps.PixelIndexInjective | robolectric/src/main/java/org/robolectric/shadows/ShadowBitmap.java:259-283 | Distinct in-range pixels have distinct buffer offsets |
| Bitmaps.PixelAccessError | robolectric/src/main/java/org/robolectric/shadows/ShadowBitmap.java:421-434 | No exception iff 0<=x<width and 0<=y<height; any exception is an IllegalArgumentException |
| Bitmaps.PixelAt | robolectric/src/main/java/org/robolectric/shadows/ShadowBitmap.java:259-270 | An out-of-range read raises the pixel-access exception; with no buffer an in-range read is 0; a successful read with a buffer returns the stored colour at an in-buffer offset |
| Bitmaps.PixelReadable | robolectric/src/main/java/org/robolectric/shadows/ShadowBitmap.java:259-270 | With no buffer, or a width*height buffer, every in-range read succeeds |
| Bitmaps.ZeroBufferReadsLikeNone | robolectric/src/main/java/org/robolectric/shadows/ShadowBitmap.java:259-283 | The zeroed buffer the first setPixel allocates reads exactly like no buffer, at every x and y |
| Bitmaps.ReadAfterWrite | robolectric/src/main/java/org/robolectric/shadows/ShadowBitmap.java:259-283 | Storing c at the offset of (x,y) makes (x,y) read c |
| Bitmaps.WriteLeavesOtherPixels | robolectric/src/main/java/org/robolectric/shadows/ShadowBitmap.java:259-283 | Storing at the offset of (x,y) leaves every other pixel's read unchanged |
| Bitmaps.WritePixel | robolectric/src/main/java/org/robolectric/shadows/ShadowBitmap.java:279-283 | An out-of-range write raises the pixel-access exception; a successful write keeps an existing buffer's length or allocates width*height, and the written offset is inside it |
| Bitmaps.WritePixelSucceeds | robolectric/src/main/java/org/robolectric/shadows/ShadowBitmap.java:279-283 | An in-range write succeeds iff there is no buffer yet or the offset fits the existing buffer |
| Bitmaps.WritePixelReadsBack | robolectric/src/main/java/org/robolectric/shadows/ShadowBitmap.java:259-283 | After a successful setPixel(x,y,c), getPixel(x,y) is c, including on the first write |
| Bitmaps.WritePixelLeavesOthers | robolectric/src/main/java/org/robolectric/shadows/ShadowBitmap.java:259-283 | After a successful write, every other pixel reads as before; a never-written pixel still reads 0 |
| Bitmaps.ShadowBitmap.constructor | robolectric/src/main/java/org/robolectric/shadows/ShadowBitmap.java:20-41 | A new shadow has the field initialisers' values: createdFrom ids and rectangle -1, empty description, not recycled, no buffer |
| Bitmaps.ShadowBitmap.Derived | robolectric/src/main/java/org/robolectric/shadows/ShadowBitmap.java:142-150 | The bitmap a factory builds carries exactly the given attributes and buffer |
| Bitmaps.ShadowBitmap.Buffer | robolectric/src/main/java/org/robolectric/shadows/ShadowBitmap.java:37 | There is a pixel buffer exactly when the colors field is non-null |
| Bitmaps.ShadowBitmap.CheckPixelAccess | robolectric/src/main/java/org/robolectric/shadows/ShadowBitmap.java:421-434 | No exception exactly for in-bounds pixels |
| Bitmaps.ShadowBitmap.GetPixel | robolectric/src/main/java/org/robolectric/shadows/ShadowBitmap.java:259-270 | An out-of-bounds read raises the access exception; an in-bounds read without a buffer returns 0 |
| Bitmaps.ShadowBitmap.SetPixel | robolectric/src/main/java/org/robolectric/shadows/ShadowBitmap.java:273-284 | A recycled bitmap is refused before an immutable one, each with IllegalStateException and the buffer unchanged; otherwise the buffer becomes WritePixel's result, and an existing buffer array is written in place; no attribute changes |
| Bitmaps.ShadowBitmap.Recycle | robolectric/src/main/java/org/robolectric/shadows/ShadowBitmap.java:296-304 | Afterwards isRecycled holds and nothing else changes, so a second call changes nothing |
| Bitmaps.ShadowBitmap.SetConfig | robolectric/src/main/java/org/robolectric/shadows/ShadowBitmap.java:321-323 | Only the config changes |
| Bitmaps.ShadowBitmap.SetMutable | robolectric/src/main/java/org/robolectric/shadows/ShadowBitmap.java:330-332 | Only the mutable flag changes |
| Bitmaps.ShadowBitmap.AppendDescription | robolectric/src/main/java/org/robolectric/shadows/ShadowBitmap.java:334-336 | The description gets s appended; nothing else changes |
| Bitmaps.ShadowBitmap.SetDescription | robolectric/src/main/java/org/robolectric/shadows/ShadowBitmap.java:338-340 | Only the description changes |
| Bitmaps.ShadowBitmap.SetWidth | robolectric/src/main/java/org/robolectric/shadows/ShadowBitmap.java:346-349 | Only the width changes; the buffer is kept even when its size no longer matches |
| Bitmaps.ShadowBitmap.SetHeight | robolectric/src/main/java/org/robolectric/shadows/ShadowBitmap.java:355-358 | Only the height changes |
| Bitmaps.ShadowBitmap.SetCreatedFromResId | robolectric/src/main/java/org/robolectric/shadows/ShadowBitmap.java:416-419 | Records the resource id and appends " for resource:" and the resource name to the description |
| Bitmaps.ShadowBitmap.Copy | robolectric/src/main/java/org/robolectric/shadows/ShadowBitmap.java:306-314 | A fresh bitmap that records this one as its source, with the given config and mutability; size, description and pixels are not copied |
| Bitmaps.ShadowBitmap.HashCode | robolectric/src/main/java/org/robolectric/shadows/ShadowBitmap.java:378-384 | The hash is a 32-bit int |
| Bitmaps.BitmapPixelReadable | robolectric/src/main/java/org/robolectric/shadows/ShadowBitmap.java:259-270 | A bitmap whose buffer matches its size reads every in-bounds pixel without exception |
| Bitmaps.ByteCountIsBufferBytes | robolectric/src/main/java/org/robolectric/shadows/ShadowBitmap.java:286-294 | getRowBytes = bpp*width and getByteCount = bpp*width*height, which is bpp times the buffer length for a size-matching buffer |
| Bitmaps.ShadowBitmap.RowBytes | robolectric/src/main/java/org/robolectric/shadows/ShadowBitmap.java:286-289 | getRowBytes: bytes per pixel times width, failing like getBytesPerPixel without a config; its values are stated by ByteCountIsBufferBytes and ByteSizesNeedConfig |
| Bitmaps.ShadowBitmap.ByteCount | robolectric/src/main/java/org/robolectric/shadows/ShadowBitmap.java:291-294 | getByteCount: getRowBytes times height, failing like it; its values are stated by ByteCountIsBufferBytes and ByteSizesNeedConfig |
| Bitmaps.ByteSizesNeedConfig | robolectric/src/main/java/org/robolectric/shadows/ShadowBitmap.java:286-294 | Without a config both byte sizes fail with the NullPointerException of getBytesPerPixel |
| Bitmaps.EqualsIsEquivalence | robolectric/src/main/java/org/robolectric/shadows/ShadowBitmap.java:364-376 | equals is reflexive, symmetric and transitive |
| Bitmaps.ShadowBitmap.Equals | robolectric/src/main/java/org/robolectric/shadows/ShadowBitmap.java:364-376 | equals: the same object, or another bitmap with equal height, width and description; EqualsIffSameAttributes and EqualsIsEquivalence state its properties |
| Bitmaps.EqualsIffSameAttributes | robolectric/src/main/java/org/robolectric/shadows/ShadowBitmap.java:364-376 | Two bitmaps are equal exactly when width, height and description agree |
| Bitmaps.EqualBitmapsHashEqually | robolectric/src/main/java/org/robolectric/shadows/ShadowBitmap.java:364-384 | Equal bitmaps have equal hashCode |
| Bitmaps.CreateBitmap | robolectric/src/main/java/org/robolectric/shadows/ShadowBitmap.java:137-151 | Fails with IllegalArgumentException("width and height must be > 0") iff w<=0 or h<=0; otherwise a fresh, immutable, bufferless bitmap of size w x h with that config and description "Bitmap (w x h)" |
| Bitmaps.CreateBitmapFromBitmap | robolectric/src/main/java/org/robolectric/shadows/ShadowBitmap.java:153-158 | Returns src itself, with " created from Bitmap object" appended to its description |
| Bitmaps.CreateScaledBitmap | robolectric/src/main/java/org/robolectric/shadows/ShadowBitmap.java:160-180 | src itself when size is unchanged and there is no filter; otherwise a fresh bitmap of the new size recording src and filter, with the scaled description |
| Bitmaps.CreateSubBitmap | robolectric/src/main/java/org/robolectric/shadows/ShadowBitmap.java:182-203 | src itself for the whole of src; otherwise a fresh bitmap of the requested size recording src, x, y, width and height |
| Bitmaps.CreateTransformedBitmap | robolectric/src/main/java/org/robolectric/shadows/ShadowBitmap.java:205-241 | src itself for the whole of src under no or an identity matrix; otherwise x+width>src.width and then y+height>src.height are IllegalArgumentExceptions, else a fresh bitmap also recording matrix and filter |
| Bitmaps.CreateBitmapFromColors | robolectric/src/main/java/org/robolectric/shadows/ShadowBitmap.java:243-256 | Fails iff colors.length != w*h (checked first) or a side is not positive; the new bitmap's buffer is a fresh element-wise copy of colors and createdFromColors is the original array |
| JavaLang.NatToStringRoundTrip | robolectric/src/main/java/org/robolectric/shadows/ShadowBitmap.java:145 | Reading back the decimal digits that string concatenation prints for a number gives the number |
| JavaLang.IntToStringInjective | robolectric/src/main/java/org/robolectric/shadows/ShadowBitmap.java:145 | Distinct sizes print as distinct text in a description |
| JavaLang.WrapInt | robolectric/src/main/java/org/robolectric/shadows/ShadowBitmap.java:379-384 | Java int arithmetic: the result is a 32-bit value congruent to the exact one modulo 2^32 |
| JavaLang.StringHashCode | robolectric/src/main/java/org/robolectric/shadows/ShadowBitmap.java:382 | description.hashCode(), the 31*h+c loop over the description's UTF-16 code units, is a 32-bit int |
| JavaLang.CodeUnits | robolectric/src/main/java/org/robolectric/shadows/ShadowBitmap.java:382 | A character below U+10000 is one code unit; any other is a high then a low surrogate that decode back to it |
| JavaLang.Utf16 | robolectric/src/main/java/org/robolectric/shadows/ShadowBitmap.java:382 | A string has between one and two code units per character, each a 16-bit value |
| JavaLang.Utf16OfBasicPlane | robolectric/src/main/java/org/robolectric/shadows/ShadowBitmap.java:382 | Without characters above U+FFFF, the code units are the characters themselves |
| JavaLang.HashCodeUnits | robolectric/src/main/java/org/robolectric/shadows/ShadowBitmap.java:382 | The 31*h+c loop over code units is a 32-bit int |
| JavaLang.SupplementaryCharacterHash | robolectric/src/main/java/org/robolectric/shadows/ShadowBitmap.java:382 | U+1F600 hashes as its surrogate pair, 31*0xD83D+0xDE00 |
| RoboProcessing.ImportLinesLayout | robolectric-processor/src/main/java/org/robolectric/annotation/processing/RoboProcessor.java:94-96 | Exactly one "import X;" line per import, in iteration order |
| RoboProcessing.ClassListLayout | robolectric-processor/src/main/java/org/robolectric/annotation/processing/RoboProcessor.java:104-114 | The DEFAULT_SHADOW_CLASSES items are the shadow types' "R.class" items in order, with a comma only between consecutive items |
| RoboProcessing.PublicEntriesFilter | robolectric-processor/src/main/java/org/robolectric/annotation/processing/RoboProcessor.java:115-119 | An entry gets an overload iff it is in the shadow map and its real type is public |
| RoboProcessing.AccessorsLayout | robolectric-processor/src/main/java/org/robolectric/annotation/processing/RoboProcessor.java:115-142 | Four lines per public entry, in order, casting shadowOf_(actual) to the shadow, and nothing for the others |
| RoboProcessing.ResetLinesLayout | robolectric-processor/src/main/java/org/robolectric/annotation/processing/RoboProcessor.java:144-146 | One "Referent.method();" line per resetter, in iteration order |
| RoboProcessing.SourceStartsWithImports | robolectric-processor/src/main/java/org/robolectric/annotation/processing/RoboProcessor.java:93-97 | The output starts with the package line, followed directly by the import lines and then a blank line |
| RoboProcessing.ClassListFollowsHeader | robolectric-processor/src/main/java/org/robolectric/annotation/processing/RoboProcessor.java:97-115 | The class list sits right after the DEFAULT_SHADOW_CLASSES opening, is closed by "};", and is followed directly by the overloads |
| RoboProcessing.ResetBodyIsResetters | robolectric-processor/src/main/java/org/robolectric/annotation/processing/RoboProcessor.java:143-154 | The reset() body holds the resetter calls and nothing else, followed only by the helper |
| RoboProcessing.PrintWriter.constructor | robolectric-processor/src/main/java/org/robolectric/annotation/processing/RoboProcessor.java:91 | A new writer has written nothing and is open |
| RoboProcessing.PrintWriter.Print | robolectric-processor/src/main/java/org/robolectric/annotation/processing/RoboProcessor.java:93 | Appends the text while open |
| RoboProcessing.PrintWriter.Println | robolectric-processor/src/main/java/org/robolectric/annotation/processing/RoboProcessor.java:95 | Appends the text and a line end while open |
| RoboProcessing.PrintWriter.Close | robolectric-processor/src/main/java/org/robolectric/annotation/processing/RoboProcessor.java:155-157 | Closes the writer and keeps what was written |
| RoboProcessing.WriteHeader | robolectric-processor/src/main/java/org/robolectric/annotation/processing/RoboProcessor.java:93-104 | Writes the package line, the imports and the class header |
| RoboProcessing.WriteClassList | robolectric-processor/src/main/java/org/robolectric/annotation/processing/RoboProcessor.java:104-114 | The firstIteration loop writes ClassList and the closing "};" |
| RoboProcessing.WriteAccessors | robolectric-processor/src/main/java/org/robolectric/annotation/processing/RoboProcessor.java:115-142 | The loop with continue writes Accessors: overloads for public entries only |
| RoboProcessing.WriteReset | robolectric-processor/src/main/java/org/robolectric/annotation/processing/RoboProcessor.java:143-147 | Writes the reset() declaration, one call per resetter and the closing brace |
| RoboProcessing.WriteTrailer | robolectric-processor/src/main/java/org/robolectric/annotation/processing/RoboProcessor.java:149-154 | Writes the shadowOf_ helper and the class's closing brace |
| RoboProcessing.Render | robolectric-processor/src/main/java/org/robolectric/annotation/processing/RoboProcessor.java:80-162 | Fails with RuntimeException iff the file cannot be created or opened; otherwise the writer is closed and holds exactly ShadowsSource(model) |
| RoboProcessing.ShadowsSource | robolectric-processor/src/main/java/org/robolectric/annotation/processing/RoboProcessor.java:80-162 | The text render writes, one element per print call; its layout is stated by the layout lemmas and Render writes exactly it |
| RoboProcessing.VisitsLayout | robolectric-processor/src/main/java/org/robolectric/annotation/processing/RoboProcessor.java:62-64 | One visit per annotated element, in order, paired with its enclosing element |
| RoboProcessing.DispatchOnlyVisits | robolectric-processor/src/main/java/org/robolectric/annotation/processing/RoboProcessor.java:59-66 | A round produces only visits, each for a registered annotation of the round and one of its elements |
| RoboProcessing.Dispatch | robolectric-processor/src/main/java/org/robolectric/annotation/processing/RoboProcessor.java:59-66 | The visits of one round; DispatchOnlyVisits, DispatchVisitsEveryElement and DispatchVisitsOnce state what it holds |
| RoboProcessing.DispatchVisitsEveryElement | robolectric-processor/src/main/java/org/robolectric/annotation/processing/RoboProcessor.java:59-66 | Every element of every registered annotation is visited with its enclosing element |
| RoboProcessing.VisitsCountOnce | robolectric-processor/src/main/java/org/robolectric/annotation/processing/RoboProcessor.java:62-64 | Over distinct elements, each element's visit occurs once, and no other visit occurs |
| RoboProcessing.NoVisitsFor | robolectric-processor/src/main/java/org/robolectric/annotation/processing/RoboProcessor.java:59-66 | An annotation without a registered validator, or not in the round, gets no visit |
| RoboProcessing.DispatchVisitsOnce | robolectric-processor/src/main/java/org/robolectric/annotation/processing/RoboProcessor.java:59-66 | Every element of a registered annotation is visited exactly once per round |
| RoboProcessing.NoRendersInDispatch | robolectric-processor/src/main/java/org/robolectric/annotation/processing/RoboProcessor.java:59-66 | Validator dispatch never renders |
| RoboProcessing.GenerationRenders | robolectric-processor/src/main/java/org/robolectric/annotation/processing/RoboProcessor.java:68-72 | The generation step renders once iff the file opens, right after prepare |
| RoboProcessing.RoundKeepsGenerationOnce | robolectric-processor/src/main/java/org/robolectric/annotation/processing/RoboProcessor.java:54-73 | A round keeps "one render exactly when generated, each after prepare" |
| RoboProcessing.RoboProcessor.Init | robolectric-processor/src/main/java/org/robolectric/annotation/processing/RoboProcessor.java:42-54 | Registers the four validators, notes "Initialising RAP", starts with generated unset |
| RoboProcessing.RoboProcessor.VisitAll | robolectric-processor/src/main/java/org/robolectric/annotation/processing/RoboProcessor.java:62-64 | The inner loop visits the elements in order and changes nothing else |
| RoboProcessing.RoboProcessor.DispatchRound | robolectric-processor/src/main/java/org/robolectric/annotation/processing/RoboProcessor.java:59-66 | The outer loop appends exactly Dispatch(annotations, validators) |
| RoboProcessing.RoboProcessor.Process | robolectric-processor/src/main/java/org/robolectric/annotation/processing/RoboProcessor.java:56-74 | Dispatches, then prepares and renders only if not yet generated; answers true unless rendering fails; keeps the render-at-most-once invariant |
| FakeSettings.Touch | src/com/xtremelabs/robolectric/fakes/FakeSettings.java:32-38 | get(cr) adds cr to the store's resolvers and no other |
| FakeSettings.Put | src/com/xtremelabs/robolectric/fakes/FakeSettings.java:20-23 | putInt adds cr to the store's resolvers and no other |
| FakeSettings.Lookup | src/com/xtremelabs/robolectric/fakes/FakeSettings.java:26-29 | getInt: the stored value, else def; ReadAfterPut, DefaultWhenAbsent and PutLeavesOthers state its answers |
| FakeSettings.ReadAfterPut | src/com/xtremelabs/robolectric/fakes/FakeSettings.java:20-29 | After putInt(cr,n,v), getInt(cr,n,d) is v for every d |
| FakeSettings.DefaultWhenAbsent | src/com/xtremelabs/robolectric/fakes/FakeSettings.java:26-29 | getInt returns d when nothing is stored for (cr,n) |
| FakeSettings.PutLeavesOthers | src/com/xtremelabs/robolectric/fakes/FakeSettings.java:17-23 | putInt(cr,n,v) changes no other (resolver, name) entry |
| FakeSettings.TouchInvisible | src/com/xtremelabs/robolectric/fakes/FakeSettings.java:26-38 | Installing an empty map for a resolver changes no getInt answer |
| FakeSettings.PutOverrides | src/com/xtremelabs/robolectric/fakes/FakeSettings.java:20-23 | A later put of the same setting overrides an earlier one |
| FakeSettings.PutsCommute | src/com/xtremelabs/robolectric/fakes/FakeSettings.java:20-23 | Puts of different settings commute |
| FakeSettings.NameMap.constructor | src/com/xtremelabs/robolectric/fakes/FakeSettings.java:35 | A new per-resolver map is empty |
| FakeSettings.NameMap.Put | src/com/xtremelabs/robolectric/fakes/FakeSettings.java:21 | Stores the value under the name |
| FakeSettings.SettingsStore.constructor | src/com/xtremelabs/robolectric/fakes/FakeSettings.java:17 | The shared store starts empty |
| FakeSettings.SettingsStore.Get | src/com/xtremelabs/robolectric/fakes/FakeSettings.java:32-38 | Installs a fresh empty map for an unseen resolver and returns that same map on later calls; maps stay unshared |
| FakeSettings.SettingsStore.PutInt | src/com/xtremelabs/robolectric/fakes/FakeSettings.java:19-23 | Always answers true, and the contents become Put(old contents, cr, name, value) |
| FakeSettings.SettingsStore.GetInt | src/com/xtremelabs/robolectric/fakes/FakeSettings.java:25-29 | Answers Lookup(old contents, cr, name, def) and installs an empty map for an unseen resolver |
| FakeSettings.SetAirplaneMode | src/com/xtremelabs/robolectric/fakes/FakeSettings.java:50-52 | Stores b?1:0 under airplane_mode_on for the application's resolver |
| FakeSettings.SetWifiOn | src/com/xtremelabs/robolectric/fakes/FakeSettings.java:54-56 | Stores b?1:0 under wifi_on for the application's resolver |
| FakeSettings.PutThenGetAcrossTables | src/com/xtremelabs/robolectric/fakes/FakeSettings.java:42-48 | A value put through one table reads back through the other |
| TestRunner.PickSdkVersion | robolectric/src/main/java/org/robolectric/RobolectricTestRunner.java:288-298 | The first that applies: emulateSdk if >0, else the manifest's target SDK, else the default SDK |
| TestRunner.TargetSdkVersion | robolectric/src/main/java/org/robolectric/RobolectricTestRunner.java:433-437 | The manifest target, or ICE_CREAM_SANDWICH without a manifest; PickReportedSdkVersion states its cases |
| TestRunner.PickReportedSdkVersion | robolectric/src/main/java/org/robolectric/RobolectricTestRunner.java:433-445 | The first that applies: reportSdk if not -1, else the manifest's target SDK, else ICE_CREAM_SANDWICH without a manifest |
| TestRunner.ReportedIsEmulatedWithoutOverrides | robolectric/src/main/java/org/robolectric/RobolectricTestRunner.java:433-445 | With a manifest and no emulateSdk/reportSdk, the reported SDK is the emulated one |
| TestRunner.EmulatedSdkIsNotReported | robolectric/src/main/java/org/robolectric/RobolectricTestRunner.java:439-445 | emulateSdk=18 with a target-16 manifest emulates 18 but reports 16, and reports 14 without a manifest |
| TestRunner.LastSettingFromLayer | robolectric/src/main/java/org/robolectric/RobolectricTestRunner.java:359-383 | An attribute takes the value of the last present layer that sets it |
| TestRunner.LastSettingDefault | robolectric/src/main/java/org/robolectric/RobolectricTestRunner.java:359-383 | An attribute no present layer sets keeps its default |
| TestRunner.Overlay | robolectric/src/main/java/org/robolectric/RobolectricTestRunner.java:362-380 | new Config.Implementation(base, overlay): the overlay wins on each attribute it sets; stated by LayeredIsLastSetting |
| TestRunner.Layered | robolectric/src/main/java/org/robolectric/RobolectricTestRunner.java:359-383 | The front-to-back overlay of the present layers; LayeredIsLastSetting ties it to the last-setting reference |
| TestRunner.LayeredIsLastSetting | robolectric/src/main/java/org/robolectric/RobolectricTestRunner.java:359-383 | Overlaying layers front to back, skipping absent ones, gives each attribute's last setting |
| TestRunner.GetConfig | robolectric/src/main/java/org/robolectric/RobolectricTestRunner.java:359-383 | Layers defaults, global, declaring class, test class, method, in that order, skipping absent layers |
| TestRunner.MethodConfigWins | robolectric/src/main/java/org/robolectric/RobolectricTestRunner.java:377-380 | On each of the six attributes, the method's @Config wins where it sets it, else the earlier layers' last setting stands |
| TestRunner.MethodBlockTail | robolectric/src/main/java/org/robolectric/RobolectricTestRunner.java:229-243 | The test body, tearDownApplication, internalAfterTest and resetStaticState always run in that order; the class loader is restored unless resetStaticState threw; the escaping exception is the one thrown last, and there is none iff no step threw |
| TestRunner.HooksRun | robolectric/src/main/java/org/robolectric/RobolectricTestRunner.java:248-258 | The @BeforeClass hooks are invoked in order up to and including the first that throws |
| TestRunner.RunHooks | robolectric/src/main/java/org/robolectric/RobolectricTestRunner.java:254-256 | The loop invokes the hooks in order until one throws: it runs exactly HooksRun and reports the throwing hook, or none when no hook throws |
| TestRunner.SdkEnvironment.constructor | robolectric/src/main/java/org/robolectric/RobolectricTestRunner.java:108-112 | An environment is built for the given SdkConfig |
| TestRunner.ResourceLoader.constructor | robolectric/src/main/java/org/robolectric/RobolectricTestRunner.java:495-506 | An application loader is built from the manifest and the system loader |
| TestRunner.EnvHolder.constructor | robolectric/src/main/java/org/robolectric/RobolectricTestRunner.java:68 | A new holder holds no environments and no manifests |
| TestRunner.EnvHolder.GetSdkEnvironment | robolectric/src/main/java/org/robolectric/RobolectricTestRunner.java:278-282 | Returns the held environment for the SdkConfig, else creates and holds a fresh one |
| TestRunner.Statics.constructor | robolectric/src/main/java/org/robolectric/RobolectricTestRunner.java:37-39 | The static tables start empty and there is no main shadow map |
| TestRunner.Statics.EnvHolderFor | robolectric/src/main/java/org/robolectric/RobolectricTestRunner.java:63-71 | One EnvHolder per runner class: created on first construction, the same one afterwards |
| TestRunner.Statics.CreateShadowMap | robolectric/src/main/java/org/robolectric/RobolectricTestRunner.java:512-524 | Builds the main shadow map once, and returns that same map on every later call |
| TestRunner.Statics.GetAppResourceLoader | robolectric/src/main/java/org/robolectric/RobolectricTestRunner.java:485-506 | Returns the cached loader for a repeated (manifest, SdkConfig) pair; otherwise builds, caches and returns a fresh one, failing on a null manifest |
| TestRunner.Runner.constructor | robolectric/src/main/java/org/robolectric/RobolectricTestRunner.java:60-73 | The runner takes its class's shared EnvHolder and starts with no "last" fields and no loaded classes |
| TestRunner.Runner.GetEnvironment | robolectric/src/main/java/org/robolectric/RobolectricTestRunner.java:268-286 | When class and SdkConfig repeat, returns lastSdkEnvironment without touching the holder; otherwise fetches from the holder and records class, config and environment. Either way the result is the holder's environment for the picked SdkConfig |
| TestRunner.Runner.SameConfigSameEnvironment | robolectric/src/main/java/org/robolectric/RobolectricTestRunner.java:268-286 | Two back-to-back requests for the same configuration get the same environment |
| TestRunner.Runner.GetAppManifest | robolectric/src/main/java/org/robolectric/RobolectricTestRunner.java:300-353 | None for Config.NONE; otherwise the manifest held for the file. If none is held, a missing manifest with libraries configured throws a NullPointerException and holds nothing; otherwise the newly created manifest (possibly none) is returned and held |
| TestRunner.Runner.InvokeBeforeClass | robolectric/src/main/java/org/robolectric/RobolectricTestRunner.java:248-258 | A class not yet loaded (a class as one environment loaded it) is added and its hooks run until one throws; a loaded class is left alone; the invariant keeps one set-up per class |
| TestRunner.Runner.SetUpPerEnvironment | robolectric/src/main/java/org/robolectric/RobolectricTestRunner.java:185-201 | One test class bootstrapped by two environments is two loaded classes and gets two set-ups |

## Left out

- Bitmaps: the Java `int` overflow of `width * height`, `y * width + x` and the byte sizes is not modelled; integers are unbounded. Only `hashCode` wraps explicitly.
- Bitmaps: `compress` (it writes to an `OutputStream`), `toString` and the trivial getters are not modelled.
- Bitmaps: `createdFromPath`, `createdFromStream` and `createdFromBytes` are not modelled. No modelled operation sets them.
- Bitmaps: `Robolectric.newInstanceOf` and `shadowOf` are not modelled; a factory's result is a fresh object. `ShadowBitmap.Derived` builds it with the fields the factory assigns already in place. The model does not capture the order of those assignments.
- Bitmaps: `Matrix.isIdentity` and `Matrix.toString` are taken as given values of `Matrix`.
- Bitmaps: the model's description is always a non-null string, but `setDescription` accepts null in Java. So the null-description branches of `equals` (ShadowBitmap.java:373) and `hashCode` (ShadowBitmap.java:382) are not modelled.
- Bitmaps: the factories take a non-null `src` bitmap and a non-null `colors` array. So the NullPointerExceptions that a null `src` (ShadowBitmap.java:155-156, 162, 184, 207) or a null `colors` (ShadowBitmap.java:245) would throw are not modelled.
- Bitmaps.ShadowBitmap.BufferMatchesSize: `setWidth` and `setHeight` can break it, so it is not a class invariant. A later short-buffer access is modelled as ArrayIndexOutOfBoundsException.
- Bitmaps.ShadowBitmap.Equals: an argument that is null or not a Bitmap is passed as null.
- RoboProcessing: `RoboModel`, `getReferentFor` and the four validators are not part of this model. The prepared model is given as its imports, shadow types, shadow-map entries and resetters, with referents as strings, in iteration order. What a validator does on `visit` is recorded only as an event.
- RoboProcessing: the fixed text of the generated class is a `Boilerplate` parameter. `Standard` holds the exact lines, and the proofs hold for any boilerplate.
- RoboProcessing: `println` is taken to write "\n" as the line separator.
- RoboProcessing.Render: the Filer's `createSourceFile` and `openWriter` are one `FileOutcome` parameter. Writing to a `PrintWriter` never throws, since PrintWriter swallows IOExceptions.
- RoboProcessing.RoboProcessor.Process: when rendering fails, the RuntimeException leaves `generated` unset, as in the code. A later round would prepare and render again.
- RoboProcessing: `model.prepare()` is recorded as an event; its effect is the `prepared` model parameter.
- FakeSettings: the `WeakHashMap` garbage collection of unreachable resolvers is not modelled; it is an ordinary map.
- FakeSettings: `Robolectric.application.getContentResolver()` is the `appResolver` parameter.
- FakeSettings.SettingsStore.PutInt: the `table` parameter is only there to show that both tables reach the one store.
- TestRunner: `Config`, `Config.Implementation`, `AnnotationUtil.defaultsFor`, `SdkConfig.getDefaultSdk`, `EnvHolder` and `AndroidManifest` are not part of this model. A layer sets an attribute or leaves it at its default, and a set attribute overrides the earlier layers. The defaults and the default SDK are parameters.
- TestRunner.EnvHolder.GetSdkEnvironment: the holder's weak retention of environments is not modelled; it is an ordinary cache.
- TestRunner: class-loader creation, bytecode instrumentation, `configureShadows`/`getClassHandler`, and the `SDK_INT` reflective write are not modelled, nor is the rest of `methodBlock` outside the `@BeforeClass` guard and the cleanup chain. An environment is an opaque object.
- TestRunner: `getJarResolver`, `getConfigProperties`, system properties and file-system paths are not modelled. A layer read from properties is an optional `ConfigLayer`.
- TestRunner.Runner.GetAppManifest: the resolved manifest file and the result of `createAppManifest` are parameters. The library directories that `setLibraryDirectories` records are not modelled. Only its NullPointerException on a missing manifest is modelled, as `NullManifestLibraries`.
- TestRunner: the JUnit `Statement`, `FrameworkMethod` and `HelperTestRunner` plumbing, `classBlock` and `@AfterClass` are not modelled. The hooks are abstract `Hook` values.
- TestRunner: `synchronized` blocks and the thread's context class loader are not modelled, beyond the restore step in `MethodBlockTail`; the model is single-threaded.
- TestRunner.Statics.GetAppResourceLoader: `createAppResourceLoader`'s overlay and routing loaders are one opaque `ResourceLoader` that records its manifest and system loader.
