# js-classes core, modelled in Dafny

This project models the parts of the `js-classes` browser helpers that keep
state or scan data, with the browser abstracted away, and proves what they
promise.

- **FunctionWrapper** (`wrap_data.dfy`, `wrap_state.dfy`, `function_wrapper.dfy`)
  replaces functions on a page with wrapper functions. It records every
  `(parent, key)` property it patched so that it can write the original back,
  and it runs stack-trace sessions.
  - The page is a map of property slots (owner id × key → value). Functions
    are opaque ids: a page function `Native(id)` or a wrapper `Wrapper(id)`.
  - The `__wrapped`/`__wrapStatus` markers are a table of wrap records keyed
    by wrapper.
  - The session record (`preparationName`, `preparing`, the shared
    re-entrancy flag, the `wrapped` list, the trace buffer) is the set of
    fields of class `FunctionWrapper.FunctionWrapper`.
  - The value-level specification is `WrapState.Wrap`, `UnwrapOne` and
    `UnwrapAll`. Its round trip is proved through the invariant
    `WrapState.Recorded`: every slot holds its original value or a live
    wrapper whose record will write it back.
  - A call is given as a call tree: the calls each function makes, in order,
    and whether it then throws.
- **I18n** (`i18n.dfy`) is the TextManager. It holds the settings object,
  language selection guarded by the `languages` table, message lookup that
  falls back from the current to the default language and then to `''`, and
  setup from the URL query and the browser language tag (both are inputs).
- **StreamHelper** (`stream_helper.dfy`) covers:
  - filters over track records;
  - the constraints fold;
  - the prototype polyfill;
  - the camera-stream guard;
  - the constraint fallback ladder of `getUserMediaWithWorkingConstraints`,
    with `getUserMedia`'s verdict as a parameter.
- **CanvasManager** (`canvas_manager.dfy`) covers:
  - the colour scan and the bounding-rectangle scan over RGBA bytes;
  - the crop arithmetic;
  - the option parsing of `canvasToImage`;
  - the `getContext` cache;
  - the `CanvasRenderer` start, stop and mute state.
- **Sharer** (`sharer.dfy`) covers the share-method table filled from the
  settings keys, lookups and attribute filters over it, and the grouped data.

`options.dfy` and `sequences.dfy` hold the `Option` type and a sequence
filter with its lemmas.

Where the code and the documented intent differ, the model follows the code:

- One re-entrancy flag serves every wrapper: `setupWrapStatus` stores the
  shared `status.wrap` object in each record
  (class/FunctionWrapper.js:234, 317, 329). It is not a flag per wrapper.
  `NestedWrappedCallIsSilent` shows this.
- A trace entry is pushed before the re-entrancy check, so nested calls are
  traced too (class/FunctionWrapper.js:319-325).
- `wrapFunction` checks `isWrapped` on the function it is given. Wrapping the
  same original twice therefore makes two wrappers; only wrapping a wrapper
  reuses it. `WrappingAnOriginalTwice` shows this.
- `stopStackTrace` returns the whole buffer. Only `stackTraceFunction` drops
  the first entry (class/FunctionWrapper.js:464-466, 511-514).
- `stackTraceFunction` calls `func` through its own reference, never through
  a wrapper, so `func` leaves no entry. The entry its "omit func" shift drops
  is the first traced call `func` makes (class/FunctionWrapper.js:466, 470).
  `StackTraceDropsFirstCall` shows this.
- `startStackTrace` ignores the result of `handlePreparation`, so a second
  session is not refused (class/FunctionWrapper.js:485, 505).
- `unwrapFunction` throws on a reference without a parent
  (`WrapState.UnwrapThrowsOnParentlessReference`).
- A wrapped function that throws leaves the flag set, because there is no
  `finally` (`ThrowLeavesFlagSet`).

## Model

| member | source | states |
|---|---|---|
| WrapData.WrapperOptionsRoundTrip | class/FunctionWrapper.js:82-96 | An empty options object gives the defaults. Supplying every key gives back exactly the options supplied. The stack-trace options turn on tracing, argument wrapping and return wrapping, and leave multiple wraps off. |
| WrapData.GetFunctionDataAsWritten | class/FunctionWrapper.js:726-747 | As written, `returned` is set exactly when no return value was passed. |
| WrapData.GetFunctionData | class/FunctionWrapper.js:726-747 | Corrected: `returned` is set exactly when a return value was passed. |
| WrapData.PossibleBadAsWrittenMissesNullReturn | class/FunctionWrapper.js:587-599 | With the data as written, a call returning `null` is not flagged. Start data with arguments is flagged. |
| WrapData.PossibleBadOfCompleteData | class/FunctionWrapper.js:587-599 | With corrected data, a completed call is "possibly bad" exactly when it had no arguments or returned `null` or `undefined`. Start data is always flagged. |
| WrapData.RestoreEffect | class/FunctionWrapper.js:540-545 | The restore loop succeeds exactly when every reference has a parent. It then writes the original into exactly the designated slots and leaves every other slot as it was. |
| WrapState.WrapOutcomes | class/FunctionWrapper.js:264-294 | A forbidden callable changes nothing and gives false. A callable with its own record is handed back, with the reference appended and no new `wrapped` entry. Anything else gets exactly one new wrapper, recorded in `wrapped` with `old = func`. Only the designated slot can change. |
| WrapState.WrapUnreferenced | class/FunctionWrapper.js:264-294 | Wrapping, without a reference, a callable that is neither forbidden nor carrying a record makes exactly one new wrapper and changes no slot. |
| WrapState.WrapKeepsRecorded | class/FunctionWrapper.js:245-294 | Wrapping a slot's callable through that slot's reference keeps every slot either original or restorable by a live record. |
| WrapState.UnwrapOneKeepsRecorded | class/FunctionWrapper.js:533-550 | In a restorable state, unwrapping never throws. It removes exactly that record and keeps the state restorable. |
| WrapState.UnwrapAllKeepsRecorded | class/FunctionWrapper.js:519-527 | Unwrapping a list removes exactly the records of its entries and keeps the state restorable. |
| WrapState.UnwrapAllStep | class/FunctionWrapper.js:519-527 | One step of the unwrap loop: a successful unwrap of the first entry removes exactly its record, and the loop goes on from there. A failed one ends the loop. |
| WrapState.NoWrapperLeftMeansRestored | class/FunctionWrapper.js:533-550 | A restorable state with no live record is the original page. |
| WrapState.UnwrapAllRestoresSlots | class/FunctionWrapper.js:519-550 | Round trip: unwrapping every entry of a `wrapped` list that covers the live records succeeds and gives every slot its original value. |
| WrapState.UnwrapThrowsOnParentlessReference | class/FunctionWrapper.js:540-545 | A reference without a parent makes unwrapping throw, and the record stays. |
| FunctionWrapper.FunctionWrapper.constructor | class/FunctionWrapper.js:42-64 | A fresh session: nothing wrapped, nothing preparing, the flag clear, an empty trace. |
| FunctionWrapper.FunctionWrapper.HandlePreparation | class/FunctionWrapper.js:199-222 | An empty name, or a name other than the one in preparation, is refused and changes nothing. Otherwise a start sets the name and `preparing`, and an end clears both. |
| FunctionWrapper.FunctionWrapper.SetupWrapStatus | class/FunctionWrapper.js:228-239 | A wrapper without a record gets one naming its original and is appended to `wrapped`. One with a record is left alone. |
| FunctionWrapper.FunctionWrapper.HandleWrapReference | class/FunctionWrapper.js:245-255 | A present reference is appended to the record. `parent[key]` is set to the wrapper exactly when the reference has a parent and a key, and no other slot changes. |
| FunctionWrapper.FunctionWrapper.CreateWrapFunction | class/FunctionWrapper.js:301-362 | Makes one new wrapper, never seen before, around `func` with the given options, and registers its record. |
| FunctionWrapper.FunctionWrapper.WrapFunction | class/FunctionWrapper.js:264-294 | The new session state and the result are exactly `WrapState.Wrap` of the old state. The session invariant is kept. |
| FunctionWrapper.FunctionWrapper.ReuseWrapper | class/FunctionWrapper.js:284-291 | A wrapper that carries its own record is reused: the reference is appended and installed, and nothing else in the state changes. |
| FunctionWrapper.FunctionWrapper.NewWrapper | class/FunctionWrapper.js:286-291 | A new wrapper `Wrapper(nextWrapper)` is made around `func`. Its record and `wrapped` entry are added, then the reference is appended and installed. The whole new state is given. |
| FunctionWrapper.FunctionWrapper.AttemptWrapFunction | class/FunctionWrapper.js:651-669 | A non-callable, or one of the wrapper's own members, is returned untouched and nothing changes. Any other callable is wrapped, and the result is the wrapper, or the data itself when wrapping gave false. |
| FunctionWrapper.FunctionWrapper.AttemptWrapObjectFunction | class/FunctionWrapper.js:638-643 | Only `obj[key]` can change. Records are only added. Afterwards the slot holds a live wrapper unless its value is not callable, is a member or is forbidden. Without multiple wraps, the page stays restorable. The new state and the result are those of `attemptWrapFunction` on the slot's old value with the reference `{parent: obj, key}`: untouched for a non-callable or a member, otherwise exactly `WrapState.Wrap` with that reference. |
| FunctionWrapper.FunctionWrapper.DeepWrapObjectFunctions | class/FunctionWrapper.js:625-633 | The same guarantees over every visited slot. Unvisited slots are untouched, and every new wrapper carries the given options. |
| FunctionWrapper.FunctionWrapper.UnwrapFunction | class/FunctionWrapper.js:533-550 | The new state and the outcome are exactly `WrapState.UnwrapOne` of the old state. A value without a record is a no-op. |
| FunctionWrapper.FunctionWrapper.UnwrapFunctions | class/FunctionWrapper.js:519-527 | Slots and records end as `WrapState.UnwrapAll` over the old `wrapped` list. On success `wrapped` and the record table are empty. |
| FunctionWrapper.FunctionWrapper.StartStackTrace | class/FunctionWrapper.js:478-506 | The trace buffer is emptied. The preparation ends unless a different one was running. Every visited slot is instrumented with the stack-trace options, and the page stays restorable. |
| FunctionWrapper.FunctionWrapper.StopStackTrace | class/FunctionWrapper.js:511-514 | Unwraps everything as `UnwrapAll` does, and then returns the whole trace buffer. |
| FunctionWrapper.FunctionWrapper.StackTraceFunction | class/FunctionWrapper.js:442-473 | The session is started as `TraceStarted` describes, leaving state `session`. Tracing is on unless stack traces are disabled or another preparation is running. `func` throws exactly when its call tree does not complete in `session`, and then no trace is given. Otherwise `full`, the buffer that stopping returns, is exactly `Traced(session, on, func, c)`, the entries of that call tree. On a restorable page a trace is then always handed back, and the page is back to its original slots with nothing wrapped. The result is `full` without its first entry, and the buffer field is shifted in place to the same value. |
| FunctionWrapper.FunctionWrapper.StartAndCall | class/FunctionWrapper.js:462-470 | `startStackTrace` followed by the call of `func`: the state after the start satisfies `TraceStarted`, the call throws exactly when it does not complete there, and a completed call leaves the buffer equal to its `Traced` entries. |
| FunctionWrapper.FunctionWrapper.OnComplete | class/FunctionWrapper.js:463-469 | The completion handler: unwraps as `UnwrapAll` does, and on success hands back the old buffer without its first entry. The buffer field is shifted in place to that value, and `wrapped` and the records are emptied. |
| FunctionWrapper.FunctionWrapper.InvokeFn | class/FunctionWrapper.js:306-355 | The call throws exactly when some function on its way throws or some wrapper on its way has lost its record. A completed call appends exactly `Traced` of its call tree to the buffer. While the flag is set, no event is handled. A completed call restores the flag. The trace only grows, and it does not grow while preparing or disabled. |
| FunctionWrapper.FunctionWrapper.InvokeWrapper | class/FunctionWrapper.js:306-355 | A wrapper whose record was deleted throws before doing anything. A completed call appends exactly `Traced` of the wrapper's call: its original's entry first when tracing is on and the wrapper traces, then the entries of the wrapped call. With the flag clear, a call that completes adds exactly the start and complete events of the original, and one that throws adds only the start event and leaves the flag set. |
| FunctionWrapper.FunctionWrapper.CallWrapped | class/FunctionWrapper.js:327-352 | The wrapper body after its trace step: with the flag clear, the start event, the call, and on completion the complete event with the flag cleared. A throw leaves the flag set after the start event. A completed call appends exactly `Traced` of the wrapped call. |
| FunctionWrapper.FunctionWrapper.InvokeCall | class/FunctionWrapper.js:306-355 | A call through a property throws unless the property holds a callable. Otherwise it behaves as InvokeFn, and a completed call appends exactly its `CallTraced` entries. |
| FunctionWrapper.FunctionWrapper.RunBody | class/FunctionWrapper.js:306-355 | A function body's calls complete exactly when each completes. A completed body appends the entries of its calls in order (`TracedAll`), and an empty body changes nothing. |
| FunctionWrapper.TraceSessionRestoresPage | class/FunctionWrapper.js:478-527 | For any plain page, any visit list and any calls made during the session, stopping succeeds and leaves every slot with its original value. |
| FunctionWrapper.TracedCallIsRecorded | class/FunctionWrapper.js:319-325 | Calling a traced property during a session records exactly its original, and stopping returns `[that entry]` and restores the property. |
| FunctionWrapper.StackTraceDropsFirstCall | class/FunctionWrapper.js:442-473 | `func` is called directly, not through a wrapper. So for a plain `func` that calls two traced properties in turn, the "omit func" shift drops the first property's entry, the trace is `[second original]`, and the page is restored. |
| FunctionWrapper.VisitedSlotTraced | class/FunctionWrapper.js:478-506 | After the deep wrap of a session that started with no wrappers, a visited property that held a plain function holds a live wrapper of it with the stack-trace options. |
| FunctionWrapper.OneTracedCall | class/FunctionWrapper.js:319-325 | A call through a property holding such a wrapper completes and traces the original once. |
| FunctionWrapper.TwoTracedCalls | class/FunctionWrapper.js:319-325 | A plain function calling two such properties in turn completes and leaves their two originals in call order. |
| FunctionWrapper.WrappingAnOriginalTwice | class/FunctionWrapper.js:284-290 | Wrapping one original twice makes two different wrappers. Wrapping a wrapper returns that same wrapper. |
| FunctionWrapper.NestedWrappedCallIsSilent | class/FunctionWrapper.js:315-352 | A wrapper called inside another wrapper's call handles no event. Only the outer start and complete events appear, and the flag ends clear. |
| FunctionWrapper.ThrowLeavesFlagSet | class/FunctionWrapper.js:326-352 | After a wrapped function throws, the flag stays set and every later wrapped call is silent. |
| I18n.Check | class/I18n.js:65-87 | Fails exactly when the format is iso639-3 and some language is keyed `en`, `jp`, `english` or `japanese`. |
| I18n.LanguageData | class/I18n.js:133-140 | A language's table is present exactly when the language is a key of `languages`. |
| I18n.GetMessage | class/I18n.js:141-171 | The current language's message when present. Otherwise the default language's. Otherwise `''`. The result is non-empty exactly when one of the two has the message. |
| I18n.GetMessageArray | class/I18n.js:185-189 | Same length as the keys, and element i is the message of key i. |
| I18n.BrowserLanguageKey | class/I18n.js:213-217 | A prefix of the tag that contains no `-` and ends where the tag ends or at a `-`. |
| I18n.TextManager.constructor | class/I18n.js:18-30 | The settings start as the defaults of `Settings()`. |
| I18n.TextManager.Setup | class/I18n.js:42-59 | Copies exactly the supplied keys, picks the language from the environment when `auto` is set, and succeeds exactly when `check` passes. |
| I18n.TextManager.SetLanguage | class/I18n.js:102-109 | Succeeds exactly when the name is non-empty and has a table. Only then does the current language change. |
| I18n.TextManager.SetDefaultLanguage | class/I18n.js:124-131 | The same condition. It touches only the default language. |
| I18n.TextManager.SetMessage | class/I18n.js:191-200 | Fails and changes nothing when the current language has no table. Otherwise it writes the message under its key in the table held for the current language, and no other entry of `languages` changes. Tables are modelled as distinct values (see Left out). |
| I18n.TextManager.SetLanguageFromUrlParam | class/I18n.js:223-241 | The settings and the two outcomes are those of reading both URL parameters and then applying them. |
| I18n.TextManager.SetLanguageFromBrowserLanguage | class/I18n.js:213-217 | Selects the browser tag's prefix when it names a known language. |
| I18n.TextManager.SetLanguageFromEnvironment | class/I18n.js:207-211 | The URL parameters first, and the browser language only when the URL did not set the current language. |
| I18n.TextManager.GetMessageObject | class/I18n.js:176-183 | The keys are exactly the requested keys, each mapped to its message. |
| I18n.TextManager.GetAvailableLanguages | class/I18n.js:202-205 | Exactly the language names, each once. |
| I18n.OverrideKeepsUnsuppliedKeys | class/I18n.js:42-49 | Setup's copy leaves settings that were not supplied unchanged, sets supplied ones, and is the identity on an empty object. |
| I18n.SelectedLanguageHasData | class/I18n.js:102-109 | After a successful selection the current language has a table. A refused selection changes nothing. |
| I18n.SetMessageThenGetMessage | class/I18n.js:191-200 | After setting a non-empty message it is what getMessage returns. Other keys read as before. |
| I18n.MessageFallsBackToDefault | class/I18n.js:154-171 | With no current table, getMessage reads the default language's table or gives `''`. |
| I18n.BrowserKeyOfRegionTag | class/I18n.js:213-217 | `xx-YY` and `xx` both give `xx`. |
| I18n.EnvironmentChoosesUrlThenBrowser | class/I18n.js:207-241 | The language picked is the URL parameter's when known, else the browser's when known, else the configured one. |
| I18n.SetupRejectsEnglishKey | class/I18n.js:56-87 | Setup with a language keyed `en` fails under the default format. |
| StreamHelper.GetTracksByAttribute | class/StreamHelper.js:311-324 | Exactly the tracks whose attribute equals the value, in order, as a subsequence, with each kept track's multiplicity. |
| StreamHelper.GetTracksByType | class/StreamHelper.js:301-303 | The attribute filter on `kind`. A track is in the result exactly when it is in the input with that kind. |
| StreamHelper.GetAudioTracks | class/StreamHelper.js:10-26 | The polyfill returns exactly the `audio` tracks, in order. |
| StreamHelper.GetVideoTracks | class/StreamHelper.js:27-43 | The polyfill returns exactly the `video` tracks, in order. |
| StreamHelper.AudioAndVideoTracksDisjoint | class/StreamHelper.js:10-43 | No track is both an audio track and a video track. |
| StreamHelper.GetTracksByStatus | class/StreamHelper.js:251-286 | Exactly the tracks whose defined fields agree with the status, in order. |
| StreamHelper.StatusesExclusive | class/StreamHelper.js:251-286 | A track with a defined `enabled` or `muted` is kept for at most one status. |
| StreamHelper.UndefinedFieldsNeverExclude | class/StreamHelper.js:251-286 | A track with no status fields is kept for both statuses. |
| StreamHelper.ActiveTrackStatus | class/StreamHelper.js:251-286 | An enabled, live, unmuted track is kept for `true` only. |
| StreamHelper.GetStreamTracks | class/StreamHelper.js:238-244 | `[]` when the stream has no `getTracks`, otherwise its tracks. |
| StreamHelper.RequestFor | class/StreamHelper.js:411-419 | A track's constraints when non-empty, otherwise `true`. |
| StreamHelper.StreamConstraintsKeys | class/StreamHelper.js:411-419 | One key per track kind present. |
| StreamHelper.StreamConstraintsLastWins | class/StreamHelper.js:411-419 | Each kind's value comes from the last track of that kind. |
| StreamHelper.GetStreamConstraints | class/StreamHelper.js:411-419 | The fold's result, whose keys are exactly the kinds present. |
| StreamHelper.StreamObject.constructor | class/StreamHelper.js:340-346 | An empty stream object. |
| StreamHelper.HandleCameraStream | class/StreamHelper.js:164-187 | A missing or error stream gives the falsy result (`null` standing for the source's `false`) and leaves the object alone. Otherwise the object (new when none was given) holds the stream and an autoplaying video showing it. |
| StreamHelper.Ensure | class/StreamHelper.js:4-9 | Installs the handler on the prototype only when the key is undefined. It never overwrites and touches no other key. |
| StreamHelper.FallbackStep | class/StreamHelper.js:437-456 | An object (or `null`) video becomes `true`. Else an object audio becomes `true`. Else `true`/`true` turns audio off. Else the error is reported. Every step lowers the weight. |
| StreamHelper.Weight | class/StreamHelper.js:437-456 | The weight is at most 3. |
| StreamHelper.Ladder | class/StreamHelper.js:437-456 | The retry sequence starts at the given constraints, follows the steps and ends where the error is reported, after at most three retries. |
| StreamHelper.MediaStreamConstraints.Unlimited | class/StreamHelper.js:389-394 | Video and audio both `true`. |
| StreamHelper.MediaStreamConstraints.OnErrorHandle | class/StreamHelper.js:437-456 | Reports the error exactly when no step applies, and otherwise applies the step in place. |
| StreamHelper.GetUserMediaWithWorkingConstraints | class/StreamHelper.js:433-459 | The attempts follow the ladder, stop at the first granted request, and number at most four. When nothing is granted the whole ladder was tried. |
| CanvasManager.CanvasHasColorData | class/CanvasManager.js:149-172 | True exactly when some pixel has a non-zero byte in an enabled channel. |
| CanvasManager.AlphaOnlyPixelIgnoredByDefault | class/CanvasManager.js:154-161 | By default an alpha-only pixel is not colour, and it is when alpha is enabled. |
| CanvasManager.ScanBoundingRect | class/CanvasManager.js:187-212 | The scan gives the min and max row and the min and max column (index modulo the given modulus) over coloured pixels, or all null. |
| CanvasManager.GetContextBoundingRect | class/CanvasManager.js:187-212 | As written, columns are taken modulo the height. All null exactly when no pixel has colour. Otherwise top ≤ bottom and left ≤ right. |
| CanvasManager.GetContextBoundingRectIntended | class/CanvasManager.js:187-212 | Corrected: columns modulo the width. The rectangle lies inside the canvas and contains every coloured pixel. |
| CanvasManager.RectAgreesWithColorScan | class/CanvasManager.js:187-212 | A scan result is empty exactly when the colour scan finds nothing, and it is ordered otherwise. |
| CanvasManager.IntendedRectInsideCanvas | class/CanvasManager.js:198-208 | With the width as modulus, every bound is inside the canvas. |
| CanvasManager.AsWrittenRectMissesColumn | class/CanvasManager.js:201 | On a 3×1 canvas coloured only at column 2, the as-written rectangle is the single cell (0,0) and misses the coloured pixel. |
| CanvasManager.FitDimensionsIntended | class/CanvasManager.js:174-185 | Corrected crop: an empty rectangle gives 0×0. |
| CanvasManager.FitAsWrittenDropsLastColumnAndRow | class/CanvasManager.js:174-185 | As written, a one-pixel canvas with colour is cropped to 0×0. |
| CanvasManager.FitIntendedKeepsColouredPixels | class/CanvasManager.js:174-185 | The corrected crop contains every coloured pixel. |
| CanvasManager.FitDimensionsNonNegative | class/CanvasManager.js:174-185 | The as-written crop of a real scan is never negative. |
| CanvasManager.GetContext | class/CanvasManager.js:12-21 | The first call asks the canvas once and caches. Later calls return the cache without asking. |
| CanvasManager.FitCanvasToBoundingRect | class/CanvasManager.js:174-185 | The canvas becomes `right - left` wide and `bottom - top` high. |
| CanvasManager.ParseImageOptions | class/CanvasManager.js:36-78 | `format` defaults to png and `serialization` to image. Only the four known keys override. |
| CanvasManager.CanvasToImage | class/CanvasManager.js:36-78 | `data_url` gives a data URL and calls a truthy `on_load`; a truthy `on_load` that is not a function makes the call throw. `image` gives an Image. Anything else gives `undefined`. |
| CanvasManager.CanvasToImageDefaults | class/CanvasManager.js:36-78 | Called with no options, `canvasToImage` returns a png Image with no conversion options and no load handler, calls nothing and does not throw. |
| CanvasManager.CanvasRenderer.constructor | class/CanvasManager.js:223-276 | Rate 1000/20, no interval and not muted, unless the settings say otherwise. `mute` is still the method. |
| CanvasManager.CanvasRenderer.Start | class/CanvasManager.js:243-249 | Refused exactly when an interval is set. Otherwise the timer is stored. |
| CanvasManager.CanvasRenderer.Stop | class/CanvasManager.js:259-262 | The interval is reset and the renderer is not running. |
| CanvasManager.CanvasRenderer.Mute | class/CanvasManager.js:251-253 | As written, it overwrites the `mute` member with `true`, so a second call fails. |
| CanvasManager.CanvasRenderer.Unmute | class/CanvasManager.js:255-257 | As written, it overwrites the `mute` member with `false`. |
| CanvasManager.CanvasRenderer.MuteIntended | class/CanvasManager.js:251-253 | Corrected: sets `muted`. |
| CanvasManager.CanvasRenderer.UnmuteIntended | class/CanvasManager.js:255-257 | Corrected: clears `muted`. |
| CanvasManager.CanvasRenderer.Render | class/CanvasManager.js:264-270 | Skips exactly when `muted`. |
| CanvasManager.MutedRendererStillRenders | class/CanvasManager.js:251-270 | After `mute()` the renderer still renders, and calling `mute` again fails. |
| CanvasManager.IntendedMuteSilences | class/CanvasManager.js:251-270 | The corrected mute skips rendering, and unmute resumes it. |
| CanvasManager.StartStopCycle | class/CanvasManager.js:243-262 | A second start is refused. After stop, start succeeds again. |
| Sharer.ShareMethodOf | class/Sharer.js:278-285 | A null setting gives type `visual`. An options object's own keys win, and `type` stays `visual` when it does not set one. |
| Sharer.Sharer.constructor | class/Sharer.js:52-62 | The table has exactly the default settings' keys, each built from `null`. The settings argument is ignored. |
| Sharer.Sharer.SetupShareMethods | class/Sharer.js:64-76 | Afterwards the table has the old keys plus the settings keys. Each settings key holds the method built from its setting, and other entries are kept. |
| Sharer.Sharer.GetShareMethod | class/Sharer.js:82-90 | `share_methods[key]`, absent exactly when the key is absent. |
| Sharer.Sharer.GetShareMethodsByAttr | class/Sharer.js:262-272 | The entries whose attribute equals the value. |
| Sharer.Sharer.GetShareMethodsByType | class/Sharer.js:252-255 | The attribute filter on `type`. |
| Sharer.SelectIsMatchingSubMap | class/Sharer.js:262-272 | The filter is a sub-map with keys preserved, holding exactly the matching entries. |
| Sharer.TypeSelectionsPartition | class/Sharer.js:252-255 | Each method is in the selection of its type, and the selections for different types are disjoint. |
| Sharer.DefaultMethodsAllVisual | class/Sharer.js:25-48 | With the default settings every method is `visual`. Any other type selects nothing. |
| Sharer.GetGroupedData | class/Sharer.js:218-232 | Exactly the keys `visual`, `audio`, `wireless`, `account`, `other`. Each item is a default `GroupedDataItem` named by its key. |
| Sharer.SetupThenLookup | class/Sharer.js:82-90 | After construction a key is found exactly when it is a settings key, and its method is `visual`. |

## Left out

- SetMessage: language tables are distinct values in the model. The source stores the caller's own `languages` object at setup and writes into the current table in place, so the write also shows through another language key bound to the same table object and through the caller's settings object; that sharing is not modelled, and SetMessageThenGetMessage's "other keys read as before" holds only for tables that are not shared.
- Invoking functions is modelled as a call tree. `func.apply`, `this`-binding, arguments, return values, `func.name`/`func.caller` reflection and `performance.now` are not modelled. A trace entry records only the original function.
- Argument and return wrapping inside a wrapper call (`wrapObjectFunctions(arguments)`, `attemptWrapFunction(returnVal, null, …)`) is not modelled. Argument wrapping patches the `arguments` object's slots through a reference and appends to `wrapped`; return wrapping makes wrappers with no reference, which a caller may store on the page.
- TraceSessionRestoresPage: restoration holds for calls that write no slot and store no returned function. The call tree has no way to do either, so a page slot overwritten during the session with a returned wrapper is not covered.
- `ObjectTraverser.loopObject` is a given list of visited slots. `Utility.isLogFunction` and `FunctionWrapper` itself are a given `forbidden` set. The wrapper's own members are a given set.
- `__wrapped` and `__wrapStatus` are set and deleted together, so they are one record table. Emptying `references` before the delete is subsumed by the delete.
- `handleEvent`, `handleCommonEvent`, `onStart`/`onComplete`, `isBad` and logging are reduced to the list of start and complete events handled.
- `stackTraceFunctionCombinations` reassigns `const` bindings and cannot run.
- `getFunctionData` sorts the arguments. The model keeps them as a multiset, so order is not modelled.
- The `returnHandle` callback of `stackTraceFunction` is the method's result. A `func` that never calls its completion handler is modelled as one whose call throws.
- `setupWrapStatus`'s `__wrapped` flag and the shared status object are not separate fields. The shared flag is the class field `executing`.
- I18n: `help` (an alert) is not modelled. Reading `window.location` and `navigator.language` is replaced by parameters.
- I18n: `manager.Settings()` is called on line 16 before it is assigned on line 18, so the constructor throws as written. The model starts from `Settings()`'s defaults.
- MediaStream, MediaRecorder and `getUserMedia` calls, the video element's DOM creation, `getEmptyStream` and the asynchronous callbacks around the ladder are not modelled. The browser's verdict on each request is a parameter.
- Canvas 2D drawing, `toDataURL`, `Image` loading, `setInterval`/`clearInterval` and the body of `render` are not modelled. The timer id is a parameter.
- CanvasRenderer.constructor: only the `rate`, `interval` and `muted` settings keys are modelled. The other keys (`renderable`, `canvas`, `context`) are not read by any modelled operation.
- Sharer's DOM window and buttons, and click listeners, are not modelled.
- SetupShareMethods: the identity of each method's `share` closure is not modelled. The ids are counted from 0 in each call, so distinctness across calls is not stated.
- Key order of JavaScript objects is not modelled. Maps are unordered, and `GetAvailableLanguages` is stated as a multiset.
- Prototype-chain lookups other than the one `polyfill.ensure` writes to are not modelled.
- StackTraceFunction: restoration is stated for a `func` that completes. After a throw the session is left running, as in the source. The trace is stated for a completed call of `func`; the partial buffer left by a throw is not specified.
- CanvasHasColorData, GetContextBoundingRect: the pixel buffer is a parameter. `getImageData` throws on a canvas 0 pixels wide or high; that throw is not modelled, and the members answer `false` and the all-null rectangle on the empty buffer instead.
- CanvasToImage: an `on_load` function that itself throws is not modelled; callbacks are opaque and always return.

## Findings

| source | as written | input that shows it | evidently intended | confidence | as-written member | corrected member |
|---|---|---|---|---|---|---|
| class/FunctionWrapper.js:726-747 | `returned` is set when `arguments.length === 2`, which is true when no return value is passed and false when one is | complete data of a call returning `null`: `isPossibleBad` misses it | `returned` set when a return value was passed | not executed | WrapData.PossibleBadAsWrittenMissesNullReturn | WrapData.PossibleBadOfCompleteData |
| class/CanvasManager.js:201 | the column of pixel `index` is `index % cHeight` | a 3×1 canvas coloured only at column 2: the rectangle is the cell (0,0) | `index % cWidth` | not executed | CanvasManager.AsWrittenRectMissesColumn | CanvasManager.GetContextBoundingRectIntended |
| class/CanvasManager.js:174-185 | the crop is `right - left` by `bottom - top` | a 1×1 canvas with one coloured pixel is cropped to 0×0 | `right - left + 1` by `bottom - top + 1` | not executed | CanvasManager.FitAsWrittenDropsLastColumnAndRow | CanvasManager.FitIntendedKeepsColouredPixels |
| class/CanvasManager.js:251-257 | `mute`/`unmute` assign the member `mute`, while `render` reads `muted` | `mute()` then `render()` still renders, and a second `mute()` fails | set `muted` | not executed | CanvasManager.MutedRendererStillRenders | CanvasManager.IntendedMuteSilences |
