# AndroidServoView core, modelled in Dafny

This project models the self-contained parts of AndroidServoView. The
repository embeds the Servo browser engine in Android behind a GeckoView-style
API. Three pieces are modelled:

- **The engine session glue.** `ServoGlue` exists twice: in `rust/src/glue.rs`
  (the JNI-era version) and in its twin `servo/src/glue.rs` (the C-ABI version).
  The C entry points of `servo/src/api.rs` dispatch to it. A session holds the
  current browser id, a queue of pending `WindowEvent`s and the view data. Each
  operation hands a fixed sequence of events to the engine and returns a
  `ServoResult`.
- **The runtime settings store** (`GeckoRuntimeSettings` and its `Builder`).
- **Small state machines and lookup tables**: `GeckoDisplay`, the default
  `GeckoRuntime`, and `GeckoSession`'s target-window tables, delegate slots and
  tracking categories.

The engine itself is not visible. It is modelled as an append-only log of the
batches passed to `Servo::handle_events`, plus two oracles bundled in
`Windowing.Engine`:

- `parse` stands for `ServoUrl::parse`.
- `allocate` answers the browser id the engine reports after a `NewBrowser`
  event. Its answer may depend on the whole log.

Every glue operation is a pure step function. It returns the next session
(whose log shows what was emitted) together with the result code. Java objects
are immutable values. Java's `null` is `Option.None`. A thrown exception is
either an explicit outcome or `None`.

Modules, one per file:

| file | module | models |
|---|---|---|
| wrappers.dfy | `Wrappers` | `Option` |
| servo_api.dfy | `ServoApi` | the `repr(C)` types of servo/src/api.rs |
| utf8.dfy | `Utf8` | `CStr::to_str`, as UTF-8 decoding (RFC 3629) |
| windowing.dfy | `Windowing` | engine events, notifications, host callbacks, `history_changed` |
| glue.dfy | `Glue` | the `ServoGlue` methods both versions share, and the coherence invariant |
| rust_glue.dfy | `RustGlue` | what is specific to rust/src/glue.rs |
| servo_glue.dfy | `ServoGlue` | what is specific to servo/src/glue.rs |
| dispatch.dfy | `Dispatch` | the `extern "C"` entry points of servo/src/api.rs |
| runtime_settings.dfy | `RuntimeSettings` | GeckoRuntimeSettings.java |
| gecko_session.dfy | `GeckoSession` | GeckoSession.java |
| gecko_display.dfy | `GeckoDisplay` | GeckoDisplay.java |
| gecko_runtime.dfy | `GeckoRuntime` | GeckoRuntime.java |

The methods of the two glue versions agree line for line on several
operations: `perform_updates`, `reload`, `go_back`, `go_forward`, `scroll`,
`click`, the common part of `resize` and `erase`, and `history_changed`. Each of
these is written once in `Glue` or `Windowing`, generic over the view data. The
table cites the rust/src/glue.rs lines and names the servo/src/glue.rs twin in
the text.

## Model

| member | source | states |
|---|---|---|
| ServoApi.ResultOfCode | servo/src/api.rs:11-19 | The C integers 0..5, and only those, denote a `ServoResult`. Each denotes the variant at that position of the declaration. |
| ServoApi.ResultCodesAreExact | servo/src/api.rs:11-19 | There are exactly six results. Each has a code below 6, and each code maps back to its own variant. |
| ServoApi.ScrollOfCode | servo/src/api.rs:21-28 | The C integers 0..3, and only those, denote a `ScrollState`, in declaration order. |
| ServoApi.ScrollCodesAreExact | servo/src/api.rs:21-28 | There are exactly four scroll states. Their codes round-trip. |
| Utf8.ToStr | servo/src/glue.rs:119-122 | When `to_str` accepts the bytes of a C string, the string it yields is exactly the one those bytes encode in UTF-8. |
| Utf8.ToStrOfEncoding | servo/src/glue.rs:58-68 | Every string's UTF-8 encoding is accepted by `to_str` and read back unchanged. So `init` never rejects a well-formed path or URL. |
| Utf8.ToStrFailsOnlyOnMalformed | servo/src/glue.rs:58-68 | `to_str` fails if and only if the bytes are the encoding of no string. These are the cases where `init` and `load_url` answer `CantReadStr`. |
| Windowing.AsI32 | rust/src/glue.rs:148 | The point of a scroll event goes through Rust's `u32 as i32`. The value is congruent mod 2^32, and it is unchanged below 2^31. |
| Windowing.PhaseOfIsBijective | rust/src/glue.rs:142-147 | Start→Down, Move→Move, End→Up, Canceled→Cancel is one-to-one and onto the touch phases. servo/src/glue.rs:158-163 is the same table. |
| Windowing.HistoryChanged | rust/src/glue.rs:254-261 | Requires a non-empty history and a current index inside it, as Rust panics otherwise. The embedder first hears can-go-back (true iff some entry precedes `current`) and can-go-forward (true iff some entry follows it). It then hears the URL of `entries[current]`. servo/src/glue.rs:281-292 is the same. |
| Windowing.WindowRect | rust/src/glue.rs:234-237 | `window_rect` is the framebuffer placed at the origin (0, 0). servo/src/glue.rs:248-251 is the same. |
| Glue.PerformUpdates | rust/src/glue.rs:95-100 | Returns Ok and leaves the pending queue empty. The old queue goes to the engine, in order, as one batch. Nothing else changes. servo/src/glue.rs:110-115 is the same. |
| Glue.LoadParsed | rust/src/glue.rs:106-107 | Once a URL has parsed, exactly one `LoadUrl(current browser, url)` is emitted and Ok is returned. |
| Glue.Reload | rust/src/glue.rs:111-115 | Emits exactly one `Reload` of the current browser and returns Ok. servo/src/glue.rs:128-132 is the same. |
| Glue.GoBack | rust/src/glue.rs:117-122 | Emits exactly one `Navigation(current, Back(1))` and returns Ok. The browser id, queue and view are unchanged. servo/src/glue.rs:134-139 is the same. |
| Glue.GoForward | rust/src/glue.rs:124-129 | Emits exactly one `Navigation(current, Forward(1))` and returns Ok. The browser id, queue and view are unchanged. servo/src/glue.rs:141-146 is the same. |
| Glue.ResizeView | servo/src/glue.rs:148-153 | The stored view data is replaced wholesale. Exactly one `Resize` event follows, and Ok is returned. |
| Glue.Scroll | rust/src/glue.rs:139-151 | Emits exactly one Scroll event. It carries (dx, dy), the point (x, y) as `i32`, and the phase given by the scroll state in both directions. Returns Ok. servo/src/glue.rs:155-167 is the same. |
| Glue.Click | rust/src/glue.rs:153-158 | Emits exactly one left-button click at (x, y) and returns Ok. servo/src/glue.rs:169-174 is the same. |
| Glue.Erase | rust/src/glue.rs:160-173 | Emits three batches in order: `NewBrowser(page)`, then `SelectBrowser(new id)`, then `CloseBrowser(old id)`. The new id becomes current, and Ok is returned. |
| Glue.Launch | rust/src/glue.rs:71-86 | A fresh engine is told `NewBrowser(url)` then `SelectBrowser(id)`, where `id` is the browser it answered. That browser becomes current, the queue is empty, and the session is coherent. |
| Glue.ApplyKeepsCoherent | rust/src/glue.rs:93-175 | Every glue operation preserves coherence. Coherence means: the queue stays empty, the engine's last selected browser is the current one, and every load, reload and navigation went to the browser selected when it was sent. |
| Glue.RunKeepsCoherent | rust/src/glue.rs:93-175 | Over any sequence of operations the session stays coherent, every operation returns Ok, and the engine's log only grows. |
| RustGlue.Init | rust/src/glue.rs:44-91 | Panics exactly when the start URL does not parse. Otherwise it returns Ok and installs a coherent session whose framebuffer is (width, height). That session is exactly the launched one: its first event opens the start URL, and its current browser is the id the engine answered. |
| RustGlue.LoadUri | rust/src/glue.rs:102-109 | A URL that does not parse gives `CantParseUrl` and leaves the session untouched. Otherwise the current browser gets `LoadUrl` and Ok is returned. |
| RustGlue.Resize | rust/src/glue.rs:131-137 | Afterwards `framebuffer_size` is (w, h) and `window_rect` is (0, 0, w, h). Exactly one `Resize` event is emitted, and the browser and queue are unchanged. |
| RustGlue.Erase | rust/src/glue.rs:160-173 | Opens https://servo.org/, selects the new browser and closes the one that was current, as three batches appended to the log. The new current id is the one the engine answered for the opened browser. The framebuffer and the pending queue are unchanged. |
| RustGlue.Notify | rust/src/glue.rs:203-275 | `present`→flush, `load_start`→load started, `load_end`→load ended, `history_changed`→the two history calls, and `set_page_title`→one title change. |
| RustGlue.PageTitle | rust/src/glue.rs:273-275 | A present title is passed on unchanged. A missing one becomes "No Title". |
| ServoGlue.Init | servo/src/glue.rs:49-106 | The resources path, then the URL, must be valid UTF-8, or `CantReadStr` is returned with the slot unchanged. A URL that does not parse panics. When both strings are UTF-8 and the URL parses, Ok is returned, and the launched session with the given layout replaces the slot. That session is coherent and its first event opens the URL. |
| ServoGlue.LoadUrl | servo/src/glue.rs:117-126 | Errors cascade: invalid UTF-8 gives `CantReadStr`, then a parse failure gives `CantParseUrl`, and on either the session is untouched. Ok is returned iff both succeed, and then exactly one `LoadUrl` is emitted. |
| ServoGlue.Resize | servo/src/glue.rs:148-153 | The layout is replaced wholesale. Afterwards `framebuffer_size` is the new view size (servo/src/glue.rs:243-246), and exactly one `Resize` is emitted. |
| ServoGlue.Erase | servo/src/glue.rs:176-189 | Opens about:blank, selects the new browser, and closes the previously current id. The new current id is the one the engine answered for the opened browser. The layout and the pending queue are unchanged. |
| ServoGlue.Notify | servo/src/glue.rs:218-309 | `present`→flush, `load_start`→load started, `load_end`→load ended, `history_changed`→the two history calls. `set_page_title` reaches the embedder as nothing. |
| ServoGlue.NotifyAgreesWithRust | servo/src/glue.rs:218-309 | For every notification except a title change, both versions make exactly the same host calls. For a title, this version makes none and the rust version (rust/src/glue.rs:273-275) makes one. |
| Dispatch.Forward | servo/src/api.rs:150-256 | The glue methods reached from the entry points return only Ok, `CantReadStr` or `CantParseUrl`. Only `load_url` can return something other than Ok. |
| Dispatch.Call | servo/src/api.rs:150-158 | With no session in the thread-local slot, every entry point except `stop` returns `WrongThread`. With one, the result is exactly the glue method's. `stop` returns `NotImplemented` either way (servo/src/api.rs:220-223). The slot is never filled or emptied, and `UnexpectedError` is never returned. |
| Dispatch.CallKeepsCoherent | servo/src/api.rs:161-256 | An entry point keeps the session it borrows coherent. |
| Dispatch.RunOnlyBorrows | servo/src/api.rs:150-256 | Across any sequence of calls: a session is neither installed nor removed, and without one the answers are `WrongThread` (`NotImplemented` for `stop`). A coherent session stays coherent, and `UnexpectedError` never appears. |
| RuntimeSettings.NewPref | geckoview/src/main/java/org/mozilla/geckoview/GeckoRuntimeSettings.java:100-106 | A new preference starts at its default and adds one to the owner's preference count. |
| RuntimeSettings.CopyValues | geckoview/src/main/java/org/mozilla/geckoview/GeckoRuntimeSettings.java:154-159 | Each preference keeps its name and default and takes the current value of the source preference at the same position. |
| RuntimeSettings.Construct | geckoview/src/main/java/org/mozilla/geckoview/GeckoRuntimeSettings.java:124-160 | The debug assertion never fires, and every instance has `prefCount` equal to the length of `mPrefs` (3). Without a source, the instance has javaScript on, remote debugging off, web fonts on, no arguments, empty extras and no content-process hint. With a source, it copies the hint, the argument contents, the extras and each preference value. A well-formed source is reproduced exactly. |
| RuntimeSettings.Set | geckoview/src/main/java/org/mozilla/geckoview/GeckoRuntimeSettings.java:108-111 | Setting a preference leaves the hint, arguments and extras alone and keeps the instance well-formed. |
| RuntimeSettings.SetThenGet | geckoview/src/main/java/org/mozilla/geckoview/GeckoRuntimeSettings.java:200-253 | After `setX(flag)`, `getX()` returns `flag`, and the other two preferences read as before. |
| RuntimeSettings.SetConsoleOutputEnabled | geckoview/src/main/java/org/mozilla/geckoview/GeckoRuntimeSettings.java:255-257 | Returns the same settings: every preference reads as before. |
| RuntimeSettings.NewBuilder | geckoview/src/main/java/org/mozilla/geckoview/GeckoRuntimeSettings.java:12-14 | A new builder edits a well-formed instance holding the defaults: javaScript on, remote debugging off, web fonts on, no content-process hint, no arguments and empty extras. |
| RuntimeSettings.BuilderFrom | geckoview/src/main/java/org/mozilla/geckoview/GeckoRuntimeSettings.java:16-18 | A builder made from settings edits an equal copy of them. `new Builder(null)` is the same as `new Builder()`. |
| RuntimeSettings.Build | geckoview/src/main/java/org/mozilla/geckoview/GeckoRuntimeSettings.java:20-22 | `build()` returns a well-formed copy equal to the builder's instance at that moment. |
| RuntimeSettings.Apply | geckoview/src/main/java/org/mozilla/geckoview/GeckoRuntimeSettings.java:24-86 | `arguments(null)` and `extras(null)` throw, and only they do. A throw leaves the builder unchanged. The console, crash-reporting, tracking and display overrides return the builder unchanged. The hint, non-null arguments and non-null extras each replace exactly their own field. Each preference setter sets exactly its own preference. Every method keeps the instance well-formed. |
| RuntimeSettings.BuiltPrefIsLastSet | geckoview/src/main/java/org/mozilla/geckoview/GeckoRuntimeSettings.java:20-58 | After any sequence of builder calls, `build()` reads each preference as the flag of the last setter of it that ran before any throw. If there was no such setter, it reads what the builder started with. |
| RuntimeSettings.BuilderKeepsWellformed | geckoview/src/main/java/org/mozilla/geckoview/GeckoRuntimeSettings.java:20-86 | After any sequence of builder calls the instance is still well-formed, and `build()` returns exactly it. |
| GeckoSession.ForValue | geckoview/src/main/java/org/mozilla/geckoview/GeckoSession.java:103-114 | `forValue(i)` succeeds iff 0 ≤ i < 3, returning the target constructed with value i. Any other index throws. |
| GeckoSession.ForGeckoValue | geckoview/src/main/java/org/mozilla/geckoview/GeckoSession.java:115-129 | `forGeckoValue(i)` succeeds iff 0 ≤ i < 5. The values 2, 3 and 4 all map to NEW. |
| GeckoSession.TargetTablesAgree | geckoview/src/main/java/org/mozilla/geckoview/GeckoSession.java:103-129 | Every target round-trips through its value, and `forGeckoValue` agrees with `forValue` on 0..2. |
| GeckoSession.CategoriesAreDistinctBits | geckoview/src/main/java/org/mozilla/geckoview/GeckoSession.java:88-91 | AD, ANALYTIC, SOCIAL and CONTENT are single bits, pairwise disjoint, and together make 15. |
| GeckoSession.SetThenGetDelegate | geckoview/src/main/java/org/mozilla/geckoview/GeckoSession.java:32-264 | For every delegate slot, get after set returns what was set, and the other slots are unchanged. Re-setting a slot's current delegate changes nothing. |
| GeckoSession.IsOpen | geckoview/src/main/java/org/mozilla/geckoview/GeckoSession.java:267-269 | A session reports itself open, whatever its state. |
| GeckoDisplay.SurfaceChanged | geckoview/src/main/java/org/mozilla/gecko/gfx/GeckoDisplay.java:17-24 | On a display not yet initiated, the call forwards exactly (surface, width, height) to `onSurfaceReady`. Once initiated, it forwards nothing. Either way the display is initiated afterwards. |
| GeckoDisplay.SurfaceDestroyed | geckoview/src/main/java/org/mozilla/gecko/gfx/GeckoDisplay.java:25-27 | The initiated flag is not reset. |
| GeckoDisplay.InitiatedForwardsNothing | geckoview/src/main/java/org/mozilla/gecko/gfx/GeckoDisplay.java:19-21 | Once initiated, a display forwards nothing for any later sequence of callbacks. |
| GeckoDisplay.ForwardsOnlyFirstChange | geckoview/src/main/java/org/mozilla/gecko/gfx/GeckoDisplay.java:10-27 | Over any sequence of callbacks, a new display (initiated false) forwards exactly the first `surfaceChanged`, so `onSurfaceReady` fires at most once. The display ends initiated iff some `surfaceChanged` occurred. |
| GeckoRuntime.GetDefault | geckoview/src/main/java/org/mozilla/geckoview/GeckoRuntime.java:10-15 | Creates a runtime only when there is no default yet. Otherwise it returns the existing default and changes nothing. |
| GeckoRuntime.Create | geckoview/src/main/java/org/mozilla/geckoview/GeckoRuntime.java:20-22 | Returns a runtime with a new identity and leaves the default alone. |
| GeckoRuntime.AttachTo | geckoview/src/main/java/org/mozilla/geckoview/GeckoRuntime.java:17-18 | Changes no state. |
| GeckoRuntime.DefaultIsShared | geckoview/src/main/java/org/mozilla/geckoview/GeckoRuntime.java:10-22 | Over any sequence of calls: every `getDefault` returns the same runtime, and an existing default is never replaced. Every `create` returns a runtime that no other call returns, and that is never the default. |

## Left out

- EGL and GL: `init_with_egl` and `init_with_gl` only set up a GL context and the logger before calling `init`. The GL clearing at the start of `init` is not modelled either.
- `servo_version` in both glue versions: it returns a string from the engine.
- Global side effects of `init`: `set_resources_path` and `opts::set_defaults` change engine configuration that is not visible here. The resources path is only checked for UTF-8.
- Floating point: in servo/src/glue.rs, `size` and `client_window` divide the view size by the `f32` density, and `hidpi_factor` returns the stored density. In rust/src/glue.rs, `hidpi_factor` returns the constant scale 2.0. The `f32` conversions of scroll deltas and click coordinates are also left out; the model keeps the integers, so rounding above 2^24 is not modelled. The layout's `hidpi_factor` is stored as a real number and only handed back.
- `client_window`, `screen_size` and `screen_avail_size` in rust/src/glue.rs. `client_window` returns the framebuffer size at the point (0, 0), and the other two return that size. Nothing in the model depends on them.
- The ipc channel and `receiver.recv().unwrap()`: the engine's answer is the `allocate` oracle, and a failed channel is not modelled.
- The C string that `history_changed` in servo/src/glue.rs leaks to the embedder, and the `CString::new` that would panic on an interior NUL (serialized URLs contain none).
- `CStr::from_ptr` on a null or unterminated pointer is undefined behaviour. A C string is modelled as the bytes before its NUL.
- The remaining `WindowMethods`: `prepare_for_composite` (returns true), `supports_clipboard` (returns false), `gl` and `create_event_loop_waker` (hand back stored handles), `allow_navigation` (always allows), `handle_panic` (logs), and the empty `set_inner_size`, `set_position`, `set_fullscreen_state`, `status`, `load_error`, `head_parsed`, `set_cursor`, `set_favicon` and `handle_key`. The event-loop waker that forwards `wake` to the host's `wakeup` is also left out.
- Nested calls on one thread: every entry point of servo/src/api.rs takes `borrow_mut()` on the thread-local slot. If the embedder calls an entry point from inside a host callback while another entry point holds the session, Rust panics with a `BorrowMutError` instead of returning a `ServoResult`. Such callbacks include `flush`, `on_load_started`, `on_history_changed` and `wakeup`. The model of the entry points assumes calls are never nested this way.
- `TouchState` is declared in servo/src/api.rs and used nowhere. It is declared in the model and nothing more.
- `Pref.flush` and `GeckoRuntimeSettings.flush`: they would call `runtime.setPref`, but `runtime` is never set, so they do nothing.
- RuntimeSettings.Build: later builder calls cannot change an instance that was already built. Values have no identity, so the model cannot express this. What is proved is that `build()` returns a copy equal to the builder's instance at that moment. For the same reason, `arguments(args)` storing the caller's array by reference is not modelled.
- `Bundle` is modelled as a map from strings to strings. Android bundles hold values of any type.
- The empty `GeckoSession` methods (`loadUri`, `preload`, `openWindow`, `closeWindow`, `reload`, `stop`, `goBack`, `goForward`, `setActive`, `importScript`, `exitFullScreen`, `enableTrackingProtection`, `disableTrackingProtection`) have no behaviour to model. The constant-only nested classes of the delegate interfaces are left out too.
- `GeckoDisplay` calls `onSurfaceReady` on its session. GeckoSession.java declares no such method, so the call is recorded rather than followed.
- The `synchronized` on `GeckoRuntime.getDefault` is left out. The model is sequential.
- Logging (`info!`, `debug!`, `Log.d`, rust/src/logs.rs), build and module files.
- ServoSurface.java, ServoLooper.java, GeckoView.java, rust/src/api.rs, JNIServo.java, LibServo.java, GeckoProfile.java, SessionTextInput.java, PanZoomController.java and GeckoSessionSettings.java are not part of this model. They are Android graphics, threading and JNI marshalling, placeholders, or code that is commented out. The JNI dispatchers of rust/src/api.rs follow the same rule as servo/src/api.rs, but discard their result.
