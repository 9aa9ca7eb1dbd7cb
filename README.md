# Flutter engine: external view layout, loader, GL surface and program metadata

This project is a Dafny model of four parts of the Flutter engine, with proofs about them.

- **Fuchsia gfx external view embedder.** This is the layout contract that the test suite of
  `GfxExternalViewEmbedder` checks. The embedder stages one Scenic scene per frame. The scene
  has a root view holding a layer tree, and in that tree image layers (Flutter's own drawing)
  alternate with view layers (embedded platform views). Each layer sits deeper in z than the
  one before it. Only the bottom image layer is hit-testable. The bottom layer uses the
  background opacity and every later image layer uses the overlay opacity. View layers are
  fully opaque and echo the view's size. The model has three parts:
  - `CompositorLayout`: the layout itself, as pure functions, with the depth and role lemmas
    and a `BuildLayerTree` method that lays out a frame.
  - `FakeScenic`: the fake Scenic session and the fake surface producer from the tests, as
    classes with mutable state. Presents are queued and only take effect on `RunUntilIdle`.
    Surfaces register a buffer collection and enqueue an image-create command. Layers can be
    read back out of the staged scene graph.
  - `ViewEmbedder`: the embedder's frame protocol (begin, preroll, composite, end, submit),
    as a class with mutable state that stages a frame into the session. It also holds the
    three test scenarios `RootScene`, `SimpleScene` and `SceneWithOneView`.
- **`ComponentV1::ParseProgramMetadata`** (`ComponentV1`). It reads `data` and `assets`
  entries from the component's program metadata into `pkg/`-prefixed paths. The assets path
  falls back to the data path.
- **`FlutterLoader`** (`Loader`). The Android loader's initialisation guards, the assembly
  of the argument list for the native engine shell, and the asset lookup keys.
- **`GPUSurfaceGL`** (`GpuSurfaceGL`). The onscreen GL surface. It chooses the first colour
  type the context supports, in a fixed order. It creates or reuses the onscreen surface,
  presents it, exposes the early exits of frame acquisition, and keeps the surface's
  validity across construction and destruction.

Skia, the GL delegate, JNI, the Android main-thread check and the initialisation future are
not modelled as code. Their answers are parameters of the methods that call them
(`skiaAccepts`, `makeCurrentOk`, `presentOk`, `onMainThread`, `nativeInitOk`, `initTask`,
...).

### What the model assumes

- The embedder's own implementation file is not part of this model. The frame protocol in
  `ViewEmbedder` is an assumption of this model, not taken from code: the frame states Idle,
  Building, Prerolled and Ended, and the errors usage error, unknown view and duplicate view.
  The tests only drive the calls in order. The layout in `CompositorLayout` follows the
  expectations the tests check.
- How `SubmitFrame` uses the surface producer is also assumed. It produces one surface per
  image layer at the frame's size, queues the present and then hands the surfaces back to the
  producer. The test's producer destroys them, so every buffer collection registered for the
  frame is deregistered again.
- The implementation of `ParseProgramMetadata` is not part of this model. `ParsedPaths` is
  built from what its unit test requires (`component_v1_unittest.cc`):
  - a null metadata vector is read as an empty one, as the test's comment says;
  - for a repeated key, the last entry wins;
  - the assets path takes the data path's value when it is still empty after the walk;
  - the input strings' earlier contents are kept unless an entry overwrites them.

## Model

| member | source | states |
|---|---|---|
| CompositorLayout.BackgroundDepthIsZero | shell/platform/fuchsia/flutter/tests/gfx_external_view_embedder_unittests.cc:244-263 | the first (background) image layer sits at depth 0 |
| CompositorLayout.ViewAboveImage | shell/platform/fuchsia/flutter/tests/gfx_external_view_embedder_unittests.cc:298-311 | a view layer sits one between-layers elevation deeper than the image layer just below it |
| CompositorLayout.ImageAboveView | shell/platform/fuchsia/flutter/tests/gfx_external_view_embedder_unittests.cc:244-256 | an overlay image layer sits one platform-view elevation deeper than the view layer just below it |
| CompositorLayout.DepthStep | shell/platform/fuchsia/flutter/tests/gfx_external_view_embedder_unittests.cc:250-256 | moving up one layer adds the between-layers elevation after an image layer and the platform-view elevation after a view layer |
| CompositorLayout.DepthNonDecreasing | shell/platform/fuchsia/flutter/tests/gfx_external_view_embedder_unittests.cc:250-256 | with non-negative elevations, a higher layer is never shallower |
| CompositorLayout.DepthIncreasing | shell/platform/fuchsia/flutter/tests/gfx_external_view_embedder_unittests.cc:250-256 | with positive elevations, a higher layer is strictly deeper, so no two layers share a depth |
| CompositorLayout.ImageLayerRoles | shell/platform/fuchsia/flutter/tests/gfx_external_view_embedder_unittests.cc:257-263 | an image layer is hit-testable exactly when it is the bottom one; the bottom layer uses the background opacity and the others use the overlay opacity (out of 255) |
| CompositorLayout.FrameLayoutAlternates | shell/platform/fuchsia/flutter/tests/gfx_external_view_embedder_unittests.cc:264-265 | a frame layout has an odd number of layers; the first and last are images; a layer is an image exactly when its index is even; each view layer holds the view at its index and is fully opaque |
| CompositorLayout.NoViewsOneImageLayer | shell/platform/fuchsia/flutter/tests/gfx_external_view_embedder_unittests.cc:545-587 | a frame without views is one hit-testable image layer at depth 0 |
| CompositorLayout.BuildLayerTree | shell/platform/fuchsia/flutter/tests/gfx_external_view_embedder_unittests.cc:244-364 | lays out a frame with n views as 2n+1 layers that meet every image-layer and view-layer expectation |
| FakeScenic.LayersResourceCount | shell/platform/fuchsia/flutter/tests/gfx_external_view_embedder_unittests.cc:187-224 | each staged layer adds at least three resources; the count is zero exactly when there are no layers |
| FakeScenic.ResourceCount | shell/platform/fuchsia/flutter/tests/gfx_external_view_embedder_unittests.cc:226-241 | an empty scene graph has no resources; a rooted one has at least three plus three per layer |
| FakeScenic.ThreeResourcesIffSkeleton | shell/platform/fuchsia/flutter/tests/gfx_external_view_embedder_unittests.cc:231-241 | a rooted scene graph has exactly three resources exactly when its layer tree is empty |
| FakeScenic.AfterPresents | shell/platform/fuchsia/flutter/tests/gfx_external_view_embedder_unittests.cc:525-531 | after processing queued presents, the session shows the last one's debug name and scene, or is unchanged when none were queued |
| FakeScenic.FakeSession.constructor | shell/platform/fuchsia/flutter/tests/gfx_external_view_embedder_unittests.cc:499 | a new session has no debug name, an empty scene graph, nothing queued, no buffer collections and resource ids starting at 1 |
| FakeScenic.FakeSession.SubmitPresent | shell/platform/fuchsia/flutter/tests/gfx_external_view_embedder_unittests.cc:525-526 | a present is queued and the visible scene is not touched |
| FakeScenic.FakeSession.RunUntilIdle | shell/platform/fuchsia/flutter/tests/gfx_external_view_embedder_unittests.cc:528-531 | pumping the loop applies every queued present in order and empties the queue |
| FakeScenic.FakeSession.AllocResourceId | shell/platform/fuchsia/flutter/tests/gfx_external_view_embedder_unittests.cc:60-75 | hands out the next resource id and advances the counter; nothing else changes |
| FakeScenic.FakeSession.RegisterBufferCollection | shell/platform/fuchsia/flutter/tests/gfx_external_view_embedder_unittests.cc:60-75 | adds the buffer id to the registered collections |
| FakeScenic.FakeSession.DeregisterBufferCollection | shell/platform/fuchsia/flutter/tests/gfx_external_view_embedder_unittests.cc:76-79 | removes the buffer id from the registered collections |
| FakeScenic.FakeSession.Enqueue | shell/platform/fuchsia/flutter/tests/gfx_external_view_embedder_unittests.cc:60-79 | appends one command to the session's command list |
| FakeScenic.FakeSurfaceProducerSurface.constructor | shell/platform/fuchsia/flutter/tests/gfx_external_view_embedder_unittests.cc:60-75 | a surface takes a fresh image id, registers its buffer collection and enqueues the image creation with its size and buffer id |
| FakeScenic.FakeSurfaceProducerSurface.Destroy | shell/platform/fuchsia/flutter/tests/gfx_external_view_embedder_unittests.cc:76-79 | destroying a surface deregisters its buffer collection and releases its image |
| FakeScenic.FakeSurfaceProducer.constructor | shell/platform/fuchsia/flutter/tests/gfx_external_view_embedder_unittests.cc:120-128 | buffer ids start at 1 |
| FakeScenic.FakeSurfaceProducer.ProduceSurface | shell/platform/fuchsia/flutter/tests/gfx_external_view_embedder_unittests.cc:120-138 | each produced surface gets a fresh non-zero buffer id not yet registered, and the counter advances by one |
| FakeScenic.FakeSurfaceProducer.SubmitSurfaces | shell/platform/fuchsia/flutter/tests/gfx_external_view_embedder_unittests.cc:130-131 | the surfaces handed back are dropped, so each one's buffer collection is deregistered and its image released, last to first |
| FakeScenic.ExtractLayersFromSceneGraph | shell/platform/fuchsia/flutter/tests/gfx_external_view_embedder_unittests.cc:366-392 | reads back one compositor layer per child of the layer tree, with its index, type and node |
| FakeScenic.ExtractedFrameMeetsExpectations | shell/platform/fuchsia/flutter/tests/gfx_external_view_embedder_unittests.cc:366-392 | layers read back from a staged frame layout are 2n+1 in number; even ones meet the image-layer expectation and odd ones the view-layer expectation of their view |
| ViewEmbedder.IndexOfView | shell/platform/fuchsia/flutter/tests/gfx_external_view_embedder_unittests.cc:413-438 | finds the first prerolled view with the id, or reports that no prerolled view has it |
| ViewEmbedder.GfxExternalViewEmbedder.constructor | shell/platform/fuchsia/flutter/tests/gfx_external_view_embedder_unittests.cc:515-531 | a new embedder has no views, is idle, and has queued one present of a rooted scene with an empty layer tree under its debug name; it takes three distinct fresh resource ids for the root view, the metrics watcher and the layer tree; the registered buffer collections and the surfaces' commands are untouched |
| ViewEmbedder.GfxExternalViewEmbedder.CreateView | shell/platform/fuchsia/flutter/tests/gfx_external_view_embedder_unittests.cc:608-616 | adds a new view id; reports a duplicate view when the id is already live |
| ViewEmbedder.GfxExternalViewEmbedder.DestroyView | shell/platform/fuchsia/flutter/tests/gfx_external_view_embedder_unittests.cc:657-658 | removes a live view id; reports an unknown view otherwise |
| ViewEmbedder.GfxExternalViewEmbedder.BeginFrame | shell/platform/fuchsia/flutter/tests/gfx_external_view_embedder_unittests.cc:398 | from idle, starts building a frame of the given size with no views; anywhere else it is a usage error |
| ViewEmbedder.GfxExternalViewEmbedder.GetRootCanvas | shell/platform/fuchsia/flutter/tests/gfx_external_view_embedder_unittests.cc:400 | the root canvas (layer 0) is available only while a frame is being built or prerolled |
| ViewEmbedder.GfxExternalViewEmbedder.PrerollCompositeEmbeddedView | shell/platform/fuchsia/flutter/tests/gfx_external_view_embedder_unittests.cc:422-423 | while building, appends a live view with its size to the frame; otherwise reports a usage error or an unknown view and the frame is unchanged |
| ViewEmbedder.GfxExternalViewEmbedder.PostPrerollAction | shell/platform/fuchsia/flutter/tests/gfx_external_view_embedder_unittests.cc:401 | ends the preroll phase of a frame being built; anywhere else it is a usage error |
| ViewEmbedder.GfxExternalViewEmbedder.CompositeEmbeddedView | shell/platform/fuchsia/flutter/tests/gfx_external_view_embedder_unittests.cc:427-428 | after preroll, gives the overlay canvas above the view, at the even layer index just after the view's layer; errors when not prerolled or when the view was not prerolled |
| ViewEmbedder.GfxExternalViewEmbedder.EndFrame | shell/platform/fuchsia/flutter/tests/gfx_external_view_embedder_unittests.cc:404 | ends a prerolled frame; anywhere else it is a usage error |
| ViewEmbedder.GfxExternalViewEmbedder.SubmitFrame | shell/platform/fuchsia/flutter/tests/gfx_external_view_embedder_unittests.cc:405-410 | an ended frame queues one present whose scene is the frame's layout and returns to idle; it creates one image per image layer, over consecutive new buffer ids, with fresh and increasing image ids, then releases them last to first, leaving the registered buffer collections as they were; otherwise a usage error and nothing in the session or the producer changes |
| ViewEmbedder.ProduceLayerSurfaces | shell/platform/fuchsia/flutter/tests/gfx_external_view_embedder_unittests.cc:125-129 | produces n surfaces of the frame's size with consecutive buffer and image ids, registers exactly their buffer collections and enqueues their image creations in order |
| ViewEmbedder.DrawSimpleFrame | shell/platform/fuchsia/flutter/tests/gfx_external_view_embedder_unittests.cc:394-411 | a full frame without views queues exactly one present laying out that frame, leaves the embedder idle and the registered buffer collections unchanged |
| ViewEmbedder.DrawFrameWithView | shell/platform/fuchsia/flutter/tests/gfx_external_view_embedder_unittests.cc:413-438 | a full frame with one live view queues exactly one present laying out that frame with the view, leaves the embedder idle and the registered buffer collections unchanged |
| ViewEmbedder.RootScene | shell/platform/fuchsia/flutter/tests/gfx_external_view_embedder_unittests.cc:515-543 | before the loop runs the session is empty and unnamed; afterwards it shows the rooted scene skeleton under the name "RootScene" |
| ViewEmbedder.SimpleScene | shell/platform/fuchsia/flutter/tests/gfx_external_view_embedder_unittests.cc:545-587 | a 512x512 frame without views stages the root scene and exactly one image layer that meets the image expectation |
| ViewEmbedder.SceneWithOneView | shell/platform/fuchsia/flutter/tests/gfx_external_view_embedder_unittests.cc:589-662 | a frame with one 256x512 view stages image, view and image layers, each meeting its expectation |
| ComponentV1.LastValue | shell/platform/fuchsia/flutter/component_v1_unittest.cc:42-47 | the value found for a key belongs to an entry with that key; nothing is found exactly when no entry has the key |
| ComponentV1.ParseProgramMetadata | shell/platform/fuchsia/flutter/component_v1_unittest.cc:12-48 | the loop over the entries computes the data and assets paths given by the parsing rules |
| ComponentV1.NullMetadataGivesEmptyPaths | shell/platform/fuchsia/flutter/component_v1_unittest.cc:18-21 | null metadata leaves both paths empty |
| ComponentV1.EmptyIsLikeNull | shell/platform/fuchsia/flutter/component_v1_unittest.cc:24-29 | an empty metadata vector is treated the same as a null one, for any earlier path contents |
| ComponentV1.AssetsDefaultsToData | shell/platform/fuchsia/flutter/component_v1_unittest.cc:32-37 | with only a data entry, both paths are the package-prefixed data value |
| ComponentV1.ExplicitAssetsIndependentOfData | shell/platform/fuchsia/flutter/component_v1_unittest.cc:42-47 | an assets entry fixes the assets path to its package-prefixed value, whatever the data entries or earlier contents |
| ComponentV1.KnownEntries | shell/platform/fuchsia/flutter/component_v1_unittest.cc:42-47 | keeps only data and assets entries, each as many times as the input holds it |
| ComponentV1.LastValueOfKnown | shell/platform/fuchsia/flutter/component_v1_unittest.cc:42-47 | dropping entries with other keys does not change the value found for the data or assets key |
| ComponentV1.UnknownKeysIgnored | shell/platform/fuchsia/flutter/component_v1_unittest.cc:42-47 | entries with keys other than data and assets have no effect on the result |
| ComponentV1.ThreeEntryExample | shell/platform/fuchsia/flutter/component_v1_unittest.cc:42-47 | an unknown, a data and an assets entry give pkg/bar and pkg/baz |
| ComponentV1.ParseProgramMetadataTest | shell/platform/fuchsia/flutter/component_v1_unittest.cc:12-48 | the test's sequence of calls on reused strings yields empty, empty, pkg/foobar twice, then pkg/bar and pkg/baz |
| Loader.NatToString | shell/platform/android/io/flutter/embedding/engine/loader/FlutterLoader.java:294 | a natural prints as a non-empty string of decimal digits |
| Loader.NatToStringRoundTrip | shell/platform/android/io/flutter/embedding/engine/loader/FlutterLoader.java:294 | reading the printed digits back gives the number |
| Loader.IntToString | shell/platform/android/io/flutter/embedding/engine/loader/FlutterLoader.java:294 | an integer prints as a non-empty string |
| Loader.IntToStringRoundTrip | shell/platform/android/io/flutter/embedding/engine/loader/FlutterLoader.java:294 | parsing the printed int gives it back, negative values included |
| Loader.IntToStringInjective | shell/platform/android/io/flutter/embedding/engine/loader/FlutterLoader.java:294 | different heap sizes give different heap-size arguments |
| Loader.FullAssetPathFrom | shell/platform/android/io/flutter/embedding/engine/loader/FlutterLoader.java:426-428 | the full path is the assets directory, one separator, then the file path |
| Loader.GetLookupKeyForAsset | shell/platform/android/io/flutter/embedding/engine/loader/FlutterLoader.java:400-403 | the lookup key is the asset under the assets directory |
| Loader.GetLookupKeyForPackageAsset | shell/platform/android/io/flutter/embedding/engine/loader/FlutterLoader.java:414-417 | a package asset's key is the assets directory, then packages, then the package name, then the asset, joined by separators |
| Loader.LookupKeyInjective | shell/platform/android/io/flutter/embedding/engine/loader/FlutterLoader.java:400-403 | different assets have different lookup keys |
| Loader.PackageLookupKeyInjective | shell/platform/android/io/flutter/embedding/engine/loader/FlutterLoader.java:414-417 | for package names without a separator, equal package-asset keys mean the same package and asset |
| Loader.SplitAtFirstSeparator | shell/platform/android/io/flutter/embedding/engine/loader/FlutterLoader.java:414-417 | a path joined at a separator-free first component splits back uniquely |
| Loader.BuildShellArgs | shell/platform/android/io/flutter/embedding/engine/loader/FlutterLoader.java:225-300 | builds the shell argument list and the kernel path given by the assembly rules |
| Loader.AddAll | shell/platform/android/io/flutter/embedding/engine/loader/FlutterLoader.java:233-235 | the caller's arguments are appended in order |
| Loader.AddModeArgs | shell/platform/android/io/flutter/embedding/engine/loader/FlutterLoader.java:237-267 | appends the build-mode arguments and returns the kernel path of that mode |
| Loader.AddTailArgs | shell/platform/android/io/flutter/embedding/engine/loader/FlutterLoader.java:269-300 | appends the cache, policy, log-tag, heap, font-manager and SkParagraph arguments |
| Loader.ShellArgsBeginWithIcuThenCallerArgs | shell/platform/android/io/flutter/embedding/engine/loader/FlutterLoader.java:225-235 | the list starts with the ICU symbol prefix, then the ICU library path in the native library directory, then the caller's arguments unchanged |
| Loader.KernelBuildArgs | shell/platform/android/io/flutter/embedding/engine/loader/FlutterLoader.java:237-245 | in debug or JIT-release builds, the kernel blob lies in the assets directory under the data directory; the first engine arguments name the snapshot asset path and both snapshot data files; no AOT library argument appears |
| Loader.AotBuildArgs | shell/platform/android/io/flutter/embedding/engine/loader/FlutterLoader.java:246-267 | in AOT builds there is no kernel path; the AOT library is passed by name, then by full path under the same flag, and nowhere else |
| Loader.VmServiceArgOnlyInProfile | shell/platform/android/io/flutter/embedding/engine/loader/FlutterLoader.java:263-266 | the VM service snapshot library argument appears exactly in AOT profile builds |
| Loader.VmServiceArgPosition | shell/platform/android/io/flutter/embedding/engine/loader/FlutterLoader.java:246-266 | when present, the VM service argument directly follows the two AOT library arguments |
| Loader.AlwaysPresentTailArgs | shell/platform/android/io/flutter/embedding/engine/loader/FlutterLoader.java:269-296 | every list has the cache directory, the old-generation heap size and the prefetched font manager arguments |
| Loader.OldGenHeapSizeFallsBack | shell/platform/android/io/flutter/embedding/engine/loader/FlutterLoader.java:283-294 | the heap size is the metadata value when it is non-zero; with no metadata or a zero it falls back to the default (half the total memory) |
| Loader.LogTagArgIffTag | shell/platform/android/io/flutter/embedding/engine/loader/FlutterLoader.java:273-274 | among the loader's own arguments, a log-tag argument appears exactly when the settings carry a log tag, and carries that tag |
| Loader.DomainNetworkPolicyArgIffPolicy | shell/platform/android/io/flutter/embedding/engine/loader/FlutterLoader.java:270-271 | among the loader's own arguments, a domain network policy argument appears exactly when the application info carries one, and carries that policy |
| Loader.SkParagraphArgIffSwitch | shell/platform/android/io/flutter/embedding/engine/loader/FlutterLoader.java:298-299 | the SkParagraph switch appears exactly when the metadata enables it |
| Loader.FlutterLoader.constructor | shell/platform/android/io/flutter/embedding/engine/loader/FlutterLoader.java:85-109 | a new loader is not initialised and has no settings, application info or pending initialisation |
| Loader.FlutterLoader.StartInitialization | shell/platform/android/io/flutter/embedding/engine/loader/FlutterLoader.java:131-197 | a second call does nothing; off the main thread it throws and changes nothing; otherwise it stores the settings, then the application info, then the initialisation task's future; a throw while loading the info, setting up the display and VSync waiter or submitting the task stops at that point and leaves no future |
| Loader.FlutterLoader.EnsureInitializationComplete | shell/platform/android/io/flutter/embedding/engine/loader/FlutterLoader.java:207-319 | returns at once when initialised; otherwise it throws when off the main thread, then when never started, then when there is no future or the initialisation task failed, then when the application's metadata cannot be looked up; else it calls native init with the assembled arguments and kernel path and is initialised exactly when that call succeeds |
| Loader.FlutterLoader.EnsureInitializationCompleteAsync | shell/platform/android/io/flutter/embedding/engine/loader/FlutterLoader.java:325-341 | throws off the main thread, then when never started; when already initialised it posts the callback, otherwise it schedules the completion in the background |
| Loader.FlutterLoader.RunScheduledCompletion | shell/platform/android/io/flutter/embedding/engine/loader/FlutterLoader.java:342-357 | when there is no future or the initialisation task failed nothing is posted; otherwise it completes initialisation on the main thread and posts the callback exactly when the loader ends up initialised |
| GpuSurfaceGL.FirstSupportedColorType | shell/gpu/gpu_surface_gl.cc:116-127 | picks the first supported colour type in the order RGBA8888, ARGB4444, RGB565, with its GL format; Unknown exactly when none is supported, with the format left unchanged |
| GpuSurfaceGL.WrapOnscreenSurface | shell/gpu/gpu_surface_gl.cc:129-157 | a surface exists exactly when Skia accepts the render target; it has the requested size, framebuffer and the first supported colour type |
| GpuSurfaceGL.GPUSurfaceGL.constructor | shell/gpu/gpu_surface_gl.cc:70-88 | a surface over a given context does not own the context; it is valid exactly when the context exists and can be made current |
| GpuSurfaceGL.GPUSurfaceGL.OwningContext | shell/gpu/gpu_surface_gl.cc:38-68 | a surface that makes its own context owns it; it is valid exactly when the context was made and can be made current |
| GpuSurfaceGL.GPUSurfaceGL.Destroy | shell/gpu/gpu_surface_gl.cc:90-109 | nothing happens unless the surface is valid and the context can be made current; then the onscreen surface and framebuffer id are released, the context is dropped and abandoned exactly when the surface owns it |
| GpuSurfaceGL.GPUSurfaceGL.CreateOrUpdateSurfaces | shell/gpu/gpu_surface_gl.cc:159-200 | a surface of the same size is kept; an empty size fails; otherwise a new surface over the delegate's framebuffer replaces the old one, and a refused wrap fails and leaves no surface |
| GpuSurfaceGL.GPUSurfaceGL.PresentSurface | shell/gpu/gpu_surface_gl.cc:254-293 | fails without a delegate, canvas or context, or when the delegate's present fails; otherwise it succeeds, and when the delegate reset the framebuffer the surface is rewrapped over the new one |
| GpuSurfaceGL.GPUSurfaceGL.AcquireFrame | shell/gpu/gpu_surface_gl.cc:208-252 | no frame without a delegate or when the context cannot be made current; when not rendering to a surface, a frame without a surface; otherwise a frame exactly when the onscreen surface can be created at the transformed size |

## Left out

- The embedder's behaviour on calls out of order is assumed, not taken from code (see "What
  the model assumes").
- The embedder's presentation scheduling, `OnFramePresented` events and the present budget
  are not modelled. The model's session applies every queued present when the loop is
  pumped.
- ViewEmbedder.GfxExternalViewEmbedder.DestroyView: only removes the view id. Its effect on
  the staged scene graph is not specified by the tests and is not modelled.
- Koids, view tokens, view refs, FIDL channels and the colour of view bounds are left out;
  views are identified by integer ids.
- Depths, sizes and opacities use exact real arithmetic; 32-bit float rounding is not
  modelled.
- ViewEmbedder.GfxExternalViewEmbedder.constructor: the model's session command list holds only
  the fake surfaces' image commands. The embedder's own resource creations and scene edits are
  modelled as the scene graph of its present. The embedder's implementation is not part of this
  model, so the contract promises only that the three skeleton resources take fresh ids, not
  how many ids construction uses.
- ViewEmbedder.GfxExternalViewEmbedder.SubmitFrame: the ids of the embedder's own per-layer
  resources (shape nodes, materials, view holders) are not modelled. The contract promises
  that the frame's image ids are fresh and increasing, not their values. The command list
  holds only the surfaces' commands, as for the constructor.
- FakeScenic.FakeSurfaceProducer.SubmitSurfaces: C++ leaves open the order in which a vector's
  destructor destroys its elements. The model releases the images last to first, as libc++
  does.
- FakeScenic.FakeSurfaceProducer.ProduceSurface: buffer ids are unbounded; the `uint32`
  wrap-around of the fake's counter is not modelled.
- `ParseProgramMetadata`'s implementation file is not part of this model. The behaviour is
  taken from its unit test.
- Loader.FlutterLoader.StartInitialization: the work done by the initialisation task is not
  modelled. That work is resource extraction, loading the native library, prefetching the
  font manager and waiting for the extraction. The task's outcome is an input. So are the
  outcomes of the synchronous steps before it: loading the application info, the display and
  VSync waiter setup, and submitting the task.
- Loader.FlutterLoader.EnsureInitializationComplete: the metadata bundle, the build
  configuration, the default heap size (`totalMem / 1e6 / 2`), whether the package manager's
  metadata lookup succeeds, the outcome of `flutterJNI.init` and the timing value passed to it
  are inputs. Java's 32-bit `int` for the metadata heap
  size is not modelled.
- The tracing sections, logging, static `instance`, `initialized()` accessor,
  `findAppBundlePath` and `automaticallyRegisterPlugins` of `FlutterLoader` are trivial
  accessors or side effects and are not modelled.
- Loader.GetLookupKeyForAsset: the assets directory is a parameter rather than the loaded
  application info field.
- `GPUSurfaceGL::MakeGLContext`'s Skia context options and cache limits are not modelled.
  Only whether a context was made is an input.
- `GetRootTransformation`, `GetContext`, `MakeRenderContextCurrent`, `ClearRenderContext` and
  `AllowsDrawingWhenGpuDisabled` are one-line delegations and are not modelled. So are the
  canvas matrix setup and the flush in the frame callback.
- GpuSurfaceGL.GPUSurfaceGL.AcquireFrame: the root transformation's `mapRect` is replaced by
  the already-transformed size as an input.
- The GL delegate pointer is a flag. The fields the class header initialises (not valid,
  framebuffer 0, no surface) are the constructors' starting values.
