# Rive for Unreal: a Dafny model of the plugin core

This project models the parts of the Rive Unreal Engine plugin that decide
things on their own, without the engine or the Rive runtime doing the work:

- **Game-thread bookkeeping.**
  - The command builder numbers requests with a uint64 counter and collects
    per-frame callbacks and per-render-target draw lists.
  - The file asset loads a `.riv` file and fills its artboard, enum and
    view-model definitions as the runtime lists them. It broadcasts
    data-ready once all four kinds of data have arrived.
  - A view model requests the default value of every property and
    broadcasts once all of them are answered.
  - Each view-model instance keeps a property-wrapper cache keyed by name
    and type suffix, plus a list of callback properties.
  - Each enum property validates the values it is given.
- **Renderer-side state.**
  - A render path has dirty bits for its cached bounds and unique id.
  - A paint has a type that follows its colour, gradient or image source.
  - Gradient data lives in an inline buffer or on the heap.
  - The log keeps an indentation string.
  - The render context chooses an image decoder, maps shader features to
    shader permutations, creates render buffers and clamps texture sizes.
  - A command-line value chooses the renderer's capability overrides.
- **Helpers.**
  - Asset-path search.
  - Object-name sanitising.
  - Alignment, fit and data-type conversions.
  - Render-target resizing.
- **The native build script.**
  - Which libraries it copies and under which names.
  - Which tool-output lines it treats as errors.
  - How it renames iOS simulator archives.

Each Dafny module that models plugin code follows one C++ class, its header
and its source file, with one exception: `DataTypes` gathers the property
data types of `RiveInternalTypes.h` and the conversions to and from them that
`RiveViewModel.cpp` and `RiveFile.cpp` define. `AsciiText`, `FixedWidth` and `Wrappers` are shared helpers that model
Unreal's case folding, C++ fixed-width arithmetic and optional results.
Objects whose fields the C++ code
updates in place are classes with `modifies` frames. Conversions and lookups
are functions, with lemmas about them. The command queue and the Rive runtime
are outside the model:
- the calls the builder forwards are recorded in `CommandBuilder.FRiveCommandBuilder.Sent`, and the callbacks it queues to run once in `Commands`;
- what they answer (listings, responses, whether a creation succeeded) comes in as parameters;
- the draw keys the queue allocates are modelled by the builder's own counter.

Unreal's `FString` comparisons, `TArray<FString>::Contains` and `TMap`
string keys ignore case. They are modelled with ASCII case folding
(`AsciiText`). The C++ fixed-width arithmetic the code depends on is written
out in `FixedWidth`:
- the uint64 `++` wraps around;
- `static_cast<int32_t>` keeps the low 32 bits.

## Model

| member | source | states |
|---|---|---|
| FixedWidth.Inc | Source/RiveRenderer/Public/RiveCommandBuilder.h:696 | `++` on the uint64 request counter adds one below the maximum and wraps to 0 at it |
| FixedWidth.IncTimesAddsModulo | Source/RiveRenderer/Public/RiveCommandBuilder.h:696 | n numbered requests in a row advance the uint64 request counter by n modulo 2^64 |
| FixedWidth.Int32Of | Source/RiveRenderer/Private/Platform/RenderContextRHIImpl.cpp:1085 | `static_cast<int32_t>` of an unsigned value lies in the int32 range, is congruent to it modulo 2^32 and is the value itself below 2^31 |
| AssetHelpers.GetUnrealType | Source/Rive/Private/Rive/Assets/RiveAssetHelpers.cpp:91-106 | a key maps to an asset type other than None iff it is 103, 105, 141 or 406, and then to the type whose key it is |
| AssetHelpers.UnrealTypeRoundTrip | Source/Rive/Private/Rive/Assets/RiveAssetHelpers.cpp:91-106 | GetUnrealType inverts RiveTypeKey on the four supported types, and every key other than 103, 105, 141 and 406 maps to None |
| AssetHelpers.Decimal | Source/Rive/Private/Rive/Assets/RiveAssetHelpers.cpp:16-19 | the `%u` text of an id is a non-empty string of digits whose decimal value is the id, with no leading zero unless the id is 0 |
| AssetHelpers.DecimalInjective | Source/Rive/Private/Rive/Assets/RiveAssetHelpers.cpp:16-19 | distinct ids give distinct `%u` texts |
| AssetHelpers.CandidatePaths | Source/Rive/Private/Rive/Assets/RiveAssetHelpers.cpp:13-21 | two candidates per extension, in extension order: first `<path>-<id>.<ext>`, then `<path>.<ext>` |
| AssetHelpers.AssetPaths | Source/Rive/Private/Rive/Assets/RiveAssetHelpers.cpp:7-24 | the loop returns exactly the candidate list CandidatePaths describes |
| AssetHelpers.IdQualifiedPathFirst | Source/Rive/Private/Rive/Assets/RiveAssetHelpers.cpp:13-21 | when the id-qualified path of the first extension exists, it is the candidate chosen |
| AssetHelpers.FirstExisting | Source/Rive/Private/Rive/Assets/RiveAssetHelpers.cpp:70-79 | the result is the first candidate that exists, and no earlier candidate exists; None means that no candidate exists |
| AssetHelpers.FindDiskAsset | Source/Rive/Private/Rive/Assets/RiveAssetHelpers.cpp:33-89 | the asset is found iff its type has an extension list and some candidate path exists; when nothing is found the asset path is unchanged; when something is found the asset path is the first existing candidate |
| BuildRive.WithExtension | Scripts/build-rive/build-rive.py:330-331 | an explicit file list selects each name with the extension appended, in list order |
| BuildRive.EndingWith | Scripts/build-rive/build-rive.py:332-333 | without a list, exactly the listed entries that end in the extension are selected, each as often as it is listed |
| BuildRive.CopyFiles | Scripts/build-rive/build-rive.py:317-342 | nothing is copied iff the source directory is missing; otherwise the selected names are copied in order under their destination names, and the copy completes iff every selected name is in the source directory; at the first missing name the copy raises after the names before it |
| BuildRive.ListingSelectionNeverMissing | Scripts/build-rive/build-rive.py:331-334 | without an explicit list every selected name comes from the listing, so such a copy never raises |
| BuildRive.ReplaceAllWithoutOccurrence | Scripts/build-rive/build-rive.py:340 | `str.replace` leaves a name unchanged when the pattern does not occur in it |
| BuildRive.DebugNameOfPlainLibrary | Scripts/build-rive/build-rive.py:340 | a debug copy of `base + ext`, where ext occurs only at the end, is named `base + "_d" + ext` |
| BuildRive.RenamedLibrariesStartWithRive | Scripts/build-rive/build-rive.py:336-338 | on a host that is not macOS, outside an Android destination and with renaming asked for, every release library's destination name starts with `rive`; a name already starting with `rive` never gets a second prefix; on macOS, for Android or without renaming the name is kept |
| BuildRive.ExplicitSelection | Scripts/build-rive/build-rive.py:330-331 | a name is selected from an explicit list iff it is a listed name followed by the extension |
| BuildRive.ListingSelection | Scripts/build-rive/build-rive.py:332-333 | a name is selected from a listing iff it is listed and ends in the extension |
| BuildRive.ExecuteCommand | Scripts/build-rive/build-rive.py:383-417 | the script raises iff some stdout line is an error line, or iff stderr on macOS holds something other than the two known-harmless messages |
| BuildRive.ZeroErrorSummaryIsNotAnError | Scripts/build-rive/build-rive.py:401-403 | a line that contains "0 Error" or "Structured output" never counts as an error |
| BuildRive.UpperCaseErrorCounts | Scripts/build-rive/build-rive.py:401-403 | the " error" test ignores case, so " ERROR" counts too |
| BuildRive.SimulatorName | Scripts/build-rive/build-rive.py:226 | the simulator name keeps the stem and ends in `.sim.a` |
| BuildRive.SimulatorNameInjective | Scripts/build-rive/build-rive.py:226 | distinct archives get distinct simulator names |
| BuildRive.RenameSimulatorArchives | Scripts/build-rive/build-rive.py:215-232 | afterwards the directory holds the non-archive files plus the simulator name of every archive that was not already a stale `.sim.a` |
| CommandBuilder.IdsIncreaseUntilWrap | Source/RiveRenderer/Public/RiveCommandBuilder.h:581-651 | until the counter wraps, request ids are strictly increasing, so no two requests share an id |
| CommandBuilder.IdWrapsAfterLargest | Source/RiveRenderer/Public/RiveCommandBuilder.h:581-651 | the 2^64-th request receives id 0 |
| CommandBuilder.FRiveCommandBuilder.constructor | Source/RiveRenderer/Public/RiveCommandBuilder.h:696 | a new builder has no callbacks, no draw lists, no cached images and the counter at 0 |
| CommandBuilder.FRiveCommandBuilder.Reset | Source/RiveRenderer/Public/RiveCommandBuilder.h:63-67 | callbacks and draw lists are emptied; the counter and the image cache stay |
| CommandBuilder.FRiveCommandBuilder.NextRequestId | Source/RiveRenderer/Public/RiveCommandBuilder.h:581-651 | the new id is the wrapped increment of the counter, and it is recorded as issued |
| CommandBuilder.FRiveCommandBuilder.Request | Source/RiveRenderer/Public/RiveCommandBuilder.h:84-88 | a numbered request takes the next id and sends the call with that id |
| CommandBuilder.FRiveCommandBuilder.Create | Source/RiveRenderer/Public/RiveCommandBuilder.h:69-82 | a create or load call takes an id iff the caller asks for one; otherwise the counter is untouched |
| CommandBuilder.FRiveCommandBuilder.GetPropertyValue | Source/RiveRenderer/Public/RiveCommandBuilder.h:235-280 | boolean, string, enum, number and colour properties get a numbered value request; for every other type nothing is sent and -1 is returned |
| CommandBuilder.FRiveCommandBuilder.RunOnce | Source/RiveRenderer/Private/RiveCommandBuilder.cpp:78-81 | the callback is appended to the frame's callbacks |
| CommandBuilder.FRiveCommandBuilder.SetViewModelImage | Source/RiveRenderer/Private/RiveCommandBuilder.cpp:26-76 | a cached texture is set with a numbered request; an uncached one queues a create-image callback and returns -1 without taking an id |
| CommandBuilder.FRiveCommandBuilder.CompleteRenderImage | Source/RiveRenderer/Private/RiveCommandBuilder.cpp:56-65 | the new image is cached for its texture and then set with a numbered request |
| CommandBuilder.FRiveCommandBuilder.FindOrAddDrawCommands | Source/RiveRenderer/Public/RiveCommandBuilder.h:671-678 | an existing target keeps its command set; a new target gets an empty list and a fresh draw key that no other target has |
| CommandBuilder.FRiveCommandBuilder.EnqueueDraw | Source/RiveRenderer/Private/RiveCommandBuilder.cpp:94-111 | the draw is appended to its target's list and no other target's list changes |
| CommandBuilder.FRiveCommandBuilder.AppendDraw | Source/RiveRenderer/Private/RiveCommandBuilder.cpp:99-100 | the entry goes at the end of the target's existing list, under the same key, and every other target is untouched |
| CommandBuilder.DrawBatches | Source/RiveRenderer/Private/RiveCommandBuilder.cpp:144-204 | there is one draw batch per render target, and the i-th batch carries the i-th target's key and draw list |
| CommandBuilder.FRiveCommandBuilder.Execute | Source/RiveRenderer/Private/RiveCommandBuilder.cpp:144-204 | one batch runs the queued callbacks in order; then each target is drawn under its own key, in the order the targets were added |
| DataTypes.RiveDataTypeToDataType | Source/Rive/Private/Rive/RiveViewModel.cpp:18-46 | no plugin type maps to the runtime's integer or symbol-list-index kinds |
| DataTypes.DataTypeRoundTrip | Source/Rive/Private/Rive/RiveFile.cpp:41-73 | RiveDataTypeFromDataType and RiveDataTypeToDataType are inverse on their domains, so the plugin-to-runtime conversion is injective |
| DataTypes.CodeInjective | Source/Rive/Public/RiveInternalTypes.h:7-20 | the enumerator values are distinct, and the types below Trigger are None through EnumType |
| DebugLogger.IndentLength | Source/RiveRenderer/Private/Logs/RiveRendererLog.h:13-24 | the indentation for n levels is 3n characters long |
| DebugLogger.CurrentThread | Source/RiveRenderer/Private/Logs/RiveRendererLog.h:39-54 | the thread name is chosen by a first-match test: game thread, then RHI thread, then render thread, else unknown |
| DebugLogger.FDebugLogger.constructor | Source/RiveRenderer/Private/Logs/RiveRendererLog.h:10-19 | the logger starts at level 0 with empty indentation |
| DebugLogger.FDebugLogger.Indent | Source/RiveRenderer/Private/Logs/RiveRendererLog.h:20-24 | the level rises by one and ".  " is appended; the string stays 3 characters per level |
| DebugLogger.FDebugLogger.UnIndent | Source/RiveRenderer/Private/Logs/RiveRendererLog.h:25-30 | the level falls by one and the last 3 characters are removed |
| DebugLogger.FDebugLogger.ScopeLogIndent | Source/RiveRenderer/Private/Logs/RiveRendererLog.h:57-62 | entering and leaving a scope restores the level and the string |
| GradData.FUnrealRiveGradData.Empty | Source/RiveCore/Private/Core/UnrealRiveGradient.h:39-43 | default-constructed gradient data holds nothing |
| GradData.FUnrealRiveGradData.constructor | Source/RiveCore/Private/Core/UnrealRiveGradient.h:45-50 | the data is copied; it is inline iff it has at most 4 elements, and otherwise sits in a new heap array of exactly that size |
| GradData.FUnrealRiveGradData.Move | Source/RiveCore/Private/Core/UnrealRiveGradient.h:52-66 | inline data is copied into the new object's buffer; heap data changes owner and the source falls back to its inline buffer |
| GradData.FUnrealRiveGradData.Freed | Source/RiveCore/Private/Core/UnrealRiveGradient.h:68-74 | the destructor never frees the inline buffer, and frees the heap array exactly when one is held |
| GradData.MoveTransfersOwnership | Source/RiveCore/Private/Core/UnrealRiveGradient.h:52-74 | after a move out of heap storage, only the new owner frees the array, and it holds the original data |
| InstanceEnum.URiveViewModelInstanceEnum.GetValue | Source/Rive/Private/Rive/ViewModel/RiveViewModelInstanceEnum.cpp:7-22 | the runtime's value, or "" without a runtime |
| InstanceEnum.URiveViewModelInstanceEnum.GetValues | Source/Rive/Private/Rive/ViewModel/RiveViewModelInstanceEnum.cpp:50-73 | the runtime's options in order, or none without a runtime |
| InstanceEnum.URiveViewModelInstanceEnum.SetValue | Source/Rive/Private/Rive/ViewModel/RiveViewModelInstanceEnum.cpp:24-48 | as written: a value that matches an option, ignoring case, is set in the caller's casing; anything else changes nothing |
| InstanceEnum.URiveViewModelInstanceEnum.SetValueExact | Source/Rive/Private/Rive/ViewModel/RiveViewModelInstanceEnum.cpp:24-48 | only an exact option is set, so a runtime that holds one of its options keeps holding one |
| InstanceEnum.ExactIsStricter | Source/Rive/Private/Rive/ViewModel/RiveViewModelInstanceEnum.cpp:41-45 | every value accepted exactly is also accepted by the as-written test |
| InstanceEnum.ExactAcceptsOnlyOptions | Source/Rive/Private/Rive/ViewModel/RiveViewModelInstanceEnum.cpp:41-47 | the exact test accepts a value iff it is one of the options |
| InstanceEnum.AsWrittenAcceptsOtherCasing | Source/Rive/Private/Rive/ViewModel/RiveViewModelInstanceEnum.cpp:41-47 | "LEFT" passes the as-written test against the options ["left"] but is not an option |
| RenderContext.DecoderFor | Source/RiveRenderer/Private/Platform/RenderContextRHIImpl.cpp:812-848 | fewer than 4 bytes give no texture; a PNG header goes to Unreal's PNG decoder and a JPEG header to its JPEG decoder; the WebP fingerprint goes to rive's decoder; no decoder is chosen iff the input is short or matches no fingerprint |
| RenderContext.DecoderDependsOnHeaderOnly | Source/RiveRenderer/Private/Platform/RenderContextRHIImpl.cpp:822-843 | inputs that share their first four bytes get the same decoder |
| RenderContext.PixelPermutationFor | Source/RiveRenderer/Private/Platform/RenderContextRHIImpl.cpp:151-168 | fixed-function colour output is on exactly when advanced blending is off; advanced blending follows the feature; typed UAV loads follow the RHI capability |
| RenderContext.VertexPermutationFor | Source/RiveRenderer/Private/Platform/RenderContextRHIImpl.cpp:142-149 | the vertex permutation's advanced-blend flag follows the feature |
| RenderContext.PixelPermutationKeepsFeatures | Source/RiveRenderer/Private/Platform/RenderContextRHIImpl.cpp:151-168 | the feature set can be read back from the pixel permutation, so distinct feature sets get distinct permutations |
| RenderContext.PermutationsAgree | Source/RiveRenderer/Private/Platform/RenderContextRHIImpl.cpp:142-168 | the vertex and pixel permutations agree on clip, clip rect, advanced blend and feather |
| RenderContext.MakeRenderBuffer | Source/RiveRenderer/Private/Platform/RenderContextRHIImpl.cpp:1062-1075 | a zero-sized buffer is null; otherwise type, flags and size are kept, and the stride is 2 for index buffers and 0 for the others |
| RenderContext.AtLeastOne | Source/RiveRenderer/Private/Platform/RenderContextRHIImpl.cpp:1082 | `std::max(1u, n)` is at least 1 and at least n, and is n itself when n is positive |
| RenderContext.RenderContextRHIImpl.ResizeGradientTexture | Source/RiveRenderer/Private/Platform/RenderContextRHIImpl.cpp:1077-1091 | the extent is the int32 cast of the width and of the height raised to at least 1 |
| RenderContext.RenderContextRHIImpl.ResizeTessellationTexture | Source/RiveRenderer/Private/Platform/RenderContextRHIImpl.cpp:1094-1109 | the extent is the int32 cast of the width and of the height raised to at least 1 |
| RenderContext.RenderContextRHIImpl.ResizeAtlasTexture | Source/RiveRenderer/Private/Platform/RenderContextRHIImpl.cpp:1111-1130 | both sides are raised to at least 1 before the int32 cast |
| RenderOverride.OverridesFor | Source/RiveRenderer/Private/Platform/RiveRenderer.cpp:194-217 | "atomics" selects pixel-shader UAVs, "raster" selects raster order views and "msaa" selects neither, in any casing; a missing or unknown value keeps the defaults |
| RenderOverride.OverridesIgnoreCase | Source/RiveRenderer/Private/Platform/RiveRenderer.cpp:201 | lower-casing the value first selects the same overrides |
| RenderOverride.OverridesKeywordsDistinct | Source/RiveRenderer/Private/Platform/RiveRenderer.cpp:201-216 | the three keywords select three different capability sets |
| RenderOverride.FRiveRenderer.CreateRenderContext | Source/RiveRenderer/Private/Platform/RiveRenderer.cpp:182-220 | a Null RHI gets no render context; any other RHI gets one built with the overrides the command line selects |
| RiveFileMeta.FindViewModelDefinition | Source/Rive/Public/Rive/RiveFile.h:60-71 | the result is the first definition whose name matches, ignoring case; None means that no definition matches |
| RiveFileMeta.FindArtboardByName | Source/Rive/Public/Rive/RiveFile.h:73-88 | the result is the first artboard whose name matches, ignoring case; None means that no artboard matches |
| RiveFileMeta.GetArtboardDefinition | Source/Rive/Public/Rive/RiveFile.h:73-88 | an empty name picks the first artboard when there is one; otherwise the lookup is by name |
| RiveFileMeta.InstanceEnumEntries | Source/Rive/Private/Rive/RiveFile.cpp:1034-1053 | Blank is 0, Default is 1 and the i-th instance is i + 2; every entry's value is its position |
| RiveFileMeta.InstanceEnumName | Source/Rive/Private/Rive/RiveFile.cpp:1012-1018 | the enum name joins the sanitised view-model name and the sanitised file name under the fixed prefix |
| RiveFileMeta.URiveFile.ReadyImpliesHasData | Source/Rive/Public/Rive/RiveFile.h:91-99 | when data-ready can fire, GetHasData holds; GetHasData can hold while instance defaults are still pending |
| RiveFileMeta.URiveFile.CheckShouldBroadcastDataReady | Source/Rive/Private/Rive/RiveFile.cpp:736-743 | the broadcast fires exactly when all four flags are set |
| RiveFileMeta.URiveFile.Initialize | Source/Rive/Private/Rive/RiveFile.cpp:244-292 | empty data with nothing loaded changes nothing; an import clears every definition and flag, loads the file and requests the enum, artboard and view-model listings; otherwise, in an editor build, every flag is set and the file is loaded; the request counter advances by three on import and is unchanged otherwise; only the builder's counter, issued ids and sent calls may change, so its queued callbacks, draws and images are untouched |
| RiveFileMeta.URiveFile.LoadOrImport | Source/Rive/Private/Rive/RiveFile.cpp:263-291 | the load is the first message sent; a due import in an editor build is started and followed by the three listing requests; otherwise definitions are kept and an editor build marks all metadata as present; the request counter advances by three on import and is unchanged otherwise; only the builder's counter, issued ids and sent calls may change, so its queued callbacks, draws and images are untouched |
| RiveFileMeta.URiveFile.BeginImport | Source/Rive/Private/Rive/RiveFile.cpp:263-284 | definitions and flags are cleared, then the load and the three listing requests are sent, in that order; the request counter advances by three; only the builder's counter, issued ids and sent calls may change, so its queued callbacks, draws and images are untouched |
| RiveFileMeta.URiveFile.ClearDefinitions | Source/Rive/Private/Rive/RiveFile.cpp:266-275 | every definition list is empty, every data flag is cleared and the import is no longer due |
| RiveFileMeta.URiveFile.RequestListings | Source/Rive/Private/Rive/RiveFile.cpp:279-281 | exactly three requests are appended, for the enums, the artboard names and the view-model names of the file, in that order; the request counter advances by three; only the builder's counter, issued ids and sent calls may change, so its queued callbacks, draws and images are untouched |
| RiveFileMeta.URiveFile.LoadNativeFile | Source/Rive/Private/Rive/RiveFile.cpp:290-291 | the file is loaded without a request id, and the queue's handle is kept; the request counter is unchanged; only the builder's counter, issued ids and sent calls may change, so its queued callbacks, draws and images are untouched |
| RiveFileMeta.URiveFile.EnumsListed | Source/Rive/Private/Rive/RiveFile.cpp:333-353 | the enum definitions become the listed enums, in order; the enum flag is set and the readiness check runs |
| RiveFileMeta.URiveFile.ArtboardsListed | Source/Rive/Private/Rive/RiveFile.cpp:355-403 | there is one artboard definition per listed name, in order, with empty details |
| RiveFileMeta.URiveFile.ArtboardDataReady | Source/Rive/Private/Rive/RiveFile.cpp:381-399 | only the listed artboard's details are stored; only the last artboard's callback sets the flag and runs the readiness check |
| RiveFileMeta.URiveFile.ViewModelNamesListed | Source/Rive/Private/Rive/RiveFile.cpp:405-432 | there is one empty definition per name, and an instance-names request and a properties request per name, in order; an empty listing marks view models and their defaults as complete; earlier messages are kept and the request counter advances by two per name; only the builder's counter, issued ids and sent calls may change, so its queued callbacks, draws and images are untouched |
| RiveFileMeta.URiveFile.RequestViewModelDetails | Source/Rive/Private/Rive/RiveFile.cpp:418-421 | an instance-names request and then a properties request for the named view model are appended, and nothing earlier changes; the request counter advances by two; only the builder's counter, issued ids and sent calls may change, so its queued callbacks, draws and images are untouched |
| RiveFileMeta.URiveFile.ViewModelInstanceNamesListed | Source/Rive/Private/Rive/RiveFile.cpp:434-463 | the names are appended to the matching definition and its instance enum is rebuilt; an unknown view model changes nothing |
| RiveFileMeta.URiveFile.GenerateViewModelInstanceEnums | Source/Rive/Private/Rive/RiveFile.cpp:1005-1056 | only the view model's own enum is replaced, keyed by its name ignoring case; it has one entry per instance plus two; entry 0 is `<enum>::--Blank--`, entry 1 `<enum>::--Default--` and entry i + 2 `<enum>::<instance i>`, each with value equal to its index, where `<enum>` is `EViewModelInstanceEnum_`, the sanitised view-model name, `_` and the sanitised file name |
| RiveFileMeta.URiveFile.ViewModelPropertyDefinitionsListed | Source/Rive/Private/Rive/RiveFile.cpp:465-733 | an unknown name changes nothing and sends nothing; otherwise only the matching definition changes: one property per listed property, with the converted type, and metadata taken only for enum and view-model properties; the default-gathering calls and callbacks of that view model are queued; the last definition sets the view-model flag |
| RiveFileMeta.QueueDefaultsGathering | Source/Rive/Private/Rive/RiveFile.cpp:514-727 | an instantiateDefaultViewModelInstance call and one instantiateViewModelInstanceNamed call per instance name are sent without request ids; the callbacks DefaultsCallbacks lists are queued to run once, each instance's flagged when the view model is the last and its name equals the last instance name ignoring case |
| RiveFileMeta.QueueInstanceGathering | Source/Rive/Private/Rive/RiveFile.cpp:560-574 | one instance's creation call is sent and its gathering callback queued |
| RiveFileMeta.InstanceStep | Source/Rive/Private/Rive/RiveFile.cpp:548-574 | one more instance name adds its creation call and its gathering callback at the end, flagged as GatherCallbacks flags it |
| RiveFileMeta.CreateInstanceCallsPointwise | Source/Rive/Private/Rive/RiveFile.cpp:548-563 | creation call j carries the view model's name and instance name j |
| RiveFileMeta.GatherCallbacksPointwise | Source/Rive/Private/Rive/RiveFile.cpp:548-574 | gathering callback j is for instance name j and may report the end of gathering iff the view model is the last one and name j equals the last instance name ignoring case, as FString's `==` compares |
| RiveFileMeta.CaseVariantReportsEarly | Source/Rive/Private/Rive/RiveFile.cpp:554-556 | as written, instances "Hero" then "hero" in the last view model give two callbacks that report the end of gathering, the first for "Hero" |
| RiveFileMeta.CorrectedPointwise | Source/Rive/Private/Rive/RiveFile.cpp:554-556 | corrected callback j is for instance name j and is flagged exactly when j is the final index in the last view model |
| RiveFileMeta.CorrectedReportsOnce | Source/Rive/Private/Rive/RiveFile.cpp:554-556 | with the corrected flag, the last view model reports the end of gathering from its last instance's callback only, whatever the names, and any other view model never does |
| RiveFileMeta.DefaultsSignalledOnlyByLast | Source/Rive/Private/Rive/RiveFile.cpp:503-727 | some queued callback reports the end of gathering iff the view model is the last one, and then the last callback queued does |
| RiveFileMeta.URiveFile.DefaultsCallbackReturned | Source/Rive/Private/Rive/RiveFile.cpp:680-726 | a callback that reports the end of gathering sets the instance-defaults flag and runs the readiness check; any other leaves both unchanged |
| RiveFileMeta.DeliverArtboards | Source/Rive/Private/Rive/RiveFile.cpp:360-399 | after the artboard listing and every artboard's data-ready callback in index order, each definition holds its name and details, the artboard flag is set, and the readiness check has run once |
| RiveFileMeta.ImportEventArrived | Source/Rive/Private/Rive/RiveFile.cpp:333-432 | one listing arriving sets exactly its own flags and definitions, leaves the others as they were, and runs the readiness check; no message is sent and the request counter is unchanged |
| RiveFileMeta.ImportWithoutViewModels | Source/Rive/Private/Rive/RiveFile.cpp:333-432 | a re-import without view models, with any enum listing, any non-empty artboard listing and the three listings arriving in any order, broadcasts data-ready exactly once and ends with the definitions holding what arrived |
| RivePaint.Abs | Source/RiveCore/Private/Core/UnrealRivePaint.cpp:25-28 | the kept thickness is non-negative and has the same magnitude as the given one |
| RivePaint.CoherentPaintHoldsOneSource | Source/RiveCore/Private/Core/UnrealRivePaint.cpp:14-63 | a coherent paint never holds both a gradient and an image, and holding an image means it is an image paint |
| RivePaint.FUnrealRivePaint.constructor | Source/RiveCore/Private/Core/UnrealRivePaint.h:103-121 | the defaults: a solid opaque-black fill, thickness 1, miter joins, butt caps, source-over |
| RivePaint.FUnrealRivePaint.SetStyle | Source/RiveCore/Private/Core/UnrealRivePaint.cpp:9-12 | the paint is stroked iff the style is stroke |
| RivePaint.FUnrealRivePaint.SetColor | Source/RiveCore/Private/Core/UnrealRivePaint.cpp:14-23 | the paint becomes a solid colour, and the gradient and the image are dropped |
| RivePaint.FUnrealRivePaint.SetThickness | Source/RiveCore/Private/Core/UnrealRivePaint.cpp:25-28 | the absolute value of the thickness is kept |
| RivePaint.FUnrealRivePaint.SetJoin | Source/RiveCore/Private/Core/UnrealRivePaint.cpp:30-33 | the join is set |
| RivePaint.FUnrealRivePaint.SetCap | Source/RiveCore/Private/Core/UnrealRivePaint.cpp:35-38 | the cap is set |
| RivePaint.FUnrealRivePaint.SetBlendMode | Source/RiveCore/Private/Core/UnrealRivePaint.cpp:40-43 | the blend mode is set |
| RivePaint.FUnrealRivePaint.SetShader | Source/RiveCore/Private/Core/UnrealRivePaint.cpp:45-52 | the image is dropped; without a shader the paint is a solid colour, otherwise it takes the gradient's own type; the paint stays coherent |
| RivePaint.FUnrealRivePaint.SetImage | Source/RiveCore/Private/Core/UnrealRivePaint.cpp:54-63 | the paint becomes an image paint with the given opacity, and the gradient is dropped |
| RivePath.MoveTo | Source/RiveCore/Private/Core/UnrealRivePath.cpp:27-32 | a move opens a contour at the given point |
| RivePath.InjectImplicitMoveIfNeeded | Source/RiveCore/Private/Core/UnrealRivePath.cpp:34-47 | a contour is open afterwards, and a path whose contour is already open is unchanged |
| RivePath.LineTo | Source/RiveCore/Private/Core/UnrealRivePath.cpp:34-47 | adding a line keeps the path well formed |
| RivePath.CubicTo | Source/RiveCore/Private/Core/UnrealRivePath.cpp:49-66 | adding a cubic keeps the path well formed |
| RivePath.ClosePath | Source/RiveCore/Private/Core/UnrealRivePath.cpp:68-73 | closing leaves no contour open |
| RivePath.ClearClearsOnlyItsBits | Source/RiveCore/Private/Core/UnrealRivePath.cpp:131-134 | clearing a component makes it read clean, and a disjoint component keeps its state |
| RivePath.CacheBitsIndependent | Source/RiveCore/Private/Core/UnrealRivePath.h:46-50 | EDC_PathBounds and EDC_UniqueID are disjoint bits, so ClearPathDirt of the one leaves the dirty state of the other as it was |
| RivePath.UniqueIdCounter.constructor | Source/RiveCore/Private/Core/UnrealRivePath.cpp:119 | the process-wide counter starts at 0 |
| RivePath.FUnrealRivePath.constructor | Source/RiveCore/Private/Core/UnrealRivePath.cpp:7-13 | the path is taken over with its fill mode, and every cache reads dirty |
| RivePath.FUnrealRivePath.MarkPathDirty | Source/RiveCore/Private/Core/UnrealRivePath.cpp:141-144 | the flags are replaced by the component |
| RivePath.FUnrealRivePath.ClearPathDirt | Source/RiveCore/Private/Core/UnrealRivePath.cpp:131-134 | the component's bits are cleared |
| RivePath.FUnrealRivePath.IsPathDirty | Source/RiveCore/Private/Core/UnrealRivePath.cpp:136-139 | dirty iff every bit of the component is set |
| RivePath.FUnrealRivePath.Rewind | Source/RiveCore/Private/Core/UnrealRivePath.cpp:15-20 | the path is emptied and every cache reads dirty |
| RivePath.FUnrealRivePath.SetFillRule | Source/RiveCore/Private/Core/UnrealRivePath.cpp:22-25 | only the fill mode changes, and no cache is invalidated |
| RivePath.FUnrealRivePath.MoveToPoint | Source/RiveCore/Private/Core/UnrealRivePath.cpp:27-32 | the move is added and every cache reads dirty |
| RivePath.FUnrealRivePath.LineToPoint | Source/RiveCore/Private/Core/UnrealRivePath.cpp:34-47 | a contour is started if needed, and the line is added only when it leads to a new point |
| RivePath.FUnrealRivePath.CubicToPoint | Source/RiveCore/Private/Core/UnrealRivePath.cpp:49-66 | a contour is started if needed, and the cubic is skipped only when all four points coincide |
| RivePath.FUnrealRivePath.Close | Source/RiveCore/Private/Core/UnrealRivePath.cpp:68-73 | the open contour is closed and every cache reads dirty |
| RivePath.FUnrealRivePath.AddRenderPath | Source/RiveCore/Private/Core/UnrealRivePath.cpp:80-93 | the combined path replaces the path and every cache reads dirty |
| RivePath.FUnrealRivePath.GetBounds | Source/RiveCore/Private/Core/UnrealRivePath.cpp:105-115 | the bounds are always the current path's; they are recomputed only when dirty, and then the bounds bit is cleared |
| RivePath.FUnrealRivePath.GetUniqueID | Source/RiveCore/Private/Core/UnrealRivePath.cpp:117-129 | a dirty id takes the next counter value; a clean one returns the cached id and changes nothing; the id always belongs to the current path |
| RiveTexture.TruncateTowardZero | Source/Rive/Private/Rive/RiveTexture.cpp:87-90 | float-to-int conversion truncates toward zero and lands within 1 of the value |
| RiveTexture.URiveTexture.constructor | Source/Rive/Private/Rive/RiveTexture.cpp:13-24 | both sizes start at the standard resolution, with no resource |
| RiveTexture.URiveTexture.ResizeRenderTargets | Source/Rive/Private/Rive/RiveTexture.cpp:55-85 | the same size is a no-op; a size out of the open range (min, max) is rejected and nothing changes; otherwise the size is taken, and the resource is created or reinitialised |
| RiveTexture.URiveTexture.ResizeRenderTargetsFromVector | Source/Rive/Private/Rive/RiveTexture.cpp:87-90 | with the vector size truncated toward zero: the same size is a no-op, a size out of the open range (min, max) is rejected and nothing changes, otherwise the truncated size is taken and the resource is created or reinitialised |
| RiveUtils.PackagePathForFile | Source/Rive/Public/Rive/RiveUtils.h:19-23 | the path is the generated folder followed by the file name |
| RiveUtils.TempPathForFile | Source/Rive/Public/Rive/RiveUtils.h:25-29 | the path is the temporary folder followed by the file name |
| RiveUtils.GeneratedPathsRelation | Source/Rive/Public/Rive/RiveUtils.h:19-29 | the temporary folder is `Tmp/` inside the generated folder, and distinct files get distinct paths |
| RiveUtils.Sanitized | Source/Rive/Public/Rive/RiveUtils.h:32-44 | sanitising keeps the length |
| RiveUtils.SanitizedAt | Source/Rive/Public/Rive/RiveUtils.h:32-44 | each invalid character becomes '_' and every other character stays in place |
| RiveUtils.ReplaceCharInline | Source/Rive/Public/Rive/RiveUtils.h:38-40 | every occurrence of the character, matched case-sensitively, is replaced and nothing else changes |
| RiveUtils.SanitizeObjectName | Source/Rive/Public/Rive/RiveUtils.h:32-44 | one replace pass per invalid character gives the sanitised name |
| RiveUtils.SanitizedProperties | Source/Rive/Public/Rive/RiveUtils.h:32-44 | a sanitised name has no invalid characters, keeps every valid one, and is unchanged by a second sanitise |
| TypeConversions.RiveAlignmentToAlignment | Source/RiveRenderer/Public/RiveTypeConversions.h:10-34 | each declared alignment becomes the runtime alignment of the same name; any other value becomes center |
| TypeConversions.AlignmentConversionIsBijective | Source/RiveRenderer/Public/RiveTypeConversions.h:10-34 | on declared values the alignment conversion is a bijection: distinct alignments stay distinct and every runtime alignment is reached |
| TypeConversions.RiveFitTypeToFit | Source/RiveRenderer/Public/RiveTypeConversions.h:36-58 | each declared fit other than None becomes the runtime fit of the same name; None and any other value become none |
| TypeConversions.FitConversionIsBijective | Source/RiveRenderer/Public/RiveTypeConversions.h:36-58 | on declared values the fit conversion is a bijection: distinct fits stay distinct and every runtime fit is reached |
| ViewModelBookkeeping.InstanceRequestFor | Source/Rive/Private/Rive/RiveViewModel.cpp:148-169 | "--Blank--" (any case) asks for a blank instance; "--Default--" or an empty name asks for the default one; any other name asks for that instance |
| ViewModelBookkeeping.Answer | Source/Rive/Private/Rive/RiveViewModel.cpp:659-669 | a response removes its id, and the broadcast fires iff that id was the last pending one |
| ViewModelBookkeeping.AnswerAllRemovesAnswered | Source/Rive/Private/Rive/RiveViewModel.cpp:659-669 | a sequence of responses removes exactly the answered ids |
| ViewModelBookkeeping.NoBroadcastOnceEmpty | Source/Rive/Private/Rive/RiveViewModel.cpp:659-669 | with nothing pending, no response broadcasts |
| ViewModelBookkeeping.BroadcastExactlyWhenAllAnswered | Source/Rive/Private/Rive/RiveViewModel.cpp:659-669 | the defaults-ready broadcast fires exactly once if every pending id is answered, and never otherwise |
| ViewModelBookkeeping.NoneTypedPropertyBlocksDefaults | Source/Rive/Private/Rive/RiveViewModel.cpp:187-191 | as written, a None-typed property leaves -1 pending, so the broadcast never fires |
| ViewModelBookkeeping.CorrectedAwaitsOnlySentRequests | Source/Rive/Private/Rive/RiveViewModel.cpp:182-191 | with the corrected selection, every awaited id belongs to a value request that was sent, and -1 is never awaited |
| ViewModelBookkeeping.CorrectedDefaultsComplete | Source/Rive/Private/Rive/RiveViewModel.cpp:182-191 | with the corrected selection, answering every sent value request broadcasts exactly once |
| ViewModelBookkeeping.AsWrittenAddsOnlyNoRequestId | Source/Rive/Private/Rive/RiveViewModel.cpp:182-191 | the as-written selection awaits the corrected ids plus -1, and adds -1 iff some property of a type it awaits sends no value request |
| ViewModelBookkeeping.AsWrittenDefaultsComplete | Source/Rive/Private/Rive/RiveViewModel.cpp:182-191 | as written, answering every sent value request broadcasts once iff no property of an awaited type goes unsent |
| ViewModelBookkeeping.URiveViewModel.Initialize | Source/Rive/Private/Rive/RiveViewModel.cpp:138-202 | exactly the creation call the instance name asks for is sent, followed for a generated view model by DefaultRequestCalls for its properties; a generated view model awaits the ids the as-written selection picks (-1 included); the handle is registered |
| ViewModelBookkeeping.URiveViewModel.CreateNativeInstance | Source/Rive/Private/Rive/RiveViewModel.cpp:146-169 | the definition and handle are stored and exactly one creation call, of the kind the instance name asks for, is sent without using a request id |
| ViewModelBookkeeping.URiveViewModel.RequestDefaults | Source/Rive/Private/Rive/RiveViewModel.cpp:172-198 | exactly DefaultRequestCalls are sent; the awaited ids grow by exactly the ids the as-written selection picks, -1 included, and the counter advances by the requests sent |
| ViewModelBookkeeping.URiveViewModel.RequestDefaultAt | Source/Rive/Private/Rive/RiveViewModel.cpp:174-197 | handling property k extends the messages, the awaited ids and the counter from the first k properties to the first k + 1 |
| ViewModelBookkeeping.URiveViewModel.RequestDefault | Source/Rive/Private/Rive/RiveViewModel.cpp:176-196 | a view-model property sends nothing; any other property sends its value request when its type is requestable and then its subscription, each under the next request id, and adds its returned id (-1 when nothing was sent) to the awaited set exactly when its type is below Trigger and not List |
| ViewModelBookkeeping.PrefixStep | Source/Rive/Private/Rive/RiveViewModel.cpp:174-197 | extending a prefix of the properties by one extends the messages, the counter and the awaited ids by that property's share |
| ViewModelBookkeeping.PropertyCallsShape | Source/Rive/Private/Rive/RiveViewModel.cpp:176-196 | one property's messages are empty iff it is a view model; each is a value request or a subscription on the instance naming it; the last is its subscription; and a type the corrected selection awaits has its value request first, under the awaited id |
| ViewModelBookkeeping.RequestCallsNameProperties | Source/Rive/Private/Rive/RiveViewModel.cpp:174-197 | every message the property loop sends is a value request or a subscription on the instance, with a request id, for a property that is not a view model |
| ViewModelBookkeeping.RequestCallsSubscribeAll | Source/Rive/Private/Rive/RiveViewModel.cpp:174-197 | the property loop subscribes to every property that is not a view model |
| ViewModelBookkeeping.CorrectedAwaitsSentValueRequests | Source/Rive/Private/Rive/RiveViewModel.cpp:182-191 | every id the corrected selection awaits is the request id of a value request the property loop sent |
| ViewModelBookkeeping.URiveViewModel.BroadcastDefaultsAvailableChecked | Source/Rive/Private/Rive/RiveViewModel.cpp:659-669 | a response or an error for a pending id removes it, and the broadcast fires when that empties the set |
| ViewModelBookkeeping.URiveViewModel.BeginDestroy | Source/Rive/Private/Rive/RiveViewModel.cpp:508-527 | a live handle sends, in order, the subscription request for each property and then the delete request, and leaves the registry; a null handle does nothing; the request counter advances by one per property plus one for a live handle and is unchanged for a null one; only the builder's counter, issued ids and sent calls may change, so its queued callbacks, draws and images are untouched |
| ViewModelBookkeeping.SubscribeAll | Source/Rive/Private/Rive/RiveViewModel.cpp:515-521 | message k sent is the subscription request for property k, and earlier messages are kept; the request counter advances by one per property; only the builder's counter, issued ids and sent calls may change, so its queued callbacks, draws and images are untouched |
| ViewModelInstance.Filter | Source/Rive/Private/Rive/ViewModel/RiveViewModelInstance.cpp:48-62 | removal keeps exactly the entries not dropped, and never lengthens the list |
| ViewModelInstance.Select | Source/Rive/Private/Rive/ViewModel/RiveViewModelInstance.cpp:64-78 | selection keeps exactly the chosen entries |
| ViewModelInstance.SelectAppend | Source/Rive/Private/Rive/ViewModel/RiveViewModelInstance.cpp:64-78 | selecting from a concatenation selects from each part, in order |
| ViewModelInstance.FilterTwice | Source/Rive/Private/Rive/ViewModel/RiveViewModelInstance.cpp:48-62 | two removals equal one removal of both sets |
| ViewModelInstance.FilterNothing | Source/Rive/Private/Rive/ViewModel/RiveViewModelInstance.cpp:48-62 | removing nothing keeps the list |
| ViewModelInstance.FilterOnlyNeedsMembers | Source/Rive/Private/Rive/ViewModel/RiveViewModelInstance.cpp:48-62 | only the list's own entries matter to a removal |
| ViewModelInstance.FilterKeepsNoDuplicates | Source/Rive/Private/Rive/ViewModel/RiveViewModelInstance.cpp:48-62 | removal keeps a list free of duplicates |
| ViewModelInstance.ClearFromOnlyRemovesLive | Source/Rive/Private/Rive/ViewModel/RiveViewModelInstance.cpp:80-94 | the as-written walk keeps only entries of the list and keeps every null or dead entry |
| ViewModelInstance.ClearAsWrittenLeavesEntries | Source/Rive/Private/Rive/ViewModel/RiveViewModelInstance.cpp:80-94 | as written, clearing [1, 2, 3] with all entries live leaves [2] |
| ViewModelInstance.RemoveUndoesAdd | Source/Rive/Private/Rive/ViewModel/RiveViewModelInstance.cpp:32-62 | removing an entry that was just added restores the list |
| ViewModelInstance.RemoveOnlyRemoves | Source/Rive/Private/Rive/ViewModel/RiveViewModelInstance.cpp:48-62 | a removed entry is gone, and the others keep their order |
| ViewModelInstance.FilterIsSelect | Source/Rive/Private/Rive/ViewModel/RiveViewModelInstance.cpp:48-78 | removing a set equals selecting its complement |
| ViewModelInstance.CacheKeyIgnoresCase | Source/Rive/Private/Rive/ViewModel/RiveViewModelInstance.cpp:109 | names that differ only in case share a cache key |
| ViewModelInstance.URiveViewModelInstance.constructor | Source/Rive/Public/Rive/ViewModel/RiveViewModelInstance.h:110-116 | a new wrapper has no runtime, no cached properties and no callbacks |
| ViewModelInstance.URiveViewModelInstance.Initialize | Source/Rive/Private/Rive/ViewModel/RiveViewModelInstance.cpp:18-22 | the runtime pointer is set |
| ViewModelInstance.URiveViewModelInstance.GetPropertyCount | Source/Rive/Private/Rive/ViewModel/RiveViewModelInstance.cpp:96-101 | the runtime's property count, or 0 without a runtime |
| ViewModelInstance.URiveViewModelInstance.AddCallbackProperty | Source/Rive/Private/Rive/ViewModel/RiveViewModelInstance.cpp:32-46 | null and present entries are ignored; anything else is appended, so the list stays free of duplicates |
| ViewModelInstance.URiveViewModelInstance.RemoveCallbackProperty | Source/Rive/Private/Rive/ViewModel/RiveViewModelInstance.cpp:48-62 | null is ignored; otherwise the entry is removed and nothing else is |
| ViewModelInstance.URiveViewModelInstance.HandleCallbacks | Source/Rive/Private/Rive/ViewModel/RiveViewModelInstance.cpp:64-78 | the live entries, in list order, are the ones whose callbacks run |
| ViewModelInstance.URiveViewModelInstance.ClearCallbacks | Source/Rive/Private/Rive/ViewModel/RiveViewModelInstance.cpp:80-94 | as written: the index walk over the shrinking list |
| ViewModelInstance.URiveViewModelInstance.ClearCallbacksCorrected | Source/Rive/Private/Rive/ViewModel/RiveViewModelInstance.cpp:80-94 | every live entry is removed, and the others stay in order |
| ViewModelInstance.URiveViewModelInstance.BeginDestroy | Source/Rive/Private/Rive/ViewModel/RiveViewModelInstance.cpp:24-30 | the callback list is what the as-written ClearCallbacks walk leaves, and the property cache is emptied |
| ViewModelInstance.URiveViewModelInstance.GetProperty | Source/Rive/Private/Rive/ViewModel/RiveViewModelInstance.cpp:103-194 | a cached key returns the cached wrapper (null for another type) without creating anything; a runtime hit creates and caches a wrapper; no runtime or a failed lookup gives null and leaves the cache unchanged |
| ViewModelRuntime.FindProperty | Source/Rive/Private/Rive/ViewModel/RiveViewModel.cpp:90-116 | the result is the first property whose name matches, ignoring case; None means that none matches |
| ViewModelRuntime.NullRuntimeDefaults | Source/Rive/Private/Rive/ViewModel/RiveViewModel.cpp:15-207 | with a null runtime, every accessor returns its default and every creation returns null |
| ViewModelRuntime.URiveViewModel.Initialize | Source/Rive/Private/Rive/ViewModel/RiveViewModel.cpp:10-13 | the runtime pointer is set |
| ViewModelRuntime.URiveViewModel.GetName | Source/Rive/Private/Rive/ViewModel/RiveViewModel.cpp:15-27 | the runtime's name, or "" without a runtime |
| ViewModelRuntime.URiveViewModel.GetInstanceCount | Source/Rive/Private/Rive/ViewModel/RiveViewModel.cpp:29-42 | the runtime's instance count, or 0 without a runtime |
| ViewModelRuntime.URiveViewModel.GetInstanceNames | Source/Rive/Private/Rive/ViewModel/RiveViewModel.cpp:44-65 | the runtime's instance names in order, or none without a runtime |
| ViewModelRuntime.URiveViewModel.GetPropertyNames | Source/Rive/Private/Rive/ViewModel/RiveViewModel.cpp:67-88 | the runtime's property names in order, or none without a runtime |
| ViewModelRuntime.URiveViewModel.GetPropertyTypeByName | Source/Rive/Private/Rive/ViewModel/RiveViewModel.cpp:90-116 | the type of the first property whose name matches, ignoring case; none when nothing matches or there is no runtime |
| ViewModelRuntime.URiveViewModel.CreateWrapper | Source/Rive/Private/Rive/ViewModel/RiveViewModel.cpp:118-165 | the default, blank and named creations give a wrapper iff there is a runtime and it created an instance |
| ViewModelRuntime.URiveViewModel.CreateInstanceFromIndex | Source/Rive/Private/Rive/ViewModel/RiveViewModel.cpp:167-190 | a wrapper exists iff there is a runtime, 0 <= index < the int32-cast instance count, and the runtime created the instance |

## Left out

- The command queue, its server thread and the async hops back to the game thread are outside the model. Calls the builder forwards are recorded in `Sent` and run-once callbacks in `Commands`. Listings and responses are parameters. Handles returned by creation calls are not modelled; a call is identified by its operation, subject and names.
- CommandBuilder.FRiveCommandBuilder.FindOrAddDrawCommands: the command queue's `createDrawKey` is modelled by a builder counter that hands out 1, 2, 3, ...; the model assumes the queue's keys are distinct and non-null, as that counter's are.
- RiveFileMeta.URiveFile.ArtboardsListed: the temporary URiveArtboard made per name and its InitializeForDataImport, with the messages that sends, are not modelled (URiveArtboard is not part of this model); the data that import returns arrives through ArtboardDataReady. GenerateArtboardEnum is not modelled.
- RiveFileMeta.URiveFile.ViewModelNamesListed: GenerateViewModelEnum (Source/Rive/Private/Rive/RiveFile.cpp:431), the editor enum of view-model names, is not modelled; only the per-view-model instance enums are.
- RiveFileMeta.URiveFile.DefaultsCallbackReturned: the default instance name and the gathered default values are not stored (the model's view-model definitions have no fields for them), and the DestroyViewModel each callback sends for its temporary instance is not recorded. Only the flag and the readiness check are modelled.
- Image decoding itself (`IImageWrapper`, `Bitmap::decode`) and texture upload are left out. Only the choice of decoder is modelled.
- rive::RawPath internals are not modelled: bounds computation, `pruneEmptySegments` and `addPath` with its transform. The bounds are represented by the path they were computed for, and addRenderPath takes the combined path as a parameter.
- Floating point is modelled as `real`. NaN, infinities and float rounding are not modelled. The uninitialised `ImageOpacity` of a new paint is a parameter.
- Engine constants whose definitions are not in the plugin are parameters:
  - `INVALID_OBJECTNAME_CHARACTERS`;
  - the font, image and audio extension lists;
  - `RIVE_MIN_TEX_RESOLUTION`, `RIVE_MAX_TEX_RESOLUTION` and `RIVE_STANDARD_TEX_RESOLUTION`;
  - the default `RHICapabilitiesOverrides`.
- Case folding covers ASCII letters only. Unreal's and Python's non-ASCII folding is not modelled.
- The typed property-value wrappers (Get/Set of boolean, number, string, colour, trigger and image values) are not modelled beyond the enum wrapper.
- Shader compilation, RDG texture creation and the GPU flush are not modelled.
- The build script's file-system walking, copying, the child process and its platform selection are not modelled. Listings, the host platform and output lines are parameters. The script has only a had-errors flag that ends in a raise, and no separate "needs clean" state; the model follows the script.
- `DefaultRequestIds` is modelled as a set. `TArray::Remove` removes every copy, so `Contains`, `Remove` and the `Num() == 0` test behave as they do on a set.
- Unreal `check()` assertions: three became preconditions, because the code after each relies on it.
  - `!InViewModelDefinition.Name.IsEmpty()` (Source/Rive/Private/Rive/RiveViewModel.cpp:145) is `requires definition.Name != []` of ViewModelBookkeeping.URiveViewModel.Initialize.
  - `!ViewModelInstances.Contains(...)` (Source/Rive/Private/Rive/RiveViewModel.cpp:200) is `requires instanceHandle !in registry.Instances` of the same method.
  - `ViewModelInstances.Contains(...)` (Source/Rive/Private/Rive/RiveViewModel.cpp:523) is the registry precondition of ViewModelBookkeeping.URiveViewModel.BeginDestroy.
- The other `check()`s are not modelled, as in a build where they compile to nothing. Thread checks and null-pointer checks have nothing in the model to act on. Two checks about data are neither preconditions nor modelled failures:
  - RiveFileMeta.QueueDefaultsGathering does not enforce `check(!InstanceName.IsEmpty())` (Source/Rive/Private/Rive/RiveFile.cpp:551); an empty instance name is queued like any other;
  - RiveFileMeta.URiveFile.GenerateViewModelInstanceEnums does not require the selected definition to be one of `ViewModelDefinitions` (`check` at Source/Rive/Private/Rive/RiveFile.cpp:1009); the enum is built from the definition it is given.
- RivePaint.FUnrealRivePaint.SetShader: requires a gradient paint type, because the source's `static_rcp_cast` assumes the shader is an FUnrealRiveGradient.
- DebugLogger.FDebugLogger.UnIndent: requires a positive level, because `RemoveAt` needs the three characters to exist.
- ViewModelRuntime.URiveViewModel.GetInstanceCount: states the count only below 2^31, where the int32 cast is the identity. Above that the value is `Int32Of` of the count.
- ViewModelInstance.URiveViewModelInstance.GetPropertyCount: states the count only below 2^31, for the same reason.
- RenderContext.RenderContextRHIImpl.ResizeGradientTexture: states the at-least-1 height after the int32 cast only for heights below 2^31. The same holds for ResizeTessellationTexture and ResizeAtlasTexture.
- ViewModelInstance.URiveViewModelInstance.ClearCallbacks: the as-written walk is modelled by index up to the list's current length. The array iterator's stale trailing slots are not modelled.
- ViewModelRuntime.URiveViewModel.CreateWrapper: one function covers CreateDefaultInstance, CreateInstance and CreateInstanceFromName. Their runtime calls differ only in which instance the runtime makes, and that is the `runtimeCreated` parameter.

## Findings

| source | as written | input that shows it | evidently intended | confidence | as-written member | corrected member |
|---|---|---|---|---|---|---|
| Source/Rive/Private/Rive/RiveViewModel.cpp:187-191 | every property whose type is below Trigger, other than List, has its value-request id awaited. This includes None, for which GetPropertyValue sends nothing and returns -1 | a generated view model with one None-typed property: -1 stays pending forever, so the defaults-ready broadcast never fires | await only the ids of value requests that were actually sent | not executed | ViewModelBookkeeping.NoneTypedPropertyBlocksDefaults | ViewModelBookkeeping.CorrectedDefaultsComplete |
| Source/Rive/Private/Rive/ViewModel/RiveViewModelInstanceEnum.cpp:41-47 | SetValue checks the value with `TArray<FString>::Contains`, which ignores case, and then passes on the caller's casing | options ["left"] and value "LEFT": the check passes, and the runtime is given a value that is not one of its options | accept only an exact option | not executed | InstanceEnum.AsWrittenAcceptsOtherCasing | InstanceEnum.URiveViewModelInstanceEnum.SetValueExact |
| Source/Rive/Private/Rive/RiveFile.cpp:554-556 | an instance may report the end of default gathering when its name equals the last instance name, and FString's `==` ignores case | the last view model with instances "Hero" then "hero": the callback for "Hero" reports the end of gathering before "hero" is gathered, and "hero" reports it again | only the last instance's callback reports it | not executed | RiveFileMeta.CaseVariantReportsEarly | RiveFileMeta.CorrectedReportsOnce |
| Source/Rive/Private/Rive/ViewModel/RiveViewModelInstance.cpp:80-94 | ClearCallbacks removes entries from the list while a ranged for-loop walks it, so the entry that moves into a removed entry's place is skipped (development builds also report the change through TArray's ranged-for check) | callback list [1, 2, 3] with all three live: [2] remains registered | remove every live entry | not executed | ViewModelInstance.ClearAsWrittenLeavesEntries | ViewModelInstance.URiveViewModelInstance.ClearCallbacksCorrected |
