# Chalky scene editor — a Dafny model

Chalky is a browser editor for Manim animations. The user drags shapes,
text and LaTeX onto a canvas and edits their properties in a side panel.
The backend then turns the scene into a Manim script, asks a language model
for the animation code, and reads the code back out of the reply.

This project models the part of Chalky that is deterministic once ids and
the clock are inputs:

- the scene document and its object factory (`scene.ts`,
  `scene-serializer.ts`);
- the affine map between canvas pixels and Manim's 14 × 8 logical units;
- the scene store behind the editor (`useScene.ts`);
- the canvas sizing policy and the drop and click controllers (`Canvas.tsx`);
- the editor's handlers and status label (`Editor.tsx`);
- the property panel's edit requests and numeric fallbacks
  (`PropertyPanel.tsx`);
- the backend's validation of the same document (`models/scene.py`);
- the text the backend generates and reads: the Manim script and its
  object statements (`manim_service.py`), and the scene description,
  prompt, code extraction and confidence heuristic (`llm_service.py`).

There is one module per source file, plus three more. `PythonNames`
holds the check that an object's variable is a name Python accepts. `Wrappers`
holds `Option` and `Result`. `Strings` holds Python's `find`, slicing,
`strip`, `split` and `join` over `seq<char>`, and decimal text.

Modelling choices:

- Every operation is a pure function over immutable datatypes.
- The store is a record of the scene and the selection. Each store
  operation returns the next record.
- Fresh ids and the current time are parameters.
- Numbers are `real`.
- Python's `str()` of a float is a parameter `show: real -> string`.
  A whole-number property read from JSON is a Python int and prints as its
  digits.
- A failed `parseFloat` or `parseInt` is `None`.

## Model

| member | source | states |
|---|---|---|
| SceneTypes.KindFromName | frontend/src/lib/types/scene.ts:14 | a `type` tag that reads as a kind is that kind's own tag |
| SceneTypes.KindNameRoundTrip | frontend/src/lib/types/scene.ts:14 | the tags are exactly Square, Circle, Text, LaTeX, Line and Arrow; each kind's tag reads back as that kind |
| SceneTypes.QualityFromName | frontend/src/lib/types/scene.ts:41 | a quality text that reads as a quality is that quality's own name |
| SceneTypes.QualityNameRoundTrip | frontend/src/lib/types/scene.ts:41 | quality is exactly one of low, medium and high, and each name reads back as its quality |
| SceneSerializer.EmptyScene | frontend/src/lib/utils/scene-serializer.ts:5-22 | a new scene has no objects and settings 1920×1080, `#000000`, 60 fps, medium; both dates are the clock value and the version is 1.0.0 |
| SceneSerializer.DefaultProperties | frontend/src/lib/utils/scene-serializer.ts:46-81 | each kind's default table has exactly the key set of that kind's property interface (none for Line and Arrow) and the exact default values of each key |
| SceneSerializer.CreateObject | frontend/src/lib/utils/scene-serializer.ts:24-44 | a new object has the given id, kind and position, rotation 0, scale 1, no states and layer 0; its keys are the defaults plus the overrides, each override wins, and every other default key keeps its default |
| SceneSerializer.UpdateMetadata | frontend/src/lib/utils/scene-serializer.ts:97-105 | only `metadata.modified` changes (to the clock value); id, objects, settings, created and version are kept |
| SceneSerializer.EncodeDate | frontend/src/lib/utils/scene-serializer.ts:83-85 | a valid date, before or after the epoch, is written as text and an invalid one as null |
| SceneSerializer.DecodeDate | frontend/src/lib/utils/scene-serializer.ts:91-92 | `new Date` of null is the epoch, of a missing field is an invalid date, and of a text is valid exactly when the text reads as a date |
| SceneSerializer.DateRoundTrip | frontend/src/lib/utils/scene-serializer.ts:83-95 | a valid date survives writing and reading back |
| SceneSerializer.WireValue | frontend/src/lib/utils/scene-serializer.ts:83-85 | JSON writes a NaN as null and every other value as it is, so no written value is NaN |
| SceneSerializer.WireProps | frontend/src/lib/utils/scene-serializer.ts:83-85 | a written property map has the same keys, each value as JSON writes it |
| SceneSerializer.WireObject | frontend/src/lib/utils/scene-serializer.ts:83-85 | a written object keeps every field but its properties and keyframes, whose values are written as JSON writes them |
| SceneSerializer.Serialize | frontend/src/lib/utils/scene-serializer.ts:83-85 | the written document keeps id and settings, writes each object in order as JSON writes it, and always carries metadata |
| SceneSerializer.Deserialize | frontend/src/lib/utils/scene-serializer.ts:87-95 | reading fails exactly when metadata is missing; otherwise only the two dates are rebuilt and everything else is kept |
| SceneSerializer.NaNFreePropsWrittenAsIs | frontend/src/lib/utils/scene-serializer.ts:83-85 | a property map with no NaN is written unchanged |
| SceneSerializer.NaNFreeStateWrittenAsIs | frontend/src/lib/utils/scene-serializer.ts:83-85 | a keyframe with no NaN at any depth is written unchanged |
| SceneSerializer.NaNFreeObjectWrittenAsIs | frontend/src/lib/utils/scene-serializer.ts:83-85 | an object with no NaN is written unchanged |
| SceneSerializer.SerializeRoundTrip | frontend/src/lib/utils/scene-serializer.ts:83-95 | a scene with valid dates and no NaN reads back as itself |
| SceneSerializer.NaNReloadsAsNull | frontend/src/lib/utils/scene-serializer.ts:83-95 | a NaN property reloads as null under the same key, and every other property reloads as it was |
| SceneSerializer.InvalidDateReloadsAsEpoch | frontend/src/lib/utils/scene-serializer.ts:83-95 | an invalid creation date is written as null and reads back as the epoch, not as itself |
| CoordinateTransform.CanvasToManim | frontend/src/lib/utils/scene-serializer.ts:110-128 | the logical point scaled back by w/14 and h/8 is the pixel's offset from the canvas centre, with y flipped |
| CoordinateTransform.ManimToCanvas | frontend/src/lib/utils/scene-serializer.ts:130-148 | the pixel's offset from the centre is the logical point scaled by w/14 and h/8, with y flipped |
| CoordinateTransform.CanvasRoundTrip | frontend/src/lib/utils/scene-serializer.ts:110-148 | pixel → logical → pixel is the identity on any canvas with non-zero sides |
| CoordinateTransform.ManimRoundTrip | frontend/src/lib/utils/scene-serializer.ts:110-148 | logical → pixel → logical is the identity |
| CoordinateTransform.CentreIsOrigin | frontend/src/lib/utils/scene-serializer.ts:117-118 | the canvas centre is the logical origin |
| CoordinateTransform.CornersAreSevenByFour | frontend/src/lib/utils/scene-serializer.ts:117-118 | the bottom-right corner is (7, −4) and the top-left corner is (−7, 4) |
| CoordinateTransform.AxesOrientation | frontend/src/lib/utils/scene-serializer.ts:117-118 | on a positive canvas, lower on screen is lower in logical y, and further right is further right in logical x |
| SceneStore.InitialStore | frontend/src/lib/hooks/useScene.ts:5-9 | the store starts with the given scene or a new empty one, and with no selection |
| SceneStore.MergeLaws | frontend/src/lib/hooks/useScene.ts:34 | the shallow merge is idempotent, the empty patch changes nothing, and a `properties` key replaces the whole property map |
| SceneStore.UpdateObjects | frontend/src/lib/hooks/useScene.ts:33-35 | length and order are kept; every object with the id is merged with the patch and every other object is unchanged |
| SceneStore.RemoveObjects | frontend/src/lib/hooks/useScene.ts:42 | the result holds exactly the objects without the id; removing an absent id changes nothing |
| SceneStore.RemoveKeepsOrder | frontend/src/lib/hooks/useScene.ts:42 | the filter distributes over concatenation, so the survivors keep their relative order |
| SceneStore.FindObject | frontend/src/lib/hooks/useScene.ts:54 | an object is found exactly when one has the id, and the one found is the first such |
| SceneStore.AddObject | frontend/src/lib/hooks/useScene.ts:11-27 | exactly one object, the factory's, is appended; earlier objects are untouched; the fresh id is returned; modified is stamped, created is kept, and the selection is kept |
| SceneStore.UpdateObject | frontend/src/lib/hooks/useScene.ts:29-37 | the objects are merged by id, an absent id leaves them unchanged, modified is stamped and the selection is kept |
| SceneStore.PositionPatch | frontend/src/lib/hooks/useScene.ts:50 | a move sends a patch holding only the position |
| SceneStore.MoveObject | frontend/src/lib/hooks/useScene.ts:49-51 | only the position of the matching objects changes; all other objects and fields are kept and modified is stamped |
| SceneStore.DeleteObject | frontend/src/lib/hooks/useScene.ts:39-47 | the objects with the id are filtered out; the selection is cleared exactly when it was that id (or already empty) and is otherwise kept |
| SceneStore.DeleteIdempotent | frontend/src/lib/hooks/useScene.ts:39-43 | deleting twice leaves the same objects as deleting once, and deleting an absent id changes nothing |
| SceneStore.ClearScene | frontend/src/lib/hooks/useScene.ts:57-60 | clearing gives a new empty scene with default settings, dated now, and no selection |
| SceneStore.Select | frontend/src/lib/hooks/useScene.ts:9 | setting the selection changes nothing but the selection |
| SceneStore.GetObject | frontend/src/lib/hooks/useScene.ts:53-55 | the lookup succeeds exactly when the scene holds the id, and returns a scene object with that id |
| SceneStore.SelectedObject | frontend/src/lib/hooks/useScene.ts:62 | the selected object exists exactly when the selection is a non-empty id present in the scene, and is a scene object with that id |
| SceneStore.AddKeepsIdsUnique | frontend/src/lib/hooks/useScene.ts:11-27 | adding with a fresh id keeps ids unique |
| SceneStore.UpdateKeepsIdsUnique | frontend/src/lib/hooks/useScene.ts:29-37 | an update that does not set `id` keeps ids unique |
| SceneStore.RemoveKeepsIdsUnique | frontend/src/lib/hooks/useScene.ts:39-43 | deleting keeps ids unique |
| SceneStore.AddMoveDeleteScenario | frontend/src/lib/hooks/useScene.ts:11-51 | add, select, move and delete on a new store give the expected objects, dates and selection at each step |
| CanvasView.DefaultCanvasIs800By450 | frontend/src/components/editor/Canvas.tsx:10-16 | the default canvas is 800 × 450, which is 1920:1080 |
| CanvasView.AvailableWidth | frontend/src/components/editor/Canvas.tsx:153-158 | the usable width is the smaller of the container width minus 32 and 900 |
| CanvasView.AvailableHeight | frontend/src/components/editor/Canvas.tsx:154-159 | the usable height is the smaller of the container height minus 32 and 600 |
| CanvasView.FitCanvas | frontend/src/components/editor/Canvas.tsx:153-169 | the canvas fits both bounds and keeps the 1920:1080 ratio; it takes the full width when that fits in height, and the full height otherwise; it is positive when the bounds are |
| CanvasView.HandleDrop | frontend/src/components/editor/Canvas.tsx:178-238 | a drop without a canvas or cursor does nothing; a library item with a kind adds, a canvas item moves, and anything else does nothing; the logical position maps back to the cursor minus the canvas origin |
| CanvasView.HandleClick | frontend/src/components/editor/Canvas.tsx:240-244 | a click on the canvas surface clears the selection, a click on an object selects its id, and a click on an overlay changes nothing |
| CanvasView.PlaceObject | frontend/src/components/editor/Canvas.tsx:35-39 | an object is drawn at the pixel that maps back to its position, with stacking order layer + 20 |
| CanvasView.HigherLayerDrawnAbove | frontend/src/components/editor/Canvas.tsx:88-93 | a higher layer is drawn above a lower one |
| Editor.HandleObjectAdd | frontend/src/components/editor/Editor.tsx:46-49 | adding selects the id the store returned and changes the scene as the store's add does |
| Editor.AddedObjectIsShown | frontend/src/components/editor/Editor.tsx:46-49 | with a fresh id, the panel then shows exactly the factory's new object |
| Editor.HandleObjectSelect | frontend/src/components/editor/Editor.tsx:51-53 | the selection, null included, is passed straight through and the scene is untouched |
| Editor.HandleObjectMove | frontend/src/components/editor/Editor.tsx:55-57 | a move is the store's move with the same arguments |
| Editor.HandleObjectUpdate | frontend/src/components/editor/Editor.tsx:59-61 | an update is the store's update with the same arguments |
| Editor.HandleObjectDelete | frontend/src/components/editor/Editor.tsx:63-65 | a delete is the store's delete with the same arguments |
| Editor.PanelObject | frontend/src/components/editor/Editor.tsx:154 | the panel receives null exactly when no selected object resolves, and otherwise a scene object with the selected id |
| Editor.StatusLabel | frontend/src/components/editor/Editor.tsx:175 | the label is exactly the count's digits followed by " object" when the count is 1 and by " objects" otherwise |
| Editor.StatusCountReadsBack | frontend/src/components/editor/Editor.tsx:175 | the digits before the label's first space read back as the count |
| Editor.ApplyDrop | frontend/src/components/editor/Editor.tsx:139-145 | a drop's add goes to the add handler, its move to the move handler, and no action leaves the store alone |
| Editor.DropFromLibrarySelectsNewObject | frontend/src/components/editor/Canvas.tsx:198-218 | dropping a library item appends one object of that kind under the cursor and selects it |
| Editor.ApplyClick | frontend/src/components/editor/Editor.tsx:139-145 | a click never changes the scene; it sets the selection it decided or keeps the old one |
| PropertyPanel.FloatOr | frontend/src/components/editor/PropertyPanel.tsx:92 | an unreadable or zero number gives the fallback, and any other number is kept |
| PropertyPanel.IntOr | frontend/src/components/editor/PropertyPanel.tsx:257 | an unreadable or zero integer gives the fallback, and any other integer is kept |
| PropertyPanel.Parsed | frontend/src/components/editor/PropertyPanel.tsx:215 | fill opacity stores the parsed number, or NaN when unreadable |
| PropertyPanel.UpdateProperty | frontend/src/components/editor/PropertyPanel.tsx:38-45 | the update holds only `properties`: the old map with that one key set and every other key kept |
| PropertyPanel.HandlePanelEvent | frontend/src/components/editor/PropertyPanel.tsx:20-313 | with no selection nothing is sent; delete sends the selected id; an update is sent exactly for an input the kind shows; property inputs go through `updateProperty` |
| PropertyPanel.PanelUpdatesCarryOneKey | frontend/src/components/editor/PropertyPanel.tsx:47-51 | every update carries exactly one top-level key, and never id, type or states |
| PropertyPanel.PositionEdits | frontend/src/components/editor/PropertyPanel.tsx:91-107 | for any typed entry, x and y each send an update of the position alone for the selected id; an unreadable or zero entry gives 0, and the other axis is kept |
| PropertyPanel.TransformEdits | frontend/src/components/editor/PropertyPanel.tsx:124-313 | for any typed entry, rotation, scale and layer each send an update of that one key for the selected id; an unreadable or zero entry gives 0, or 1 for scale |
| PropertyPanel.SizeEdits | frontend/src/components/editor/PropertyPanel.tsx:187-201 | for any typed number, a square's side length and a circle's radius are set through `updateProperty`, falling back to 1 when unreadable or zero |
| PropertyPanel.StrokeAndFillEdits | frontend/src/components/editor/PropertyPanel.tsx:215-230 | for any typed number on a square or circle, stroke width falls back to 0 when unreadable or zero, and fill opacity stores the parsed number, NaN included |
| PropertyPanel.FontSizeEdit | frontend/src/components/editor/PropertyPanel.tsx:257-297 | for any typed integer on a text or formula, the font size is set, falling back to 24 when unreadable or zero |
| PropertyPanel.ColorEdit | frontend/src/components/editor/PropertyPanel.tsx:160-169 | for every kind, the typed colour text is written as the colour unchanged |
| PropertyPanel.TextPropertyEdits | frontend/src/components/editor/PropertyPanel.tsx:245-283 | for any typed text, a text's text and weight and a formula's tex are written unchanged |
| PropertyPanel.PropertyEditChangesOneKey | frontend/src/components/editor/PropertyPanel.tsx:38-45 | applied to the store, a property edit changes that one property of the selected object and nothing else in the scene |
| BackendModels.ValidateState | backend/app/models/scene.py:5-9 | a keyframe validates exactly when id, timestamp and properties are present; transition is optional |
| BackendModels.ValidateStates | backend/app/models/scene.py:18 | a list validates exactly when every element does, and keeps length and order |
| BackendModels.ValidateObject | backend/app/models/scene.py:11-19 | an object validates exactly when its required fields are present, the type is one of the six tags and the position has two numbers; the defaults are rotation 0, scale 1, no states and layer 0; a given states list is validated keyframe by keyframe |
| BackendModels.ValidateObjects | backend/app/models/scene.py:35 | an object list validates exactly when every object does, and keeps length and order |
| BackendModels.ValidateSettings | backend/app/models/scene.py:21-26 | settings validate exactly when the quality, if given, is low, medium or high; missing fields default to 1920, 1080, `#000000`, 60 and medium |
| BackendModels.ValidateMetadata | backend/app/models/scene.py:28-31 | metadata validates exactly when both dates are present; the version defaults to 1.0.0 |
| BackendModels.ValidateScene | backend/app/models/scene.py:33-37 | a scene validates exactly when its parts do; missing objects default to none |
| BackendModels.ValidateRequest | backend/app/models/scene.py:39-42 | a request validates exactly when the scene does and the request text has 1 to 1000 characters |
| BackendModels.DefaultSettingsAgree | backend/app/models/scene.py:21-26 | the backend's setting defaults equal the settings of a new frontend scene |
| BackendModels.DefaultVersionAgrees | backend/app/models/scene.py:31 | the backend's default version equals the frontend's schema version |
| BackendModels.BackendObject | backend/app/models/scene.py:17 | the backend receives an object's properties as JSON wrote them, so a NaN arrives as null |
| BackendModels.ObjectDocumentValidates | backend/app/models/scene.py:11-19 | every object the editor writes passes the backend's object validation, as written |
| BackendModels.ObjectDocumentsValidate | backend/app/models/scene.py:35 | every object list the editor builds validates, element by element |
| BackendModels.SettingsDocumentValidates | backend/app/models/scene.py:21-26 | every settings record the editor holds validates to the same values |
| BackendModels.SceneDocumentValidates | backend/app/models/scene.py:33-37 | an editor scene validates exactly when both its dates are valid, and then keeps all its data as written |
| ManimCodegen.VarName | backend/app/services/manim_service.py:126 | the variable name is the id with every '-' replaced by '_', so it holds no '-' |
| PythonNames.VarNameIsPythonNameIff | backend/app/services/manim_service.py:126 | for an id of letters, digits, '_' and '-', the variable is a Python name exactly when the id is non-empty and does not start with a digit |
| PythonNames.DigitLedUuidGivesNoPythonName | backend/app/services/manim_service.py:126 | the uuid text "9b1deb4d-3b7d" gives a variable starting with '9', which is not a Python name |
| PythonNames.VarNamesDiffer | backend/app/services/manim_service.py:126 | two different ids without '_' get different variables |
| PythonNames.SafeVarName | backend/app/services/manim_service.py:126 | the corrected variable is `obj_` before the dash-free id; it holds no '-' and is a Python name for every id of letters, digits, '_' and '-' |
| PythonNames.SafeVarNamesDiffer | backend/app/services/manim_service.py:126 | two different ids without '_' get different corrected variables |
| PythonNames.SafeInitLine | backend/app/services/manim_service.py:124-154 | the corrected statement is the generated statement assigning to the corrected variable instead |
| ManimCodegen.ClassName | backend/app/services/manim_service.py:166 | the class name is `GeneratedScene_` followed by the job id's variable name, and holds no '-' |
| ManimCodegen.NumberText | backend/app/services/manim_service.py:131-149 | a whole number below 10^21 in magnitude prints as its integer digits, which read back as that integer; any other number prints as a Python float |
| ManimCodegen.WholeSideLengthPrintsAsInt | backend/app/services/manim_service.py:131-133 | a square's whole side length prints as its integer digits whatever the float printing of its position |
| ManimCodegen.PropText | backend/app/services/manim_service.py:131-149 | a property's text is its value when present and the fallback otherwise |
| ManimCodegen.InitLineShape | backend/app/services/manim_service.py:124-154 | each statement assigns the variable name to a call of the kind's Manim class and ends by moving it to `[x, y, 0]`; Line and Arrow get a bare `Square()` and a comment naming the unsupported type |
| ManimCodegen.UnsupportedInitLine | backend/app/services/manim_service.py:152-154 | the fallback statement for an unsupported kind, in full |
| ManimCodegen.FallbacksAreFactoryDefaults | backend/app/services/manim_service.py:130-150 | each key the statement reads is in the kind's factory table, and the statement's fallback equals the factory default |
| ManimCodegen.DefaultPrintsAsItsValue | backend/app/services/manim_service.py:131-149 | a fallback int or text prints exactly as the same value read from the document would |
| ManimCodegen.DefaultsPrintLikeFallbacks | backend/app/services/manim_service.py:130-150 | an object with the factory defaults gives the same statement as one with no properties at all, for any float printing |
| ManimCodegen.InitLines | backend/app/services/manim_service.py:112-122 | there is one line per object, or a single line for an empty scene |
| ManimCodegen.ObjectInitialization | backend/app/services/manim_service.py:114-115 | an empty scene gives exactly the "No objects in scene" comment |
| ManimCodegen.GenerateObjectInitialization | backend/app/services/manim_service.py:112-122 | the loop builds the same block as the functional definition |
| ManimCodegen.StatementLines | backend/app/services/manim_service.py:117-120 | the loop's lines are the indented statements, one per object, in order |
| ManimCodegen.InitializationLines | backend/app/services/manim_service.py:112-122 | split at line breaks, the block is one eight-space-indented statement per object, in order, or the comment alone |
| ManimCodegen.IndentLines | backend/app/services/manim_service.py:160 | the line count is kept; blank lines are kept as they are and every other line gets the indent |
| ManimCodegen.IndentCodeLines | backend/app/services/manim_service.py:156-161 | indenting code keeps its line count, and indents exactly the lines that are not blank |
| ManimCodegen.IndentKeepsContent | backend/app/services/manim_service.py:160 | an indented line strips to the same text as the original |
| ManimCodegen.SceneFileFlat | backend/app/services/manim_service.py:77-110 | the script is the line join of the fixed head, the object block, the middle comments, the indented animation code and the settings tail |
| ManimCodegen.SceneFileLines | backend/app/services/manim_service.py:84-108 | split at line breaks, the script is exactly those parts in order, when the colour, job id and statements hold no line break |
| ManimCodegen.ClassLineOfHead | backend/app/services/manim_service.py:84-91 | the head has ten lines and the fifth declares the scene class |
| ManimCodegen.ClassLineOfScript | backend/app/services/manim_service.py:88 | the fifth line of the script declares `GeneratedScene_` plus the job id |
| ManimCodegen.ManimCommand | backend/app/services/manim_service.py:166-176 | the renderer command is `manim -q <quality> --output_file animation_<job> <script> <class name>` |
| ManimCodegen.CommandNamesDeclaredClass | backend/app/services/manim_service.py:166-176 | the class the renderer is told to render is declared on a line of the script (line 88) |
| SceneDescription.DescriptionSuffix | backend/app/services/llm_service.py:114-119 | there is a suffix for every kind except Line and Arrow |
| SceneDescription.DescribeObjectShape | backend/app/services/llm_service.py:113-119 | each object line names kind, id and position, and ends with its kind's suffix |
| SceneDescription.DescriptionSuffixText | backend/app/services/llm_service.py:114-119 | a Text quotes its `text` property, or 'Text' when there is none; a LaTeX quotes its `tex` property, or 'x^2'; a Square or Circle gives its `color` property, or #3B82F6 |
| SceneDescription.FactoryPropertiesDescribeLikeFallbacks | backend/app/services/llm_service.py:114-119 | for a Text, a LaTeX or a Square, the factory's properties are described exactly as if the properties were missing |
| SceneDescription.CircleFallbackIsNotFactoryColour | backend/app/services/llm_service.py:118-119 | for a Circle they are not: the #3B82F6 fallback differs from the factory's red |
| SceneDescription.FactoryCircleKeepsItsColour | backend/app/services/llm_service.py:118-119 | a circle with factory properties is described with its own red, not the blue fallback |
| SceneDescription.ObjectLines | backend/app/services/llm_service.py:111-120 | one description line per object, in order |
| SceneDescription.DescribeScene | backend/app/services/llm_service.py:106-122 | an empty scene gives exactly "Empty scene - no objects present."; otherwise "Scene objects:" heads the object lines joined by line breaks |
| SceneDescription.DescribeSceneLoop | backend/app/services/llm_service.py:111-122 | the loop builds the same description as the functional definition |
| SceneDescription.DescriptionLines | backend/app/services/llm_service.py:111-122 | split at line breaks, a description is its header line followed by exactly one line per object |
| LlmPrompt.Section | backend/app/services/llm_service.py:66-68 | no context and an empty context give no section; a non-empty context gives a section as long as the header plus the joined context |
| LlmPrompt.FillShape | backend/app/services/llm_service.py:73-102 | a filled template starts with the intro, description, request header and request, ends with the context section and the closing, and contains both texts |
| LlmPrompt.PromptShape | backend/app/services/llm_service.py:57-104 | the service's prompt starts with its intro, the scene description, the request header and the request, and ends with the context section and "Generated animation code:" |
| LlmPrompt.FillContextInserts | backend/app/services/llm_service.py:66-100 | a non-empty context only inserts the header and the joined context just before the closing; all else is the prompt without context |
| LlmReply.FencedToEnd | backend/app/services/llm_service.py:172 | with no closing fence, the block runs to the end of the reply |
| LlmReply.DropLeadingBlankKeepsSuffix | backend/app/services/llm_service.py:182-188 | the clean-up keeps a suffix of the lines that starts with a non-blank line, and drops only blank lines |
| LlmReply.CleanLines | backend/app/services/llm_service.py:182-190 | the clean-up loop drops exactly the leading blank lines |
| LlmReply.CleanupKeepsStrippedText | backend/app/services/llm_service.py:181-190 | the clean-up never changes text that is already stripped |
| LlmReply.ExtractCodeIsStrippedBlock | backend/app/services/llm_service.py:167-190 | the extracted code is the stripped code block; with no fence it is the stripped reply |
| LlmReply.NoFenceNoPythonFence | backend/app/services/llm_service.py:170-174 | a reply without a bare fence has no python fence either |
| LlmReply.CleanupOfBlock | backend/app/services/llm_service.py:181-190 | the clean-up leaves every stripped code block as it is |
| LlmReply.UnclosedPythonFence | backend/app/services/llm_service.py:170-173 | with a python fence and no closing fence, the code is the stripped text after the fence minus its last character; the corrected reading keeps that character |
| LlmReply.UnclosedFenceLosesLastCharacter | backend/app/services/llm_service.py:171-173 | for "```python\n" and code with no closing fence, the service returns the code without its last character, while the corrected reading returns the code |
| LlmReply.ClosedFenceReadsBetweenFences | backend/app/services/llm_service.py:172-177 | when a closing fence exists, the as-written and corrected readings agree: the text between the fences |
| LlmReply.ExplanationIgnoresReply | backend/app/services/llm_service.py:192-195 | the explanation is the same for every reply |
| LlmReply.EstimateConfidence | backend/app/services/llm_service.py:197-205 | 0.85 exactly when the reply uses `self.play` without `import`; otherwise 0.75 exactly when it has more than three lines; otherwise 0.65 |
| Strings.FindFrom | backend/app/services/llm_service.py:171-172 | `find` gives the first match at or after the start, and −1 exactly when there is none |
| Strings.PySlice | backend/app/services/llm_service.py:173 | each bound is clamped into the text, a negative one counting from the end; the slice is the text between the clamped bounds, and empty when the start is not before the end |
| Strings.Strip | backend/app/services/llm_service.py:173 | the stripped text sits in the text with only whitespace before and after it, starts and ends with non-whitespace, and is empty exactly when the text is all whitespace |
| Strings.Split | backend/app/services/llm_service.py:182 | splitting gives one more piece than there are separators, and no piece contains a separator |
| Strings.JoinSplit | backend/app/services/llm_service.py:182-190 | joining the pieces of a split gives the text back |
| Strings.SplitJoin | backend/app/services/manim_service.py:122 | splitting a join of separator-free pieces gives the pieces back |

## Left out

- Fresh ids (`uuid`) and the clock (`new Date()`) are parameters: the
  store takes a fresh id and a time in milliseconds.
- The JSON text format is not modelled. Serialising is an abstract record.
  It keeps the data except that a NaN property becomes null, as
  `JSON.stringify` writes it. Each date is written as signed decimal
  milliseconds, or as null when invalid. Decimal milliseconds stand in for
  ISO date text. Reading rebuilds only the two dates, as the source does.
- SceneSerializer.SerializeRoundTrip: promises a faithful reload only for a
  scene with no NaN property, because JSON turns NaN into null (stated by
  SceneSerializer.NaNReloadsAsNull).
- React plumbing is not modelled: state batching, `useCallback`
  memoisation, and react-dnd's memoised drop closure. The drop handler is
  given the canvas size explicitly. Console logging, styling, icons and
  their colour fallbacks are also left out.
- The panel's local colour text state (`colorValue`) only mirrors what the
  user typed, so it is not modelled. The colour edit is modelled as
  sending the typed text.
- IEEE floating point is not modelled. Coordinates and sizes are `real`.
- `parseFloat` and `parseInt` themselves are not modelled. Their result is
  an `Option`, with `None` for NaN.
- Python's `str()` of floats and of float lists is the parameter `show`.
- ManimCodegen.DefaultPrintsAsItsValue: stated only for int fallbacks below
  10^21, since a larger int would be written by JSON with an exponent. The
  generator's own fallbacks are 1, 2 and 24.
- CoordinateTransform.CanvasToManim requires a canvas with non-zero sides.
  A zero-sized canvas gives IEEE infinities, which `real` has no value for.
- CanvasView.HandleDrop requires non-zero sides only on the path that
  converts the cursor position, for the same reason.
- BackendModels.ValidateObject reports only the first failing field.
  Pydantic collects every error. Pydantic's type coercion (such as a
  numeric string for a float) is not modelled: fields arrive already typed
  or absent.
- BackendModels.ValidateState: a keyframe's `properties` is an object patch
  here. The backend accepts any dictionary there, and the editor only ever
  writes a patch.
- BackendModels.ValidateMetadata takes dates as milliseconds. Parsing
  `datetime` text is not modelled.
- ManimCodegen.InitLineShape does not escape quotes in ids, texts or
  formulas, and neither does the source. The statement is modelled as
  written.
- PythonNames.IsPythonName checks only the ASCII part of Python's rule for
  identifiers: non-ASCII letters are not accepted and keywords are not
  rejected. Object ids are uuids, which are ASCII, and the corrected
  variable's `obj_` prefix is no keyword.
- PythonNames.SafeInitLine is not used by the script model
  (ManimCodegen.SceneFile), which keeps the as-written variable. The
  language model is told to use the scene's variable names
  (llm_service.py:84) but is shown the raw ids (llm_service.py:113), so
  a renamed variable would also have to reach the scene description. The
  source renames nothing there.
- Subprocess, file and async I/O in the Manim service are not modelled.
  This covers running the renderer, finding the video, reading its size
  and cleaning up files. Only the command line is modelled.
- The language-model client (network calls and the connection test) is
  not modelled. Only the prompt text and the reading of the reply are.
- The HTTP API, health check, app entry point and configuration are not
  modelled, nor are the presentation-only pages and the static object
  library.

## Findings

| source | as written | input that shows it | evidently intended | confidence | as-written member | corrected member |
|---|---|---|---|---|---|---|
| backend/app/services/llm_service.py:172 | when an opening fence (python or bare) has no closing fence, `find` returns −1 and the slice `response[start:-1]` drops the reply's last character | the reply "```python\nab" gives the code "a" | the code runs to the end of the reply: "ab" | not executed | LlmReply.UnclosedFenceLosesLastCharacter | LlmReply.FencedToEnd |
| backend/app/services/manim_service.py:126 | the object's variable is its id with '-' replaced by '_', which the comment calls a valid Python name; a uuid that starts with a digit keeps that digit first | the id "9b1deb4d-3b7d" gives the statement `9b1deb4d_3b7d = ...`, which Python rejects | a Python name for every uuid, here by a fixed prefix that starts with a letter | not executed | PythonNames.VarNameIsPythonNameIff | PythonNames.SafeVarName |
