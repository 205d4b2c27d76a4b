# Selective bloom viewer: material swap, bloom checklist and rendering controls

A Dafny model of the logic at the heart of a three.js model viewer written
in React. The viewer renders a glTF model twice per frame: once through a
bloom composer, in which only the objects on the bloom layer may glow, and
once through the final composer that mixes the bloom texture back in. The
model covers the parts of the viewer that are program logic rather than
graphics-library setup:

- **Selective-bloom material swap** (`BloomMaterials`, `SceneInteraction.BloomCompositor`).
  Before the bloom render, `nonBloomed` visits every object of the scene. A
  mesh whose layer mask lacks the bloom bit has its material saved in the
  `materials` dictionary under its uuid and replaced by the shared dark
  material. After the bloom render, `restoreMaterial` visits every object.
  An object with a saved material gets it back, and the entry is deleted.
  Each visit is a function on the object's state and the dictionary, and a
  sweep folds the visits over the traversal. The compositor class then runs
  those visits in place on `Object3D` objects. The main result is the
  round trip: with distinct uuids and an empty dictionary, one frame gives
  every object its own material back and leaves the dictionary empty.
  During the bloom render, every dimmed mesh shows the dark material.
- **Layer masks** (`Layers`). A mask is the set of channels whose bit is
  set. The model covers `set`, `toggle` and `test`, and the fact that
  testing against the bloom layer is the same as asking for the bloom bit.
- **Bloom checklist** (`ObjectList`, `SceneInteraction.SceneInteractionManager`).
  On load, the list gets one entry per mesh of the model, in traversal
  order. Each entry has its display name, the mesh and a bloom flag that
  starts off. The checkbox handler flips the flag of the matching entry
  and toggles its mesh's bloom bit. The pick handler is modelled as
  written: it updates the list captured when the component mounted (see
  "## Findings").
- **Rendering controls** (`RenderingControls`). Seven handlers take a
  parsed number and check it against the handler's bound. When the number
  is accepted, the handler sets the displayed value and writes the number
  into a settings record owned by the parent. Six of them merge one field
  into the record. The bloom handler replaces its record with a one-field
  record. The eighth handler, for antialiasing, takes the checkbox state,
  parses nothing and always commits, merging one field.

The objects a scene traversal visits are given as a sequence in traversal
order. Parsing of input text is not modelled: a handler receives the
parse result, with `Option.None` standing for NaN.

Two places where the code and a plain description of the component
differ. The model follows the code in both:

- The shadow handler accepts every parsed integer of at least 512. The
  slider's markup caps the value at 2048, but the handler has no upper
  bound, so 3000 is accepted (`RenderingControls.ShadowHasNoUpperBound`).
- The bloom handler replaces the bloom record with the one-field record
  `{bloomIntensity}`. It does not merge into the previous record
  (`RenderingControls.Controls.HandleBloomChange`).

## Model

| member | source | states |
|---|---|---|
| Layers.Set | src/components/SceneInteractionManager.jsx:112-113 | `layers.set(channel)` gives a mask that has exactly that one channel |
| Layers.Toggle | src/components/SceneInteractionManager.jsx:146 | `toggle` flips membership of the given channel and leaves every other channel as it was |
| Layers.Test | src/components/SceneInteractionManager.jsx:119 | `test` holds exactly when some channel is set in both masks |
| Layers.OnBloomLayerIsBloomBit | src/components/SceneInteractionManager.jsx:119 | `bloomLayer.test(mask)` holds exactly when the mask has the `BLOOM_SCENE` bit |
| Layers.ToggleFlipsBloom | src/components/SceneInteractionManager.jsx:146 | toggling `BLOOM_SCENE` flips whether the bloom-layer test succeeds |
| Layers.ToggleTwice | src/components/SceneInteractionManager.jsx:228 | toggling the same channel twice gives back the original mask |
| BloomMaterials.DimView | src/components/SceneInteractionManager.jsx:201 | what the bloom render sees of one object: a dimmed mesh in the dark material, any other object unchanged; uuid, mesh flag and mask are always kept |
| BloomMaterials.NonBloomedVisit | src/components/SceneInteractionManager.jsx:118-123 | a mesh off the bloom layer has its material saved under its uuid and is shown dark; any other object and the dictionary stay unchanged |
| BloomMaterials.RestoreVisit | src/components/SceneInteractionManager.jsx:125-130 | only the material changes; a saved material is put back; the uuid's entry is deleted; an object with nothing saved is left alone |
| BloomMaterials.VisitRoundTrip | src/components/SceneInteractionManager.jsx:118-130 | restoring right after a swap gives back the object and the dictionary, provided the uuid had no entry before |
| BloomMaterials.NonBloomedSweep | src/components/SceneInteractionManager.jsx:200 | `scene.traverse(nonBloomed)` visits the objects in traversal order and yields one state per object; the lemmas below state what those states and the dictionary are |
| BloomMaterials.RestoreSweep | src/components/SceneInteractionManager.jsx:202 | `scene.traverse(restoreMaterial)` visits the objects in traversal order and yields one state per object; the lemmas below state what those states and the dictionary are |
| BloomMaterials.NonBloomedSweepObjects | src/components/SceneInteractionManager.jsx:200-201 | after the swap sweep, every dimmed mesh shows the dark material and every other object is unchanged |
| BloomMaterials.NonBloomedSweepKeys | src/components/SceneInteractionManager.jsx:120 | the swap sweep's dictionary has exactly the keys it started with plus the uuids of the dimmed meshes |
| BloomMaterials.NonBloomedSweepKeeps | src/components/SceneInteractionManager.jsx:120 | entries whose uuid the swap sweep does not dim keep their material |
| BloomMaterials.SavedMaterial | src/components/SceneInteractionManager.jsx:120 | with distinct uuids, each dimmed mesh's own material is what is saved under its uuid |
| BloomMaterials.NonBloomedSweepUuids | src/components/SceneInteractionManager.jsx:121 | the swap sweep changes materials only: uuids, the uuid set and their distinctness are kept |
| BloomMaterials.RestoreSweepMaterials | src/components/SceneInteractionManager.jsx:128 | the restore sweep deletes every visited uuid from the dictionary, and nothing else |
| BloomMaterials.RestoreSweepDistinct | src/components/SceneInteractionManager.jsx:126-127 | with distinct uuids, each object is restored from the entry it had when the sweep began |
| BloomMaterials.RestoreSweepStep | src/components/SceneInteractionManager.jsx:125-130 | one restore visit after a restored prefix: the object's result is as if the prefix had not run, and the prefix's uuids are gone |
| BloomMaterials.RestoreSweepEmpty | src/components/SceneInteractionManager.jsx:126 | with an empty dictionary, the restore sweep changes nothing |
| BloomMaterials.RoundTripAt | src/components/SceneInteractionManager.jsx:200-202 | with distinct uuids, each object of the frame gets its own state back |
| BloomMaterials.FrameRoundTrip | src/components/SceneInteractionManager.jsx:200-202 | with distinct uuids, a swap sweep then a restore sweep from an empty dictionary gives back every object and an empty dictionary |
| SceneInteraction.BloomCompositor.constructor | src/components/SceneInteractionManager.jsx:115-116 | the dictionary of saved materials starts empty |
| SceneInteraction.BloomCompositor.NonBloomed | src/components/SceneInteractionManager.jsx:118-123 | the object's material and the dictionary become those of `NonBloomedVisit` on their old values |
| SceneInteraction.BloomCompositor.RestoreMaterial | src/components/SceneInteractionManager.jsx:125-130 | the object's material and the dictionary become those of `RestoreVisit` on their old values |
| SceneInteraction.BloomCompositor.NonBloomedAt | src/components/SceneInteractionManager.jsx:200 | one visit of the swap traversal moves the swept prefix on by one object, and the dictionary follows the sweep |
| SceneInteraction.BloomCompositor.RestoreAt | src/components/SceneInteractionManager.jsx:202 | one visit of the restore traversal moves the restored prefix on by one object, and the dictionary loses that uuid |
| SceneInteraction.BloomCompositor.TraverseNonBloomed | src/components/SceneInteractionManager.jsx:200 | the objects' states and the dictionary after `scene.traverse(nonBloomed)` are those of the swap sweep |
| SceneInteraction.BloomCompositor.TraverseRestore | src/components/SceneInteractionManager.jsx:202 | the objects' states and the dictionary after `scene.traverse(restoreMaterial)` are those of the restore sweep |
| SceneInteraction.BloomCompositor.RenderFrame | src/components/SceneInteractionManager.jsx:200-202 | the bloom render sees every dimmed mesh in the dark material; afterwards every object is as before and the dictionary is empty |
| ObjectList.DisplayName | src/components/SceneInteractionManager.jsx:172 | the display name is never empty, and it is the mesh's own name when that is not empty |
| ObjectList.MeshEntries | src/components/SceneInteractionManager.jsx:169-175 | the list built on load has at most one entry per object of the traversal; the lemmas below state which entries |
| ObjectList.MeshEntriesAreFreshMeshes | src/components/SceneInteractionManager.jsx:169-175 | every loaded entry is a mesh of the traversal, under its display name, with its bloom flag off |
| ObjectList.MeshEntriesCoverMeshes | src/components/SceneInteractionManager.jsx:170-173 | every mesh of the traversal has an entry |
| ObjectList.MeshEntriesAppend | src/components/SceneInteractionManager.jsx:170-174 | entries follow traversal order: the list for a concatenation is the concatenation of the lists |
| ObjectList.MeshEntriesDistinct | src/components/SceneInteractionManager.jsx:169-175 | a traversal with distinct uuids gives a list with distinct uuids |
| ObjectList.Flip | src/components/SceneInteractionManager.jsx:227-229 | one entry of the `.map` update keeps its name and mesh, and its flag flips exactly when the mesh has the given uuid |
| ObjectList.FlipMatching | src/components/SceneInteractionManager.jsx:226-232 | the mapped list keeps length, order, names and meshes, and flips exactly the flags of entries with the given uuid |
| ObjectList.FlipMatchingTwice | src/components/SceneInteractionManager.jsx:225-234 | flipping the same uuid twice gives back the list |
| ObjectList.BuildObjectList | src/components/SceneInteractionManager.jsx:169-174 | the loop that pushes one entry per mesh builds exactly the mesh entries of the traversal |
| SceneInteraction.SceneInteractionManager.constructor | src/components/SceneInteractionManager.jsx:17 | the object list starts empty, and so does the list captured at mount |
| SceneInteraction.SceneInteractionManager.OnModelLoaded | src/components/SceneInteractionManager.jsx:169-175 | the list becomes the mesh entries of the loaded model; flags match masks when no mesh starts on the bloom layer |
| SceneInteraction.SceneInteractionManager.HandleCheckboxChange | src/components/SceneInteractionManager.jsx:225-234 | the list becomes its flip for the uuid; exactly the meshes with that uuid have their bloom bit toggled; flags that matched masks still match |
| SceneInteraction.SceneInteractionManager.HandleCheckboxChangeTwice | src/components/SceneInteractionManager.jsx:225-234 | two changes of the same checkbox give back the list and every mask |
| SceneInteraction.SceneInteractionManager.OnPointerDown | src/components/SceneInteractionManager.jsx:142-155 | with no hit nothing changes; otherwise the first hit's bloom bit is toggled and the list becomes the flip of the list captured at mount, which is empty |
| SceneInteraction.SceneInteractionManager.OnPointerDownCurrentList | src/components/SceneInteractionManager.jsx:142-152 | corrected pick: the current list's flip for the hit uuid, with the bloom bit toggled, so flags that matched masks still match |
| SceneInteraction.StalePickAfterLoad | src/components/SceneInteractionManager.jsx:148-152 | after loading a model that has a mesh, the loaded list is not empty, yet the first pick leaves the object list empty |
| RenderingControls.Validate | src/components/RenderingControls.jsx:13-67 | a parsed number is committed exactly when it is a number that meets the handler's bound, and it is committed unchanged |
| RenderingControls.ValidateShadow | src/components/RenderingControls.jsx:29-35 | a parsed shadow size is committed exactly when it is an integer of at least 512 |
| RenderingControls.Merge | src/components/RenderingControls.jsx:17 | spreading the previous record and setting one field gives that field the new value and keeps every other field |
| RenderingControls.BloomRecord | src/components/RenderingControls.jsx:25 | the bloom record has exactly one field, `bloomIntensity`, holding the accepted value |
| RenderingControls.Settings.constructor | src/components/RenderingControls.jsx:3 | the parent's lighting, bloom and renderer records as passed in |
| RenderingControls.Controls.constructor | src/components/RenderingControls.jsx:4-11 | the displayed light, bloom, shadow, resolution, reflectivity, metalness and roughness values start at 1, 1.5, 1024, 1, 0.5, 0 and 0.5, and antialiasing starts on |
| RenderingControls.Controls.HandleLightChange | src/components/RenderingControls.jsx:13-19 | a value > 0 is displayed and merged as `intensity`; anything else changes nothing; displayed and stored values stay in agreement |
| RenderingControls.Controls.HandleBloomChange | src/components/RenderingControls.jsx:21-27 | a value >= 0 is displayed and replaces the whole bloom record; anything else changes nothing |
| RenderingControls.Controls.HandleShadowChange | src/components/RenderingControls.jsx:29-35 | an integer >= 512 is displayed and merged as `shadowSize`; anything else changes nothing |
| RenderingControls.Controls.HandleResolutionChange | src/components/RenderingControls.jsx:37-43 | a value >= 0.5 is displayed and merged as `resolution`; anything else changes nothing |
| RenderingControls.Controls.HandleReflectivityChange | src/components/RenderingControls.jsx:45-51 | any number is displayed and merged as `reflectivity`; NaN changes nothing |
| RenderingControls.Controls.HandleMetalnessChange | src/components/RenderingControls.jsx:53-59 | any number is displayed and merged as `metalness`; NaN changes nothing |
| RenderingControls.Controls.HandleRoughnessChange | src/components/RenderingControls.jsx:61-67 | any number is displayed and merged as `roughness`; NaN changes nothing |
| RenderingControls.Controls.HandleAntialiasingChange | src/components/RenderingControls.jsx:69-73 | the checkbox state is always displayed and merged as `antialiasing` |
| RenderingControls.ShadowHasNoUpperBound | src/components/RenderingControls.jsx:29-35 | every slider position from 512 to 2048 and every larger size, 3000 included, is accepted; 256 and NaN are rejected |
| RenderingControls.SliderPositionsAccepted | src/components/RenderingControls.jsx:80-161 | every position of the light, bloom, resolution and material sliders is accepted by its handler |
| RenderingControls.BoundaryRejections | src/components/RenderingControls.jsx:13-43 | light rejects 0; bloom accepts 0 and rejects negatives; resolution rejects values below 0.5; the material handlers accept any number; NaN is always rejected |

## Left out

- Renderer, camera, lights, tone mapping, the composers and their passes, the FXAA and mixing shaders, and the bloom GUI folder. These are graphics-library configuration and GPU code.
- Raycasting. The pick handler receives the ordered hit list; the pointer-to-device-coordinate arithmetic and `intersectObjects` are not modelled.
- glTF loading, the model's scale and position, the animation mixer and the clock. The loader callback receives the model's traversal as a sequence.
- `TrackballControls`, the resize handler, the effect cleanup and `requestAnimationFrame`. The render loop is modelled one frame at a time (`RenderFrame`).
- `console.log` output, JSX rendering of both components, and the top-level app component, which only mounts the viewer.
- `parseFloat` and `parseInt` text grammar. Handlers receive the parse result, with NaN as `None`; `Infinity` and `-0` are not distinguished from other reals.
- Floating point. Slider and settings values are exact reals.
- React's state batching and re-rendering. A `setState` is modelled as an immediate assignment of the new value.
- SceneInteraction.BloomCompositor.RestoreMaterial: the source tests the saved value for truthiness; saved values are materials, which are always truthy, so the model tests key membership.
- SceneInteraction.BloomCompositor.TraverseNonBloomed, SceneInteraction.BloomCompositor.TraverseRestore, SceneInteraction.BloomCompositor.RenderFrame, SceneInteraction.SceneInteractionManager.OnModelLoaded and SceneInteraction.SceneInteractionManager.Valid: require distinct uuids in the traversal or the list (three.js generates uuids so); without it two objects would share one dictionary entry or one checkbox.
- BloomMaterials.FrameRoundTrip: requires distinct uuids; with a repeated uuid the second dimmed mesh overwrites the first one's saved material, and the round trip fails.
- Layers.Toggle: the 32-bit mask is modelled as a set of channel numbers below 32, not as an integer with bitwise operators.

## Findings

| source | as written | input that shows it | evidently intended | confidence | as-written member | corrected member |
|---|---|---|---|---|---|---|
| src/components/SceneInteractionManager.jsx:148-152 | the pick handler maps over `objectList` as captured when the mount effect ran (the effect has an empty dependency list), which is the initial empty list | load a model with one or more meshes, then click a mesh: its bloom bit toggles, but the object list becomes `[]` and the checklist empties | map over the current list, flipping the hit mesh's flag together with its bloom bit | high, not executed | SceneInteraction.SceneInteractionManager.OnPointerDown, SceneInteraction.StalePickAfterLoad | SceneInteraction.SceneInteractionManager.OnPointerDownCurrentList |
