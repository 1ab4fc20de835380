# mypoly avatar customizer: a Dafny model

mypoly is a browser avatar customizer. Its 2D view keeps one customization
state: the selected option id for each part category (face, eyes, mouth,
hair) and four colours (skin, hair, eyes, clothes). Clicking an option or a
colour swatch stores that choice and repaints the preview. The random button
draws new selections and new skin and hair colours. Repainting looks up each
selected option in the parts catalog and writes its SVG fragment and colour
into one of four SVG groups. Its 3D view, `Character`, owns five shared
materials and a fixed hierarchy of primitive meshes. These can be rehaired,
scaled, recoloured and given a new head shape.

The project has four modules:

- `Wrappers` (`wrappers.dfy`): `Option`, with `None` standing for JavaScript's `undefined`.
- `Catalog` (`catalog.dfy`): the immutable catalog of `character-data.js`, meaning the option lists and palettes, with their counts, id scheme and uniqueness.
- `Customizer` (`customizer.dfy`): the page logic of `main.js`.
  - The pure functions `Render`, `Select`, `ChooseColor` and `Randomized` specify the behaviour.
  - The class `CustomizationState` holds the page's mutable `state` object. Its handler methods are proved against those functions.
- `Character3D` (`character3d.dfy`): the `Character` class of `character-3d.js`.
  - The part hierarchy is a value (`Body`) stored in a field of the class.
  - A mesh names the shared material it uses by its slot in the material table. Recolouring one slot therefore recolours every mesh that shares it.
  - Each mutating method is proved against a function: `HairMeshes`, `Scaled`, `Recolored` or `Reshaped`.

Where the code does not do what one would expect, the model follows the code:

- An option click stores the clicked item's id without checking it against the catalog. `SelectOption` does the same. Only a catalog item is proved to keep the state valid.
- `setHeadShape` with an unknown id is not a no-op. It disposes the head geometry and stores `undefined`. The next `setHeadShape` call then throws on `dispose()`, and `SetHeadShape` reports that call as `ok == false` with nothing changed.
- `createHair` detaches the old hair meshes but does not dispose their geometries.
- `createHair` with an unknown style id empties the hair group rather than leaving the current hair alone.
- The random button redraws the four selections and the skin and hair colours. It leaves the eye and clothes colours alone.
- Repainting stops at the first category whose selected id is not in the catalog, because reading `.path` of `undefined` throws. The groups before it have already been repainted. `Render` returns the groups written and the failing category.

## Model

| member | source | states |
|---|---|---|
| `Catalog.OptionCounts` | src/app/character-data.js:9-29 | every category offers exactly three options |
| `Catalog.OptionIdsNumbered` | src/app/character-data.js:9-29 | the option at index i of a category has the id `<category>-<i+1>` |
| `Catalog.OptionIdsUnique` | src/app/character-data.js:9-29 | no two options of a category share an id, so `find` by id is unambiguous |
| `Catalog.OnlyBaldIsEmpty` | src/app/character-data.js:25-28 | "hair-3" (Bald) is the only option with empty markup |
| `Catalog.FirstOptions` | src/app/character-data.js:10-26 | the first option ids are face-1, eyes-1, mouth-1, hair-1 |
| `Catalog.PaletteSizes` | src/app/character-data.js:2-7 | the palettes hold 5, 7, 5 and 6 colours, none empty |
| `Customizer.Colors.Set` | src/app/main.js:62 | the slot written holds the new colour; no other slot changes |
| `Customizer.InitialFromCatalog` | src/app/main.js:2-13 | the initial state selects every category's first option and every palette's first colour, and is drawn from the catalog |
| `Customizer.Find` | src/app/main.js:27-30 | `find` by id succeeds exactly when the id is among the list's ids, and then returns an option with that id |
| `Customizer.FindIsFirst` | src/app/main.js:27-30 | what `find` returns is an element of the list, and no element before it has that id: it is the first match |
| `Customizer.FindOwnId` | src/app/main.js:27-30 | with unique ids, looking up an option's own id returns that very option |
| `Customizer.Layer` | src/app/main.js:27-42 | a group is painted exactly when its lookup succeeds, in skin, eye colour, "#333" or hair colour |
| `Customizer.Render` | src/app/main.js:26-43 | a repaint completes exactly when every selection is a catalog id |
| `Customizer.RenderPaintsInOrder` | src/app/main.js:26-43 | the groups before the first failing lookup are painted with their layers, and none after it; the recorded failure really failed |
| `Customizer.RenderShows` | src/app/main.js:26-43 | in a valid state each group shows the selected option's fragment in the group's colour |
| `Customizer.LayerDependsOn` | src/app/main.js:27-42 | a group's paint depends only on its category's selection and its colour |
| `Customizer.ClothesNotRendered` | src/app/main.js:32-42 | changing the clothes colour leaves the preview unchanged |
| `Customizer.Select` | src/app/main.js:50 | the category takes the id; the other selections and all colours are unchanged |
| `Customizer.SelectKeepsValid` | src/app/main.js:45-55 | selecting a catalog id preserves validity and catalog membership |
| `Customizer.SelectIdempotent` | src/app/main.js:50 | selecting the same id twice equals selecting it once |
| `Customizer.SelectThenRender` | src/app/main.js:49-53 | after selecting option i, the repaint completes and shows option i's fragment; every other group is as before |
| `Customizer.BaldScenario` | src/app/main.js:49-53 | from the start state, choosing Bald paints empty hair markup and keeps the default face, eyes and mouth in their colours |
| `Customizer.ChooseColor` | src/app/main.js:61-65 | the colour slot takes the colour; the other colours and all selections are unchanged |
| `Customizer.ChooseColorKeepsValid` | src/app/main.js:57-67 | a colour change keeps validity; a palette colour keeps catalog membership |
| `Customizer.PickIndex` | src/app/main.js:114-120 | `Math.floor(Math.random() * n)` is an index below n |
| `Customizer.PickIndexReaches` | src/app/main.js:114-120 | every index below n is produced by some random value in [0, 1) |
| `Customizer.Drawn` | src/app/main.js:114-117 | a drawn option belongs to its category |
| `Customizer.DrawnColor` | src/app/main.js:119-120 | a drawn colour belongs to its palette |
| `Customizer.Randomized` | src/app/main.js:113-124 | the random button yields a valid state with palette skin and hair colours; eye and clothes colours are untouched |
| `Customizer.RandomizedKeepsCatalog` | src/app/main.js:113-124 | randomizing a catalog state gives a catalog state |
| `Customizer.RandomizeReachesEveryOption` | src/app/main.js:113-117 | every option of every category can be drawn |
| `Customizer.CustomizationState.constructor` | src/app/main.js:2-13 | the state object starts as the initial state |
| `Customizer.CustomizationState.RenderCharacter` | src/app/main.js:26-43 | a repaint of a catalog state completes |
| `Customizer.CustomizationState.SelectOption` | src/app/main.js:49-53 | the option click updates the state as `Select` does and repaints; a catalog item keeps catalog membership |
| `Customizer.CustomizationState.SelectColor` | src/app/main.js:61-65 | the swatch click updates the state as `ChooseColor` does and repaints |
| `Customizer.CustomizationState.Randomize` | src/app/main.js:113-124 | the random button updates the state as `Randomized` does and always repaints completely |
| `Character3D.InitialMaterialsFive` | src/app/character-3d.js:21-27 | the material table has exactly the slots skin, shirt, pants, hair and shoes |
| `Character3D.BuiltSharing` | src/app/character-3d.js:30-94 | the head and arms share skin, the legs share pants, the torso wears the shirt, no part uses shoes, and the built body is well formed |
| `Character3D.BuiltHair` | src/app/character-3d.js:62-64 | after construction the hair group holds exactly the style1 mesh |
| `Character3D.HairStyle` | src/app/character-3d.js:102-121 | a style id yields a mesh exactly when it is style1, style2 or style3, always in the hair material |
| `Character3D.HairStyles` | src/app/character-3d.js:104-121 | the geometry and height offset of each hairstyle |
| `Character3D.HairMeshes` | src/app/character-3d.js:96-122 | after `createHair` there is at most one hair mesh, and exactly one for a known style |
| `Character3D.CreateHairResult` | src/app/character-3d.js:96-122 | `createHair` replaces the hair only, keeps the body well formed and leaves one mesh for a known style, none otherwise |
| `Character3D.ScaleHeight` | src/app/character-3d.js:126-133 | height sets both legs' vertical scale to h and their y to -0.4 h, keeping x and z |
| `Character3D.ScaleHeadSize` | src/app/character-3d.js:135-137 | head size scales the head group uniformly |
| `Character3D.ScaleBuild` | src/app/character-3d.js:139-143 | build sets the torso's width and depth scale, keeping its height scale |
| `Character3D.ScaleFrame` | src/app/character-3d.js:124-144 | scaling touches only the legs, the head group's scale and the torso's scale, and leaves any branch whose parameter is falsy without effect |
| `Character3D.ScaleCommutes` | src/app/character-3d.js:124-144 | calls that agree on every parameter both apply commute |
| `Character3D.ScaleIdempotent` | src/app/character-3d.js:124-144 | repeating a scale call changes nothing more |
| `Character3D.LegsStayAtHip` | src/app/character-3d.js:126-133 | the legs' tops start at the hip and every scale call keeps them there |
| `Character3D.Recolored` | src/app/character-3d.js:146-150 | a known slot takes the colour, other slots keep theirs, and an unknown slot changes nothing |
| `Character3D.RecolorShared` | src/app/character-3d.js:146-150 | every mesh using the recoloured slot shows the new colour; every other mesh keeps its colour |
| `Character3D.RecolorSkin` | src/app/character-3d.js:146-150 | recolouring skin recolours the head and both arms and nothing else |
| `Character3D.HeadGeometry` | src/app/character-3d.js:153-157 | a shape id yields a geometry exactly when it is shape1, shape2 or shape3 |
| `Character3D.ReshapeFrame` | src/app/character-3d.js:152-161 | a head-shape swap replaces the head's geometry only and keeps the body well formed |
| `Character3D.ReshapeAndScaleCommute` | src/app/character-3d.js:124-161 | head-shape swaps and scale calls commute, so an earlier head size applies to the new head |
| `Character3D.BoxHeadScenario` | src/app/character-3d.js:156-160 | shape2 gives a 0.4 x 0.5 x 0.4 box head and leaves the eyes, hair and head position unchanged |
| `Character3D.Character.constructor` | src/app/character-3d.js:4-11 | a new character has the initial materials, the built body and no disposed geometry |
| `Character3D.Character.InitMaterials` | src/app/character-3d.js:13-28 | the table holds the five starting colours |
| `Character3D.Character.BuildCharacter` | src/app/character-3d.js:30-94 | the body is the built hierarchy with style1 hair |
| `Character3D.Character.CreateHair` | src/app/character-3d.js:96-122 | the loop empties the hair group, then adds the style's mesh; nothing else changes |
| `Character3D.Character.UpdateScale` | src/app/character-3d.js:124-144 | the body becomes `Scaled` of the old body |
| `Character3D.Character.SetColor` | src/app/character-3d.js:146-150 | the table becomes `Recolored` of the old table |
| `Character3D.Character.SetHeadShape` | src/app/character-3d.js:152-161 | the old geometry is disposed and the new one stored; a head without geometry makes the call fail with nothing changed |

## Left out

- The DOM is not modelled: element lookup, `innerHTML` and `style` writes beyond the painted fragment and colour, class names, event wiring, the option panel (`updateUI`, `renderOptions`, `createOptionItem` and `createColorItem` rendering), the tabs, and the PNG export (canvas, blob, download link).
- SVG markup is represented by one token per option (`Fragment`). The exact markup text is not reproduced; only which fragment reaches which group is modelled.
- `Math.random()` is an injected parameter (`Draws`), one value in [0, 1) per call.
- Floating point is modelled with Dafny reals. JavaScript truthiness of the scale parameters is modelled as "present and non-zero". `NaN` is not modelled.
- Three.js internals are not modelled: rendering, lighting, material properties other than colour, `flatShading`, roughness and metalness. The root and hair groups' transforms are never changed by the core and are not modelled.
- Colours in the 3D view are numbers. `Color.set` parsing of CSS strings is not modelled.
- `Character3D.Recolored`: a slot name inherited from `Object.prototype`, such as "toString", is treated as unknown, whereas JavaScript would find the inherited function and throw.
- `Character3D.Character.InitMaterials`: modelled only as the constructor's one-time step. A mesh refers to its material by slot name, whereas JavaScript shares the material object itself. A second `initMaterials` call puts fresh material objects in the table, while the meshes keep the old ones. Later `setColor` calls then no longer reach those meshes. The model has them follow the new table.
- `Character3D.Character.BuildCharacter`: modelled only as the constructor's one-time step. A second `buildCharacter` call adds a second skeleton to the root group, and the first stays in the scene. The model replaces the body instead.
- `Character3D.Character.CreateHair`: the hair meshes it removes are dropped, and their geometries are not recorded as disposed, because `createHair` does not dispose them.
- `Customizer.CustomizationState.SelectOption`: state keys are the four categories, so `state[category]` with an arbitrary category string is not modelled.
