# Aetherian Voyage, modelled in Dafny

Aetherian Voyage is a web explorer for space imagery. It has a home page with featured images and galaxy cards, and a drill-down page from galaxy to solar system to planet. A viewer page shows one image of a planet in a Deep Zoom viewer, and a compare page sets two images side by side or fades one over the other. A Python tool tiles large pictures into a Deep Zoom image pyramid.

This project models the parts of the code that compute something, and proves what they promise:

- **The Deep Zoom tiler** (`tiling.dfy`):
  - the number of pyramid levels;
  - each level's size and tile grid;
  - every tile's crop box, including the one-pixel overlap on the right and bottom edges;
  - the tile paths;
  - the `.dzi` descriptor text, with its URL normalisation;
  - the command line's argument check and extension filter.

  The loops that cut the tiles are methods proved against a function describing the whole pyramid. The descriptor text has a parser beside it, and the two are proved to round-trip.
- **The catalogue** (`universe_data.dfy`): the four find-first lookups over the nested galaxy data. Facts about the catalogue are proved over the whole table: distinct ids, scores in range, and lookups scoped to their path.
- **The pages** (`home_page.dfy`, `universe_page.dfy`, `viewer_page.dfy`, `vortex_color.dfy`):
  - the home page's totals, featured cards and galaxy links;
  - the drill-down state machine, with its URL effect and its transition to the viewer;
  - the viewer page's lookups, not-found guard, value formatting and habitability colours;
  - the `from-(\w+-\d+)` colour extraction.
- **The components**, each as a value-level function or as a class whose methods are the component's event handlers:
  - `compare_viewer.dfy`, `image_viewer.dfy`, `mini_map.dfy`, `annotation_layer.dfy`, `toolbar.dfy`, `dzi_viewer.dfy`;
  - `lens_flare.dfy`, `explosions.dfy`, `energy_particles.dfy`, `space_scene.dfy`;
  - `spaceship_transition.dfy`, `breadcrumb_nav.dfy`.

  Timers, intervals and animation frames are explicit events, that is, methods a caller invokes. `Math.random()` and `Date.now()` values are parameters.
- **Shared modules**:
  - `seqs.dfy`: `Array.prototype.find` and `filter`, and subsequences;
  - `text.dfy`: decimal text, ASCII lower-casing, JavaScript white space;
  - `urls.dfy`: query strings as `URLSearchParams` reads them.

JavaScript numbers that hold fractions are `real`: zoom, pan offsets, canvas positions, delays and random draws. Numbers that the code only ever gives whole values are `int` or `nat`, so that whole-number facts can be stated about them:
- the rotation angle, which starts at 0 and moves in steps of 90;
- the demo's progress, which moves in steps of 2;
- the compare slider's percentage, whose step is 1;
- the catalogue's habitability scores and moon counts, all written as whole numbers;
- `Date.now()` times and the ids made from them, which are whole milliseconds.

The tiler's pixel arithmetic is on `nat`, as in Python.

The system is sometimes described as having a coordinate transformer and a synchroniser that locks the two viewers of the compare page together. The code has neither, and the model follows the code:
- zoom and pan are handed to OpenSeadragon;
- the overlay mode is a CSS opacity on a static thumbnail.

## Model

| member | source | states |
|---|---|---|
| Tiling.CeilDiv | tiling.py:30-35 | the least `r` with `a <= r * b` (Python's `math.ceil(a / b)` on naturals); zero exactly for `a == 0`, one for `1 <= a <= b` |
| Tiling.CeilLog2 | tiling.py:15 | the least `n` with `m <= 2^n` (`ceil(log2(m))` for `m >= 1`) |
| Tiling.ComputeLevels | tiling.py:13-15 | 0 levels above the base when the larger side is at most 1 pixel, otherwise the least `n >= 1` with `max(width, height) <= 2^n` |
| Tiling.ComputeLevelsLeast | tiling.py:13-15 | any `k` with `max(width, height) <= 2^k` is at least the computed level number |
| Tiling.LevelOf | tiling.py:29-35 | a level's columns and rows are the least numbers of 256-pixel tiles that cover its width and height |
| Tiling.TopLevelIsFullSize | tiling.py:28-31 | the top level (scale `2^0`) has the picture's own width and height |
| Tiling.BottomLevelIsOnePixel | tiling.py:28-35 | level 0 of any non-empty picture is 1 x 1 pixels in a single tile |
| Tiling.CropBox | tiling.py:40-43 | a tile starts at `col * 256, row * 256` and reaches 257 pixels on, clipped at the level's edge |
| Tiling.CropBoxInside | tiling.py:38-45 | every box in the grid is non-empty, inside the level and at most 257 pixels a side |
| Tiling.CropBoxesOverlap | tiling.py:40-42 | neighbouring tiles in a row share exactly the one-pixel overlap |
| Tiling.CropBoxesCover | tiling.py:38-43 | every pixel column of a level lies in the box of column `x / 256` |
| Tiling.RowTiles | tiling.py:39-46 | one tile per column of a row, in column order |
| Tiling.GridTileAt | tiling.py:38-46 | the grid holds `rows * cols` tiles and the tile at `row * cols + col` is cell (col, row): rows outside, columns inside |
| Tiling.GridTileIsCell | tiling.py:38-46 | every tile of a level's grid is one of its cells, built from its own column and row |
| Tiling.LevelTileCount | tiling.py:48 | a level writes `cols * rows` tiles, the number the progress line reports |
| Tiling.PyramidTileFacts | tiling.py:28-46 | every tile written for the first `n` levels belongs to one of them, lies in its grid, has a crop box inside the level of at most 257 pixels a side, and is saved under `<output>/<level>/<col>_<row>.png` |
| Tiling.TilePathShape | tiling.py:18-20 | a tile's path is the output directory, a slash, the level, a slash and `<col>_<row>.png` |
| Tiling.TilePathInjective | tiling.py:18-20 | two tiles share a path only when level, column and row all agree, so no tile overwrites another |
| Tiling.CutRow | tiling.py:39-46 | the inner loop produces the row's tiles, column by column |
| Tiling.CutLevel | tiling.py:38-46 | the nested loops produce the level's whole grid, row after row |
| Tiling.LevelCounts | tiling.py:48 | one count per level, each the level's `cols * rows` |
| Tiling.LevelSize | tiling.py:29-35 | the loop body's size computation gives the level's scaled size and grid |
| Tiling.GenerateTiles | tiling.py:24-48 | the level loop writes exactly the pyramid of tiles, levels 0 to the computed maximum, and reports each level's tile count |
| Tiling.NormalizeUrl | tiling.py:64 | the result ends in `/`, starts with the given URL and is at most one longer; it is the URL itself exactly when that already ends in `/` |
| Tiling.NormalizeUrlIdempotent | tiling.py:64 | adding the trailing slash twice is adding it once |
| Tiling.ParseUrlAttributeOf | tiling.py:63-65 | the `Url` attribute reads back as the normalised base URL plus `<image>/`, and is absent for a missing or empty URL |
| Tiling.ParseImageTagOf | tiling.py:58-62 | the `<Image` tag reads back as tile size 256, overlap 1 and format `png` |
| Tiling.ParseTailOf | tiling.py:66-68 | the `<Size>` element reads back as the written width and height |
| Tiling.DziRoundTrip | tiling.py:51-68 | reading the written descriptor gives back tile size, overlap, format, width, height and the tile URL |
| Tiling.BaseName | tiling.py:54 | everything after the last `/`: the result holds no `/`, ends the path, and is preceded by a `/` unless it is the whole path, which it is when the path holds no `/` |
| Tiling.StripExtension | tiling.py:54 | the stem is a prefix of the name. It is either the whole name or everything before the last `.`, when that part has a character other than `.`. The whole name is kept exactly when there is no `.`, or when only dots precede the last one |
| Tiling.StripExtensionOf | tiling.py:54 | `<stem>.<ext>` loses exactly `.<ext>` when the stem is not all dots |
| Tiling.LeadingDotIsNotExtension | tiling.py:54 | a name that is only a leading dot and a suffix keeps it (`.png` stays `.png`), as `os.path.splitext` does |
| Tiling.BaseNameOfJoin | tiling.py:73 | the base name of a file joined to a directory is the file name |
| Tiling.ProcessImage | tiling.py:72-81 | tiles go under `<base>/<image name>`, form the whole pyramid with per-level counts, and the descriptor is `<base>/<image name>.dzi` and reads back with the picture's size and URL |
| Tiling.JoinAll | tiling.py:97 | each listed file joined to the input directory, in listing order |
| Tiling.ImagePathsStep | tiling.py:95-97 | one more listed file adds its path exactly when it has an image extension |
| Tiling.ImagePaths | tiling.py:95-97 | the loop over the listing hands on exactly the entries with an image extension, joined to the input directory, in listing order |
| Tiling.RunMain | tiling.py:84-97 | fewer than three arguments exit with status 1 and the usage line; otherwise every image file of the listing is processed, in order, with the optional URL argument |
| Tiling.UpperCaseExtensionAccepted | tiling.py:96 | the extension test ignores case (`photo.JPG` is an image) |
| Tiling.NotImageByLastChar | tiling.py:96 | a name whose last letter is neither `g` nor `f` in any case is never processed |
| Tiling.InnerExtensionRejected | tiling.py:96 | only the final suffix counts (`image.jpg.bak` is skipped) |
| UniverseData.GetGalaxy | lib/universe-data.ts:303-305 | none exactly when no galaxy has the id; otherwise the first galaxy in catalogue order with that id |
| UniverseData.GetSolarSystem | lib/universe-data.ts:307-310 | none for an unknown galaxy or system id; otherwise the galaxy's first system with that id |
| UniverseData.GetPlanet | lib/universe-data.ts:312-315 | none when any id on the path is unknown; otherwise the system's first planet with that id |
| UniverseData.GetImage | lib/universe-data.ts:317-325 | none when any id on the path is unknown; otherwise the planet's first image with that id |
| UniverseData.CatalogContents | lib/universe-data.ts:65-301 | the catalogue lists four solar systems, six planets and seven images, in that order |
| UniverseData.CatalogImageIdsDistinct | lib/universe-data.ts:65-301 | no two images of the whole catalogue share an id |
| UniverseData.CatalogScoresInRange | lib/universe-data.ts:3 | every habitability score in the catalogue is on the 0-100 scale |
| UniverseData.CatalogLevelsUnique | lib/universe-data.ts:65-301 | ids are unique among galaxies, among each galaxy's systems, each system's planets and each planet's images |
| UniverseData.CatalogPathResolves | lib/universe-data.ts:303-325 | every entry of the catalogue is found again by the lookups from its own ids |
| UniverseData.Earth1IsPathScoped | lib/universe-data.ts:317-325 | `earth-1` is found under milky-way/sol/earth and under no other path |
| UniverseData.OnlyEarthHoldsEarth1 | lib/universe-data.ts:65-301 | the only planet holding an image with id `earth-1` is the Earth of the Sol system in the Milky Way |
| UniversePage.IdKeysDistinct | app/universe/page.tsx:220 | the viewer link has four different parameter names |
| UniversePage.IdsReadBack | app/universe/page.tsx:220 | reading any of the four parameters back from the link gives the id put in |
| UniversePage.ViewerUrlReadsBack | app/universe/page.tsx:220 | the `/viewer?galaxy=…&system=…&planet=…&image=…` link reads back its four ids |
| UniversePage.GalaxyIdPlain | lib/universe-data.ts:67 | catalogue galaxy ids need no escaping in a query string |
| UniversePage.SystemIdPlain | lib/universe-data.ts:74 | catalogue system ids need no escaping |
| UniversePage.PlanetIdPlain | lib/universe-data.ts:80 | catalogue planet ids need no escaping |
| UniversePage.ImageIdPlain | lib/universe-data.ts:103 | catalogue image ids need no escaping |
| UniversePage.CatalogLinkReadsBack | app/universe/page.tsx:213-222 | the link behind any image card of the catalogue reads back as that image's four ids |
| UniversePage.Page.CurrentView | app/universe/page.tsx:107-184 | the galaxy list shows with no galaxy selected, the system list with a galaxy but no system, the planet list once a system is selected |
| UniversePage.Page.Crumbs | app/universe/page.tsx:73-104 | the breadcrumb starts with "Universe" and adds the selected galaxy's and system's names, one crumb each |
| UniversePage.Page.RunUrlEffect | app/universe/page.tsx:25-33 | a non-empty `galaxy` parameter naming a catalogue galaxy selects it when none is selected; otherwise nothing changes |
| UniversePage.Page.ClickUniverse | app/universe/page.tsx:77-80 | the Universe crumb clears both selections |
| UniversePage.Page.ClickGalaxyCrumb | app/universe/page.tsx:91 | the galaxy crumb clears only the system selection |
| UniversePage.Page.SelectGalaxy | app/universe/page.tsx:122 | a galaxy card selects that galaxy |
| UniversePage.Page.SelectSystem | app/universe/page.tsx:161 | a system card selects that system and keeps the galaxy |
| UniversePage.Page.ImageClick | app/universe/page.tsx:42-45 | an image card stores its viewer link and starts the transition |
| UniversePage.Page.TransitionComplete | app/universe/page.tsx:47-49 | the end of the transition navigates to the stored link |
| UniversePage.UniverseCrumbReturnsToGalaxy | app/universe/page.tsx:25-33 | with `?galaxy=andromeda`, clicking Universe shows the galaxy list only until the effect runs again and reselects Andromeda |
| UniversePage.UniverseCrumbWithoutParam | app/universe/page.tsx:77-80 | without the parameter, the Universe crumb stays on the galaxy list |
| UniversePage.DrillDownToEarthAtNight | app/universe/page.tsx:213-222 | galaxy, system and image clicks followed by the transition navigate once, to the ids of the Earth at Night image |
| ViewerPage.ParamOr | app/viewer/page.tsx:33-36 | the parameter's value, or the empty string when it is absent |
| ViewerPage.ImageImpliesPath | app/viewer/page.tsx:57 | when the image is found, so are its planet, system and galaxy |
| ViewerPage.Resolve | app/viewer/page.tsx:33-68 | "Image not found" exactly when the image lookup fails; otherwise the page shows the galaxy, system, planet and image named by the four parameters |
| ViewerPage.ViewerOpensClickedImage | app/viewer/page.tsx:33-68 | the link of any catalogue image card opens the viewer on that image, its planet, system and galaxy |
| ViewerPage.BareViewerNotFound | app/viewer/page.tsx:57-68 | `/viewer` without parameters shows "Image not found" |
| ViewerPage.FormatValue | app/viewer/page.tsx:45-48 | "N/A" for a missing value, otherwise the value to the given number of decimals, a space and the unit |
| ViewerPage.HabitabilityColor | app/viewer/page.tsx:50-55 | green from 80, yellow from 60, orange from 40, red below |
| ViewerPage.HabitabilityMonotone | app/viewer/page.tsx:50-55 | a higher score never gets a worse colour band |
| ViewerPage.ScoreBadge | app/viewer/page.tsx:158-159 | a missing score reads "N/A" and is coloured as a score of 0; a present score is printed and coloured by its value |
| ViewerPage.MissingScoreColouredAsZero | app/viewer/page.tsx:158-159 | a missing score and a score of 0 get the same red badge, with texts "N/A" and "0" |
| ViewerPage.MoonsText | app/viewer/page.tsx:174 | "0" for an unknown moon count, otherwise the count's decimal digits |
| ViewerPage.StatsDialogBody | app/viewer/page.tsx:155-177 | "No statistics available." exactly when the planet has no statistics; otherwise the fourteen cards from the habitability score to the moons |
| ViewerPage.CatalogBadges | app/viewer/page.tsx:158 | Earth's badge is green, Proxima b's yellow, the Moon's and Mars's red |
| ViewerPage.CompareKeepsImage | app/viewer/page.tsx:125-127 | the Compare link carries the image id, and the compare view opens with that catalogue image on the left |
| ViewerPage.CatalogImagesPlain | lib/universe-data.ts:103 | every catalogue image id needs no escaping |
| ViewerPage.Viewer.AnnotateLabel | app/viewer/page.tsx:123 | the button reads "Annotating" exactly while annotation is on, "Annotate" otherwise |
| ViewerPage.Viewer.ToggleAnnotate | app/viewer/page.tsx:120 | flips annotation mode and nothing else |
| ViewerPage.Viewer.ZoomChanged | app/viewer/page.tsx:191 | records the zoom the tiled viewer reports |
| ViewerPage.Viewer.SetStatsOpen | app/viewer/page.tsx:134 | opens or closes the statistics dialog |
| ViewerPage.EventsNeverShowCursor | app/viewer/page.tsx:186-193 | the tiled viewer never reports a cursor position, so none is ever shown |
| HomePage.HomeSystem | app/page.tsx:30-42 | the first galaxy's first system is Sol, with three planets, each with at least one image |
| HomePage.FeaturedSource | app/page.tsx:30-42 | featured card `k` takes its thumbnail from the first image of the `k`th planet of Sol |
| HomePage.FeaturedAsWritten | app/page.tsx:27-46 | three cards, thumbnails from Sol's planets, links to `system=solar-system` with the written planet and image ids |
| HomePage.NoSolarSystemId | lib/universe-data.ts:74 | the Milky Way has no system with id `solar-system` |
| HomePage.SolarSystemLinkNotFound | app/page.tsx:32 | any viewer link to system `solar-system` shows "Image not found" |
| HomePage.FeaturedLinksNotFound | app/page.tsx:27-46 | all three featured cards, as written, open "Image not found" |
| HomePage.FeaturedCards | app/page.tsx:27-46 | the same three cards with links built from the ids of the image whose thumbnail they show |
| HomePage.FeaturedCardsOpenTheirImage | app/page.tsx:27-46 | each corrected card opens the viewer on the very image whose thumbnail it shows |
| HomePage.ImageSumCounts | app/page.tsx:244 | the inner sum of `images.length` counts the images listed under the planets |
| HomePage.TotalsCountListedEntries | app/page.tsx:242-246 | the card totals are the number of planets and images listed under the galaxy's systems |
| HomePage.CatalogCardTotals | app/page.tsx:242-246 | the Milky Way card shows 4 planets and 5 images, Andromeda and Deep Space 1 and 1 |
| HomePage.GalaxyResolves | app/page.tsx:249 | every galaxy's id finds that galaxy again |
| HomePage.FollowGalaxyLink | app/page.tsx:249 | following a galaxy card's `/universe?galaxy=<id>` link opens the universe page on that galaxy's systems |
| CompareViewer.CollectImages | components/compare-viewer.tsx:17-26 | the nested `forEach` loops push every image of the catalogue, galaxy by galaxy, system by system, planet by planet |
| CompareViewer.PushSystems | components/compare-viewer.tsx:19-25 | the loop over one galaxy's systems appends their images in order |
| CompareViewer.PushPlanets | components/compare-viewer.tsx:20-24 | the loop over one system's planets appends their images in order |
| CompareViewer.GalaxyImagesStep | components/compare-viewer.tsx:18-26 | one more galaxy adds exactly its own images at the end |
| CompareViewer.InitialLeft | components/compare-viewer.tsx:28-31 | a non-empty `image` parameter naming a known image opens that image on the left; a missing, empty or unknown one opens the first image |
| CompareViewer.InitialRight | components/compare-viewer.tsx:32 | the right side starts on the second image, or the first when there is only one |
| CompareViewer.FindByOwnId | components/compare-viewer.tsx:153 | with distinct ids, looking an image up by its own id finds that image |
| CompareViewer.InitialLeftOfCatalogImage | components/compare-viewer.tsx:28-31 | a link naming any catalogue image opens it on the left |
| CompareViewer.Comparison.constructor | components/compare-viewer.tsx:28-34 | first render: left and right images as above, split mode, opacity 50 |
| CompareViewer.Comparison.SetMode | components/compare-viewer.tsx:128-137 | the mode buttons switch between split and overlay and touch nothing else |
| CompareViewer.Comparison.SelectLeft | components/compare-viewer.tsx:153 | choosing an id on the left shows the first image with that id; the right side is unchanged |
| CompareViewer.Comparison.SelectRight | components/compare-viewer.tsx:171 | choosing an id on the right shows the first image with that id; the left side is unchanged |
| CompareViewer.Comparison.SetOpacity | components/compare-viewer.tsx:189 | the slider stores a whole percentage from 0 to 100 |
| CompareViewer.Comparison.OverlayOpacity | components/compare-viewer.tsx:222 | the overlay's CSS opacity is the percentage over 100, between 0 and 1 |
| CompareViewer.Comparison.OverlaySource | components/compare-viewer.tsx:225 | the overlay shows the right image's thumbnail, or the placeholder when it has none |
| CompareViewer.ChooseLeftKeepsRight | components/compare-viewer.tsx:153 | choosing `mars-1` on the left after the first render shows Valles Marineris there and keeps Earth at Night on the right |
| ImageViewer.ImageUrl | components/image-viewer.tsx:36 | the image of a known dataset, Earth's for any other name |
| ImageViewer.WheelZoom | components/image-viewer.tsx:38-43 | a wheel step of `deltaY` changes the zoom by `-deltaY / 1000`, clamped to 1..10 |
| ImageViewer.ZoomedIn | components/image-viewer.tsx:65-67 | plus 0.5, capped at 10 |
| ImageViewer.ZoomedOut | components/image-viewer.tsx:69-70 | minus 0.5, floored at 1 |
| ImageViewer.ZoomButtonsStayInRange | components/image-viewer.tsx:65-70 | from any zoom in 1..10 both buttons stay in 1..10, zoom in never lowers the zoom and zoom out never raises it |
| ImageViewer.ZoomInThenOut | components/image-viewer.tsx:65-70 | below the cap, zoom in then zoom out returns to where one started |
| ImageViewer.ZoomOutThenIn | components/image-viewer.tsx:65-70 | above the floor, zoom out then zoom in returns to where one started |
| ImageViewer.Viewer.constructor | components/image-viewer.tsx:27-34 | first render: zoom 1, no pan, not dragging, image not loaded, annotation off |
| ImageViewer.Viewer.Wheel | components/image-viewer.tsx:38-43 | the wheel sets the zoom as above and nothing else |
| ImageViewer.Viewer.ZoomIn | components/image-viewer.tsx:65-67 | the zoom-in button |
| ImageViewer.Viewer.ZoomOut | components/image-viewer.tsx:69-74 | the zoom-out button; the pan resets when the zoom before the click was at most 1.5 and is kept otherwise |
| ImageViewer.Viewer.MouseDown | components/image-viewer.tsx:45-50 | when zoomed in with annotation off, starts a drag remembering the press point relative to the pan; otherwise nothing |
| ImageViewer.Viewer.MouseMove | components/image-viewer.tsx:52-59 | while dragging and able to pan, the pan follows the pointer; otherwise nothing moves |
| ImageViewer.Viewer.MouseUp | components/image-viewer.tsx:61-63 | ends the drag |
| ImageViewer.Viewer.MiniMapNavigate | components/image-viewer.tsx:86-88 | the mini-map sets the pan to the point it computed |
| ImageViewer.Viewer.ImageLoaded | components/image-viewer.tsx:204 | the image's load event |
| ImageViewer.ZoomButtonsDisabledAtBounds | components/image-viewer.tsx:150-162 | the zoom-out button is disabled exactly at zoom 1 and the zoom-in button exactly at 10; an enabled button moves the zoom strictly, and a disabled one would not move it |
| ImageViewer.Viewer.SetAnnotationActive | components/image-viewer.tsx:179 | the toolbar's annotation switch |
| ImageViewer.DragThereAndBack | components/image-viewer.tsx:45-63 | a drag moves the pan by the pointer's displacement, and dragging back to the press point restores it |
| ImageViewer.AnnotationModeBlocksPanning | components/image-viewer.tsx:46 | with annotation on, a press and a move neither start a drag nor pan |
| ImageViewer.ZoomOutRecentres | components/image-viewer.tsx:69-74 | from zoom 1.5 with any pan, zoom out lands on zoom 1, centred, with the mini-map hidden |
| DziViewer.JsRem | components/dzi-viewer.tsx:110 | JavaScript's `%`: a non-negative dividend gives the Euclidean remainder, a negative one a remainder in `(-b, 0]` |
| DziViewer.Rotated | components/dzi-viewer.tsx:110 | a quarter turn clockwise, wrapped to 0..359 from any angle of at least -90 |
| DziViewer.FourRotationsReturn | components/dzi-viewer.tsx:110 | four presses from an upright angle return to it, through the other three |
| DziViewer.ZoomInOutCancel | components/dzi-viewer.tsx:107-108 | the zoom-in factor and the zoom-out divisor cancel |
| DziViewer.IncrementIsTheFormula | components/dzi-viewer.tsx:128-130 | the progress step `(100 / 2500) * 50` is 2 |
| DziViewer.Tick | components/dzi-viewer.tsx:133-144 | a tick adds the step, and at or past 100 stops at exactly 100 and ends the interval; the bar stays in 0..100 |
| DziViewer.Viewer.constructor | components/dzi-viewer.tsx:37-45 | first render: no viewer, loading, dialog closed, no progress, no timers |
| DziViewer.Viewer.InitViewer | components/dzi-viewer.tsx:47-105 | a new viewer on a new tile source; the previous one is not destroyed |
| DziViewer.Viewer.Opened | components/dzi-viewer.tsx:80 | either outcome of opening hides the spinner |
| DziViewer.Viewer.ZoomIn | components/dzi-viewer.tsx:107 | multiplies the viewer's zoom by 1.5; ignored without a viewer |
| DziViewer.Viewer.ZoomOut | components/dzi-viewer.tsx:108 | divides the viewer's zoom by 1.5; ignored without a viewer |
| DziViewer.Viewer.Rotate | components/dzi-viewer.tsx:110 | turns the viewer a quarter turn; ignored without a viewer |
| DziViewer.Viewer.StartDemo | components/dzi-viewer.tsx:121-146 | opens the dialog, starts processing from 0 and one more interval |
| DziViewer.Viewer.IntervalTick | components/dzi-viewer.tsx:132-145 | one interval firing: progress moves as `Tick` says, and the last firing stops its interval and schedules the completion |
| DziViewer.Viewer.CompletionFires | components/dzi-viewer.tsx:137-140 | the completion timeout ends processing and marks the demo complete, dialog open or not |
| DziViewer.Viewer.CloseDialog | components/dzi-viewer.tsx:227-234 | closing the dialog resets it; running timers are not cancelled |
| DziViewer.Viewer.TickTimes | components/dzi-viewer.tsx:132-145 | `n` firings before the end add `2 * n` to the progress |
| DziViewer.FullDemo | components/dzi-viewer.tsx:121-146 | fifty firings bring the bar to 100 and stop the interval; the completion then marks the demo complete |
| DziViewer.CloseMidRunStillCompletes | components/dzi-viewer.tsx:227-234 | closing the dialog mid-run still lets the interval finish and mark the demo complete behind the closed dialog |
| DziViewer.ControlsWithoutViewer | components/dzi-viewer.tsx:107-110 | before a viewer exists the zoom and rotate buttons do nothing |
| DziViewer.SwitchImages | components/dzi-viewer.tsx:47-105 | switching the tile source twice leaves three viewers alive, and the spinner does not come back |
| SpaceScene.Planets | components/space-scene.tsx:36-69 | four planets, Earth, Moon, Mars and Space, each with a positive radius, placed at fixed fractions of the canvas |
| SpaceScene.HitTest | components/space-scene.tsx:164-166 | the first planet in list order whose disc (strictly) contains the point, or none exactly when no disc does |
| SpaceScene.CentreIsUnder | components/space-scene.tsx:165 | a planet's own centre is under it |
| SpaceScene.EarthCentrePicksEarth | components/space-scene.tsx:164-166 | pointing at Earth's centre picks Earth on any canvas |
| SpaceScene.MoonCentrePicksMoonIff | components/space-scene.tsx:164-166 | pointing at the Moon's centre picks the Moon exactly when the canvas diagonal is at least 300 pixels; on smaller canvases Earth, listed first, covers it |
| SpaceScene.EarthCoversMoonCentre | components/space-scene.tsx:36-52 | Earth's disc holds the Moon's centre exactly when the canvas diagonal is under 300 pixels |
| SpaceScene.SelectionsAreDatasets | components/space-scene.tsx:181 | the lower-cased name of every planet is a dataset the image viewer knows |
| SpaceScene.Scene.constructor | components/space-scene.tsx:17-18 | first render: mouse at the origin, nothing hovered, nothing selected, and the canvas shows the default cursor, the one it has before the mouse-move handler first writes `style.cursor` |
| SpaceScene.Scene.Tooltip | components/space-scene.tsx:215-221 | a tooltip shows exactly while a planet is hovered, 20 pixels right of and 40 above the pointer, with its name |
| SpaceScene.Scene.MouseMove | components/space-scene.tsx:158-169 | records the pointer relative to the canvas, the planet under it, and a pointer cursor exactly when there is one |
| SpaceScene.Scene.Click | components/space-scene.tsx:172-183 | a click on a planet reports its lower-cased name; a click elsewhere reports nothing |
| SpaceScene.ClickMars | components/space-scene.tsx:158-183 | hovering and clicking at Mars's centre reports `mars` with a pointer cursor |
| EnergyParticles.PickColor | components/energy-particles.tsx:40 | the colour drawn is always one of the five listed |
| EnergyParticles.NewParticle | components/energy-particles.tsx:32-43 | a new particle lies on the canvas, moves at most one pixel a frame on each axis (less than one in the positive direction), has age 0, a lifetime in [50, 150), a listed colour and a size in [1, 3) |
| EnergyParticles.Step | components/energy-particles.tsx:57-60 | a frame ages a particle by one and moves it by its velocity, keeping everything else |
| EnergyParticles.Alpha | components/energy-particles.tsx:63 | the opacity is in (0, 1] while the particle lives and at most 0 once it has reached its lifetime |
| EnergyParticles.Steps | components/energy-particles.tsx:56-60 | every particle stepped once, in place |
| EnergyParticles.SurvivorsMeaning | components/energy-particles.tsx:56-84 | after a frame's loop the field keeps, in their order, exactly the stepped particles that have not reached their lifetime |
| EnergyParticles.SpliceStep | components/energy-particles.tsx:56-84 | one step of the backward loop, updating in place or splicing out index `i - 1`, extends the processed suffix by one |
| EnergyParticles.SurvivorsStayLive | components/energy-particles.tsx:81-83 | particles that were live before a frame and survive it are still live |
| EnergyParticles.FreshParticlesSurvive | components/energy-particles.tsx:46-48 | particles of age 0 with a lifetime of at least 50 all survive one frame |
| EnergyParticles.Field.constructor | components/energy-particles.tsx:46-48 | mounting makes fifty particles from fifty sets of draws, in order |
| EnergyParticles.Field.Frame | components/energy-particles.tsx:50-95 | a frame leaves the survivors of the previous field, plus one new particle when fewer than fifty remain and the spawn draw is below 0.3 |
| EnergyParticles.Field.Resize | components/energy-particles.tsx:99-102 | a resize changes the canvas size and no particle |
| EnergyParticles.Field.Unmount | components/energy-particles.tsx:105 | unmounting only removes the resize listener |
| EnergyParticles.FirstFrameKeepsFifty | components/energy-particles.tsx:46-92 | the first frame keeps all fifty particles, each now one frame old, and adds none |
| EnergyParticles.FramesOutliveUnmount | components/energy-particles.tsx:94-105 | after unmounting a frame still ages the particles |
| Explosions.Period | components/explosions.tsx:35 | for a positive frequency the interval is `3000 / frequency` ms |
| Explosions.NewExplosion | components/explosions.tsx:17-21 | an explosion is named by the current time and lies in the window |
| Explosions.Without | components/explosions.tsx:27 | the removal keeps, in order, exactly the explosions whose id differs |
| Explosions.RemoveAt | components/explosions.tsx:26-28 | a fired timeout leaves the other pending timeouts in their order |
| Explosions.Field.constructor | components/explosions.tsx:13-35 | mounting starts the interval with no explosions and no timeouts |
| Explosions.Field.Tick | components/explosions.tsx:31-35 | a draw above 0.7 adds one explosion and schedules its removal; any other draw changes nothing |
| Explosions.Field.RemovalFires | components/explosions.tsx:26-28 | a removal timeout takes away every explosion with its id and is itself done |
| Explosions.Field.Unmount | components/explosions.tsx:37 | unmounting clears the interval; explosions and their timeouts stay |
| Explosions.Field.Drain | components/explosions.tsx:26-28 | once all pending removals have fired, no explosion is left |
| Explosions.SameMillisecondRemovedTogether | components/explosions.tsx:18-27 | two explosions made in the same millisecond both vanish at the first removal (two ticks fall in one millisecond only for a frequency above 3000) |
| Explosions.DistinctTimesRemovedSeparately | components/explosions.tsx:18-27 | explosions made at different times are removed one by one |
| Explosions.LowDrawAddsNothing | components/explosions.tsx:32 | a draw of at most 0.7 shows nothing |
| MiniMap.ViewportWidth | components/mini-map.tsx:53 | the rectangle's width times the zoom is the thumbnail's width, whatever the container's width; from zoom 1 up it fits in the thumbnail |
| MiniMap.ViewportHeight | components/mini-map.tsx:54 | the same for the height |
| MiniMap.ViewportX | components/mini-map.tsx:56-57 | with no horizontal pan the rectangle is centred across the thumbnail |
| MiniMap.ViewportY | components/mini-map.tsx:58-59 | with no vertical pan the rectangle is centred down the thumbnail |
| MiniMap.ViewportBox | components/mini-map.tsx:64-69 | the drawn rectangle starts inside the thumbnail and is no larger than it, lies wholly inside it from zoom 1 up, and is drawn where computed whenever that already fits |
| MiniMap.CentredWhenUnpanned | components/mini-map.tsx:53-69 | unpanned, the drawn rectangle's centre is the thumbnail's centre |
| MiniMap.SourceRect | components/mini-map.tsx:82-92 | the region copied from the picture lies inside the picture |
| MiniMap.SourceInsidePicture | components/mini-map.tsx:53-92 | for every zoom the main viewer allows (1 to 10) and any pan, the copied region lies inside the picture |
| MiniMap.Click | components/mini-map.tsx:106-119 | a click at the thumbnail's centre asks for no pan |
| MiniMap.ClickMirrorsRectangle | components/mini-map.tsx:56-57 | after a click at `(x, y)` the rectangle's centre is at `(200 - x, 150 - y)`, the mirror image of the click |
| MiniMap.QuarterClickLandsOpposite | components/mini-map.tsx:115-118 | a click at (50, 37.5) moves the rectangle's centre to (150, 112.5) |
| MiniMap.CentringClick | components/mini-map.tsx:115-118 | the corrected handler also asks for no pan at the centre |
| MiniMap.CentringClickCentresRectangle | components/mini-map.tsx:115-118 | with the corrected handler the rectangle's centre lands on the click |
| LensFlare.NewFlare | components/lens-flare.tsx:30-34 | a flare lies in [0, 100) percent on both axes with opacity in [0.2, 0.8) |
| LensFlare.NextDelay | components/lens-flare.tsx:50-51 | the next delay lies between the minimum and the maximum delay, and below the maximum when the minimum is smaller |
| LensFlare.Added | components/lens-flare.tsx:36-42 | the new flare goes last, and the oldest goes when the list would pass the cap |
| LensFlare.Removed | components/lens-flare.tsx:46 | each removal drops the oldest flare, or nothing from an empty list |
| LensFlare.AddedStaysCapped | components/lens-flare.tsx:36-42 | a list within the cap stays within it, growing by at most one |
| LensFlare.NoCapNoFlares | components/lens-flare.tsx:38-40 | a cap of zero or less never shows a flare |
| LensFlare.Generator.constructor | components/lens-flare.tsx:55 | mounting creates the first flare, schedules the next and one removal |
| LensFlare.Generator.CreateFlare | components/lens-flare.tsx:29-53 | each scheduled creation adds a flare, reschedules itself with a new delay and sets one more 3000 ms removal |
| LensFlare.Generator.RemovalFires | components/lens-flare.tsx:45-47 | a removal timeout drops the oldest flare, whichever flare set it |
| LensFlare.Generator.Unmount | components/lens-flare.tsx:57 | unmounting cancels the next creation only |
| LensFlare.Generator.Drain | components/lens-flare.tsx:45-47 | after unmounting the pending removals empty the list |
| LensFlare.RemovalTakesNewerFlare | components/lens-flare.tsx:36-47 | with a cap of 1, the first flare's removal takes away the second flare |
| LensFlare.UnmountDrains | components/lens-flare.tsx:45-57 | after unmounting no flare is created and the list empties |
| SpaceshipTransition.StatusText | components/spaceship-transition.tsx:165-167 | one status line per stage, each stage its own |
| SpaceshipTransition.Transition.constructor | components/spaceship-transition.tsx:12-34 | the first render is at the approach stage; an active transition sets both timers |
| SpaceshipTransition.Transition.SetActive | components/spaceship-transition.tsx:15-44 | a change of `isActive` cancels the old timers and, when turning on, sets both again; the stage is not reset |
| SpaceshipTransition.Transition.ApproachTimeout | components/spaceship-transition.tsx:26-28 | the 1500 ms timer moves to the warp stage |
| SpaceshipTransition.Transition.WarpTimeout | components/spaceship-transition.tsx:31-34 | the 3000 ms timer completes and calls `onComplete` once |
| SpaceshipTransition.FullRun | components/spaceship-transition.tsx:15-44 | a full run shows the three status lines in order, the warp lines in the middle, and calls `onComplete` once |
| SpaceshipTransition.CancelledRun | components/spaceship-transition.tsx:36-38 | deactivating mid-flight hides the overlay and leaves no timer to call `onComplete` |
| SpaceshipTransition.Reactivation | components/spaceship-transition.tsx:12 | a second activation opens on "[ ARRIVAL COMPLETE ]", since the stage is never reset |
| BreadcrumbNav.Crumb | components/breadcrumb-nav.tsx:20-26 | an item with a non-empty `href` becomes a link with its label, any other a plain label |
| BreadcrumbNav.Render | components/breadcrumb-nav.tsx:18-29 | one cell per item, in order, each followed by a chevron except the last |
| BreadcrumbNav.ChevronCount | components/breadcrumb-nav.tsx:27 | a trail of `n` items draws `n - 1` chevrons, or none when empty |
| BreadcrumbNav.CompareCrumbs | components/compare-viewer.tsx:105-108 | the compare page's trail is a Universe link, a chevron, and "Compare Mode" as plain text |
| AnnotationLayer.NewPin | components/annotation-layer.tsx:36-42 | a new pin is named by the click time, sits at the click offset, reads "New Label" and is purple |
| AnnotationLayer.Relabel | components/annotation-layer.tsx:50 | pins with the id get the label and keep everything else; other pins are untouched |
| AnnotationLayer.DeleteRemovesExactly | components/annotation-layer.tsx:55-57 | deleting removes every pin with the id, keeps every other pin, and keeps their order |
| AnnotationLayer.DeleteUndoesAdd | components/annotation-layer.tsx:44-57 | deleting a pin just added with a fresh id gives back the earlier list |
| AnnotationLayer.RelabelIdempotent | components/annotation-layer.tsx:50 | saving the same label twice changes nothing the second time |
| AnnotationLayer.Layer.constructor | components/annotation-layer.tsx:25-27 | no pins and no editor at first |
| AnnotationLayer.Layer.Heading | components/annotation-layer.tsx:140 | the heading is `Annotations (<n>)`, and the number in it reads back as the pin count |
| AnnotationLayer.Layer.Click | components/annotation-layer.tsx:29-47 | a click reaching the canvas (an empty spot, a pin, its label or the label field) appends a new pin while active and opens its editor on "New Label"; while inactive it changes nothing |
| AnnotationLayer.Layer.SetActive | components/annotation-layer.tsx:19 | a new `isActive` prop changes only whether clicks are taken; the pins and the editor are kept |
| AnnotationLayer.Layer.Type | components/annotation-layer.tsx:89 | the label field holds what was typed |
| AnnotationLayer.Layer.SaveLabel | components/annotation-layer.tsx:49-53 | Enter (`:93`) relabels the pins with the id with the typed text and closes the editor |
| AnnotationLayer.Layer.Edit | components/annotation-layer.tsx:110-114 | Edit, pressable only while annotation mode is on (`:67`), opens the editor on the pin's own label |
| AnnotationLayer.Layer.CancelEdit | components/annotation-layer.tsx:94 | Escape closes the editor and leaves the pins and the typed text alone |
| AnnotationLayer.Layer.SaveButton | components/annotation-layer.tsx:98 | the Save button's click also reaches the canvas handler (`:64`), whose append, from the same rendered list, is the last write: the pins are the old pins plus a new one under the button, the relabel is lost, and the new pin's editor opens |
| AnnotationLayer.Layer.CancelButton | components/annotation-layer.tsx:101 | the Cancel button's click also reaches the canvas handler: a new pin under the button, with its editor open |
| AnnotationLayer.Layer.Delete | components/annotation-layer.tsx:55-57 | a delete button removes the pins with that id |
| AnnotationLayer.Layer.ClearAll | components/annotation-layer.tsx:142 | Clear All removes every pin |
| AnnotationLayer.PlaceAndName | components/annotation-layer.tsx:29-53 | placing, typing and saving with Enter leaves one pin with the typed label at the click offset, the editor closed, and the heading `Annotations (1)` |
| AnnotationLayer.PlaceAndSaveWithButton | components/annotation-layer.tsx:44-53 | placing at `t1`, typing and pressing Save at `t2` leaves two "New Label" pins and the editor open on the pin of `t2` |
| AnnotationLayer.PlaceAndEscape | components/annotation-layer.tsx:94 | placing and pressing Escape leaves the one new pin, labelled "New Label", with the editor closed |
| AnnotationLayer.PlaceAndCancelWithButton | components/annotation-layer.tsx:101 | placing at `t1` and pressing Cancel at `t2` leaves two pins and the editor open on the pin of `t2` |
| AnnotationLayer.InactiveClickIgnored | components/annotation-layer.tsx:30 | with annotation mode off a click adds nothing, opens nothing and shows no list |
| AnnotationLayer.DeleteFirstKeepsSecond | components/annotation-layer.tsx:55-57 | of two pins placed at different times, deleting the first leaves exactly the second |
| Toolbar.FeaturesOf | components/toolbar.tsx:59 | the dataset's landmarks, none for an unknown dataset |
| Toolbar.SearchResults | components/toolbar.tsx:56-69 | nothing for a query that trims to empty; otherwise, in listed order, exactly the landmarks whose lower-cased name or description contains the lower-cased query |
| Toolbar.UnknownDatasetFindsNothing | components/toolbar.tsx:59 | a dataset without landmarks finds nothing |
| Toolbar.PopularFeatures | components/toolbar.tsx:202 | the first three landmarks, or all when there are fewer |
| Toolbar.PanelFor | components/toolbar.tsx:180-213 | results when there are any, "No results found" for any other non-empty query, the popular list for an empty one |
| Toolbar.BlankQueryShowsNoResults | components/toolbar.tsx:58-67 | a query of spaces finds nothing and shows "No results found", not the popular list |
| Toolbar.ClearedQueryShowsPopular | components/toolbar.tsx:196-213 | clearing the box shows the popular list again |
| Toolbar.ExploreUrl | components/toolbar.tsx:72 | the dataset menu links to `/explore?dataset=<name>` |
| Toolbar.ExploreUrlRoundTrip | components/toolbar.tsx:72 | the explorer reads back the dataset the menu entry named |
| Toolbar.Bar.constructor | components/toolbar.tsx:51-54 | search closed and empty, annotation off |
| Toolbar.Bar.ToggleSearch | components/toolbar.tsx:88 | the search button opens or closes the panel |
| Toolbar.Bar.CloseSearch | components/toolbar.tsx:168 | the panel's close button closes the panel and keeps the query, the results and annotation mode |
| Toolbar.Bar.Search | components/toolbar.tsx:56-69 | each keystroke stores the raw query and its results |
| Toolbar.BlankThenCleared | components/toolbar.tsx:56-69 | two spaces in the open panel show "No results found", clearing the box shows the popular landmarks again, and the close button hides the panel |
| Toolbar.Bar.ToggleAnnotation | components/toolbar.tsx:75-79 | flips annotation mode and reports the new value to the page |
| Toolbar.LowerIdempotent | components/toolbar.tsx:62-63 | lower-casing twice is lower-casing once |
| Toolbar.LowerKeepsBlank | components/toolbar.tsx:58 | lower-casing never turns text into or out of white space |
| Toolbar.SearchIgnoresCase | components/toolbar.tsx:56-69 | a query and the same query in lower case find the same landmarks |
| Toolbar.AnnotationSwitchTwice | components/toolbar.tsx:75-79 | two presses report true, then false |
| VortexColor.WordRun | app/page.tsx:272 | the longest run of word characters (`\w`) from a position |
| VortexColor.DigitRun | app/page.tsx:272 | the longest run of digits (`\d`) from a position |
| VortexColor.MatchAtMeaning | app/page.tsx:272 | a match of `from-(\w+-\d+)` at a position is a token `<word>-<digits>` that follows `from-` there |
| VortexColor.FirstMatchMeaning | app/page.tsx:272 | the leftmost match from a position: none exactly when no later position matches; otherwise a token matched at some position with no match before it |
| VortexColor.Vortex | app/page.tsx:272 | the vortex colour is the group of the leftmost `from-(\w+-\d+)` match in the galaxy's colour classes, or `blue-500` when there is none |
| VortexColor.LeadingColour | app/page.tsx:272 | classes starting `from-<word>-<digits>` give that colour (for example `from-purple-500 to-blue-600` gives `purple-500`) |
| Urls.GetParam | app/viewer/page.tsx:33-36 | `URLSearchParams.get`: absent exactly when no pair of the query has the key; otherwise the value of the first pair with that key |
| Urls.QueryRoundTrip | app/universe/page.tsx:220 | a query built from plain keys and values splits back into the same pairs |
| Urls.GetParamOfBuilt | app/viewer/page.tsx:33-36 | the first pair with a key is what reading that key gives |
| Urls.QueryReadsBack | app/viewer/page.tsx:33-36 | with distinct keys every pair reads back |
| Urls.GetParamAbsent | app/viewer/page.tsx:33-36 | a key not in the query reads as absent |
| Urls.GetParamNoQuery | app/viewer/page.tsx:33-36 | a URL without `?` has no parameters |
| Text.NatToString | components/annotation-layer.tsx:37 | the decimal text of a number: digits only, no leading zero |
| Text.ParseNatToString | components/annotation-layer.tsx:37 | the decimal text reads back as the number |
| Text.NatToStringInjective | components/annotation-layer.tsx:37 | different click times give different pin ids |
| Text.Lower | components/toolbar.tsx:62 | `toLowerCase` on ASCII letters, character by character, keeping the length |
| Seqs.Find | lib/universe-data.ts:304 | `Array.prototype.find`: the first element satisfying the test, or none exactly when none does |
| Seqs.Filter | components/annotation-layer.tsx:56 | `Array.prototype.filter`: every kept element comes from the list and passes the test, and every element that passes is kept |
| Seqs.FilterMultiset | components/annotation-layer.tsx:56 | each accepted element occurs in the result as often as in the list, and no rejected element occurs |
| Seqs.FilterIsSubsequence | components/annotation-layer.tsx:56 | the filtered elements keep their order |

## Left out

- OpenSeadragon: its tile fetching, viewport arithmetic, animation and events belong to a library loaded at run time. Only the values the components hand to it and the events they handle are modelled.
- PIL and the file system in the tiler: opening, resizing, cropping, saving, directory creation and listing, file writes and `print`. Tiles are records of level, column, row, crop box and path, the descriptor is a string, and picture sizes and the directory listing are parameters.
- Tiling.CeilLog2: the tiler's floating-point `math.log2` is replaced by the exact least `n` with `m <= 2^n`; rounding error of the float for very large sizes is not modelled.
- Canvas drawing: the starfield, vortex and shooting-star animations and the drawing parts of the mini-map, space scene and particle field. Only the numbers they compute are modelled.
- ViewerPage.FormatValue: `toFixed` is a parameter that gives the formatted digits, since floating-point formatting is not modelled.
- SpaceScene.Scene: the canvas size is fixed when the scene is built. The source's effect lists the mouse position among its dependencies, so after every mouse move it resizes the canvas and rebuilds the planets from the window size; a window resize, after which hit-testing follows the new layout, is not modelled.
- SpaceScene.HitTest: `Math.sqrt` is not modelled; the distance is compared squared with the radius, which is equivalent for the non-negative values involved.
- Text.Lower: `toLowerCase` is modelled on ASCII letters only; other characters are left unchanged.
- Urls.GetParam: percent-decoding and `+` handling of `URLSearchParams` are not modelled; the round-trip lemmas require plain keys and values (none of `&`, `=`, `?`, `#`, `+` or `%`), which every catalogue id is proved to be.
- React scheduling: effects and re-renders are not modelled beyond the explicit events. Closures over a stale render are modelled only where handlers share one event, as for the annotation editor's buttons. framer-motion animations and the compare viewer's viewer lifecycle are left out.
- Randomness: `Math.random()` is a parameter in `[0, 1)`; distributions are not modelled, nor the random stars and warp lines.
- Audio, fullscreen, theme and the navbar are browser APIs and are left out, including the transition's sounds.
- Static pages and wiring: the about, team and layout pages, the compare page wrapper and the HUD overlay have no logic beyond rendering.
- Catalogue prose: descriptions, gradients, dates and mission names are not carried; ids, names, colour classes, image lists, scores, moons and the numeric facts used by the pages are.
- Toolbar: the timeline list and the dataset menu's router push are not modelled beyond the URL `ExploreUrl` builds.
- Explosions.Period: requires a positive frequency, because the source divides by it.
- MiniMap.ViewportWidth, MiniMap.ViewportHeight, MiniMap.ViewportX, MiniMap.ViewportY and MiniMap.ViewportBox: require a measured container and a positive zoom, because the source divides by the container's size and by the zoom.

## Findings

| source | as written | input that shows it | evidently intended | confidence | as-written member | corrected member |
|---|---|---|---|---|---|---|
| components/mini-map.tsx:115-118 | the click handler mirrors the click: the rectangle's centre goes to `(200 - x, 150 - y)` | a click at (50, 37.5) centres the rectangle at (150, 112.5) | the clicked point becomes the centre of the view | not executed | MiniMap.QuarterClickLandsOpposite | MiniMap.CentringClickCentresRectangle |
| components/annotation-layer.tsx:98 | the Save button does not stop its click, so the canvas handler runs after `handleSaveLabel` and overwrites the relabelled list with the old list plus a new pin | place a pin at t1, type "Crater", press Save at t2: two "New Label" pins, editor open on pin t2 | the label is saved and the editor closes, as with Enter; the button calls `e.stopPropagation()` as Edit does | not executed | AnnotationLayer.PlaceAndSaveWithButton | AnnotationLayer.PlaceAndName |
| components/annotation-layer.tsx:101 | the Cancel button does not stop its click, so the canvas handler adds a pin and reopens the editor | place a pin at t1, press Cancel at t2: two pins, editor open on pin t2 | the editor closes and nothing is added, as with Escape | not executed | AnnotationLayer.PlaceAndCancelWithButton | AnnotationLayer.PlaceAndEscape |
| app/page.tsx:27-46 | the featured links use `system=solar-system` and image ids that are not in the catalogue | the first featured link names system `solar-system`, and no galaxy has a system with that id, so the viewer shows "Image not found" | each featured card opens the image shown on it | not executed | HomePage.FeaturedLinksNotFound | HomePage.FeaturedCardsOpenTheirImage |
