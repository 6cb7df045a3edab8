# Portfolio site logic, modelled in Dafny

A model of the deterministic logic of a React portfolio site:

- **Catalog** (`catalog.dfy`): the constant, ordered list of project records, lookup of a record by id, and the circular previous/next neighbours shown on a detail page. JavaScript's truncating `%` is written out (`JsRem`). So are the index −1 that `findIndex` gives for an unknown id and the `undefined` that indexing outside the array gives.
- **Detail page** (`project_detail.dfy`): the effect that loads a project when the route's id changes, or redirects to `/` when there is no such project. Also the image lightbox (`selectedImage`, `selectedImageIndex`) with open, close, previous, next and the keyboard handler. The transitions are pure functions on a `Lightbox` value, and the `DetailPage` class's methods are specified by them.
- **Bold-text renderer** (`markdown.dfy`): `text.split(/(\*\*.*?\*\*)/g)`, with the regular expression and the ECMAScript split loop written out by hand. Each piece is then classified as bold or plain.
- **Link labels** (`link_labels.dfy`): the three fixed game-design-document labels. Any other key gets its first character upper-cased and a space before every later capital letter.
- **Card grid** (`project_grid.dfy`): the selection state machine (select, open, clear), the pointer-to-tilt normaliser, the mobile switch, the slot table and the card style function.
- **Scroll tracking** (`scroll_tracking.dfy`): the overall and projects-section progress computed in the animation-frame callback. Also the `ticking`/`rafId` coalescing of scroll events, modelled as a class over an explicit frame queue, and the home-route gating of the progress value.
- `wrappers.dfy` holds `Option`, which stands for `null`/`undefined`. `real_ratios.dfy` holds facts about dividing by a positive real, and `remainders.dfy` a fact about Dafny's `%` used for the truncating remainder.

Navigation (`navigate`, `Link`) is modelled as a returned route value. The page geometry, the window width and the pointer position are parameters. `Math.sqrt` is a function parameter, and the only thing assumed about it is that it returns a non-negative result for a non-negative argument.

## Model

| member | source | states |
|---|---|---|
| Catalog.CatalogShape | src/data/projectsData.js:4-709 | the catalog has 9 records, at most the 10 card slots; only the last one, `artwork`, is hidden |
| Catalog.CatalogIdsDistinct | src/data/projectsData.js:4-709 | the nine record ids are pairwise distinct |
| Catalog.FindIndex | src/data/projectsData.js:718 | `findIndex` yields -1 exactly when no record has the id; otherwise it yields the first index whose record has the id |
| Catalog.GetProjectById | src/data/projectsData.js:712-714 | the lookup is undefined exactly when no record has the id; otherwise it yields a catalog record with that id |
| Catalog.FindAgreesWithFindIndex | src/data/projectsData.js:712-718 | the record `find` returns is the record at the index `findIndex` returns |
| Catalog.LookupIsFirstMatch | src/data/projectsData.js:712-714 | a found record is the first one in catalog order whose id matches |
| Catalog.JsRem | src/data/projectsData.js:719-720 | the truncating remainder stays strictly within (-n, n), differs from the dividend by a multiple of n, is non-negative for a non-negative dividend and non-positive for a negative one |
| Catalog.NextIndex | src/data/projectsData.js:718-719 | the next index lies in [0, N); for an id found at index i it is (i+1) mod N |
| Catalog.PrevIndex | src/data/projectsData.js:718-720 | the previous index lies in [0, N); for an id found at index i it is (i-1+N) mod N |
| Catalog.GetAdjacentProjects | src/data/projectsData.js:717-726 | `next` and `previous` are records of the catalog, and are undefined only for an empty catalog |
| Catalog.AdjacentOfFound | src/data/projectsData.js:717-726 | for a found id, `next` is the record at (i+1) mod N and `previous` the record at (i-1+N) mod N |
| Catalog.AdjacentWraps | src/data/projectsData.js:719-724 | `next` of the last record wraps to the first record, and `previous` of the first record wraps to the last |
| Catalog.NeighbourIndices | src/data/projectsData.js:719-720 | the two index formulas, worked out case by case for 0 <= i < N |
| Catalog.AdjacentOfUnknown | src/data/projectsData.js:718-725 | for an unknown id, `next` is record 0 and `previous` is record N-2, or record 0 when N = 1; no error is signalled |
| Catalog.FindIndexOfDistinct | src/data/projectsData.js:718 | with distinct ids, every record is found at its own index |
| Catalog.NextOfPrevious | src/data/projectsData.js:717-726 | with distinct ids, the `next` of the `previous` of a found id has that id again |
| Catalog.PreviousOfNext | src/data/projectsData.js:717-726 | with distinct ids, the `previous` of the `next` of a found id has that id again |
| Catalog.HiddenRecordIsFound | src/data/projectsData.js:712-714 | lookup ignores `isHidden`: the hidden `artwork` record is found |
| Catalog.HiddenRecordIsNeighbour | src/data/projectsData.js:717-726 | adjacency ignores `isHidden`: `artwork` is the previous record of the first project and the next record of the eighth |
| ProjectDetail.ClickImage | src/components/ProjectDetail.jsx:341-364 | a gallery click keeps the lightbox coherent; it opens the clicked image at its index when the project has an overview and the entry is not one of the two ammo-batics animated frames; in every other case, with no click handler, the lightbox is left as it was |
| ProjectDetail.Previous | src/components/ProjectDetail.jsx:45-51 | coherence is kept; on an open lightbox the index becomes max(i-1, 0) |
| ProjectDetail.Next | src/components/ProjectDetail.jsx:53-59 | coherence is kept; on an open lightbox the index becomes min(i+1, N-1) |
| ProjectDetail.KeyPress | src/components/ProjectDetail.jsx:63-73 | every key keeps the lightbox coherent; with no image shown every key is ignored; Escape closes a shown lightbox; keys other than Escape and the two arrows change nothing |
| ProjectDetail.PressKeys | src/components/ProjectDetail.jsx:61-77 | after any sequence of key presses from a coherent state the lightbox is still coherent; with no image shown the whole sequence changes nothing |
| ProjectDetail.NextThenPrevious | src/components/ProjectDetail.jsx:45-73 | before the last image, ArrowRight then ArrowLeft returns to the same lightbox state |
| ProjectDetail.PreviousThenNext | src/components/ProjectDetail.jsx:45-73 | after the first image, ArrowLeft then ArrowRight returns to the same lightbox state |
| ProjectDetail.ArrowRightRun | src/components/ProjectDetail.jsx:53-73 | pressing ArrowRight n times from index i shows image min(i+n, N-1) |
| ProjectDetail.ArrowLeftRun | src/components/ProjectDetail.jsx:45-73 | pressing ArrowLeft n times from index i shows image max(i-n, 0) |
| ProjectDetail.DetailPage.constructor | src/components/ProjectDetail.jsx:13-16 | the page starts with no project, no neighbours and a closed lightbox |
| ProjectDetail.DetailPage.ProjectIdChanged | src/components/ProjectDetail.jsx:19-33 | an unknown id requests `/` and changes no state; a known id loads the record and its neighbours and closes the lightbox |
| ProjectDetail.DetailPage.OpenLightbox | src/components/ProjectDetail.jsx:35-38 | sets both the image and the index |
| ProjectDetail.DetailPage.ClickGalleryImage | src/components/ProjectDetail.jsx:341-364 | the lightbox becomes `ClickImage` of the old one; the page invariant is kept |
| ProjectDetail.DetailPage.CloseLightbox | src/components/ProjectDetail.jsx:40-43 | both `selectedImage` and `selectedImageIndex` become null |
| ProjectDetail.DetailPage.GoToPreviousImage | src/components/ProjectDetail.jsx:45-51 | the lightbox becomes `Previous` of the old one: nothing at index 0, else index minus one and the image at that index |
| ProjectDetail.DetailPage.GoToNextImage | src/components/ProjectDetail.jsx:53-59 | the lightbox becomes `Next` of the old one: nothing at the last index, else index plus one and the image at that index |
| ProjectDetail.DetailPage.HandleKeyPress | src/components/ProjectDetail.jsx:63-73 | the lightbox becomes `KeyPress` of the old one; project and neighbours are untouched |
| Markdown.CloseFrom | src/components/ProjectDetail.jsx:84 | the lazy `.*?\*\*` finds the first `**` reached without crossing a line terminator, or none when every later `**` lies beyond one |
| Markdown.MatchEnd | src/components/ProjectDetail.jsx:84 | a match of `\*\*.*?\*\*` is at least four characters long and ends inside the text |
| Markdown.MatchIsBoldRun | src/components/ProjectDetail.jsx:84 | every match is a bold run: `**`, text without a line terminator or inner `**`, then `**` |
| Markdown.BoldRunMatches | src/components/ProjectDetail.jsx:84 | wherever a bold run starts, the regular expression matches there |
| Markdown.SplitFrom | src/components/ProjectDetail.jsx:84 | the split loop yields an odd number of pieces, and every matched piece is at least four characters long |
| Markdown.SplitFromConcat | src/components/ProjectDetail.jsx:84 | the pieces of the split loop concatenate back to the text they came from |
| Markdown.SplitFromShape | src/components/ProjectDetail.jsx:84 | the split loop yields an odd number of pieces: bold runs at odd positions and text holding no bold run at even positions |
| Markdown.SplitFromTiles | src/components/ProjectDetail.jsx:84 | the split loop tiles the rest of the text leftmost-first: each plain piece holds no position where a match starts, and each bold piece is the match at the position right after it |
| Markdown.SegmentHasNoBoldRun | src/components/ProjectDetail.jsx:84 | a stretch where no match starts holds no bold run |
| Markdown.SkipUnmatched | src/components/ProjectDetail.jsx:84 | positions where no match starts are passed over without emitting a piece |
| Markdown.TilesAreSplit | src/components/ProjectDetail.jsx:84 | every leftmost-first tiling of the rest of the text is what the split loop yields |
| Markdown.Split | src/components/ProjectDetail.jsx:84 | the pieces join back to the text, there is an odd number of them, bold runs alternate with text holding no bold run, and they tile the text leftmost-first |
| Markdown.SplitIsTheTiling | src/components/ProjectDetail.jsx:84 | the split is the only leftmost-first tiling of the text |
| Markdown.PlainTextIsOnePiece | src/components/ProjectDetail.jsx:84-88 | text without a star is not split and does not start and end with `**` |
| Markdown.RenderPart | src/components/ProjectDetail.jsx:86-92 | a piece renders bold exactly when it starts and ends with `**`; a piece other than a bare `**` or `***` can be rebuilt from its fragment; a bare `**` or `***` renders as empty bold text |
| Markdown.RenderMarkdown | src/components/ProjectDetail.jsx:80-93 | the result is null exactly for empty text; text without a star renders as one plain fragment of itself |
| Markdown.BoldRunRendersStrong | src/components/ProjectDetail.jsx:87-90 | a bold run renders as bold text without its two delimiters, and putting them back gives the run |
| Markdown.RenderRoundTrip | src/components/ProjectDetail.jsx:80-93 | when no piece is a bare `**` or `***`, rebuilding every fragment gives back the text |
| Markdown.RenderShape | src/components/ProjectDetail.jsx:80-93 | empty text renders nothing; other text gives one fragment per piece, and the odd pieces are bold fragments that rebuild to the piece |
| Markdown.BoldPhraseSplit | src/components/ProjectDetail.jsx:84 | `a **b** c` splits into `a `, `**b**` and ` c` |
| Markdown.BoldPhraseExample | src/components/ProjectDetail.jsx:80-93 | `a **b** c` renders as plain, bold `b`, plain |
| Markdown.LineBreakExample | src/components/ProjectDetail.jsx:84-90 | a run broken by a line break is no match, yet text that starts and ends with `**` still renders as one bold fragment |
| Markdown.LoneStarsExample | src/components/ProjectDetail.jsx:80-93 | a bare `**` renders as empty bold text |
| LinkLabels.SpaceBeforeCapitals | src/components/ProjectDetail.jsx:215 | the replacement adds exactly one character per capital letter and never yields a capital letter first |
| LinkLabels.DropUndoesSpacing | src/components/ProjectDetail.jsx:215 | removing the spaces placed before capital letters restores any text |
| LinkLabels.CapitalsFollowSpaces | src/components/ProjectDetail.jsx:215 | after the replacement every capital letter has a space right before it |
| LinkLabels.Capitalize | src/components/ProjectDetail.jsx:215 | a non-empty key keeps its length plus one per later capital letter; its first character is upper-cased and the rest is the rest of the key with one space before each capital letter |
| LinkLabels.Label | src/components/ProjectDetail.jsx:207-216 | a label is never shorter than its key and is empty only for the empty key; a key other than the document keys is shown capitalised: one extra space per later capital letter, the first character upper-cased, and the rest giving back the key once those spaces are removed |
| LinkLabels.LinksBlock | src/components/ProjectDetail.jsx:201-216 | no links block exactly when there are no links; otherwise one button per key, in key order, with the key's label and the document style exactly for the document keys |
| LinkLabels.DocumentKeys | src/components/ProjectDetail.jsx:205-213 | `gdd`, `conceptGdd` and `gameGdd` get their own fixed labels, and exactly these keys get the document style |
| LinkLabels.CatalogLabels | src/components/ProjectDetail.jsx:215 | `itchIo` is labelled `Itch Io` and `ppt` is labelled `Ppt` |
| LinkLabels.CatalogLinksBlocks | src/components/ProjectDetail.jsx:201-216 | the ammo-batics record shows an `Itch Io` button and a document button; a record without links shows no links block |
| ProjectGrid.Card3DPositions | src/components/Projects.jsx:120-136 | the slot table has ten slots |
| ProjectGrid.PointerTilt | src/components/Projects.jsx:26-56 | the sample is marked inside exactly when the pointer is inside the section (inclusive bounds); inside, the stored position is the pointer offset divided by the section size, in [0, 1], and the base tilts are (y - 0.5) * -20 and (x - 0.5) * 20, in [-10, 10]; outside, the state is reset to the centre with no tilt |
| ProjectGrid.PointerFromTilt | src/components/Projects.jsx:29-47 | inside the section the pointer position can be recovered from the two base tilts |
| ProjectGrid.CardClick | src/components/Projects.jsx:103-113 | a card click always leaves that card selected; it requests `/project/<id>` exactly when that card was already selected |
| ProjectGrid.OutsideClick | src/components/Projects.jsx:68-72 | the selection is kept or cleared, and it is cleared exactly when it is truthy and the target is outside every card |
| ProjectGrid.Click | src/components/Projects.jsx:68-113 | a click navigates only when it lands on the card that is already selected, to that card's page; a click on a card leaves it selected |
| ProjectGrid.SwitchThenOpen | src/components/Projects.jsx:103-113 | clicking another card selects it directly, with no navigation; a second click on it opens its page |
| ProjectGrid.DoubleClickOpens | src/components/Projects.jsx:103-113 | from any selection, two clicks on the same card request that card's page |
| ProjectGrid.ClickOffCards | src/components/Projects.jsx:68-72 | a click outside every card never navigates, and it clears a selection exactly when the selected id is not empty |
| ProjectGrid.OutsideClickInsideCard | src/components/Projects.jsx:68-72 | the document listener keeps the selection when the target is inside a card |
| ProjectGrid.Multiplier | src/components/Projects.jsx:197-205 | with a square root that is never negative, the distance factor is at least 1 |
| ProjectGrid.GetCardStyle | src/components/Projects.jsx:138-236 | a style is missing exactly for a non-selected card of the 3D layout whose index has no slot; every style lets pointer events through; a non-selected card gets z-index 300 + 50 * index in both layouts; on mobile it is stacked with opacity 1; in the 3D layout it sits at its slot's x, y and z with scale 0.85, opacity 1 and no z rotation |
| ProjectGrid.SelectedCardCentred | src/components/Projects.jsx:143-176 | a selected card is at 50/50, depth 200, scale 1, opacity 1, with no rotation and z-index 9999, in both layouts |
| ProjectGrid.ZIndexOrder | src/components/Projects.jsx:156-217 | of two catalog cards that are not selected, the later one gets the higher z-index, and both stay below the selected card's 9999 |
| ProjectGrid.TiltAmplified | src/components/Projects.jsx:197-209 | the distance factor is at least 1, so a card's rotation is never smaller than the base tilt and has the same sign |
| ProjectGrid.UnsampledIsFlat | src/components/Projects.jsx:197-214 | before any pointer sample, cards in the 3D layout are not rotated |
| ProjectGrid.SlotsCoverCatalog | src/components/Projects.jsx:120-139 | every catalog record has a slot and so gets a style; every slot lies behind the selected card's depth of 200 |
| ProjectGrid.CardGrid.constructor | src/components/Projects.jsx:7-10 | no card is hovered or selected, there is no pointer sample yet, and the layout is not mobile |
| ProjectGrid.CardGrid.CheckMobile | src/components/Projects.jsx:16-18 | the layout is mobile exactly when the window width is at most 768 |
| ProjectGrid.CardGrid.HandleProjectClick | src/components/Projects.jsx:103-113 | the new selection and the returned route are those of `CardClick` |
| ProjectGrid.CardGrid.HandleClickOutside | src/components/Projects.jsx:68-72 | the selection is cleared when it is truthy and the target is not inside a card |
| ProjectGrid.CardGrid.HandleGlobalMouseMove | src/components/Projects.jsx:26-59 | nothing changes while the section is not mounted; otherwise the tilt state becomes `PointerTilt` of the pointer |
| ProjectGrid.CardGrid.MouseEnter | src/components/Projects.jsx:259 | the entered card becomes the hovered one |
| ProjectGrid.CardGrid.MouseLeave | src/components/Projects.jsx:260 | no card is hovered |
| ScrollTracking.ScrollProgress | src/App.jsx:102-104 | the overall progress is always in [0, 1] |
| ScrollTracking.ScrollProgressIsFraction | src/App.jsx:102-104 | the progress is 0 when there is nothing to scroll or at the top; inside the scrollable range it is the scrolled fraction; at or past the end it is 1 |
| ScrollTracking.ClampedRatio | src/App.jsx:95 | every number that comes out is in [0, 1]; the result is NaN exactly for 0 divided by 0 |
| ScrollTracking.ProjectsProgress | src/App.jsx:84-99 | the projects progress is in [0, 1] or equal to 2; it is NaN exactly for an empty section hit exactly at its entry point |
| ScrollTracking.ProjectsProgressPhases | src/App.jsx:84-99 | it is 2 exactly once the section's bottom has been scrolled past; it is 0 when the section is missing or not yet reached |
| ScrollTracking.ProjectsProgressInside | src/App.jsx:90-95 | inside the overlap it is the entry-to-exit fraction clamped to [0, 1], with entry = top - wh/2 and exit = bottom - wh/2; it is 0 before the entry point and 1 after the exit point |
| ScrollTracking.ProjectsProgressMonotone | src/App.jsx:90-95 | scrolling further down through the section never lowers its progress |
| ScrollTracking.ReceivedProgress | src/App.jsx:125-141 | off the `/` route the receivers get 0; a tracked value in [0, 1] is passed on in [0, 1] |
| ScrollTracking.ReceivedProgressGated | src/App.jsx:125-141 | off the `/` route both receivers get 0; on it they get the tracked value, which is in [0, 1] |
| ScrollTracking.ScrollTracker.Mount | src/App.jsx:115-116 | setup registers the listener and calls the handler once, which schedules exactly one frame; no projects progress exists before the first frame |
| ScrollTracking.ScrollTracker.HandleScroll | src/App.jsx:72-113 | while a frame is pending, a scroll event changes nothing; otherwise it schedules one frame and sets `ticking`; at most one frame is ever pending |
| ScrollTracking.ScrollTracker.FrameFires | src/App.jsx:74-109 | the frame stores both progress values computed from the geometry at that moment, clears `ticking` and leaves `rafId` as it was |
| ScrollTracking.ScrollTracker.Unmount | src/App.jsx:118-121 | teardown removes the listener and leaves no frame pending; `ticking`, `rafId` and the handle counter are left as they were |

## Left out

- Descriptive record fields (titles, prose, sections, research data, thumbnails, tools): they are content, not behaviour. A record keeps only its id, `isHidden`, whether it has an overview, its gallery and its link keys in insertion order.
- The background scene component, the hero, the about section and the two animated ammo-batics frame components are not part of this model. They are rendering, floating-point animation, random generation and I/O.
- The error boundaries in the application shell: they only render a fallback after an error.
- The random glow scheduler of the card grid (src/components/Projects.jsx:79-98): it depends on timers and `Math.random`.
- The `aboutPhase > 0` branch of the card style (src/components/Projects.jsx:177-187): `aboutPhase` is the constant 0, so the branch never runs.
- `window.scrollTo`, router navigation and links, and registering or removing event listeners. Navigation is a returned route, and the listener's presence is a field. The frame callback's write to the global `window.projectsProgress` is the `projectsProgress` field.
- Transition strings, cursor and CSS class names, placeholder-image URLs and the mobile `marginBottom`. The unused `mobileY` and the hover flag in the card style have no effect on the result.
- Floating-point rounding: geometry is `real`. Among IEEE special values only the zero-height section is modelled, where division by zero gives an infinity or `NaN`.
- ProjectGrid.PointerTilt: requires a section of positive width and height. For a zero-size section the source would divide 0 by 0 and store `NaN` coordinates; that case is not modelled.
- ProjectGrid.CardGrid.HandleGlobalMouseMove: carries the same positive-size requirement as `PointerTilt`.
- ProjectGrid.GetCardStyle: `Math.sqrt` is a parameter. Only non-negativity of its result is used, so the exact rotation angles are not pinned down beyond the bounds proved.
- LinkLabels.ToUpper: covers the ASCII letters only; JavaScript's full Unicode upper-casing of the first character is not modelled.
- Link keys that look like array indices (`Object.entries` lists those first) are not modelled; the catalog has none.
- Characters are Unicode scalar values rather than UTF-16 code units. The regular expression treats both alike, because it only tests for `*` and the four line terminators.
- The stale-closure behaviour of the keyboard listener, which is re-registered only when the lightbox state changes, is not modelled. The listener ignores every key whenever it could see a stale project, because the lightbox is closed then.
