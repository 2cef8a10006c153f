# Portfolio site components, modelled in Dafny

This project models the discrete rules inside the components of an Angular
portfolio site. The site is mostly DOM, canvas and WebGL wiring. Around that
wiring sit small, exact rules: index arithmetic on a card ring, a four-state
access-code gate, picking the section or block nearest the viewport,
choosing the language, masking a phone number, de-duplicating icon slugs,
sizing a grid, capping a particle list, and clamping and easing parallax
offsets. The model states those rules and proves what the components
promise about them.

There is one module per component file, plus `Common`:

- `Common` (`common.dfy`): the shared vocabulary. It holds the optional
  value (`null`/`undefined`), the `Math.random()` draw, the two languages,
  ASCII case folding, prefix and infix tests on strings, and the clamp,
  lerp, floor and round arithmetic.
- `Carousel` (`carousel.dfy`): `stagger-testimonials`, the project carousel.
- `CvGate` (`cv_gate.dfy`): `cv-gate-modal`, the access-code gate in front of the CV.
- `Education` (`education.dfy`): `section-education`.
- `AppShell` (`app_shell.dfy`): `app.ts`, the application shell.
- `FxTitle` (`fx_title.dfy`): `fx-title`, the particle title.
- `Parallax` (`parallax.dfy`): the parallax directive.
- `GridBg` (`grid_bg.dfy`): `animated-grid-bg`.
- `IconCloud` (`icon_cloud.dfy`): `icon-cloud`.
- `Contact` (`contact.dfy`): `section-contact`.
- `Experience` (`experience.dfy`): `section-experience`.
- `LanguageToggle` (`language_toggle.dfy`): `language-toggle`.
- `Bento` (`bento.dfy`): `bento-grid`.

Pure computations are functions, and the lemmas beside them state their
properties. A component whose fields its handlers update is a class. Its
handlers are methods that name the fields they change and state the whole
new state.

Timers, animation frames and awaited promises are explicit methods. One
method starts the step and records a pending callback. A second method is
the callback firing later.

Inputs from outside the program arrive as parameters: element geometry,
`Math.random()` draws (as a function from draw number to a value in
`[0, 1)`), trigonometry and square-root results, the URL encoder,
storage reads, and whether a dynamic import or a library call succeeded.
JavaScript numbers are exact `real`s, and integer-valued counts are
`int`s. JavaScript's truncating `%` is written out (`Carousel.JsRem`).

## Model

| member | source | states |
|---|---|---|
| Common.Clamp | src/app/shared/directives/parallax.directive.ts:163-165 | with ordered bounds the result lies between them and is the value itself when that already does; with crossed bounds the upper bound wins |
| Common.ClampInt | src/app/shared/ui/title-h1/fx-title.component.ts:510-512 | the integer clamp lies between ordered bounds and keeps a value already inside them |
| Common.Lerp | src/app/shared/ui/title-h1/fx-title.component.ts:514-516 | the interpolated point lies between the two ends for a share in `[0, 1]`, and is the first end at 0 and the second at 1 |
| Common.Floor | src/app/shared/ui/title-h1/fx-title.component.ts:253 | `Math.floor` gives the greatest integer not above its argument |
| Common.Round | src/app/shared/ui/title-h1/fx-title.component.ts:278 | `Math.round` gives an integer within half a unit, halves rounding up |
| Common.ToLower | src/app/app.ts:70 | `toLowerCase` keeps the length and lower-cases each ASCII capital, leaving every other character alone |
| Common.FirstMinimumUnique | src/app/app.ts:120 | only one index can be the first smallest entry, so the choice of the nearest section is determined |
| Carousel.JsRem | src/app/components/stagger-testimonials/stagger-testimonials.component.ts:117 | JavaScript's `%`: the remainder lies strictly between `-n` and `n`; for a non-negative dividend it is the residue, for a negative one it is non-positive and either the residue or the residue minus `n` |
| Carousel.MoveIndex | src/app/components/stagger-testimonials/stagger-testimonials.component.ts:113-120 | with no cards or no steps the index stays; otherwise the new index is a card index in `[0, len)` and equals `(active + steps) mod len`, whatever the sign of `steps` |
| Carousel.Position | src/app/components/stagger-testimonials/stagger-testimonials.component.ts:122-133 | 0 when there are no cards; for a card and a valid active index the slot lies in `[-floor(len/2), floor(len/2)]`, is congruent to `index - active` modulo `len`, and is 0 exactly for the active card |
| Carousel.PositionInjective | src/app/components/stagger-testimonials/stagger-testimonials.component.ts:122-133 | two cards never share a slot |
| Carousel.IsVisible | src/app/components/stagger-testimonials/stagger-testimonials.component.ts:135-137 | a slot is shown exactly when it lies in `-2..2` |
| Carousel.StyleForSlot | src/app/components/stagger-testimonials/stagger-testimonials.component.ts:139-159 | the card is `cardSize` square, shifted `cardSize/1.35` per slot, stacked at `50 - |pos|`, unrotated only in front, and unfiltered exactly for the front card and its two neighbours |
| Carousel.CardStyleAt | src/app/components/stagger-testimonials/stagger-testimonials.component.ts:139-159 | every card is `cardSize` square; the active card sits unrotated at the centre on top (z-index 50) with no filter, and every other card is rotated and lower |
| Carousel.StyleMonotone | src/app/components/stagger-testimonials/stagger-testimonials.component.ts:141-149 | a card further from the front is never larger, more opaque, less blurred or higher in the stacking order than a nearer one |
| Carousel.ActiveCardOnTop | src/app/components/stagger-testimonials/stagger-testimonials.component.ts:139-149 | the active card is stacked strictly above every other card |
| Carousel.StaggerTestimonials.constructor | src/app/components/stagger-testimonials/stagger-testimonials.component.ts:32-39 | initial state: 365 px cards, first card active, no gesture in progress |
| Carousel.StaggerTestimonials.UpdateSize | src/app/components/stagger-testimonials/stagger-testimonials.component.ts:206-209 | cards are 365 px when the wide-screen query matches and 290 px otherwise |
| Carousel.StaggerTestimonials.Move | src/app/components/stagger-testimonials/stagger-testimonials.component.ts:113-120 | the active index stays a card index and becomes `MoveIndex` of the old one |
| Carousel.StaggerTestimonials.OnCardClick | src/app/components/stagger-testimonials/stagger-testimonials.component.ts:161-164 | clicking the front card changes nothing; a side card moves one step towards its side |
| Carousel.StaggerTestimonials.OnPointerDown | src/app/components/stagger-testimonials/stagger-testimonials.component.ts:166-175 | a non-primary mouse button is ignored; any other pointer starts a gesture at its position with no swipe yet |
| Carousel.StaggerTestimonials.OnPointerMove | src/app/components/stagger-testimonials/stagger-testimonials.component.ts:177-194 | scrolling is prevented exactly when the gesture's own pointer has travelled at least 28 px, mostly horizontally, and has not swiped yet; then the gesture is marked swiped and the carousel moves one step against the drag, otherwise nothing changes |
| Carousel.SwipeStep | src/app/components/stagger-testimonials/stagger-testimonials.component.ts:193 | a swipe asks for exactly one step: forward for a leftward swipe, back otherwise |
| Carousel.StaggerTestimonials.OnPointerUp | src/app/components/stagger-testimonials/stagger-testimonials.component.ts:196-200 | only the pointer that started the gesture ends it |
| Carousel.SwipeMovesAtMostOnce | src/app/components/stagger-testimonials/stagger-testimonials.component.ts:166-200 | one gesture (a press and any run of move and release events) moves the carousel at most once |
| CvGate.TrimStart | src/app/shared/ui/cv-gate-modal/cv-gate-modal.component.ts:62 | removing leading white space never lengthens the code and leaves no white space in front |
| CvGate.TrimStartSplits | src/app/shared/ui/cv-gate-modal/cv-gate-modal.component.ts:62 | what is removed in front is all white space, and the kept part is the rest of the code unchanged |
| CvGate.TrimEnd | src/app/shared/ui/cv-gate-modal/cv-gate-modal.component.ts:62 | removing trailing white space never lengthens the code and leaves no white space at the end |
| CvGate.TrimEndSplits | src/app/shared/ui/cv-gate-modal/cv-gate-modal.component.ts:62 | what is removed at the end is all white space, and the kept part is a prefix of the code |
| CvGate.TrimStartPadded | src/app/shared/ui/cv-gate-modal/cv-gate-modal.component.ts:62 | leading white space never changes what the front trim keeps |
| CvGate.TrimEndPadded | src/app/shared/ui/cv-gate-modal/cv-gate-modal.component.ts:62 | trailing white space never changes what the end trim keeps |
| CvGate.TrimStartOfTrimmedEnd | src/app/shared/ui/cv-gate-modal/cv-gate-modal.component.ts:62 | a code that starts with a visible character keeps its front when its end is trimmed |
| CvGate.TrimIgnoresPadding | src/app/shared/ui/cv-gate-modal/cv-gate-modal.component.ts:129 | white space around a code never changes what it trims to |
| CvGate.Trim | src/app/shared/ui/cv-gate-modal/cv-gate-modal.component.ts:62 | the trimmed code neither starts nor ends with white space, is no longer than the input, and is empty exactly when the input is all white space |
| CvGate.TrimIdempotent | src/app/shared/ui/cv-gate-modal/cv-gate-modal.component.ts:62 | trimming twice is trimming once |
| CvGate.Utf16Length | src/app/shared/ui/cv-gate-modal/cv-gate-modal.component.ts:63 | `length` counts UTF-16 code units: between one and two per character, and exactly one per character when none lies outside the Basic Multilingual Plane |
| CvGate.Utf16LengthAppend | src/app/shared/ui/cv-gate-modal/cv-gate-modal.component.ts:63 | the code units of a concatenation are the sum of the parts' |
| CvGate.CanSubmit | src/app/shared/ui/cv-gate-modal/cv-gate-modal.component.ts:61-64 | submitting needs the idle or error state; a trimmed code of at least four characters may always be submitted from those states, and one of at most one character never can |
| CvGate.AstralPairMaySubmit | src/app/shared/ui/cv-gate-modal/cv-gate-modal.component.ts:61-64 | two emoji (four UTF-16 code units) are already a code long enough to submit |
| CvGate.CanSubmitIgnoresPadding | src/app/shared/ui/cv-gate-modal/cv-gate-modal.component.ts:61-64 | surrounding white space never changes whether a code may be submitted, and submitting is only possible in the idle and error states |
| CvGate.CheckOutcome | src/app/shared/ui/cv-gate-modal/cv-gate-modal.component.ts:129-139 | the check ends in success or error, and in success exactly when the trimmed code equals the trimmed configured code (a missing one counting as empty) |
| CvGate.PaddedCodeAccepted | src/app/shared/ui/cv-gate-modal/cv-gate-modal.component.ts:129 | the configured code with white space around it is accepted |
| CvGate.TitleKey | src/app/shared/ui/cv-gate-modal/cv-gate-modal.component.ts:66-75 | the headline key is "cvGate.title.error" for error, "cvGate.title.success" for success, and "cvGate.title.idle" for both idle and checking |
| CvGate.SubtitleKey | src/app/shared/ui/cv-gate-modal/cv-gate-modal.component.ts:82-91 | the subtitle key is "cvGate.subtitle.error" for error, "cvGate.subtitle.success" for success, and "cvGate.subtitle.idle" for both idle and checking |
| CvGate.KeysSeparateOutcomes | src/app/shared/ui/cv-gate-modal/cv-gate-modal.component.ts:66-91 | two states show the same headline exactly when they are equal or both idle-or-checking, and the subtitle tells states apart exactly as the headline does |
| CvGate.StateAfterEdit | src/app/shared/ui/cv-gate-modal/cv-gate-modal.component.ts:79 | editing the code keeps a running or successful check and resets every other state to idle, never leaving an error |
| CvGate.PortalStep | src/app/shared/ui/cv-gate-modal/cv-gate-modal.component.ts:191-216 | opening an already moved dialog, or closing one that was never moved, changes nothing; any change leaves the dialog moved exactly when opening, with a placeholder behind it exactly when moved |
| CvGate.PortalStepIdempotent | src/app/shared/ui/cv-gate-modal/cv-gate-modal.component.ts:191-216 | a second move in the same direction changes nothing |
| CvGate.PortalRoundTrip | src/app/shared/ui/cv-gate-modal/cv-gate-modal.component.ts:191-216 | moving an attached dialog out and back restores where it was |
| CvGate.CvGateModal.constructor | src/app/shared/ui/cv-gate-modal/cv-gate-modal.component.ts:30-59 | the dialog starts closed, with an empty code, the idle state, no shake or hint, not moved and nothing emitted or pending |
| CvGate.CvGateModal.OnCodeChange | src/app/shared/ui/cv-gate-modal/cv-gate-modal.component.ts:77-80 | the code becomes the new text (empty for `null`) and the state becomes `StateAfterEdit` of the old one |
| CvGate.CvGateModal.EnsurePortal | src/app/shared/ui/cv-gate-modal/cv-gate-modal.component.ts:191-216 | the dialog's placement becomes `PortalStep` of the old one |
| CvGate.CvGateModal.ToggleScrollLock | src/app/shared/ui/cv-gate-modal/cv-gate-modal.component.ts:185-189 | the page's scroll container is locked or unlocked as asked, when it exists |
| CvGate.CvGateModal.NgOnChanges | src/app/shared/ui/cv-gate-modal/cv-gate-modal.component.ts:100-111 | only a change of `open` does anything: the dialog is moved and the scroll lock set to match, and opening resets the state, the code and the hint |
| CvGate.CvGateModal.Close | src/app/shared/ui/cv-gate-modal/cv-gate-modal.component.ts:113-119 | closing is refused while a check runs; otherwise the dialog closes, moves back, unlocks the scroll and emits `closed` |
| CvGate.CvGateModal.ValidateAndDownload | src/app/shared/ui/cv-gate-modal/cv-gate-modal.component.ts:121-127 | a code that may not be submitted changes nothing; otherwise the state becomes checking and one 450 ms check is scheduled |
| CvGate.CvGateModal.CheckDelayElapsed | src/app/shared/ui/cv-gate-modal/cv-gate-modal.component.ts:127-144 | after the delay the state becomes `CheckOutcome`; an error shakes the dialog (one 520 ms reset scheduled) and shows the hint; a success starts the download of the file and schedules the 600 ms report |
| CvGate.CvGateModal.DownloadDelayElapsed | src/app/shared/ui/cv-gate-modal/cv-gate-modal.component.ts:144-146 | the report emits `downloaded`; unless a check is running again it then closes the dialog as `Close` does (portal put back, scroll lock released, `closed` emitted), and while a check runs the dialog, portal and lock are left as they are |
| CvGate.CvGateModal.ShakeElapsed | src/app/shared/ui/cv-gate-modal/cv-gate-modal.component.ts:159-162 | the reset timer stops the shake |
| CvGate.CvGateModal.OnEsc | src/app/shared/ui/cv-gate-modal/cv-gate-modal.component.ts:169-172 | Escape on an open dialog with no check running closes it as `Close` does (closed, portal put back, scroll lock released, `closed` emitted); otherwise the dialog, portal, lock and events are unchanged |
| CvGate.CvGateModal.OnEnter | src/app/shared/ui/cv-gate-modal/cv-gate-modal.component.ts:175-183 | Enter submits exactly when the dialog is open, focus is inside it and the code may be submitted |
| CvGate.CvGateModal.OnDestroy | src/app/shared/ui/cv-gate-modal/cv-gate-modal.component.ts:93-98 | destruction moves the dialog back and unlocks the scroll |
| Education.Anchor | src/app/sections/section-education/section-education.component.ts:90 | with a non-negative height and a factor in `[0, 1]` the compared point lies inside the block |
| Education.Distances | src/app/sections/section-education/section-education.component.ts:83-91 | one non-negative distance per block: how far its anchor (`midFactor` of the way down) lies from the viewport's middle |
| Education.AtTop | src/app/sections/section-education/section-education.component.ts:109 | the column counts as at the top exactly within 2 px of it, so an unscrolled column always does |
| Education.AtBottom | src/app/sections/section-education/section-education.component.ts:115-116 | a column no more than 8 px taller than its viewport is always at the bottom, and top and bottom hold together only for a column at most 10 px taller than its viewport |
| Education.ClosestBlock | src/app/sections/section-education/section-education.component.ts:85-97 | the scan ends on the first block of smallest distance: no block is nearer, and every earlier block is strictly further |
| Education.EducationSection.constructor | src/app/sections/section-education/section-education.component.ts:38-40 | the first entry starts active, in column scrolling mode, with nothing requested |
| Education.EducationSection.UpdateActiveFromBlocks | src/app/sections/section-education/section-education.component.ts:80-103 | no blocks change nothing; otherwise the first nearest block becomes active |
| Education.EducationSection.OnScroll | src/app/sections/section-education/section-education.component.ts:105-127 | no blocks change nothing; within 2 px of the top the first entry is active, within 8 px of the bottom the last, and in between the first block nearest the column's middle (anchored at 35 %) |
| Education.EducationSection.OnWindowScroll | src/app/sections/section-education/section-education.component.ts:129-133 | the first block nearest the middle of the window becomes active |
| Education.EducationSection.WindowScrolled | src/app/sections/section-education/section-education.component.ts:180-186 | a window scroll leaves exactly one frame requested |
| Education.EducationSection.WindowFrame | src/app/sections/section-education/section-education.component.ts:182-185 | the frame clears the request and re-evaluates the active block against the window |
| Education.EducationSection.SelectIndex | src/app/sections/section-education/section-education.component.ts:135-160 | the chosen entry always becomes active; a scroll is requested only when the column and the block exist: the block into view in page scrolling mode, the column to 10 px above the block otherwise |
| Education.EducationSection.AfterViewInit | src/app/sections/section-education/section-education.component.ts:168-196 | with the column present, page scrolling is chosen exactly on the narrow layout; page scrolling evaluates the window at once; column scrolling runs `onScroll` once (top: first entry, bottom: last entry, otherwise the first nearest block); with neither the column nor page scrolling the active entry is unchanged |
| AppShell.InitialLang | src/app/app.ts:68-71 | the starting language is English exactly when the stored choice, else the browser's language, else "pt", begins with "en" in any letter case |
| AppShell.StoredChoiceWins | src/app/app.ts:70 | with a stored choice, the browser's language never matters |
| AppShell.InitialLangIgnoresCase | src/app/app.ts:70-71 | lower-casing the stored or browser language never changes the choice |
| AppShell.InitialLangExamples | src/app/app.ts:68-71 | no hint gives Portuguese; "EN-gb" from the browser gives English; a stored "pt-BR" beats a browser "en"; a one-letter "e" is Portuguese |
| AppShell.IsSectionId | src/app/app.ts:172-175 | a section id is exactly one of the ten ids "home" to "contato" |
| AppShell.SectionIdsDistinct | src/app/app.ts:49-62 | there are ten sections with pairwise distinct ids, and the initial highlight "home" is the first of them |
| AppShell.Overlaps | src/app/app.ts:108-110 | a section counts as visible unless its box lies wholly above or wholly below the view |
| AppShell.VisibleSections | src/app/app.ts:108-110 | a section is kept exactly when its box overlaps the viewport (bottom below the top edge, top above the bottom edge) |
| AppShell.VisibleSectionsAppend | src/app/app.ts:108-110 | the filter keeps page order: filtering a concatenation is concatenating the filtered parts |
| AppShell.Distance | src/app/app.ts:114-129 | the distance to the reader is never negative |
| AppShell.DistancesOf | src/app/app.ts:114-129 | one distance per visible section, in order: the top edge in page scrolling mode, the middle against the container's middle otherwise |
| AppShell.ArgMinFirst | src/app/app.ts:120 | the index picked is the first entry of minimal distance, as the head of a stable ascending sort |
| AppShell.Closest | src/app/app.ts:103-133 | there is no choice exactly when no section overlaps the viewport; a choice is one of the sections and overlaps the viewport |
| AppShell.ClosestIsNearestVisible | src/app/app.ts:114-129 | the chosen section is at least as near to the reader as every visible section, and strictly nearer than every visible section before it in page order, so ties go to the earliest, as the stable sort makes them |
| AppShell.Ease | src/app/app.ts:221 | up to half time the curve covers at most half the way, and from half time at least half |
| AppShell.EaseRange | src/app/app.ts:221 | the easing curve maps 0 to 0, 1 to 1 and `[0, 1]` into `[0, 1]` |
| AppShell.EaseSymmetric | src/app/app.ts:221 | the curve is point-symmetric about its middle: `ease(1 - t) = 1 - ease(t)` for every `t` |
| AppShell.Progress | src/app/app.ts:224 | the elapsed share never exceeds 1, is non-negative once the start time is reached, and is exactly 1 once 700 ms have passed |
| AppShell.FramePosition | src/app/app.ts:223-226 | every frame puts the container between its start and the target, and exactly on the target once 700 ms have passed |
| AppShell.TargetTop | src/app/app.ts:194-196 | the jump aims at the element's `offsetTop` when it is a non-negative number, else at its position measured from the two boxes plus the current scroll |
| AppShell.App.constructor | src/app/app.ts:64-75 | the service and the document start in `InitialLang` (the document labelled "pt-BR" or "en"), the highlight on "home", nothing scheduled |
| AppShell.App.UpdateActive | src/app/app.ts:103-133 | the highlight moves to the closest visible section when it has a non-empty id and stays otherwise |
| AppShell.App.Scrolled | src/app/app.ts:148-154 | a scroll event leaves exactly one highlight frame requested |
| AppShell.App.ScrollFrame | src/app/app.ts:150-153 | the requested frame clears the request and runs `UpdateActive` |
| AppShell.App.ScrollTo | src/app/app.ts:171-250 | an unknown id or a missing element changes nothing; in page scrolling mode the section is scrolled into view; otherwise snapping is suspended, the old frame and restore timer are replaced, a 700 ms animation from the current position to `TargetTop` is scheduled and the container's current inline styles are saved for the restore (during a jump in flight that is the override; see "## Findings") |
| AppShell.App.NavFrame | src/app/app.ts:223-239 | an intermediate frame sets `FramePosition` and stays scheduled; the last frame lands exactly on the target, unschedules itself and puts the container's styles back |
| AppShell.App.NavRestoreElapsed | src/app/app.ts:243-249 | the 1600 ms timer restores the styles and clears itself only when no animation frame is pending |
| AppShell.App.ScrollToKeepingStyles | src/app/app.ts:200-214 | the corrected jump: as `ScrollTo`, but the styles saved for the restore are those of a jump still in flight, else the container's own |
| AppShell.CapturedStyles | src/app/app.ts:200-202 | while a jump is in flight its saved styles are passed on; otherwise the container's current styles are saved |
| AppShell.CapturedStylesSurviveOverride | src/app/app.ts:200-214 | whatever override a jump in flight has applied, the next jump saves the styles from before the first one |
| AppShell.TwoJumpsAsWritten | src/app/app.ts:200-249 | two jumps in a row, as written, leave the container with snapping "none" after both land and the restore timer fires |
| AppShell.TwoJumpsKeepingStyles | src/app/app.ts:200-249 | the same two corrected jumps leave the container with its original snapping and behaviour |
| FxTitle.HitTestLetter | src/app/shared/ui/title-h1/fx-title.component.ts:207-219 | the result is -1 or the first letter whose box holds the point, which is not a space; -1 means no box holds the point or the first one that does is a space |
| FxTitle.BurstCount | src/app/shared/ui/title-h1/fx-title.component.ts:292 | a burst has 26 particles for the hero heading and 18 otherwise |
| FxTitle.Spark | src/app/shared/ui/title-h1/fx-title.component.ts:294-305 | each burst particle is born at full life, within 3 px of the centre on each axis, with a radius in `[0.8, 2.6)` |
| FxTitle.Sparks | src/app/shared/ui/title-h1/fx-title.component.ts:294-306 | the spawning loop yields exactly `count` particles, the `k`-th drawn from the `k`-th five random draws |
| FxTitle.Explosion | src/app/shared/ui/title-h1/fx-title.component.ts:283-306 | a letter's burst has `BurstCount` particles |
| FxTitle.ExplosionShape | src/app/shared/ui/title-h1/fx-title.component.ts:287-305 | every particle of a burst starts at full life within 3 px of the letter's centre |
| FxTitle.Capped | src/app/shared/ui/title-h1/fx-title.component.ts:309 | the list is cut to at most 220 particles by dropping the oldest: a short list is untouched, a long one keeps its newest 220 in order |
| FxTitle.NewestBurstKept | src/app/shared/ui/title-h1/fx-title.component.ts:298-309 | however many particles there were, the burst just spawned is kept whole at the end of the list |
| FxTitle.Drift | src/app/shared/ui/title-h1/fx-title.component.ts:356-363 | an ambient particle stays inside the host after a frame, keeps its radius, and keeps its speed on each axis (a bounce only flips the direction) |
| FxTitle.Aged | src/app/shared/ui/title-h1/fx-title.component.ts:366-372 | a burst particle loses 0.03 of life per frame |
| FxTitle.Survivors | src/app/shared/ui/title-h1/fx-title.component.ts:373 | the filter keeps exactly the burst particles with life left |
| FxTitle.SurvivorsAppend | src/app/shared/ui/title-h1/fx-title.component.ts:373 | the filter keeps order: filtering a concatenation is concatenating the filtered parts |
| FxTitle.AllAliveSurvive | src/app/shared/ui/title-h1/fx-title.component.ts:373 | a list of particles that all have life left is kept whole and in order |
| FxTitle.Drifted | src/app/shared/ui/title-h1/fx-title.component.ts:356-363 | every ambient particle drifts once, and all stay inside a non-negative host area |
| FxTitle.AgedAll | src/app/shared/ui/title-h1/fx-title.component.ts:366-372 | every burst particle ages once, in place |
| FxTitle.BurstLifetime | src/app/shared/ui/title-h1/fx-title.component.ts:366-372 | after `k` frames a particle has lost `0.03 k` of life, so a newly spawned one is gone after 34 frames |
| FxTitle.CreateParticles | src/app/shared/ui/title-h1/fx-title.component.ts:496-508 | `count` ambient particles, each inside the `w` by `h` area, each with a speed of at most 0.175 per axis |
| FxTitle.ShareOf | src/app/shared/ui/title-h1/fx-title.component.ts:500-501 | a random share of a non-negative extent lies inside that extent |
| FxTitle.AmbientBase | src/app/shared/ui/title-h1/fx-title.component.ts:276 | the reference ambient count is 70 exactly for the hero heading, 40 exactly for the small one, and in between (55) for a section heading |
| FxTitle.AmbientCount | src/app/shared/ui/title-h1/fx-title.component.ts:276-278 | the ambient count lies in `[30, 120]` and is the rounded, area-scaled base count whenever that already does |
| FxTitle.AmbientCountMonotone | src/app/shared/ui/title-h1/fx-title.component.ts:276-278 | a larger area factor never gives fewer ambient particles |
| FxTitle.AmbientCountGrowsWithHost | src/app/shared/ui/title-h1/fx-title.component.ts:271-278 | with the area factor the square root of the host area over 800 by 160, a host at least as wide and as tall never gets fewer ambient particles |
| FxTitle.FxTitleComponent.constructor | src/app/shared/ui/title-h1/fx-title.component.ts:36-61 | no letters, none active, the pointer away, no glow, no particles, the loop stopped |
| FxTitle.FxTitleComponent.AfterViewInit | src/app/shared/ui/title-h1/fx-title.component.ts:72-95 | the reduced-motion preference is recorded, every letter gets its box relative to the host, the ambient field is reseeded with `AmbientCount` particles inside the host and `drawOnce` is called once (it draws a frame when the canvas has a 2D context) |
| FxTitle.FxTitleComponent.ComputeLetterBounds | src/app/shared/ui/title-h1/fx-title.component.ts:191-205 | one box per rendered letter, moved by the host's top-left corner and keeping its size |
| FxTitle.FxTitleComponent.NgOnChanges | src/app/shared/ui/title-h1/fx-title.component.ts:65-70 | a new text is split into its characters, one per letter; other changes keep the letters |
| FxTitle.FxTitleComponent.ClearActiveLetter | src/app/shared/ui/title-h1/fx-title.component.ts:229-235 | no letter is active or marked afterwards |
| FxTitle.FxTitleComponent.SetActiveLetter | src/app/shared/ui/title-h1/fx-title.component.ts:221-227 | the letter becomes the active one and is the only marked letter when it is rendered |
| FxTitle.FxTitleComponent.Start | src/app/shared/ui/title-h1/fx-title.component.ts:313-324 | the loop runs afterwards |
| FxTitle.FxTitleComponent.Stop | src/app/shared/ui/title-h1/fx-title.component.ts:326-331 | the loop is stopped afterwards |
| FxTitle.FxTitleComponent.EnsureRunning | src/app/shared/ui/title-h1/fx-title.component.ts:333-340 | under reduced motion `drawOnce` is called once (drawing a frame when there is a 2D context) and the loop is untouched; while scrolling nothing happens; otherwise the loop runs |
| FxTitle.FxTitleComponent.ExplodeAtLetter | src/app/shared/ui/title-h1/fx-title.component.ts:283-310 | a letter without a box changes nothing; otherwise the letter's `Explosion` is appended and the list `Capped` |
| FxTitle.FxTitleComponent.SpawnSparks | src/app/shared/ui/title-h1/fx-title.component.ts:294-306 | the loop appends exactly `Sparks` for the centre, in order |
| FxTitle.FxTitleComponent.OnPointerMove | src/app/shared/ui/title-h1/fx-title.component.ts:109-126 | the pointer is stored relative to the host; when the first letter under the pointer is not a space it becomes the active letter, and otherwise the active letter stays; a change of letter marks exactly the new letter and, with motion allowed, appends its `Explosion` capped at 220, while no change leaves the marks and bursts alone; then, as in `EnsureRunning`, reduced motion calls `drawOnce` once and leaves the loop, scrolling changes nothing, and otherwise the loop runs |
| FxTitle.FxTitleComponent.OnEnter | src/app/shared/ui/title-h1/fx-title.component.ts:128-145 | entering or focusing sets the pointer inside and the target glow to 1; then, as in `EnsureRunning`, reduced motion calls `drawOnce` once and leaves the loop, scrolling changes nothing, and otherwise the loop runs |
| FxTitle.FxTitleComponent.OnLeave | src/app/shared/ui/title-h1/fx-title.component.ts:134-152 | leaving or blurring sets the pointer away, the target glow to 0 and no letter active; then, as in `EnsureRunning`, reduced motion calls `drawOnce` once and leaves the loop, scrolling changes nothing, and otherwise the loop runs |
| FxTitle.FxTitleComponent.OnScroll | src/app/shared/ui/title-h1/fx-title.component.ts:163-168 | a page scroll marks scrolling, stops the loop and arms the settle timer |
| FxTitle.FxTitleComponent.ScrollSettled | src/app/shared/ui/title-h1/fx-title.component.ts:168-171 | after 140 ms scrolling is over; when the pointer is inside or particles remain, reduced motion calls `drawOnce` once and leaves the loop and otherwise the loop runs; with the pointer away and no particles neither the loop nor the `drawOnce` calls change |
| FxTitle.FxTitleComponent.ReseedAmbient | src/app/shared/ui/title-h1/fx-title.component.ts:271-281 | given the area factor of the host (at least 1 by 1), the ambient field is replaced by `AmbientCount` particles (30 to 120) inside the host area |
| FxTitle.FxTitleComponent.DriftAmbient | src/app/shared/ui/title-h1/fx-title.component.ts:356-363 | the loop leaves exactly `Drifted` of the old field |
| FxTitle.FxTitleComponent.AgeBursts | src/app/shared/ui/title-h1/fx-title.component.ts:366-372 | the loop leaves exactly `AgedAll` of the old particles |
| FxTitle.FxTitleComponent.Tick | src/app/shared/ui/title-h1/fx-title.component.ts:342-386 | without a canvas context nothing changes; otherwise the glow moves a tenth of the way to its target, the ambient field drifts at `0.35 + 0.6 * glow`, burst particles age and the dead are dropped, and the loop stops exactly when the glow is below 0.01, no particles remain and the pointer is away |
| Parallax.AnchorLocal | src/app/shared/directives/parallax.directive.ts:139-144 | the anchor is the element's top, bottom or middle as chosen, measured from the container's top (or the window's) |
| Parallax.Normalized | src/app/shared/directives/parallax.directive.ts:146 | the normalised position times the divisor (at least 1) is the anchor's distance from the viewport's middle, and it is zero exactly when the anchor sits on that middle |
| Parallax.Target | src/app/shared/directives/parallax.directive.ts:133-149 | the offset the element is drawn towards never exceeds the maximum in either direction (a negative maximum wins outright) |
| Parallax.AxisTargets | src/app/shared/directives/parallax.directive.ts:151-152 | the target goes to the chosen axis and the other axis is drawn towards 0 |
| Parallax.Ease | src/app/shared/directives/parallax.directive.ts:154-156 | one easing step lands between the old offset and the target, never further from the target than before; a share at or below 0 stays put and one at or above 1 jumps onto the target |
| Parallax.EaseNeverOvershoots | src/app/shared/directives/parallax.directive.ts:154-156 | however many frames run towards a fixed target, the offset stays between its start and the target |
| Parallax.ParallaxDirective.constructor | src/app/shared/directives/parallax.directive.ts:20-40 | motion allowed, visible, no frame requested, offsets 0, no style set |
| Parallax.ParallaxDirective.AfterViewInit | src/app/shared/directives/parallax.directive.ts:42-79 | the reduced-motion preference is recorded; with it, while not visible, or with a frame already pending, no frame is requested; otherwise exactly one frame is requested and pending |
| Parallax.ParallaxDirective.RequestUpdate | src/app/shared/directives/parallax.directive.ts:105-116 | a frame is requested exactly when motion is allowed, the element is visible and no frame is pending |
| Parallax.ParallaxDirective.OnIntersection | src/app/shared/directives/parallax.directive.ts:57-63 | visibility follows the observer; becoming visible requests a frame unless one is pending or motion is reduced, in which case the pending frame is left as it was |
| Parallax.ParallaxDirective.FrameFires | src/app/shared/directives/parallax.directive.ts:112-160 | the frame clears the request and eases each axis one step towards its `AxisTargets` share of `Target`, then sets the style properties |
| Parallax.ParallaxDirective.CancelRaf | src/app/shared/directives/parallax.directive.ts:118-123 | with a frame handle the handle and the pending flag are cleared; without one nothing changes |
| Parallax.ParallaxDirective.OnDestroy | src/app/shared/directives/parallax.directive.ts:81-99 | a requested frame is cancelled, so none stays pending, and without one the pending flag is untouched; unless motion is reduced the offsets return to 0 and their style properties are removed |
| GridBg.CellCount | src/app/shared/components/animated-grid-bg/animated-grid-bg.component.ts:178-182 | at least one cell; a non-positive cell size or an extent below one cell gives exactly one; otherwise the count is the number of whole cells that fit in the extent (`n` cells fit, `n + 1` do not) |
| GridBg.WholeCells | src/app/shared/components/animated-grid-bg/animated-grid-bg.component.ts:181 | the floor of the extent over the cell size is the number of whole cells that fit |
| GridBg.AtLeastOneCell | src/app/shared/components/animated-grid-bg/animated-grid-bg.component.ts:181 | an extent of at least one cell holds at least one whole cell |
| GridBg.RandomIndex | src/app/shared/components/animated-grid-bg/animated-grid-bg.component.ts:214-215 | a random column or row is a valid index when there are columns or rows, and 0 when there are none |
| GridBg.Placed | src/app/shared/components/animated-grid-bg/animated-grid-bg.component.ts:207-216 | a placed square keeps its identity and lands on a cell of the grid |
| GridBg.SquareCount | src/app/shared/components/animated-grid-bg/animated-grid-bg.component.ts:206 | the square count is 0 below one and the whole part of `numSquares` otherwise |
| GridBg.Rebuilt | src/app/shared/components/animated-grid-bg/animated-grid-bg.component.ts:205-211 | `count` squares with identities `0..count-1` in order, each on a cell of a non-empty grid |
| GridBg.Repositioned | src/app/shared/components/animated-grid-bg/animated-grid-bg.component.ts:197-202 | every square moves to a random cell of the grid, keeping the count, the order and the identities |
| GridBg.SquareX | src/app/shared/components/animated-grid-bg/animated-grid-bg.component.ts:144-146 | a square in a non-negative column starts at least 1 px in, and with cells wider than 1 px it starts strictly inside its own column |
| GridBg.SquareY | src/app/shared/components/animated-grid-bg/animated-grid-bg.component.ts:148-150 | a square in a non-negative row starts at least 1 px down, and with cells taller than 1 px it starts strictly inside its own row |
| GridBg.SquareSize | src/app/shared/components/animated-grid-bg/animated-grid-bg.component.ts:152-158 | a drawn square is at least one pixel, and one pixel less than the cell from two-pixel cells on |
| GridBg.SquareInsideCell | src/app/shared/components/animated-grid-bg/animated-grid-bg.component.ts:144-158 | with cells of at least two pixels a square starts one pixel into its cell and ends exactly at the cell's edge, so squares in different columns never overlap |
| GridBg.AnimatedGridBg.constructor | src/app/shared/components/animated-grid-bg/animated-grid-bg.component.ts:38-69 | the given inputs, no squares, an empty grid, nothing pending or started |
| GridBg.AnimatedGridBg.RebuildSquares | src/app/shared/components/animated-grid-bg/animated-grid-bg.component.ts:205-211 | the squares become `Rebuilt` for the current count and grid |
| GridBg.AnimatedGridBg.OnResize | src/app/shared/components/animated-grid-bg/animated-grid-bg.component.ts:177-203 | the grid is re-counted from the new size; with no squares they are built and a start requested, otherwise each moves to a new cell; every square is on the grid |
| GridBg.AnimatedGridBg.ScheduleResize | src/app/shared/components/animated-grid-bg/animated-grid-bg.component.ts:164-170 | the latest size is always recorded and exactly one frame is left requested |
| GridBg.AnimatedGridBg.ResizeFrame | src/app/shared/components/animated-grid-bg/animated-grid-bg.component.ts:171-174 | the frame clears the request and resizes to the size recorded last: with no squares yet it builds `Rebuilt` and requests a start, otherwise the same squares become `Repositioned` and no start is requested |
| GridBg.AnimatedGridBg.StartAnimations | src/app/shared/components/animated-grid-bg/animated-grid-bg.component.ts:227-238 | the loops start once per reset, only when squares are rendered, one loop per rendered square |
| GridBg.AnimatedGridBg.StartFrame | src/app/shared/components/animated-grid-bg/animated-grid-bg.component.ts:98-100 | the requested frame is consumed and starts the animations once: a loop per rendered square when none are running and there are squares, otherwise nothing |
| GridBg.AnimatedGridBg.ResetAnimations | src/app/shared/components/animated-grid-bg/animated-grid-bg.component.ts:240-244 | the running loops are aborted and a new start is allowed |
| GridBg.AnimatedGridBg.AfterViewInit | src/app/shared/components/animated-grid-bg/animated-grid-bg.component.ts:73-107 | the host is observed, the grid sized and the squares freshly built; two starts are requested when there were no squares before (one from the resize, one from the rebuild) and one otherwise |
| GridBg.AnimatedGridBg.NgOnChanges | src/app/shared/components/animated-grid-bg/animated-grid-bg.component.ts:114-135 | before the view exists nothing happens; afterwards exactly a change of one of the six layout or timing inputs aborts the loops (none remain started), rebuilds the squares and requests a start, and any other change leaves the started loops as they were |
| IconCloud.Dedupe | src/app/shared/components/icon-cloud/icon-cloud.component.ts:116 | `Array.from(new Set(...))` keeps each slug once: the result has no repeats and holds exactly the values of the input |
| IconCloud.FirstIndex | src/app/shared/components/icon-cloud/icon-cloud.component.ts:116 | the first position of a value in the list: it holds the value and no earlier position does |
| IconCloud.DedupeKeepsFirstOrder | src/app/shared/components/icon-cloud/icon-cloud.component.ts:116 | the de-duplicated slugs keep the order of their first occurrences in the request |
| IconCloud.LowerAll | src/app/shared/components/icon-cloud/icon-cloud.component.ts:116 | every requested slug is lower-cased, position by position |
| IconCloud.SafeColour | src/app/shared/components/icon-cloud/icon-cloud.component.ts:192 | the icon colour always starts with `#`; a colour that already does is kept, any other gets one prefixed |
| IconCloud.SafeColourIdempotent | src/app/shared/components/icon-cloud/icon-cloud.component.ts:192 | prefixing the colour a second time changes nothing |
| IconCloud.RenderIconSvg | src/app/shared/components/icon-cloud/icon-cloud.component.ts:188-201 | the tile is an XML document holding the rounded background in the theme colour and the icon path filled with its (prefixed) colour |
| IconCloud.LayoutStart | src/app/shared/components/icon-cloud/icon-cloud.component.ts:194-200 | the rendered document opens with the XML declaration |
| IconCloud.LayoutTile | src/app/shared/components/icon-cloud/icon-cloud.component.ts:196 | the rendered document holds the background rectangle's fill |
| IconCloud.LayoutPath | src/app/shared/components/icon-cloud/icon-cloud.component.ts:198 | the rendered document holds the icon's path element |
| IconCloud.MakeItem | src/app/shared/components/icon-cloud/icon-cloud.component.ts:128-138 | an item keeps its slug, takes the entry's title or falls back to the slug, and carries a `data:image/svg+xml` URI |
| IconCloud.Slugs | src/app/shared/components/icon-cloud/icon-cloud.component.ts:134-138 | the slugs of a list of items, position by position |
| IconCloud.BuildFrom | src/app/shared/components/icon-cloud/icon-cloud.component.ts:120-140 | the map-and-filter pass yields at most one item per slug, each for a slug found in the index with something to draw, built from that entry |
| IconCloud.BuildFromSlugs | src/app/shared/components/icon-cloud/icon-cloud.component.ts:120-140 | a slug gets an item if and only if it was requested, is in the index and its entry has a non-empty path or svg |
| IconCloud.BuildFromDistinct | src/app/shared/components/icon-cloud/icon-cloud.component.ts:116-140 | no two items share a slug |
| IconCloud.KeptSlugsKeepOrder | src/app/shared/components/icon-cloud/icon-cloud.component.ts:120-140 | over distinct slugs, the slugs the filter keeps appear in their original order |
| IconCloud.BuildFromKeepsOrder | src/app/shared/components/icon-cloud/icon-cloud.component.ts:120-140 | over distinct slugs, the items appear in the order of their slugs |
| IconCloud.BuildIcons | src/app/shared/components/icon-cloud/icon-cloud.component.ts:106-143 | without an index there are no items; otherwise exactly the distinct lower-cased requested slugs the index can draw get an item, and each item is the one `MakeItem` builds from its slug's entry (titled from the entry or by its slug) |
| IconCloud.BuildIconsKeepsRequestOrder | src/app/shared/components/icon-cloud/icon-cloud.component.ts:116-140 | the items appear in the order in which their slugs were first requested (after lower-casing) |
| IconCloud.LastKeyed | src/app/shared/components/icon-cloud/icon-cloud.component.ts:159-162 | the entry stored under a lower-cased slug exists exactly when some entry carries that slug |
| IconCloud.AsMap | src/app/shared/components/icon-cloud/icon-cloud.component.ts:150-166 | an object used as it is keeps exactly its own keys |
| IconCloud.LastKeyedAppend | src/app/shared/components/icon-cloud/icon-cloud.component.ts:159-162 | a later entry with the same lower-cased slug replaces the earlier one |
| IconCloud.Normalize | src/app/shared/components/icon-cloud/icon-cloud.component.ts:146-167 | a missing module value gives no index; an object is re-keyed by lower-cased slug when any entry has a slug, and used as it is otherwise |
| IconCloud.AnySlug | src/app/shared/components/icon-cloud/icon-cloud.component.ts:153-155 | the scan finds a slug exactly when some entry carries one |
| IconCloud.Rekey | src/app/shared/components/icon-cloud/icon-cloud.component.ts:157-163 | every lower-cased slug maps to the last entry carrying it, and no other key is present |
| Common.ToLowerIdempotent | src/app/shared/components/icon-cloud/icon-cloud.component.ts:161 | lower-casing twice is lower-casing once |
| IconCloud.KeyedIndexIsLowerCase | src/app/shared/components/icon-cloud/icon-cloud.component.ts:161 | a re-keyed index has only lower-case keys, the form the requested slugs are looked up in |
| IconCloud.LoadIndex | src/app/shared/components/icon-cloud/icon-cloud.component.ts:169-185 | the first module's index is used when it yields one, then the second's; with neither there is no index |
| IconCloud.CanvasExtent | src/app/shared/components/icon-cloud/icon-cloud.component.ts:207-212 | with a pixel ratio of at least 1 (or 0, read as 1) the canvas side is at least one pixel |
| IconCloud.IconCloudComponent.constructor | src/app/shared/components/icon-cloud/icon-cloud.component.ts:35-46 | a new cloud has no items, has not started and has made no `Start` call |
| IconCloud.IconCloudComponent.SetItems | src/app/shared/components/icon-cloud/icon-cloud.component.ts:93-96 | the built items replace the shown ones |
| IconCloud.IconCloudComponent.ResizeCanvas | src/app/shared/components/icon-cloud/icon-cloud.component.ts:203-214 | the canvas width and height follow the host's size through the pixel ratio |
| IconCloud.IconCloudComponent.TryStart | src/app/shared/components/icon-cloud/icon-cloud.component.ts:241-263 | nothing happens once started, without items, with an empty canvas or without the library; otherwise one `Start` is made (speeds zeroed under reduced motion) and the cloud counts as started exactly when it returned normally |
| Contact.Digits | src/app/sections/section-contact/section-contact.component.ts:45 | removing the non-digits never lengthens the text |
| Contact.DigitsAreDigits | src/app/sections/section-contact/section-contact.component.ts:45 | only digits remain after `replace(/\D/g, '')` |
| Contact.DigitsConcat | src/app/sections/section-contact/section-contact.component.ts:45 | the digits of a concatenation are the digits of each part, in order |
| Contact.DigitsOfDigits | src/app/sections/section-contact/section-contact.component.ts:45 | a run of digits is kept whole |
| Contact.DigitsIdempotent | src/app/sections/section-contact/section-contact.component.ts:45 | stripping non-digits twice is the same as once |
| Contact.Slice | src/app/sections/section-contact/section-contact.component.ts:52-56 | `slice` with non-negative bounds: the sub-range when inside the text, the tail when the end overshoots, empty when the start is at or past the end |
| Contact.WhatsappUrl | src/app/sections/section-contact/section-contact.component.ts:44-48 | the link is "https://wa.me/", exactly the number's digits, "?text=" and then exactly the encoded message, nothing after it |
| Contact.MaskedParts | src/app/sections/section-contact/section-contact.component.ts:50-60 | fewer than 12 digits show the number unchanged; from 12 on, the mask is built from digits 0-1, 2-3, 4-8 and 9 up to 12 |
| Contact.Masked | src/app/sections/section-contact/section-contact.component.ts:50-60 | fewer than 12 digits show the number unchanged; 12 or more give a mask with "+", " (", ") " and "-" at their fixed places |
| Contact.MaskOfShape | src/app/sections/section-contact/section-contact.component.ts:59 | a mask has "+", " (", ") " and "-" at fixed positions and is 15 characters plus the last group |
| Contact.MaskOfDigits | src/app/sections/section-contact/section-contact.component.ts:59 | the digits of a mask are its four groups run together |
| Contact.MaskHeadDigits | src/app/sections/section-contact/section-contact.component.ts:59 | the digits of the mask up to the first local group are the country code, the area code and that group |
| Contact.NoDigits | src/app/sections/section-contact/section-contact.component.ts:45 | a text without digits leaves nothing |
| Contact.MaskedFormat | src/app/sections/section-contact/section-contact.component.ts:50-60 | with fewer than 12 digits the number is shown as given; with 12 or more the result is 18 or 19 characters with its separators at fixed places, and its digits are the first 13 (or all 12) digits of the number, in order |
| Contact.MaskOfGroups | src/app/sections/section-contact/section-contact.component.ts:52-59 | the mask of a run of 12 or more digits has the fixed layout and shows its first 13 digits in order |
| Contact.ShippedDigits | src/app/sections/section-contact/section-contact.component.ts:23 | the shipped number's digits are 5521981066188 |
| Contact.ShippedNumberMasked | src/app/sections/section-contact/section-contact.component.ts:50-60 | the shipped number is shown as "+55 (21) 98106-6188" |
| Contact.MailtoUrl | src/app/sections/section-contact/section-contact.component.ts:62-64 | the mail link is "mailto:" followed by the address unchanged |
| Contact.SectionContact.constructor | src/app/sections/section-contact/section-contact.component.ts:34-37 | the gate starts closed, no toast, nothing pending or opened |
| Contact.SectionContact.OpenCvGate | src/app/sections/section-contact/section-contact.component.ts:70-74 | opening the CV link opens the gate |
| Contact.SectionContact.OnCvGateClosed | src/app/sections/section-contact/section-contact.component.ts:76-78 | the gate's close event closes it |
| Contact.SectionContact.ShowToast | src/app/sections/section-contact/section-contact.component.ts:92-95 | the message is shown and one more 1600 ms clearing timer is armed |
| Contact.SectionContact.OnCvDownloaded | src/app/sections/section-contact/section-contact.component.ts:80-84 | after a download the gate is closed and "downloaded" is shown with its clearing timer |
| Contact.SectionContact.ToastElapsed | src/app/sections/section-contact/section-contact.component.ts:83-94 | a clearing timer removes whatever toast is shown |
| Contact.SectionContact.Copy | src/app/sections/section-contact/section-contact.component.ts:91-106 | without a clipboard "copied" shows at once; with one nothing shows until the write settles |
| Contact.SectionContact.ClipboardSettled | src/app/sections/section-contact/section-contact.component.ts:102-105 | a settled write shows "copied" whether it succeeded or failed |
| Contact.SectionContact.OpenExternal | src/app/sections/section-contact/section-contact.component.ts:108-111 | an empty URL opens nothing; any other opens exactly that URL |
| Experience.Toggled | src/app/sections/section-experience/section-experience.component.ts:96-98 | toggling opens the entry exactly when it was not the open one, and otherwise leaves nothing open |
| Experience.ToggleClosesOthers | src/app/sections/section-experience/section-experience.component.ts:96-98 | toggling one entry never leaves another entry open |
| Experience.ToggleTwice | src/app/sections/section-experience/section-experience.component.ts:96-98 | after toggling twice the entry is open exactly when it was before, and with nothing or that entry open the state is restored |
| Experience.SectionExperience.constructor | src/app/sections/section-experience/section-experience.component.ts:94 | the "ccaa" entry starts open |
| Experience.SectionExperience.Toggle | src/app/sections/section-experience/section-experience.component.ts:96-98 | the open key becomes `Toggled` of the old one |
| Experience.SectionExperience.IsOpen | src/app/sections/section-experience/section-experience.component.ts:100-102 | an entry is open exactly when its key is the open key |
| Experience.SectionExperience.OnKeyToggle | src/app/sections/section-experience/section-experience.component.ts:104-109 | Enter and Space toggle the entry and suppress the key's default action; any other key changes nothing |
| LanguageToggle.OrElse | src/app/components/language-toggle/language-toggle.component.ts:18 | `a \|\| b` on texts: a present, non-empty value is kept; a missing or empty one falls through to the alternative |
| LanguageToggle.CurrentLangOf | src/app/components/language-toggle/language-toggle.component.ts:17-20 | the current language is English exactly when the service's current language, else its default, else "pt", is exactly "en" |
| LanguageToggle.OnlyExactEnglish | src/app/components/language-toggle/language-toggle.component.ts:19 | any non-empty current language other than "en" reads as Portuguese, even when the default is English |
| LanguageToggle.KeyTarget | src/app/components/language-toggle/language-toggle.component.ts:38-42 | ArrowLeft and Home select Portuguese, ArrowRight and End select English, and no other key selects anything |
| LanguageToggle.ButtonId | src/app/components/language-toggle/language-toggle.component.ts:45 | the focused button is "lang-pt" exactly for Portuguese and "lang-en" exactly for English |
| LanguageToggle.LanguageToggleComponent.constructor | src/app/components/language-toggle/language-toggle.component.ts:15 | the toggle starts from the service's, the document's and the storage's current values, with nothing focused |
| LanguageToggle.LanguageToggleComponent.CurrentLang | src/app/components/language-toggle/language-toggle.component.ts:17-20 | the toggle reads English exactly when the service's current language, else its default, else "pt", is "en" |
| LanguageToggle.LanguageToggleComponent.SetLang | src/app/components/language-toggle/language-toggle.component.ts:22-34 | afterwards the current language is the one asked for; asking for the current one changes nothing; otherwise the service switches, the document is labelled "pt-BR" or "en", and the choice is stored when the storage accepts it |
| LanguageToggle.LanguageToggleComponent.OnKeydown | src/app/components/language-toggle/language-toggle.component.ts:36-47 | exactly the four navigation keys are handled; each focuses its language's button and, when that language is not current, switches to it as `SetLang` does (document language, storage when it works), and other keys change nothing |
| Bento.StatusClass | src/app/shared/components/bento-grid/bento-grid.component.ts:86-93 | a missing or empty status gets no class; otherwise the lower-cased text gets the "live" badge exactly when it contains "live", the "beta" badge exactly when it contains "beta" but not "live", the "updated" badge exactly when it contains "updat" but neither of the others, and no class otherwise |
| Bento.StatusClassIgnoresCase | src/app/shared/components/bento-grid/bento-grid.component.ts:88 | lower-casing a status never changes its badge |
| Bento.SampleBadges | src/app/shared/components/bento-grid/bento-grid.component.ts:24-61 | the default cards "Live", "Updated" and "Beta" get their own badges and the card without a status gets none |
| Bento.Markup | src/app/shared/components/bento-grid/bento-grid.component.ts:98-108 | each icon element is a self-closing tag that carries the common stroke (no fill, the text colour, width 2) |
| Bento.Render | src/app/shared/components/bento-grid/bento-grid.component.ts:98-108 | a non-empty run of elements starts with a tag, ends with "/>" and carries the common stroke |
| Bento.IconShapes | src/app/shared/components/bento-grid/bento-grid.component.ts:96-109 | every icon is drawn with one to three elements |
| Bento.IconSvg | src/app/shared/components/bento-grid/bento-grid.component.ts:95-110 | every icon's markup is a run of self-closing elements stroked in the text colour |
| Bento.IconColorClass | src/app/shared/components/bento-grid/bento-grid.component.ts:112-127 | every icon's colour class is an "is-" modifier with a colour name |
| Bento.IconColorClassInjective | src/app/shared/components/bento-grid/bento-grid.component.ts:112-127 | no two icons share a colour class |
| Bento.BentoGridComponent.constructor | src/app/shared/components/bento-grid/bento-grid.component.ts:72-75 | the grid starts with the sample cards, not clickable, nothing reported |
| Bento.BentoGridComponent.OnItemClick | src/app/shared/components/bento-grid/bento-grid.component.ts:79-84 | a click reports the card exactly when the grid is clickable |

## Left out

**Rendering, layout and engine bindings**

- Canvas drawing is not modelled: the network, ambient dots and bursts of `fx-title`, and the sphere of `icon-cloud`. Neither are style and class mutations beyond the flags the model keeps, or GSAP reveals (`setupGsapReveal` and `section-experience`'s `ngAfterViewInit`). They produce pixels, not state the components read back.
- `fx-title`'s canvas resize, its event and observer wiring, and the re-measure on `QueryList` changes are not modelled. The rendered letter rectangles and the `prefers-reduced-motion` answer reach `FxTitle.FxTitleComponent.AfterViewInit` as inputs.
- `animated-grid-bg`'s per-square animation loop (`runSquareLoop`) is timing only. The model counts the loops started and aborted, not their frames.
- The parallax offset is written into CSS custom properties with `toFixed(2)`. That formatting is left out, and the model keeps the exact offsets.
- `animated-grid-bg`'s `applyPosToEl` only copies a square's cell into its element's style. The model keeps the squares as values.
- The `trackBy` helpers of the templates are template plumbing.
- The random `canvasId`/`listId` of `icon-cloud` are template plumbing.
- `IntersectionObserver` and `ResizeObserver` wiring, and listener removal on destroy, are not modelled. Each delivery is a method call on the model (for example `Parallax.ParallaxDirective.OnIntersection`).

**Scheduling and asynchrony**

- Timers, `requestAnimationFrame` and awaited promises are sequential continuation methods, not concurrency. Interleavings of two pending callbacks other than the ones the methods allow (for example two `tryStart` calls both awaiting the sphere library) are not modelled.
- The 120 ms start-up timer and the initial calls in the shell's `ngAfterViewInit` are not modelled.
- `waitForImages` in `icon-cloud` (the image `load`/`error` race against a 2 s timer) is not modelled. Neither is the `init` step that waits on it, beyond `SetItems` followed by `ResizeCanvas` and `TryStart`.
- `TranslateService.use` takes effect immediately in the model.

**Foreign calls and inputs**

- `encodeURIComponent`/`encodeURI` are an arbitrary function parameter, so the URLs are stated up to the encoder.
- `window.open` is recorded as the URL opened.
- `localStorage` reads and writes are values, and a storage exception is a boolean input.
- The clipboard is a boolean input, plus the settle callback.
- The `simple-icons` and `tag-canvas` imports are inputs saying what each import yielded or whether it failed. `TagCanvas.Start` is a boolean input saying whether it returned normally.
- `prefersReducedMotion` and `matchMedia` are boolean inputs.
- The CV URL and the LinkedIn QR URL are constants the model does not need.
- `Math.random`, `Math.cos`/`Math.sin` and `Math.sqrt` are inputs. The model therefore states where a particle or square goes for given draws, not their distribution.
- `IconCloud.BuildIcons` does not model the `missing` list the source collects. Nothing reads that list.
- The unused `maxScrollTop` local of `app.ts`'s `scrollTo` is not modelled.

**Numbers and strings**

- IEEE floating point is not modelled: `NaN`, infinities and rounding are absent, and every number is an exact `real`. In `AppShell.TargetTop`, an `offsetTop` that is not finite is an absent value.
- `toLowerCase` is modelled on ASCII letters only (`Common.ToLower`). Non-ASCII letters are left unchanged.
- `trim` removes exactly the ECMAScript WhiteSpace and LineTerminator code points (`CvGate.IsJsSpace`), the set `String.prototype.trim` uses.
- Strings are sequences of characters, one per code point, which is what `[...text]` splits into. Where the source measures a string with `length` (the CV gate's four-character minimum), the model counts UTF-16 code units instead (`CvGate.Utf16Length`): two for a character outside the Basic Multilingual Plane, one for any other.

**Weaker or different on purpose**

- GridBg.AnimatedGridBg.AfterViewInit: the resize and the rebuild that follows it both take the same `rand` parameter. The source draws fresh random numbers for each, so the model does not capture that the two placements are independent.
- LanguageToggle.LanguageToggleComponent.OnKeydown: records the id of the button to focus even when no such button is in the DOM. In the source, `focus()` then does nothing.

## Findings

| source | as written | input that shows it | evidently intended | confidence | as-written member | corrected member |
|---|---|---|---|---|---|---|
| src/app/app.ts:200-214 | `scrollTo` saves the container's current `scrollSnapType`/`scrollBehavior` as the styles to restore, then cancels the previous jump's frame and restore timer | a second `scrollTo` while the first jump still animates: it saves the "none"/"auto" override, the first jump's saved styles are dropped, and after the second jump lands and its 1600 ms timer fires, snapping stays "none" | a jump that replaces one in flight restores the styles from before the first jump | medium, not executed | AppShell.TwoJumpsAsWritten | AppShell.TwoJumpsKeepingStyles |

`AppShell.App.ScrollTo` models the code as written. `AppShell.App.ScrollToKeepingStyles` is the corrected jump: it saves its styles through `AppShell.CapturedStyles`, and `AppShell.CapturedStylesSurviveOverride` states the intended property.
