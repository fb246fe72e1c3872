# Portfolio site behaviour, modelled in Dafny

The portfolio is a single-page Next.js/React site. Almost all of it is
presentation; the behaviour this project models is the small amount of state
logic inside its components:

- the **category filter** of the Projects and Skills sections (`CategoryFilter`,
  `Projects`, `Skills`): a selected category shows a fixed list, whole for
  'All', otherwise the items tagged with that category in their original order;
- the **navigation bar** (`Navbar`): the solid-style flag set past 50 px of
  scrolling, the active section chosen as the first nav section straddling a
  line 100 px below the top of the viewport, and the mobile menu;
- the **statistic counter** of the About section (`About`): a frame-driven count
  from 0 to its target over a duration, started once the number is seen;
- the **page loader** (`PageLoader`): a 150 ms tick raising a percentage by 10
  up to 100, then a one-shot hiding of the overlay;
- the **custom cursor** (`CustomCursor`): a ring-and-dot follower with three
  looks chosen by mouse-enter and mouse-leave, switched off on touch devices;
- the **footer's back-to-top button** (`Footer`), shown past 500 px of scrolling.

Pure derivations (the filter, the section search, the count at a given time,
the progress after n ticks, the cursor's look and geometry) are Dafny functions
with lemmas about them. Component state that event handlers overwrite (React
`useState` fields, the body's cursor style, attached listeners, pending timers
and frames) is a `class` whose methods are the handlers; their `ensures` give
the whole new state in terms of those functions. Browser inputs are passed in as
plain values: the scroll offset, the section rectangles (a map from element id
to its top and bottom), frame timestamps, interval ticks, intersection reports,
the pointer's target element and the touch probe.

## Model

| member | source | states |
|---|---|---|
| CategoryFilter.Matching | src/components/Projects.tsx:88 | the filter result is no longer than the list, holds only list items with the category, and holds every list item with the category |
| CategoryFilter.Visible | src/components/Projects.tsx:86-88 | the ternary's result: for a non-wildcard category an item of the list is shown iff it carries the category, and nothing outside the list is shown |
| CategoryFilter.MatchingIsSubsequence | src/components/Skills.tsx:63 | `filter` keeps the original relative order: the result is a subsequence of the list |
| CategoryFilter.SubsequenceOfSelf | src/components/Skills.tsx:61-62 | the unfiltered list is trivially a subsequence of itself |
| CategoryFilter.MatchingMultiplicity | src/components/Skills.tsx:63 | each item with the category is kept exactly as often as it occurs; items without it never appear |
| CategoryFilter.MatchingDistinct | src/components/Projects.tsx:88 | filtering a list without duplicates yields no duplicates |
| CategoryFilter.VisibleSpec | src/components/Projects.tsx:86-88 | the wildcard shows exactly the list; any category shows a subsequence, and a non-wildcard one with the multiplicities of its items |
| CategoryFilter.ExactlyOneMarked | src/components/Projects.tsx:140-145 | with distinct button categories and the active one among them, exactly one button position is drawn active |
| CategoryFilter.MatchingLength | src/components/Projects.tsx:88 | the filter keeps as many items as there are items tagged with the category |
| CategoryFilter.MatchingCons | src/components/Skills.tsx:63 | a list's first item is kept iff it carries the category, and the rest is filtered after it |
| CategoryFilter.MatchingAppend | src/components/Skills.tsx:63 | filtering a concatenation is the concatenation of the filtered parts |
| CategoryFilter.MatchingUniform | src/components/Skills.tsx:24-51 | a block of items all of one category is kept whole for that category and dropped for every other |
| Projects.FilteredProjectsSpec | src/components/Projects.tsx:86-88 | 'All' shows exactly the six projects in order; otherwise a project is shown iff it has the active category; the result is a duplicate-free subsequence of at most six projects |
| Projects.ProjectsView.constructor | src/components/Projects.tsx:84 | the initial category is 'All', so all six projects are shown |
| Projects.ProjectsView.ClickButton | src/components/Projects.tsx:138-140 | a click makes the clicked button's category the active one and marks that button |
| Projects.LabelInjective | src/components/Projects.tsx:79 | two categories have the same label string iff they are the same category, so the string comparisons at lines 88 and 140 compare categories |
| Projects.CategoriesComplete | src/components/Projects.tsx:79 | every category value has a button and the five buttons are distinct |
| Projects.ExactlyOneButtonMarked | src/components/Projects.tsx:79-145 | whatever the active category, exactly one of the five buttons is drawn active |
| Projects.NoProjectTaggedAll | src/components/Projects.tsx:21-77 | no project carries 'All', so 'All' acts only as the wildcard |
| Projects.TitlesDistinct | src/components/Projects.tsx:21-77 | project titles are pairwise distinct |
| Projects.ShippedTags | src/components/Projects.tsx:26-72 | the shipped projects' categories in order: Full-Stack, AI/ML, Web Apps, Mobile, Web Apps, Web Apps |
| Projects.CountShippedTags | src/components/Projects.tsx:26-72 | among those categories Web Apps occurs three times and each other kind once |
| Projects.ShippedCounts | src/components/Projects.tsx:86-88 | filtering by Web Apps shows 3 projects, by Mobile, AI/ML or Full-Stack 1 each |
| Skills.FilteredSkillsSpec | src/components/Skills.tsx:61-63 | 'All' shows exactly the 22 skills in order; otherwise a skill is shown iff it has the active category; the result is a duplicate-free subsequence of the list |
| Skills.SkillsView.constructor | src/components/Skills.tsx:59 | the initial category is 'All', so every skill is shown |
| Skills.SkillsView.ClickButton | src/components/Skills.tsx:136-138 | a click sets the active category to the clicked one, marks that button and shows that category's skills; nothing else changes |
| Skills.LabelInjective | src/components/Skills.tsx:54 | two categories have the same label string iff they are the same category, so the string comparisons at lines 63 and 138 compare categories |
| Skills.CategoriesComplete | src/components/Skills.tsx:54 | every category value has a button and the five buttons are distinct |
| Skills.ExactlyOneButtonMarked | src/components/Skills.tsx:54-138 | exactly one of the five buttons is drawn active |
| Skills.GroupNames | src/components/Skills.tsx:24-51 | the names of each kind's skills, in order |
| Skills.GroupNamesDistinct | src/components/Skills.tsx:24-51 | within each kind no name repeats |
| Skills.GroupNamesDisjoint | src/components/Skills.tsx:24-51 | no name occurs in two kinds |
| Skills.NamesDistinct | src/components/Skills.tsx:162 | all 22 names are distinct, so the render key names one card |
| Skills.GroupsTagged | src/components/Skills.tsx:24-51 | each block of the list carries a single kind: Frontend, Backend, Database, Tools |
| Skills.FilterByGroup | src/components/Skills.tsx:63 | filtering the list keeps its own block for each kind and drops the other three |
| Skills.ShippedGroupSizes | src/components/Skills.tsx:24-51 | Frontend 7, Backend 5, Database 4, Tools 6, together the 22 skills |
| Skills.ShippedFilters | src/components/Skills.tsx:61-63 | with the shipped data each kind's button shows exactly that kind's block, in order |
| Skills.NoSkillTaggedAll | src/components/Skills.tsx:22-52 | no skill carries 'All' |
| Navbar.Sections | src/components/Navbar.tsx:25 | one candidate per nav link, the href without its leading '#' |
| Navbar.SectionsAre | src/components/Navbar.tsx:8-13 | the candidates are about, skills, projects, experience in that order; hero and contact are not candidates |
| Navbar.FindSection | src/components/Navbar.tsx:26-33 | nothing is found iff no candidate's element exists and straddles the 100 px line (both bounds inclusive); what is found exists and straddles it |
| Navbar.FirstMatchWins | src/components/Navbar.tsx:26-33 | a straddling candidate guarantees a result, decided by the candidates up to it: the first match in order wins |
| Navbar.MissingNeverChosen | src/components/Navbar.tsx:27-32 | a candidate whose element is missing is never chosen |
| Navbar.Navbar.constructor | src/components/Navbar.tsx:16-18 | not scrolled, no active section, menu closed, listener attached |
| Navbar.Navbar.HandleScroll | src/components/Navbar.tsx:21-34 | the solid flag becomes `scrollY > 50` regardless of its old value; the active section becomes the found one or stays as it was, and once set is never empty again |
| Navbar.Navbar.ScrollToSection | src/components/Navbar.tsx:41-47 | the menu closes iff the target element exists; nothing else changes |
| Navbar.Navbar.ToggleMenu | src/components/Navbar.tsx:116 | the menu button flips the menu |
| Navbar.Navbar.CloseMenu | src/components/Navbar.tsx:158 | a backdrop click closes the menu |
| Navbar.Navbar.Unmount | src/components/Navbar.tsx:37-38 | teardown removes the scroll listener; later scroll events change nothing |
| About.CountAt | src/components/About.tsx:26-34 | the shown value lies in [0, end]; it is exactly `end` once the duration is up, and below `end` before that |
| About.ScaledBelow | src/components/About.tsx:27-30 | `floor(end * e / d)` lies in [0, end] for 0 <= e <= d and below `end` for e < d |
| About.CountMonotone | src/components/About.tsx:25-35 | a later frame never shows a smaller value |
| About.FirstFrameShowsZero | src/components/About.tsx:26-27 | the first frame measures no time and shows 0 |
| About.Counter.constructor | src/components/About.tsx:14-16 | count 0, not visible, no frame requested; a counter created without a duration gets the 2 s default |
| About.MountStat | src/components/About.tsx:226 | a statistic's counter is created with its target alone and so runs for the default 2000 ms, starting valid at 0 |
| About.ShippedStatsSettle | src/components/About.tsx:7-12 | each shipped statistic (3, 20, 15, 999) shows exactly its target once 2 s are up and less before |
| About.Counter.Observe | src/components/About.tsx:41-46 | the first on-screen report latches visibility and requests the first frame; visibility is never reset, and the effect guard at line 20 requests no frame before that |
| About.Counter.Frame | src/components/About.tsx:25-35 | the first frame fixes the start time; the count is `CountAt` of the elapsed time; another frame is requested iff time is not up; the count never decreases nor exceeds `end` |
| About.Counter.Unmount | src/components/About.tsx:38 | teardown cancels the pending frame; count, visibility and start time are kept |
| PageLoader.ProgressAfter | src/components/PageLoader.tsx:13-20 | after n ticks the progress is 10·n up to tick 10 and 100 after; always a multiple of 10 in [0, 100] |
| PageLoader.StopsOnEleventhTick | src/components/PageLoader.tsx:14-19 | progress reaches 100 on tick 10, but only tick 11 finds it at 100 and stops |
| PageLoader.PageLoader.constructor | src/components/PageLoader.tsx:7-8 | overlay shown at 0% with the interval running |
| PageLoader.PageLoader.Tick | src/components/PageLoader.tsx:12-21 | a running tick adds 10 below 100; at 100 it clears the interval and schedules the hide; progress never decreases and stays a multiple of 10 in [0, 100] |
| PageLoader.PageLoader.HideTimeout | src/components/PageLoader.tsx:16 | the timeout hides the overlay once; it is never shown again |
| PageLoader.PageLoader.Unmount | src/components/PageLoader.tsx:23 | teardown clears the interval only; a scheduled hide still fires |
| CustomCursor.EnterVariant | src/components/CustomCursor.tsx:25-32 | an A/BUTTON or anything inside one gives 'link'; otherwise an IMG or anything inside one gives 'image'; otherwise the look is unchanged |
| CustomCursor.CentredOnPointer | src/components/CustomCursor.tsx:59-84 | in each look the ring is a square centred on the pointer, and so is the 8 px dot at offset −4 |
| CustomCursor.CustomCursor.constructor | src/components/CustomCursor.tsx:7-9 | pointer at (0, 0), look 'default', not a touch device |
| CustomCursor.CustomCursor.RunEffect | src/components/CustomCursor.tsx:11-45 | a run records the touch probe and, when rendered as non-touch, attaches the listeners and hides the page cursor |
| CustomCursor.CustomCursor.Cleanup | src/components/CustomCursor.tsx:47-54 | detaches the listeners and restores the page cursor to 'auto' |
| CustomCursor.CustomCursor.Mount | src/components/CustomCursor.tsx:11-57 | after mounting, listeners are attached iff not a touch device, and the page cursor is 'none' on a pointer device and 'auto' on a touch device |
| CustomCursor.CustomCursor.MouseMove | src/components/CustomCursor.tsx:21-23 | the position becomes the pointer's; the look is untouched |
| CustomCursor.CustomCursor.MouseEnter | src/components/CustomCursor.tsx:25-32 | the look becomes `EnterVariant` of the target |
| CustomCursor.CustomCursor.MouseLeave | src/components/CustomCursor.tsx:34-36 | the look becomes 'default' whatever it was |
| CustomCursor.CustomCursor.Unmount | src/components/CustomCursor.tsx:47-54 | teardown runs the last run's cleanup |
| Footer.ShowMonotone | src/components/Footer.tsx:19 | the flag depends on the offset alone and is monotone in it |
| Footer.Footer.constructor | src/components/Footer.tsx:15-22 | the button starts hidden and the listener is attached |
| Footer.Footer.HandleScroll | src/components/Footer.tsx:18-20 | after a scroll event the button is shown iff `scrollY > 500`, whatever it was before |
| Footer.Footer.Unmount | src/components/Footer.tsx:23 | teardown removes the listener; the flag stays as it was |

`Projects.ProjectsView.ButtonMarked`, `Skills.SkillsView.ButtonMarked`,
`Navbar.Navbar.LinkHighlighted`, `PageLoader.PageLoader.OverlayShown`,
`CustomCursor.CustomCursor.Rendered` and `Footer.Footer.BackToTopRendered`
state the render conditions (src/components/Projects.tsx:140,
src/components/Skills.tsx:138,
src/components/Navbar.tsx:83, src/components/PageLoader.tsx:28,
src/components/CustomCursor.tsx:57, src/components/Footer.tsx:122) as
predicates over the state.

The rows above state their properties in terms of these definitions, which
transcribe the cited lines directly:

- `Projects.FilteredProjects` (src/components/Projects.tsx:86-88) and
  `Skills.FilteredSkills` (src/components/Skills.tsx:61-63): the filtered list
  for the active category.
- `CategoryFilter.MarkedButtons` (src/components/Projects.tsx:140, 145): the
  positions of the buttons drawn active.
- `Navbar.SectionId` (src/components/Navbar.tsx:25, 83): an href without its
  leading '#'. `Navbar.Straddles` and `Navbar.AtAnchor`
  (src/components/Navbar.tsx:27-32): the `find` callback.
- `PageLoader.NextProgress` (src/components/PageLoader.tsx:13-20): the
  `setProgress` updater.
- `CustomCursor.IsTouch` (src/components/CustomCursor.tsx:14): the touch probe.
  `CustomCursor.RingSize`, `CustomCursor.RingOffset` and `CustomCursor.Ring`
  (src/components/CustomCursor.tsx:59-84): the geometry table.
  `CustomCursor.Dot` (src/components/CustomCursor.tsx:98-103): the inner dot.
- `Footer.ShowAt` (src/components/Footer.tsx:19): the back-to-top flag for an
  offset.
- `Projects.Label` (src/components/Projects.tsx:8, 79) and `Skills.Label`
  (src/components/Skills.tsx:13, 54): the category strings, one per value of
  the category union type.
- `Skills.Group` (src/components/Skills.tsx:24-51): the block of the skills
  literal for each kind, and the whole list for 'All'.
- `CustomCursor.Closest` (src/components/CustomCursor.tsx:27, 29):
  `target.closest(...)`, true when the element's tag or one of its ancestors'
  tags is among the given ones. An event target is abstracted as its upper-case
  tag name plus the tag names of its ancestors.

Proof helpers that model no line of their own:

- `CategoryFilter.Tags`: each item's key, position by position. Used by
  `CategoryFilter.MatchingLength` and `Skills.NamesDistinct`.
- `CategoryFilter.TagsAppend`: `Tags` distributes over concatenation. Used by
  `Skills.NamesDistinct`.
- `CategoryFilter.DistinctAppend`: joining two duplicate-free lists with no
  common element gives a duplicate-free list. Used by `Skills.NamesDistinct`,
  which carries the render-key promise of src/components/Skills.tsx:162.

## Left out

- framer-motion animation (initial/animate/transition/hover props, springs, delays, layout animation), JSX markup, Tailwind classes, icons, copy text: presentation only.
- Skill icons and brand colours, project descriptions and image paths: they only style the cards and play no part in any behaviour.
- The Hero, Contact and Experience sections, the page layout, the theme provider and toggle, the scroll-progress bar and the toast: decorative state, foreign calls (clipboard, typing animation) or files that are not part of this model.
- Browser scheduling: `setInterval`, `setTimeout`, `requestAnimationFrame`, `IntersectionObserver` and scroll events are modelled as method calls made by the environment, one at a time; their timing and interleaving are not modelled.
- `scrollIntoView` and `window.scrollTo` (the back-to-top click): page scrolling is browser I/O; only the state change around `scrollIntoView` is modelled.
- `document.getElementById` / `querySelector` are modelled as a lookup in a map from element id to rectangle; the model looks up only the ids the nav links name.
- Pixels and milliseconds are integers. About.CountAt: the source computes `Math.floor(end * progress)` in floating point; the model uses exact integer division `(end * elapsed) / durationMs`, which agrees whenever the float computation is exact. A duration of zero shows `end` at once (the source's division by zero yields a non-finite value that is not below 1).
- About.Counter.Frame: the source treats a start time of 0 as unset (`!startTime`), so a first frame at timestamp 0 leaves the start unset; the model keeps that behaviour by using 0 for "unset". The change of `end` or `duration` while mounted (an effect re-run) is not modelled.
- CustomCursor.CustomCursor.MouseEnter: listeners are attached only to the `a`, `button` and `img` elements present when the effect runs; the model takes the event target as given and does not track which elements carry listeners.
- CustomCursor.CustomCursor.Mount: the first effect run reads `isTouchDevice` before the probe's state update is committed, so even a touch device briefly gets listeners and a hidden page cursor, then the re-run's cleanup restores 'auto'; the model follows that sequence.
- PageLoader.PageLoader.Unmount: the cleanup clears only the interval; a hide timeout already scheduled still fires, as the code does, although one might expect teardown to cancel it.
- React development-mode double invocation of state updaters and effects is not modelled.
