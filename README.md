# Zenith portfolio: the easter-egg state machine and its companions

A Dafny model of the sequential logic inside an animated single-page
portfolio site. The site is mostly visual. The logic modelled here is:

- **the key-sequence detector and mode switch** (`App.tsx`). Typing `ZENITH1`, in any letter case, starts a per-letter effect for each matched letter. The final `1` starts a two-phase switch into *zero-gravity* mode: a blast phase at once, then the mode flip in an 800 ms callback. Escape returns to normal mode.
- **the footer terminal** (`components/Terminal.tsx`). It looks up the trimmed, lower-cased input in a fixed command table, appends output lines to its history, and is locked while in zero-gravity.
- **the project carousel** (`components/ProjectCarousel.tsx`). It holds a cyclic index over three cards, moved by dragging past ±100 px, and renders the active card and its two neighbours.
- **the custom cursor** (`components/CustomCursor.tsx`). It keeps a trail of the last twelve pointer positions with increasing ids, a hover classification of the element under the pointer and its ancestors, and a pressed flag.

Files:

- `Text.dfy`: ASCII `toUpperCase`/`toLowerCase` and ECMAScript `trim`, with lemmas on trimming.
- `App.dfy`: the state of the application root as a value, `App.State`, and one step function per event (`KeyStep`, `EscapeStep`, `ActivateStep`, `TimerStep`). The class `App.ZenithApp` has the same fields, and each of its methods is proved to move its state exactly as the matching step function does. `setTimeout` callbacks are an explicit queue, `pending`. `FireTimer(i)` fires any pending callback, so every order in which real timers could fire is covered.
- `Terminal.dfy`, `Carousel.dfy`, `Cursor.dfy`: one module per component, each with a class for its React state and pure functions for the logic.
- `Site.dfy`: the page, which wires the four pieces together as the root component's JSX does.

Points where the code behaves in a way a reader might not expect, all followed by the model:

- Escape does not cancel the pending 800 ms flip. The handle returned by `setTimeout` at App.tsx:46 is discarded, so a flip queued before Escape still turns zero-gravity on. See `App.EscapeDoesNotCancelFlip`.
- No timer is ever cancelled. A full reset does not stop the `E`/`T`/`Z` timers, and activation does not stop them either. Activation does not hide the glitch line: it stays until its own timer fires.
- There is no separate "activating" mode value. The blast phase is the body class `effect-blast` plus a queued `ZenithFlip`. `isZeroGravity` keeps its old value until the flip fires.
- Escape resets `--accent` but not `--accent-glow` (App.tsx:85).
- "One character" at App.tsx:108 means one UTF-16 code unit. So a single character outside the Basic Multilingual Plane (an emoji, say) counts as two units and is ignored, like a key name. See `App.AstralKeyIgnored`.
- Keys typed into the terminal's input also reach the window's `keydown` handler (App.tsx:118), and that handler skips the space (App.tsx:108). So typing `zenith 1` from level 0 already activates at the `1`. Pressing Enter within the 800 ms window submits `zenith 1` and activates a second time (components/Terminal.tsx:28-31), which queues a second flip. Once the first flip fires the input is disabled (components/Terminal.tsx:128), so a submit that comes later is not possible. See `Site.TypedZenithQueuesTwoFlips`.

## Model

| member | source | states |
|---|---|---|
| App.KeyStep | App.tsx:77-116 | Escape is handled first; a key whose upper-cased form is the next symbol advances `level` by exactly one, and the last symbol activates (the reset to 0 wins over the advance); any other key is a mismatch; only Escape changes the mode; no key removes a pending timer; `level` stays below 7 |
| App.EscapeStep | App.tsx:79-86 | from any state: not zero-gravity, no active project, level 0, trail off, body classes empty, accent `#00FFA3`; pending timers, glow, glitch line and tone count are untouched |
| App.ActivateStep | App.tsx:38-53 | first phase: level 0, trail off, body classes exactly `effect-blast`, mode and accent unchanged, and a `ZenithFlip` remembering the current mode appended to the timers |
| App.MismatchStep | App.tsx:108-114 | ignored keys (any whose upper-cased form is not one UTF-16 code unit, and space, `-`, `_`) change nothing; at level 0 a mismatch changes nothing; at level > 0 the new state is the old one with level 0, trail off and the flash and matrix classes removed |
| App.AstralKeyIgnored | App.tsx:108 | a key that is one character outside the Basic Multilingual Plane is two code units long, so it is ignored and cannot reset progress |
| Text.JsLength | App.tsx:108 | `length` counts UTF-16 code units: between one and two per character, equal to the character count exactly when every character is in the Basic Multilingual Plane, and 1 exactly for one such character |
| App.MatchEffect | App.tsx:95-107 | `Z` shows the glitch line and queues its 800 ms off-timer, `E` adds `effect-e-flash` and queues its removal, `T` adds `effect-t-matrix` and queues its removal, `N` starts the tone, `I` turns the trail on, `H` does nothing, `1` activates |
| App.TimerStep | App.tsx:46-52 | a firing timer leaves the queue; the flip gives the old state with zero-gravity on, accent `#BD00FF` and its glow, and body `''` when zero-gravity was already on at activation, `scanline-overlay` otherwise; each effect timer clears only its own flag or class |
| App.Run | App.tsx:77-116 | over any key sequence no pending timer is removed, and a sequence without Escape never changes the mode |
| App.RunKeepsLevelInRange | App.tsx:89-92 | over any key sequence, `level` stays within `0..6` |
| App.IgnoredKeysChangeNothing | App.tsx:108 | any number of ignored keys leaves the whole state unchanged |
| App.KeyCaseInsensitive | App.tsx:78-90 | two non-Escape keys with the same upper-cased form have the same effect |
| App.RunCaseInsensitive | App.tsx:78-90 | key sequences that agree after upper-casing (e.g. `zenith1` and `ZENITH1`) produce the same state |
| App.StrayZResets | App.tsx:90-114 | a `Z` typed in the middle of the sequence resets to 0, not to 1 |
| App.ZenithPrefix | App.tsx:89-103 | `ZENITH` from level 0 reaches level 6 with glitch line, trail, flash and matrix classes, one tone and the three effect timers |
| App.FullSequenceActivates | App.tsx:89-106 | `ZENITH1` from level 0 ends at level 0 with body `effect-blast`, the mode unchanged and the flip queued last |
| App.FullSequenceThenFlip | App.tsx:46-52 | after `ZENITH1`, firing the queued flip enters zero-gravity with the purple accent |
| App.WrongLastSymbolResets | App.tsx:108-114 | `ZENITH` followed by a wrong key resets to level 0 and queues no flip |
| App.EscapeDoesNotCancelFlip | App.tsx:46-86 | Escape in the 800 ms window leaves the flip pending, and when it fires the mode turns to zero-gravity anyway |
| App.ReactivationAfterEscape | App.tsx:38-86 | activate, Escape, activate: a second flip is queued, and firing it reaches zero-gravity with `scanline-overlay` |
| App.EscapeIdempotent | App.tsx:79-86 | a second Escape changes nothing |
| App.ZenithApp.constructor | App.tsx:14-19 | level 0, not zero-gravity, no active project, no glitch line, trail off, nothing pending |
| App.ZenithApp.KeyDown | App.tsx:77-116 | the handler body moves the object's state exactly as `KeyStep` |
| App.ZenithApp.Escape | App.tsx:79-86 | the object's new state is `EscapeStep` of the old |
| App.ZenithApp.Activate | App.tsx:38-53 | the object's new state is `ActivateStep` of the old |
| App.ZenithApp.FireTimer | App.tsx:46-52 | the object's new state is `TimerStep` of the old |
| App.ZenithApp.SetActiveProject | App.tsx:161 | only the active project changes |
| Text.UpperChar | App.tsx:78 | an ASCII lower-case letter becomes the letter 32 code points below it; every other character stays |
| Text.LowerChar | components/Terminal.tsx:37 | an ASCII capital becomes the letter 32 code points above it; every other character stays |
| Text.Upper | App.tsx:78 | `toUpperCase` on ASCII: same length, each character upper-cased, no lower-case ASCII letter left |
| Text.Lower | components/Terminal.tsx:37 | `toLowerCase` on ASCII: same length, each character lower-cased, no capital ASCII letter left |
| Text.Trim | components/Terminal.tsx:37 | `trim` never lengthens, and its result neither starts nor ends with white space |
| Text.LeadingSpaces | components/Terminal.tsx:37 | the length of the leading white-space run: everything before it is white space, and the next character, if any, is not |
| Text.TrimIsSlice | components/Terminal.tsx:37 | `trim` removes only white space, from the two ends, and gives `''` exactly for blank input |
| Text.TrimPadded | components/Terminal.tsx:37 | white space added around an input does not change its trimmed form |
| Text.TrimLowerCommute | components/Terminal.tsx:37 | trimming and lower-casing commute |
| Terminal.SubmitStep | components/Terminal.tsx:34-46 | own keys only (see Findings): locked in zero-gravity (history and input unchanged); otherwise the input is cleared; `--clear` empties the history; a command's lines are appended after the old history; an unknown non-blank input appends the echo and the error, both quoting the raw input; a blank one appends nothing |
| Terminal.Respond | components/Terminal.tsx:37-45 | own keys only (see Findings), for the normalised key: `--clear` empties the history, any other command appends its lines and triggers when it is marked so, an unknown non-blank key appends the two error lines quoting the raw input, a blank one appends nothing; the input is always cleared |
| Terminal.Normalise | components/Terminal.tsx:37 | the lookup key has no capital letters and neither starts nor ends with white space |
| Terminal.NotRecognised | components/Terminal.tsx:43 | exactly two lines, the echo and the error, each quoting the input as typed |
| Terminal.CommandTable | components/Terminal.tsx:21-32 | of the seven commands only `--clear` empties the history and only `zenith 1` triggers |
| Terminal.TriggeredIffZenith | components/Terminal.tsx:28-41 | the zenith trigger is called exactly when an unlocked submit normalises to `zenith 1` |
| Terminal.BlankInputAddsNothing | components/Terminal.tsx:42 | white-space-only input leaves the history unchanged |
| Terminal.UnknownInputAddsTwoLines | components/Terminal.tsx:42-43 | an unknown non-blank input appends exactly the two error lines |
| Terminal.SubmitOnlyAppends | components/Terminal.tsx:22-29 | except for `--clear`, the old history stays as a prefix, in order |
| Terminal.SameCommandRegardlessOfPaddingAndCase | components/Terminal.tsx:37-40 | surrounding white space and letter case do not change the lookup key |
| Terminal.PaddedCommandRunsTheSame | components/Terminal.tsx:37-41 | a padded, differently cased command has exactly the command's effect |
| Terminal.ZenithCommand | components/Terminal.tsx:28-31 | `zenith 1` appends its three lines, clears the input and triggers |
| Terminal.ZeroGravityEffect | components/Terminal.tsx:15-19 | zero-gravity turning on appends the three warning lines; turning off adds nothing |
| Terminal.SubmitAsWritten | components/Terminal.tsx:34-46 | as written: locked in zero-gravity; throws exactly when the input normalises to `__proto__`; whenever it returns unlocked, the input is cleared |
| Terminal.RespondAsWritten | components/Terminal.tsx:40-45 | as written for the normalised key: throws exactly for `__proto__`, prints nothing for `constructor`, and clears the input whenever it returns |
| Terminal.LookupAsWritten | components/Terminal.tsx:40 | the table is searched as a JavaScript object |
| Terminal.RespondAgreesElsewhere | components/Terminal.tsx:40-45 | the lookup as written and the own-key lookup answer alike for every key except `constructor` and `__proto__` |
| Terminal.AsWrittenAgreesElsewhere | components/Terminal.tsx:34-46 | the handler as written and the intended handler agree on every input except `constructor` and `__proto__` |
| Terminal.ConstructorIsSwallowed | components/Terminal.tsx:40-41 | as written, `constructor` clears the input and prints nothing; intended: the two error lines |
| Terminal.ProtoThrows | components/Terminal.tsx:40-41 | as written, `__proto__` throws before the input is cleared; intended: the two error lines |
| Terminal.TerminalFooter.constructor | components/Terminal.tsx:6-12 | empty input and the four greeting lines |
| Terminal.TerminalFooter.Type | components/Terminal.tsx:125 | the input becomes the typed text; the history stays |
| Terminal.TerminalFooter.Submit | components/Terminal.tsx:34-46 | history, input and trigger become those of `SubmitStep` |
| Terminal.TerminalFooter.ZeroGravityChanged | components/Terminal.tsx:15-19 | the history becomes `ZeroGravityEffect` of the old one |
| Carousel.JsRem | components/ProjectCarousel.tsx:47-49 | JavaScript `%`: within `[0, n)` for a non-negative dividend and within `(-n, 0]` for a negative one; on `[0, n)` it is the dividend itself, on `[n, 2n)` the dividend minus `n` |
| Carousel.Next | components/ProjectCarousel.tsx:47 | the next index is in range and wraps from the last card to 0 |
| Carousel.Prev | components/ProjectCarousel.tsx:49 | the previous index is in range and wraps from 0 to the last card |
| Carousel.NextPrevInverse | components/ProjectCarousel.tsx:47-49 | next and previous undo each other |
| Carousel.DragTarget | components/ProjectCarousel.tsx:45-50 | offset `<= -100` moves to the next card, `>= 100` to the previous, anything between leaves the index; the result is always in range |
| Carousel.RoleOf | components/ProjectCarousel.tsx:62-64 | active is `i == index`; next and prev are the cards one step forward and back |
| Carousel.Rendered | components/ProjectCarousel.tsx:66 | the active card is always drawn, and only cards of the carousel are |
| Carousel.RenderedIff | components/ProjectCarousel.tsx:62-66 | a card is rendered iff it is the active, next or previous one |
| Carousel.RolesDistinct | components/ProjectCarousel.tsx:62-64 | with three or more cards, the active, next and previous cards are three different cards |
| Carousel.ThreeCardsAllRendered | components/ProjectCarousel.tsx:5-66 | with the three projects, every card is rendered, each in its own role |
| Carousel.ProjectCarousel.constructor | components/ProjectCarousel.tsx:27-28 | index 0, drag offset 0 |
| Carousel.ProjectCarousel.Drag | components/ProjectCarousel.tsx:28-74 | the drag gesture sets the offset and leaves the index |
| Carousel.ProjectCarousel.DragEnd | components/ProjectCarousel.tsx:30-52 | in zero-gravity, index and offset are untouched and a portal drop hands out the card; otherwise the index becomes `DragTarget` of the offset, the offset becomes 0 and nothing is dropped; the index stays in range |
| Cursor.Pushed | components/CustomCursor.tsx:31-35 | the new point is last; a shorter trail loses nothing; a full trail of 12 loses exactly its oldest point; the length never exceeds 12 |
| Cursor.PushedKeepsIdsIncreasing | components/CustomCursor.tsx:9-32 | appending with the counter value keeps ids strictly increasing, hence unique |
| Cursor.MovesKeepMostRecent | components/CustomCursor.tsx:24-37 | over any run of moves, the trail is the last twelve points of everything appended, oldest first, and the counter has grown once per move |
| Cursor.TrailIsMostRecentPoints | components/CustomCursor.tsx:24-37 | from the empty trail, the trail is exactly the most recent twelve appended points |
| Cursor.Closest | components/CustomCursor.tsx:44-46 | `closest` gives the first element on the target-to-root path that matches, or none when none does |
| Cursor.Hoverable | components/CustomCursor.tsx:41-47 | a target that is itself a button, a link or `.cursor-pointer` is hoverable, and so is one with a `.cursor-pointer` element on its path |
| Cursor.HoverableIff | components/CustomCursor.tsx:39-48 | hovered iff the target or an ancestor is a `button`, an `a` or has class `cursor-pointer` |
| Cursor.CustomCursor.constructor | components/CustomCursor.tsx:6-12 | coordinates −100, empty trail, counter 0, not hovered, not clicked |
| Cursor.CustomCursor.MouseMove | components/CustomCursor.tsx:24-37 | the coordinates always follow the pointer; with the trail active the trail becomes `Pushed` of the old one with the next id; with it inactive, trail and counter are unchanged; the trail invariant holds |
| Cursor.CustomCursor.MouseOver | components/CustomCursor.tsx:39-48 | `hovered` becomes `Hoverable` of the path |
| Cursor.CustomCursor.MouseDown | components/CustomCursor.tsx:50 | `clicked` becomes true |
| Cursor.CustomCursor.MouseUp | components/CustomCursor.tsx:51 | `clicked` becomes false |
| Site.Page.constructor | App.tsx:12-19 | the root starts in its initial state (level 0, normal mode, nothing pending, the page's classes and accents), the terminal with its greeting and empty input, the carousel at card 0 with drag offset 0, and the cursor at (−100, −100) with an empty trail, counter 0, and neither hovered nor clicked; all invariants hold |
| Site.Page.SyncTerminal | components/Terminal.tsx:15-19 | the terminal's effect runs when the root's `isZeroGravity` changed, and only then |
| Site.Page.KeyDown | App.tsx:118 | key presses drive `KeyStep`; the terminal is untouched |
| Site.Page.FireTimer | components/Terminal.tsx:15-19 | exactly the flip that turns zero-gravity on makes the terminal append its three warnings; the terminal's input stays |
| Site.Page.SubmitTerminal | App.tsx:186 | the terminal's submit, with activation run once exactly when it triggered |
| Site.Page.TypeInTerminal | components/Terminal.tsx:125-128 | outside zero-gravity, where the input is enabled, only the terminal's input changes |
| Site.Page.DragCarousel | components/ProjectCarousel.tsx:70-74 | only the carousel's drag offset changes |
| Site.Page.DragCarouselEnd | App.tsx:179 | a portal drop in zero-gravity sets the dropped card as the active project; otherwise only the carousel moves; the drag offset springs back to 0 after a drag end in normal mode and is left alone in zero-gravity |
| Site.Page.CloseProject | App.tsx:161 | the close button clears the active project |
| Site.Page.MouseMove | App.tsx:125 | the cursor moves to the pointer; exactly when the root's trail flag is on, the point is pushed with the current id and the id counter grows by one; hover and click flags stay |
| Site.TypedZenithQueuesTwoFlips | App.tsx:108-118 | typing `zenith 1` into the terminal also drives the window's key handler, which skips the space and activates at the `1`; the terminal is still unlocked, so submitting triggers a second activation and two flips are queued |

## Findings

| source | as written | input that shows it | evidently intended | confidence | as-written member | corrected member |
|---|---|---|---|---|---|---|
| components/Terminal.tsx:40 | `commands[rawInput]` looks the key up in an object literal, so it also finds the members inherited from `Object.prototype` whose names are all lower case | submitting `constructor` calls `Object()`: nothing is printed and the input is cleared. Submitting `__proto__` calls a non-function and throws a TypeError, so the input is not cleared | an unknown name is echoed with the two error lines, as at line 43 | high for the JavaScript semantics; not executed | Terminal.SubmitAsWritten, with Terminal.ConstructorIsSwallowed and Terminal.ProtoThrows (on Terminal.LookupAsWritten) | Terminal.SubmitStep (own keys only), used by Terminal.TerminalFooter.Submit |

## Left out

- Terminal.TerminalFooter.Submit: for `constructor` and `__proto__` it follows the intended own-key lookup, not the inherited one (see Findings). The as-written behaviour is `Terminal.SubmitAsWritten`.
- Terminal.SubmitStep: it uses the own-key lookup. For inputs that normalise to `constructor` or `__proto__` it differs from components/Terminal.tsx:40 (see Findings and `Terminal.SubmitAsWritten`).
- Terminal.Respond: the own-key lookup, which differs from components/Terminal.tsx:40 for the keys `constructor` and `__proto__` (see `Terminal.RespondAsWritten`).
- Timer delays: the delays (500, 800, 800 and 1500 ms) are only documented on `App.Timer`. There is no clock, so `FireTimer` may fire any pending callback first. The model admits every real firing order and some orders that cannot happen, such as a 1500 ms timer before a 500 ms one scheduled together.
- Letter case outside ASCII: `Text.Upper` and `Text.Lower` only map ASCII letters. JavaScript's full Unicode mapping is not modelled. For example, `'ß'.toUpperCase()` is `"SS"` (an ignored key there), `'ı'` upper-cases to `I`, and the Kelvin sign lower-cases to `k`.
- `playBassSound` (Web Audio): the `N` effect is modelled only as a count of tones started (`bassCues`). A failure to play is swallowed in the code, so it affects no state.
- The FPS counter, Lenis smooth scrolling, all JSX rendering, the overlay's clock, and the terminal's scroll-to-bottom effect are left out. They are animation and display only.
- `components/Scene.tsx`, `components/BentoGrid.tsx`, `components/Hero.tsx` and `components/Navbar.tsx` are not part of this model. They are shaders, float spring physics and UI wiring.
- The portal hit check in zero-gravity (`Math.sqrt` on float pointer coordinates) is the boolean `inPortal`.
- The drag offset is a `real`. The framer-motion drag gesture that moves it is `Carousel.ProjectCarousel.Drag`. The cursor coordinates are integers.
- React batching and re-binding: each event sees the state left by the previous one. This is what re-binding the handler on every `level` and `isZeroGravity` change gives. Within one handler the last assignment wins.
- The initial body classes and CSS accents come from the page's HTML and stylesheet, which are not part of this model. They are constructor parameters.
- For the hover classification, the DOM is reduced to the path of elements from the event target to the root, each with a tag name and a class set. Type selectors ignore ASCII case, as for HTML elements. Other elements, such as SVG, are not distinguished.
