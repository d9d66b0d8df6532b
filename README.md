# Portfolio page interactivity, modelled in Dafny

The portfolio page's script (`js/main.js`) is mostly glue between the DOM and
a 3D rendering library. This project models the parts of it that keep state
and change it step by step:

- **The typing effect** of the subtitle. A chain of timer callbacks types
  each phrase of `TYPING_PHRASES` one character per tick, waits, erases it
  one character per tick, and moves a circular phrase cursor on. Module
  `TextCycle` (`text_cycle.dfy`) states it as a transition system. A state
  holds the cursor `currentPhraseIndex`, the subtitle's text, and the one
  callback that is pending together with the variables its closure captured
  (`type` with its counter, the post-typing callback, `erase` with its
  snapshot and counter). `Next` is one timer firing. It includes everything
  that callback calls synchronously, just as the script does: the tick that
  finishes an erase also advances the cursor and types the next phrase's
  first character. Module `TypingEffect` (`typing_effect.dfy`) is the same
  machine as an object. Class `Subtitle` has the script's mutable variables
  as fields and its functions as methods. Its `Step` is proved to perform
  exactly `TextCycle.Next`, so every lemma about the transition system
  holds of the object. The functions `TypeTick`, `TypeWriter`, `EraseTick`,
  `EraseText` and `NextPhrase` of `TextCycle` are the value-level
  definitions of `type`, `typeWriter`, `erase`, `eraseText` and the advance
  callback. The `Subtitle` methods of the same names are proved equal to
  them, so their rows below stand for both.
- **The drag-to-rotate control** of the 3D scene (`orbit_controls.dfy`).
  Class `DragControls` holds the handlers' shared closure state: the
  dragging flag, the last pointer position, the two target rotations and
  the container's cursor style. It has one method per mouse and touch
  handler.
- **The two toggles** (`toggles.dfy`): the hamburger menu with its
  `aria-expanded` attribute, and the light/dark theme with its preference
  in `localStorage`, modelled as a `map<string, string>`.

Properties proved:
- Outside the start-up wait, the subtitle always shows a prefix of the
  current phrase.
- The cursor is always a valid index.
- Every state reached by any number of ticks satisfies the invariant.
- The states of one cycle follow a closed form: typing, then the pause,
  then erasing, each in order. The cycle of a phrase of length n takes
  2n + 1 ticks and 150·n + 2000 ms, and ends by starting phrase
  (k + 1) mod N.
- The yaw of a drag is the grab-time yaw plus 0.01 per pixel of net
  horizontal travel.
- The pitch never leaves [-0.5, 0.5].
- Moves outside a drag change nothing.
- After a theme click the stored theme names the mode shown, and a reload
  of markup without the `light-mode` class restores that mode.

Three details of the script differ from a plain reading of the animation.
The model follows the script:
- There is no pause after erasing: the next phrase starts in the same
  tick, although there is a pause after typing.
- The first character of a phrase appears at once, when the cycle starts,
  not one typing interval later.
- After the last character one more `type` tick runs before the pause is
  scheduled. So the whole phrase is on screen after n − 1 ticks, and the
  pause callback is scheduled after n ticks, at n · `typingSpeed` ms
  (`PhraseShownAfterTyping`).

## Model

| member | source | states |
|---|---|---|
| `TextCycle.CycleTypingEffect` | js/main.js:109-111 | starting a cycle keeps the cursor and clears the text. For a non-empty phrase it shows the first character at once and leaves `type` pending with counter 1. For an empty phrase it schedules the pause at once. The result satisfies the invariant |
| `TextCycle.Next` | js/main.js:77-117 | every timer callback preserves the invariant: the cursor is a valid index, a captured phrase or snapshot is the current phrase, the counters are in range, and the text is the counter's prefix of the phrase |
| `TextCycle.Run` | js/main.js:109-116 | the invariant holds after any number of callbacks, so the cursor is always in [0, N) |
| `TextCycle.BufferIsPrefix` | js/main.js:78-100 | outside the start-up wait, the text shown is a prefix of the phrase under the cursor |
| `TextCycle.TypeStep` | js/main.js:80-89 | a `type` tick appends the phrase's next character; the pause is scheduled exactly when the counter equals the phrase length, with the whole phrase shown; the cursor is unchanged |
| `TextCycle.EraseStep` | js/main.js:97-101 | an `erase` tick with a non-zero counter removes exactly the last character, decrements the counter and leaves the cursor alone |
| `TextCycle.CursorAdvance` | js/main.js:102-114 | the cursor changes only in the tick whose erase finds the text empty, and then becomes (index + 1) mod N; otherwise it stays |
| `TextCycle.CycleTrace` | js/main.js:109-117 | j ticks into the cycle of phrase k of length n: j + 1 characters are typed while j < n, the whole phrase is shown and paused at j = n, and 2n − j characters are left while erasing |
| `TextCycle.CyclePhases` | js/main.js:109-116 | within one cycle the phases run strictly in the order typing, pause, erasing, with the cursor fixed |
| `TextCycle.FullCycle` | js/main.js:109-116 | after 2n + 1 ticks, taking 150·n + 2000 ms, the cycle of phrase k is over and phrase (k + 1) mod N has been started exactly as phrase k was |
| `TextCycle.CycleTiming` | js/main.js:77-107 | the elapsed time j ticks into a cycle: `typingSpeed` per typing tick, `typingDelay` for the pause, `typingSpeed / 2` per erasing tick |
| `TextCycle.PhraseShownAfterTyping` | js/main.js:81-88 | after n · `typingSpeed` ms the phrase is shown exactly and the pause is pending |
| `TextCycle.FirstTick` | js/main.js:120-121 | the first timer after page load takes the initial state (cursor 0, any markup text) to the start of phrase 0's cycle, so the per-cycle lemmas describe the page's own run |
| `TextCycle.LastPhraseWrapsAround` | js/main.js:11-15 | with the page's phrases, the 29-tick cycle of "Problem Solver" ends by starting "Full-Stack Web Developer" again |
| `TypingEffect.Subtitle.constructor` | js/main.js:75 | the cursor starts at 0 and the start-up timer is pending |
| `TypingEffect.Subtitle.Step` | js/main.js:77-117 | firing the pending timer changes the object exactly as `TextCycle.Next` says and keeps its invariant |
| `TypingEffect.Subtitle.CycleTypingEffect` | js/main.js:109-117 | starts typing the phrase under the cursor |
| `TypingEffect.Subtitle.TypeWriter` | js/main.js:77-92 | clears the text, then runs the first `type` tick |
| `TypingEffect.Subtitle.Type` | js/main.js:80-90 | appends the next character and reschedules, or schedules the pause |
| `TypingEffect.Subtitle.EraseText` | js/main.js:94-107 | snapshots the text, then runs the first `erase` tick with its length |
| `TypingEffect.Subtitle.Erase` | js/main.js:97-105 | shows one character fewer of the snapshot and reschedules, or runs the advance callback |
| `TypingEffect.Subtitle.NextPhrase` | js/main.js:112-115 | advances the cursor modulo the number of phrases and starts the next cycle |
| `OrbitControls.ClampPitch` | js/main.js:255 | the result lies in [-0.5, 0.5], equals the input inside that range, and is the nearer bound outside it |
| `OrbitControls.ClampPitchIsNearest` | js/main.js:255 | the clamped pitch is the point of [-0.5, 0.5] nearest to the unclamped value |
| `OrbitControls.ClampPitchIdempotent` | js/main.js:255 | clamping an already clamped pitch changes nothing |
| `OrbitControls.DragControls.constructor` | js/main.js:231-234 | no drag, pointer at (0, 0), both target rotations 0 |
| `OrbitControls.DragControls.HandleMouseDown` | js/main.js:236-240 | a drag begins, the pointer is recorded, the cursor becomes "grabbing", and the rotations are unchanged; the grab point and the yaw at the grab are recorded for the net-travel invariant |
| `OrbitControls.DragControls.HandleMouseUp` | js/main.js:241-244 | the drag ends wherever the pointer is, the cursor becomes "grab", and nothing else changes |
| `OrbitControls.DragControls.HandleMouseMove` | js/main.js:245-258 | outside a drag the state is unchanged; in a drag the yaw grows by dx·0.01, the pitch grows by dy·0.01 and is clamped, and the pointer is recorded; the pitch stays in bounds and the yaw equals its grab-time value plus 0.01 per pixel of net travel |
| `OrbitControls.DragControls.HandleTouchStart` | js/main.js:264-270 | a drag begins at the first touch point; the rotations and cursor are unchanged; the grab point and the yaw at the grab are recorded |
| `OrbitControls.DragControls.HandleTouchEnd` | js/main.js:271-273 | the drag ends and nothing else changes |
| `OrbitControls.DragControls.HandleTouchMove` | js/main.js:274-285 | outside a drag the state is unchanged; in a drag only the yaw follows dx·0.01, the pitch is left exactly as it was, and the pointer is recorded |
| `OrbitControls.MouseDragHitsPitchLimit` | js/main.js:245-258 | a mouse drag by (50, 100) turns the yaw by 0.5 and drives the pitch to the 0.5 limit |
| `OrbitControls.TouchDragLeavesPitch` | js/main.js:274-285 | the same drag by touch turns the yaw by 0.5 and leaves the pitch at 0 |
| `OrbitControls.DragThereAndBack` | js/main.js:236-285 | a drag that returns to its start leaves the yaw where it was; after the release, moves have no effect |
| `Toggles.AttributeText` | js/main.js:38 | a boolean is written as "true" exactly when it is true, and as "false" otherwise |
| `Toggles.ToggledExpanded` | js/main.js:37-38 | a hamburger click writes "true" exactly when the attribute did not read "true", and "false" otherwise |
| `Toggles.ToggledTwice` | js/main.js:35-39 | two clicks restore "true" or "false", and turn any other text into "false" |
| `Toggles.Navbar.HamburgerClick` | js/main.js:35-39 | flips the menu's "active" class and the attribute; a menu and attribute that agreed still agree |
| `Toggles.Navbar.NavLinkClick` | js/main.js:44-47 | closes the menu and sets the attribute to "false", so the two agree |
| `Toggles.StoredTheme` | js/main.js:66-70 | the stored value is "light" exactly in light mode, and "dark" otherwise |
| `Toggles.Theme.constructor` | js/main.js:55-59 | on load, light mode is on when the markup has it or the stored preference is "light" |
| `Toggles.Theme.ToggleClick` | js/main.js:62-71 | flips the mode, stores "light" exactly when light mode is on, keeps every other stored entry, and leaves the preference naming the mode shown |
| `Toggles.ReloadRestoresTheme` | js/main.js:55-70 | for markup without the `light-mode` class, the value a click stores brings the next page load back into the same mode |
| `Toggles.ClickThenReload` | js/main.js:55-71 | the click chooses the opposite of the mode at load. A reload of the same markup shows the chosen mode, except that markup carrying `light-mode` always comes back light, because the script only ever adds that class |

## Left out

- The THREE.js scene (js/main.js:212-228, 287-539) is left out: the scene, camera, renderer, materials, meshes and lights. It is configuration passed to a library this model cannot see.
- The render loop (js/main.js:542-555) is left out: the yaw damping, the cooler's spin, `requestAnimationFrame` and `renderer.render`. These are per-frame floating-point updates and foreign calls.
- The resize handler (js/main.js:558-563) is left out. It only reads DOM sizes and calls renderer methods.
- The error path for a missing THREE.js or container (js/main.js:202-210) is left out. It only writes to the DOM.
- The loader fade (js/main.js:24-31) is left out. It only sets two styles on timers.
- The static code snippet and the editor title (js/main.js:123-176) are left out. They render fixed data into the DOM.
- The scroll reveal (js/main.js:179-197) is left out. It is an IntersectionObserver callback over fixed elements.
- Time is not modelled as a clock. A tick is one timer callback firing, and `Delay` records only the wait the script configures for it. Clock drift and callbacks arriving late are not modelled.
- Calling `cycleTypingEffect` twice, which would start two timer chains, is not modelled. The model's state holds exactly one pending callback, matching the script's single start at js/main.js:120-121.
- A missing subtitle element (`if (subtitleElement)`, js/main.js:121) is not modelled. The model assumes the element exists.
- `TypingEffect.Subtitle.constructor` requires a non-empty phrase list. The script indexes `TYPING_PHRASES[0]` and takes the remainder modulo its length, and its list has three entries.
- Strings are sequences of characters. JavaScript strings are UTF-16 code units, so `charAt` can split a surrogate pair; the phrases are ASCII.
- Pointer coordinates and rotations are real numbers. Floating-point rounding of `delta * 0.01` is not modelled. The net-travel identity for the yaw holds exactly only over the reals. The clamp and the no-op rules do not depend on rounding.
- The touch handlers read `e.touches[0]`. The model passes that first touch point and does not model an event with an empty touch list.
- The mouse/touch asymmetry is kept as the script has it. A touch move never changes the pitch, and the render loop does not apply the pitch.
- An absent hamburger button (`if (hamburger)`, js/main.js:34) is not modelled. A missing `aria-expanded` attribute is modelled as the empty string. `getAttribute` returns null for it, which the script treats like any other text other than "true".
- Failures of `localStorage`, such as exceptions or storage that is not available, are not modelled.
