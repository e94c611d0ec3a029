# quill-resize-image: the `ResizePlugin` core

This project models `ResizePlugin`, the class in `src/ResizePlugin.ts` that attaches a
resize overlay to an image (or video) inside a Quill editor, and proves properties of it.
The overlay has a drag handle and a toolbar. The model covers:

- **Attachment.** The target's origin size is recorded once, on first attachment. The
  `#editor-resizer` overlay already in the container is reused, otherwise a new one is made.
- **Positioning.** The overlay is placed over the target, relative to the editor
  (`Geometry`, `Plugin.ResizePlugin.PositionResizerToTarget`).
- **The drag state machine.**
  - A primary-button press on the handle opens a session.
  - A pointer move computes a candidate size: the start size plus the pointer travel. While
    Alt is held, the height is re-derived from the origin aspect ratio.
  - The candidate is clamped axis by axis. An absent minimum means 30; a maximum applies
    only when configured.
  - The width is always written. The height is written unless `keepAspectRatio` is set.
  - Every mouse-up closes the session and notifies once.
  - See `Drag`, `Clamp` and `Plugin.ResizePlugin`.
- **The toolbar.**
  - A click on a `btn` that has a `data-type` commits its `data-styles`.
  - A change of the percentage field commits `width: N%;` when the field's text converts to
    a non-zero number.
  - A commit strips every space from the target's `cssText`. It then removes the first
    occurrence of the group's previously remembered fragment, and appends `;` and the new
    fragment. The previous fragment is the text `undefined` when the group was never set.
  - See `StyleText`, `StyleCommit`, `NumberText` and `Toolbar`.

The browser's part is passed in as parameters:

- a `Layout` holds the bounding rectangles and the client size read at the moment of
  positioning;
- the pointer coordinates, button and Alt state of each event are plain arguments;
- the event target is reduced to its classes and `data-*` values.

The `onChange` callback is a ghost counter, `notifications`, on the plugin. Geometry uses
`real`, since the source computes in JavaScript numbers, so no rounding is modelled.
`Number(...)` and `${n}` are modelled on optionally signed decimal integers, read and written
as exact integers (`NumberText`); the limits of that are listed under "Left out".

Module layout, one concept per file:

| file | module | contents |
|---|---|---|
| `wrappers.dfy` | `Wrappers` | `Option` |
| `geometry.dfy` | `Geometry` | sizes, rectangles, overlay placement |
| `clamp.dfy` | `Clamp` | resize constraints and per-axis clamping |
| `drag.dfy` | `Drag` | drag session, candidate size, dragged size |
| `style_text.dfy` | `StyleText` | `replaceAll(" ", "")` and first-occurrence `replace(p, "")` |
| `number_text.dfy` | `NumberText` | `Number(text)` on decimal integers and number-to-text |
| `style_commit.dfy` | `StyleCommit` | the `cssText` rewrite of one commit and `_styles_<type>` |
| `toolbar.dfy` | `Toolbar` | which clicks and input changes commit, and what commits compose to |
| `resize_plugin.dfy` | `Plugin` | the `ResizePlugin` class, its target and its overlay |

## Model

| member | source | states |
|---|---|---|
| Plugin.Target.constructor | src/ResizePlugin.ts:15-18 | A target that was never attached has no origin size and no remembered toolbar fragments. |
| Plugin.ResizePlugin.constructor | src/ResizePlugin.ts:57-85 | After attachment the target has an origin size. It is the client size when none was recorded and is kept unchanged otherwise, so re-attaching never overwrites it. The existing overlay is reused, else a fresh one is made. The overlay is placed over the target. No session is open and nothing has been notified. |
| Plugin.ResizePlugin.InitResizer | src/ResizePlugin.ts:87-105 | The overlay found in the container is the one used; only when none is found is a new overlay created. |
| Plugin.ResizePlugin.PositionResizerToTarget | src/ResizePlugin.ts:106-122 | The overlay ends up exactly at the target's projection relative to the editor. With no overlay, nothing changes. Only the overlay may change. |
| Geometry.Project | src/ResizePlugin.ts:110-121 | The overlay's offset added to the editor's corner gives the target's corner, and the overlay has the target's client size. |
| Geometry.ProjectIgnoresCommonScroll | src/ResizePlugin.ts:109-115 | Moving target and editor together by the same amount (a shift of the whole page) leaves the overlay's placement unchanged: only their relative offset matters. |
| Geometry.ProjectFollowsTarget | src/ResizePlugin.ts:131-135 | When the editor's own content scrolls, the target moves inside an editor that stays put. Re-running positioning from the scroll handler moves the overlay by exactly the target's displacement and keeps its size. |
| Geometry.ProjectDeterminedByOffsetAndSize | src/ResizePlugin.ts:110-121 | Two layouts give the same overlay box if and only if they agree on the target's offset from the editor and on its client size. |
| Plugin.ResizePlugin.NotifyChange | src/ResizePlugin.ts:146 | `onChange` is called exactly once when it was given and not at all otherwise; nothing else changes. |
| Plugin.ResizePlugin.SetStylesForToolbar | src/ResizePlugin.ts:136-147 | The new `cssText` is the commit of the old text against the group's remembered fragment. The group now remembers the new fragment and every other group is unchanged. The overlay is repositioned and `onChange` is called once when given. |
| Plugin.ResizePlugin.ToolbarInputChange | src/ResizePlugin.ts:148-155 | When the field does not yield a command, nothing changes: no style, no memo, no notification, no overlay move. Otherwise exactly the commit of `InputCommand` is performed. |
| Plugin.ResizePlugin.ToolbarClick | src/ResizePlugin.ts:156-163 | When the click does not yield a command, nothing changes. Otherwise exactly the commit of `ClickCommand` is performed. |
| Toolbar.ClickCommand | src/ResizePlugin.ts:156-163 | A command arises if and only if the element has a non-empty `data-type` and the `btn` class. Its group is that `data-type`. Its fragment is defined if and only if `data-styles` is present, and is then that text. |
| Toolbar.InputCommand | src/ResizePlugin.ts:148-155 | A command arises if and only if `data-type` is non-empty and the text is a signed decimal integer with a non-zero digit. The fragment is `width: ` + N + `%;`. N converts back to the same number as the field's text and is in canonical spelling (no `+`, no leading zero, `-` only before a non-zero number). So the field's text is normalised, not copied. |
| Toolbar.WidthPercent | src/ResizePlugin.ts:153 | The fragment is `width: `, then the number's text, then `%;`. The text between is in canonical spelling and reads back as the same number. |
| NumberText.ToNumber | src/ResizePlugin.ts:152-153 | Conversion succeeds exactly on the empty text and on optionally signed digit strings; everything else is NaN. |
| NumberText.NumberTruthy | src/ResizePlugin.ts:152 | The converted number is truthy (non-zero and not NaN) if and only if the text is a decimal literal with some digit from 1 to 9. |
| NumberText.DigitsValueZero | src/ResizePlugin.ts:152 | A digit string has value zero if and only if every digit is `0`. |
| NumberText.NatToDecimal | src/ResizePlugin.ts:153 | A non-negative number is written as a non-empty digit string with no leading zero. |
| NumberText.IntToDecimal | src/ResizePlugin.ts:153 | Every integer is written as a decimal literal that `Number` accepts, in canonical spelling: no `+`, no leading zero, no `-0`. The text starts with `-` if and only if the number is negative. |
| NumberText.UnpaddedDigitsAreWritten | src/ResizePlugin.ts:153 | A digit string without a leading zero is exactly what `${n}` writes for its value. |
| NumberText.NegatedDigitsRead | src/ResizePlugin.ts:152 | `-` followed by digits reads as the negated value of the digits. |
| NumberText.CanonicalIsWritten | src/ResizePlugin.ts:152-153 | Every canonically spelled literal is exactly what `${n}` writes for the number it denotes. |
| NumberText.CanonicalUnique | src/ResizePlugin.ts:152-153 | Two canonical literals that denote the same number are the same text, so the spelling `${n}` writes is unique. |
| NumberText.NatDecimalRoundTrip | src/ResizePlugin.ts:153 | The digits written for a non-negative number read back as that number. |
| NumberText.NegativeDecimalRoundTrip | src/ResizePlugin.ts:153 | A negative number's text reads back as that number. |
| NumberText.DecimalRoundTrip | src/ResizePlugin.ts:152-153 | Writing any integer and converting the text gives the integer back. |
| NumberText.DecimalLiteralHasNoSpace | src/ResizePlugin.ts:153 | A number's text holds no space. |
| StyleText.StripSpaces | src/ResizePlugin.ts:141 | The result holds no space, and equals the input if and only if the input held none. |
| StyleText.StripSpacesKeepsOtherCharacters | src/ResizePlugin.ts:141 | Stripping removes every space and keeps every other character with its multiplicity. |
| StyleText.StripSpacesConcat | src/ResizePlugin.ts:141 | Stripping a concatenation strips each part. |
| StyleText.StripAfterSpaceFree | src/ResizePlugin.ts:141 | A space-free prefix survives stripping unchanged. |
| StyleText.StripOneSpace | src/ResizePlugin.ts:141 | Two space-free parts joined by one space strip to their concatenation. |
| StyleText.FirstOccurrenceFrom | src/ResizePlugin.ts:141 | The position found is an occurrence with no earlier one from the starting point; when none is found, none exists. |
| StyleText.FirstOccurrence | src/ResizePlugin.ts:141 | The position found is the first occurrence of the pattern; when none is found, the pattern does not occur. |
| StyleText.RemoveFirst | src/ResizePlugin.ts:141 | The text is unchanged or exactly one pattern's length shorter. |
| StyleText.RemoveFirstKeepsOnlyOld | src/ResizePlugin.ts:141 | Removal introduces no character. |
| StyleText.RemoveFirstSpaceFree | src/ResizePlugin.ts:141 | Removal from a space-free text leaves it space-free. |
| StyleText.RemoveFirstWithoutMatch | src/ResizePlugin.ts:141 | Without an occurrence, nothing is removed. |
| StyleText.RemoveFirstCutsFirst | src/ResizePlugin.ts:141 | With a first occurrence at `i`, exactly that occurrence is cut out and the rest kept in order. |
| StyleText.RemoveEmptyIsIdentity | src/ResizePlugin.ts:141 | Removing the empty pattern changes nothing. |
| StyleText.SpacedOccurrence | src/ResizePlugin.ts:141 | A pattern containing a space can only occur in a text containing a space. |
| StyleText.SpacedPatternRemovesNothing | src/ResizePlugin.ts:141 | A pattern with a space is never removed from a space-free text. |
| StyleCommit.Remembered | src/ResizePlugin.ts:137-139 | The group's remembered `_styles_<type>` fragment; a group never set yields `undefined`, whose text is `undefined`. |
| StyleCommit.CommitText | src/ResizePlugin.ts:140-142 | The new `cssText` of a commit always ends with `;` followed by the applied fragment. |
| StyleCommit.CommitShape | src/ResizePlugin.ts:140-142 | A commit's text is a space-free kept part, then `;` and the applied fragment. |
| StyleCommit.CommitKeepsOnlyOldCharacters | src/ResizePlugin.ts:140-142 | The kept part holds only characters the old text held. |
| StyleCommit.CommitEndsWithFragment | src/ResizePlugin.ts:140-142 | A commit's text ends with the applied fragment. |
| Toolbar.CommitWithoutMatchAppends | src/ResizePlugin.ts:139-142 | When the previous fragment does not occur in the stripped text, the commit only strips and appends. |
| Toolbar.FreshGroupSearchesUndefined | src/ResizePlugin.ts:137-142 | A group that was never set searches the text `undefined`. |
| Toolbar.CommitCutsFirstMatch | src/ResizePlugin.ts:139-142 | When the previous fragment first occurs at `i`, the commit cuts exactly that occurrence and appends the new fragment. |
| Toolbar.ConsecutiveCommitsReplace | src/ResizePlugin.ts:136-147 | Two commits in a row to one group replace its fragment: the second cuts the fragment the first appended and appends its own. This holds provided the fragment is space-free and does not already stand earlier in the text; otherwise `replace` cuts the earlier copy (or, with a space, nothing). |
| Toolbar.OtherGroupCommitAppends | src/ResizePlugin.ts:136-143 | A commit whose group fragment does not occur in a space-free style text keeps the whole text and appends: what other groups committed stays. |
| Toolbar.InterleavedCommitsReplace | src/ResizePlugin.ts:136-143 | Take space-free fragments for both groups (so not the percentage field's `width: N%;`). A commit to group A, then one to group B whose remembered fragment does not occur, leaves both fragments in the text. A's next commit then cuts A's fragment, keeps B's, and appends its own, provided A's fragment does not stand earlier in the text. |
| Toolbar.AppendedFragmentCut | src/ResizePlugin.ts:139-142 | Suppose the text is space-free, the fragment ends it just before a later `;other`, and the fragment stands nowhere earlier. Then its group's next commit cuts it from there and keeps `;other`. |
| Toolbar.CommitSpaceFree | src/ResizePlugin.ts:140-142 | Committing a space-free fragment leaves a space-free `cssText`. |
| Toolbar.InputFragmentIsCanonical | src/ResizePlugin.ts:148-155 | When the field yields a command, its fragment is `width: ` + m + `%;` for the one canonical spelling m of the field's value, whatever spelling the field had. |
| Toolbar.LeadingZerosDropped | src/ResizePlugin.ts:152-153 | The field text `007` commits exactly `width: 7%;`, not `width: 007%;`. |
| Toolbar.PlusSignDropped | src/ResizePlugin.ts:152-153 | The field text `+5` commits exactly `width: 5%;`. |
| Toolbar.NegativePaddingDropped | src/ResizePlugin.ts:152-153 | The field text `-05` commits exactly `width: -5%;`. |
| Toolbar.WidthPercentHasSpace | src/ResizePlugin.ts:153 | The percentage fragment holds a space. |
| Toolbar.WidthPercentShape | src/ResizePlugin.ts:153 | `;width: N%;` is a space-free head, one space and a space-free tail. |
| Toolbar.StripWidthPercent | src/ResizePlugin.ts:141-153 | Stripping `;width: N%;` gives `;width:N%;`. |
| Toolbar.InputFragmentNeverRemoved | src/ResizePlugin.ts:141-153 | After a percentage commit, the group's next commit never removes that fragment: it is remembered with its space and searched in a stripped text. The next commit only strips and appends. |
| Toolbar.InputFragmentStaysStripped | src/ResizePlugin.ts:141-153 | After a percentage commit, its space-free form `;width:N%;` ends the stripped style text. |
| Plugin.ResizePlugin.StartResize | src/ResizePlugin.ts:164-174 | A primary-button (`which` 1) press on an element of class `handler` opens a session holding the pointer position and the target's client size. Any other press leaves the session as it was. |
| Plugin.ResizePlugin.EndResize | src/ResizePlugin.ts:175-178 | Every mouse-up, whatever was pressed, closes the session and calls `onChange` once when given. |
| Plugin.ResizePlugin.Resizing | src/ResizePlugin.ts:179-221 | Without a session nothing changes. With one, the width attribute becomes the dragged width. The height attribute becomes the dragged height unless `keepAspectRatio` is set, in which case it is unchanged. The overlay is repositioned, and there is no notification. |
| Plugin.DraggedSize | src/ResizePlugin.ts:181-215 | The step-by-step computation yields exactly the dragged size `DragSize`. |
| Drag.CandidateSize | src/ResizePlugin.ts:181-192 | The width grows by the horizontal pointer travel. Without Alt the height grows by the vertical travel; with Alt the height-to-width ratio is the origin's. |
| Drag.DragSize | src/ResizePlugin.ts:181-215 | The written size respects each configured maximum. Each axis reaches its minimum (30 when unset) whenever that minimum does not exceed the maximum. |
| Drag.AltIgnoresVerticalMotion | src/ResizePlugin.ts:188-192 | Under Alt the vertical pointer position has no effect. |
| Drag.AltKeepsOriginRatioWhenUnclamped | src/ResizePlugin.ts:188-215 | Under Alt, when no clamp bites, the written size has the origin's aspect ratio. |
| Drag.AltRatioLostWhenClamped | src/ResizePlugin.ts:188-209 | Clamping after the Alt re-derivation can break the ratio: origin 200x100 dragged to width 10 gives 30x30. |
| Drag.WidenByFifty | src/ResizePlugin.ts:181-215 | From 200x100, dragging 50 to the right without Alt or constraints gives 250x100. |
| Drag.NarrowBelowMinimum | src/ResizePlugin.ts:194-199 | A candidate width of 50 with minimum 100 is raised to 100. |
| Clamp.Floor | src/ResizePlugin.ts:194-195 | The minimum in force is the configured one, or 30 when none is configured. |
| Clamp.ClampAxis | src/ResizePlugin.ts:194-215 | A value below the minimum becomes the minimum (when the minimum does not exceed the maximum). A value above a configured maximum becomes that maximum. A value in range is kept. When the maximum is below the minimum, the maximum wins. The result is at most a configured maximum and at least the minimum when that minimum does not exceed the maximum. |
| Clamp.ClampSize | src/ResizePlugin.ts:194-215 | Each axis respects its own configured maximum, and its own minimum whenever that minimum does not exceed the maximum. |
| Clamp.UnconstrainedFloorIsThirty | src/ResizePlugin.ts:194-199 | Without constraints each axis is floored at exactly 30 and otherwise untouched. |
| Clamp.AxesIndependent | src/ResizePlugin.ts:197-215 | The clamped width does not depend on the candidate height, nor the clamped height on the candidate width. |
| Clamp.ClampAxisMonotone | src/ResizePlugin.ts:197-215 | Clamping preserves the order of candidates. |
| Clamp.ClampAxisIdempotent | src/ResizePlugin.ts:197-215 | Clamping a clamped value changes nothing, even when the minimum exceeds the maximum. |

## Left out

- `bindEvents` and `destory`: the listener wiring and removal are browser I/O. Each handler is modelled as the method the event would call. `onScroll` is exactly `PositionResizerToTarget`. A second `destory` throws in the browser, and this is not modelled.
- `initResizer`'s markup, locale labels and `format`: the toolbar's contents are presentation. The overlay is modelled by its placement only.
- `getBoundingClientRect`, `clientWidth` and `clientHeight` are inputs (`Layout`, `Size`), read at the moment of the call.
- The browser's own normalisation of `cssText` after assignment (property parsing, re-serialisation) is not modelled. The text is kept exactly as the plugin assigns it.
- The `px` suffix and the number-to-text formatting of the overlay styles and the `width`/`height` attributes are not modelled: the numbers are stored as reals.
- NumberText.ToNumber: `Number` is modelled on the empty text and optionally signed decimal integers only. Whitespace, fractions, exponents, `Infinity` and hex literals are treated as NaN, though JavaScript converts them. The field has `maxlength="3"`, which keeps such inputs rare but possible.
- NumberText.ToNumber: digit strings are read as exact integers. JavaScript reads them as double-precision numbers, so beyond 2^53 the value is rounded (`9007199254740993` reads as `9007199254740992`). The field's `maxlength="3"` keeps such texts out of reach in normal use.
- NumberText.IntToDecimal: writes every integer in plain digits. JavaScript writes numbers of 10^21 and more in exponent form (`1e+21`), and such numbers cannot arise from a three-character field.
- Toolbar.InputCommand: its round trip holds for exact integers only, for the two reasons above. Likewise the model issues no command for such inputs (e.g. `1.5`), where the source would commit `width: 1.5%;`.
- Drag.CandidateSize: under Alt the origin width must be non-zero. A zero width gives NaN or Infinity in JavaScript, and those are not modelled.
- Plugin.ResizePlugin.Resizing: requires a non-zero origin width while Alt is held during a session, for the same reason.
- The `!this.editor` check of positioning: the editor is always present in the model.
- `onChange`: options given without an `onChange` make the optional call throw a `TypeError` after the state has changed. The model records this as no notification and does not model the exception.
- A `maxWidth` or `maxHeight` of `null` compares as `0` in JavaScript. The model has only present or absent bounds.
- The LESS stylesheet import and the i18n module are not part of this model.
- The source's `endResize` runs on every mouse-up, whatever the button and whether or not a drag was in progress. The model follows the code, so it notifies on every mouse-up.
