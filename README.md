# cobra-keycaps key compositor, modelled in Dafny

`mkkb.py` draws the keycap legends of the Cobra keyboard. It reads a key
template: one key drawn with labelled rectangles and texts. For every
placeholder key of the keyboard's "Key Frames" layer that has a definition,
it copies the template elements the definition asks for. Each copy is
fitted to the placeholder's outline and appended to the "Cobra" layer. This
project models that core in five files:

- `wrappers.dfy`: the `Option` and `Result` datatypes.
- `path_bounds.dfy` (module `PathBounds`): `parse_dimensions_from_path`
  and its inner class `MinMaxCursor`.
  - The interpreter walks the path's `d` tokens (m, M, c, C, h, v, H, V, z)
    with a pen and a min/max box. It pads the box by the stroke width.
  - The class `MinMaxCursor` keeps the source's six mutable fields.
  - The method `MeasurePath` walks the tokens by index, with one-token
    lookahead in place of `peek`. It is proved equal to the pure
    specification `Measure`, built from `Step`, `Run` and `Walk`.
  - Every exception the token interpreter can raise is an error value:
    an unknown command, the end of the stream, an operand `int()`
    rejects, a coordinate tuple of the wrong size, and drawing before any
    move. The exceptions of reading the path element are not modelled
    (see "## Left out").
- `placement.dfy` (module `Placement`): the placement arithmetic over exact
  reals.
  - `parse_svg_matrix`, the inverse of an affine matrix, and
    `transform_x`/`transform_y`.
  - The repositioning rule of `transform_x_y`.
  - The size, stretch and centring formulas of `add_rect` and `add_text`,
    on records in place of XML elements.
- `key_definitions.dfy` (module `KeyDefinitions`): the definition builders.
  These are `make_special`, the two arrow builders, `make_number`,
  `make_letter_symbol`, `make_letter_word`, `make_space` and `alt_color`.
  Each returns a record holding a text map and an optional rectangle list.
- `compositor.dfy` (module `Compositor`): the compositing loop at the end of
  `main`.
  - It covers the label selection (template order, stretch only for the
    background, centring by label), the legend substitution of
    `replace_text`/`replace_fill`, and the placement of each selected
    element.
  - The Cobra layer is a class `Layer` whose `groups` sequence the methods
    `PlaceKey`, `PlaceRects`, `PlaceTexts` and `Composite` append to.
  - Each of these methods is proved against a pure function of its inputs.

Padding follows the code: the origin moves out by half the stroke width,
and the size grows by a whole stroke width, so the margin is the same on
every side (mkkb.py:138-139).

The '1' key's mask is `'[a cd'` (mkkb.py:457). Position 1 holds 'a' and
position 2 the space, so `make_number` lists `grid a` and not `grid b`
(mkkb.py:324-327).

## Model

| member | source | states |
|---|---|---|
| PathBounds.Box.Widen | mkkb.py:39-42 | The widened box contains the new point and encloses the old box. It is the smallest box that does both, and it stays ordered. |
| PathBounds.Box.WidenX | mkkb.py:56-57 | Only the horizontal bounds move, to the min and max of the old bounds and the abscissa; the vertical bounds stay. It is the smallest box that encloses the old one and takes in the abscissa, and it stays ordered. |
| PathBounds.Box.WidenY | mkkb.py:61-62 | Only the vertical bounds move, to the min and max of the old bounds and the ordinate; the horizontal bounds stay. It is the smallest box that encloses the old one and takes in the ordinate, and it stays ordered. |
| PathBounds.CursorState.Add | mkkb.py:35-44 | `add` moves the pen by (dx, dy). A drawing move makes the box exactly the old box widened to the new pen position; a non-drawing move leaves the box unchanged. |
| PathBounds.CursorState.Set | mkkb.py:46-53 | `set` always makes the box exactly the old box widened to the point. The pen moves there only when drawing and otherwise stays. |
| PathBounds.CursorState.SetX | mkkb.py:55-58 | `set_x` moves the pen's abscissa to the value and keeps its ordinate. The box is the old box widened horizontally to the value, with the vertical bounds kept. |
| PathBounds.CursorState.SetY | mkkb.py:60-63 | `set_y` moves the pen's ordinate to the value and keeps its abscissa. The box is the old box widened vertically to the value, with the horizontal bounds kept. |
| PathBounds.RunStep | mkkb.py:114-129 | One integer of a run, by kind: h adds it to the pen's x and v to its y, both widening the box to the new pen; H sets x and V sets y, widening the box on that axis only. The other coordinate stays, and the box never shrinks. |
| PathBounds.Operand | mkkb.py:91 | Reading an operand succeeds exactly when the next token exists and is all integers; the result is those integers. |
| PathBounds.Run | mkkb.py:115-129 | A run stops at a token that is not a single integer (with `RunConsumesIntegers`: the first such token). It never stops at the end of the stream. A run with no cursor stays without one. |
| PathBounds.Step | mkkb.py:86-133 | One command always consumes at least its own token. |
| PathBounds.Walk | mkkb.py:84-133 | The `while True` loop over the commands: once a cursor exists, a walk that succeeds still ends with one. |
| PathBounds.Measure | mkkb.py:81-140 | `parse_dimensions_from_path` fails exactly when the walk fails or never makes a cursor. A measured outline is at least one stroke width wide and high. |
| PathBounds.Pad | mkkb.py:134-140 | Origin is min - sw/2. Size is the extent plus sw. The far edge is max + sw/2. |
| PathBounds.Start | mkkb.py:27-33 | A new cursor's pen is the point and its box is ordered and contains the point. Every box containing the point encloses it, so it is the single point. |
| PathBounds.MinMaxCursor.constructor | mkkb.py:27-33 | A new cursor holds the pen and a box at the single given point. |
| PathBounds.MinMaxCursor.Add | mkkb.py:35-44 | The fields change exactly as `CursorState.Add` says. |
| PathBounds.MinMaxCursor.Set | mkkb.py:46-53 | The fields change exactly as `CursorState.Set` says. |
| PathBounds.MinMaxCursor.SetX | mkkb.py:55-58 | The fields change exactly as `CursorState.SetX` says. |
| PathBounds.MinMaxCursor.SetY | mkkb.py:60-63 | The fields change exactly as `CursorState.SetY` says. |
| PathBounds.MoveCommand | mkkb.py:90-101 | The m/M branch creates the cursor on the first move and otherwise moves it without drawing. Its outcome and any error are those `Step` gives. |
| PathBounds.CurveCommand | mkkb.py:102-113 | The c/C branch reads three operands and applies only the last. Its outcome and any error are those `Step` gives. |
| PathBounds.RunCommand | mkkb.py:114-129 | The h/v/H/V lookahead loop. Its outcome and any error are those `Step` gives. |
| PathBounds.MeasurePath | mkkb.py:81-140 | The imperative interpreter returns exactly the specified measurement or error. |
| PathBounds.FirstMoveStartsAtPoint | mkkb.py:92-93 | The first m or M creates the cursor with pen and box at the single point it names. |
| PathBounds.LaterRelativeMoveKeepsBox | mkkb.py:94-95 | A later `m` moves the pen and leaves the box as it was. |
| PathBounds.LaterAbsoluteMoveKeepsPen | mkkb.py:100-101 | A later `M` widens the box to the target and leaves the pen where it was. |
| PathBounds.CurveIgnoresControlPoints | mkkb.py:102-113 | Changing a curve's two control points does not change its outcome. |
| PathBounds.CurveFoldsEndpoint | mkkb.py:106-113 | A curve's endpoint is a drawing step, relative for `c` and absolute for `C`. The box then contains it. |
| PathBounds.CloseChangesNothing | mkkb.py:130-131 | `z` changes neither the pen nor the box. |
| PathBounds.UnknownTokenRaises | mkkb.py:132-133 | Any token other than the nine commands raises an error carrying that token. |
| PathBounds.DrawBeforeMoveFails | mkkb.py:84-121 | A curve, or a run with at least one integer, fails before any m or M because there is no cursor. |
| PathBounds.RunConsumesIntegers | mkkb.py:114-129 | A run consumes every immediately following single-integer token and stops at the first other token. The result folds each integer in as a drawing step. |
| PathBounds.RunReachingEndFails | mkkb.py:114-121 | A run whose integers reach the end of the stream raises, because the lookahead finds nothing. |
| PathBounds.RunGrowsBox | mkkb.py:114-129 | A run keeps the box ordered and never shrinks it. |
| PathBounds.StepGrowsBox | mkkb.py:86-133 | Once the cursor exists, every command keeps min <= max on both axes and never shrinks the box. |
| PathBounds.WalkGrowsBox | mkkb.py:84-133 | The final box encloses every earlier box and is ordered. |
| PathBounds.WalkFromNoCursorIsOrdered | mkkb.py:84-133 | Whatever cursor a complete walk ends with has an ordered box. |
| PathBounds.MeasureIsPaddedBox | mkkb.py:134-140 | A successful measurement is the final box padded by half the stroke width on every side. Its size is at least one stroke width. |
| PathBounds.NoMoveNoDimensions | mkkb.py:84-136 | A path with no m or M never gets a cursor, so it has nothing to measure. |
| PathBounds.LineOutlineExample | mkkb.py:81-140 | `m 2,3 h 4 z` with stroke width 2 measures ((1, 2), (6, 2)). |
| Placement.WithTranslation | mkkb.py:18-22 | Replacing the translation column keeps the matrix affine and keeps its determinant. |
| Placement.Inverse | mkkb.py:147-155 | The inverse of an affine matrix is affine. With `InverseIsInverse` it is the inverse that `numpy.linalg.inv` computes, exactly. |
| Placement.ParseSvgMatrix | mkkb.py:15-23 | Parsing succeeds exactly when there are at least six numbers. Element k lands in row k mod 2, column k div 2, and the last row is (0, 0, 1). |
| Placement.MatrixLayout | mkkb.py:18-22 | matrix(a,b,c,d,e,f) becomes the rows [[a,c,e],[b,d,f],[0,0,1]]. |
| Placement.InverseIsInverse | mkkb.py:147-155 | The exact inverse used in place of `numpy.linalg.inv` inverts on both sides. |
| Placement.RightInverse | mkkb.py:147-155 | m applied after the inverse is the identity. |
| Placement.LeftInverse | mkkb.py:147-155 | The inverse applied after m is the identity. |
| Placement.TransformFormulas | mkkb.py:147-155 | Characterises `TransformX` and `TransformY`: transform_x(m, v) = d*(v/S)/det and transform_y(m, v) = a*(v/S)/det, with S = 0.26458. |
| Placement.TransformIgnoresTranslation | mkkb.py:147-155 | The length transforms do not depend on the translation (e, f). |
| Placement.TransformIsLinear | mkkb.py:147-155 | Both length transforms are linear in the length: p*u + q*v maps to p times the image of u plus q times the image of v. |
| Placement.TransformXIsLinear | mkkb.py:152-155 | `transform_x` is linear in the length. |
| Placement.TransformYIsLinear | mkkb.py:147-150 | `transform_y` is linear in the length. |
| Placement.TransformOfIdentity | mkkb.py:147-155 | With the identity matrix a length only changes unit: value / 0.26458. |
| Placement.LengthRoundTrip | mkkb.py:147-155 | Mapping an inverse-transformed length vector forward through m gives back the pixel length on the same axis. |
| Placement.Reposition | mkkb.py:157-165 | The new position is the outline's padded origin plus the inverse-transformed, translated template position, in closed form. |
| Placement.RepositionUndoesAxisScale | mkkb.py:157-165 | For a matrix without rotation or skew, scaling the offset from the outline origin back by the matrix recovers the translated template coordinate. |
| Placement.PlaceRect | mkkb.py:167-199 | Covers `add_rect`. The position is repositioned, and a stretched rectangle has equal left and right margins inside the outline. A non-stretched width, the height and `ry` use `transform_y`. The stroke width uses `transform_x`. |
| Placement.StretchedRectSpansOutline | mkkb.py:177-184 | The stretched width is the outline width less twice the left margin. At zero margin it equals the outline width. |
| Placement.PlaceText | mkkb.py:201-225 | Covers `add_text`. A centred text is equidistant from the outline's two edges; otherwise its x is repositioned. y and the span are repositioned. The font size uses `transform_y`. Fills and content are kept. |
| KeyDefinitions.BackgroundRects | mkkb.py:273-274 | Rects exist exactly when `background` is set, and then they are just the background. |
| KeyDefinitions.Optional | mkkb.py:304-316 | A label is added exactly when its argument is not `None`, with that argument as its value. No other label changes. |
| KeyDefinitions.MakeSpecial | mkkb.py:263-276 | One line gives only `special middle`. More lines give `special top` and `special bottom` from the first two. The rects are exactly `BackgroundRects(background)`: `[background]` with a background and absent without. |
| KeyDefinitions.MakeArrowVertical | mkkb.py:278-287 | The only text is `arrow vertical`, the first line. The rects are exactly `[background]` with a background and absent without. |
| KeyDefinitions.MakeArrowHorizontal | mkkb.py:289-298 | The only text is `arrow horizontal`, the first line. The rects are exactly `[background]` with a background and absent without. |
| KeyDefinitions.NumberLabel | mkkb.py:304-310 | A number goes to `number 012` iff it is a substring of "012". It goes to `number 34579` iff it is not, but is a substring of "34579". Otherwise it goes to `number`. |
| KeyDefinitions.DigitBuckets | mkkb.py:305-310 | Digits 0-2 go to `number 012`; 3, 4, 5, 7 and 9 go to `number 34579`; 6 and 8 go to `number`. |
| KeyDefinitions.SingleOccurs | mkkb.py:305-307 | `Occurs` is Python's substring `in`; for a one-character string it holds exactly when the character occurs. |
| KeyDefinitions.SubstringBucketQuirk | mkkb.py:305 | Python's substring test sends "12" and "" to `number 012`. |
| KeyDefinitions.Rank | mkkb.py:318-331 | The position of a name among the rectangles `make_number` can list. |
| KeyDefinitions.GridRank | mkkb.py:322-331 | Mask position p's rectangle is listed p places after the two background rectangles. |
| KeyDefinitions.GridRects | mkkb.py:322-331 | The grid rectangles are exactly those at non-space mask positions. They follow the backgrounds and are in position order. |
| KeyDefinitions.RectsHead | mkkb.py:318-320 | The backgrounds: `background`, then `top background` exactly when flagged. |
| KeyDefinitions.OrderedConcat | mkkb.py:318-331 | Appending the later-ranked grid list to the backgrounds keeps the whole list in order. |
| KeyDefinitions.NumberRects | mkkb.py:318-331 | The list starts with `background`. It holds exactly `background`, `top background` when flagged and the grid rectangles of non-space mask positions. It is in source order with no repeats. |
| KeyDefinitions.NumberTexts | mkkb.py:303-316 | The number lands in its digit bucket and in no other bucket. Top, bottom and symbol are present exactly when given, with their values. No other label appears. |
| KeyDefinitions.MakeNumber | mkkb.py:300-333 | Covers `make_number`: its rects are `NumberRects` and its texts are `NumberTexts`. |
| KeyDefinitions.NumberOneRects | mkkb.py:457 | The '1' key's mask `[a cd` lists background, grid border, grid a, grid c and grid d. |
| KeyDefinitions.NumberOneTexts | mkkb.py:457 | The '1' key's texts: `number 012` is 1, `top` is BLUE in #2aacfd, `bottom` is DEF FN and `number symbol` is !. |
| KeyDefinitions.NumberOmissionExample | mkkb.py:300-333 | With every legend `None` and a blank mask, only the background is left and there are no texts. |
| KeyDefinitions.LetterTexts | mkkb.py:341-351 | Each of the five labels is present exactly when its argument is given, with that value. No other label appears. |
| KeyDefinitions.MakeLetterSymbol | mkkb.py:336-353 | The rects are exactly `[background]`. Letter, top, bottom, secondary and `letter symbol` are each present exactly when given, holding the given legend, and no other label appears. |
| KeyDefinitions.MakeLetterWord | mkkb.py:356-373 | The rects are exactly `[background]`. Letter, top, bottom, secondary and `letter tertiary` are each present exactly when given, holding the given legend, and no other label appears. |
| KeyDefinitions.MakeSpace | mkkb.py:375-381 | Only the background rectangle. The texts are exactly `break` = BREAK and `space` = SPACE. |
| KeyDefinitions.AltColor | mkkb.py:384-385 | One legend per name, in order: each keeps its name as its text and is coloured #000000. |
| KeyDefinitions.NoBackgroundNoRects | mkkb.py:263-298 | Special and arrow keys built without a background ask for no rectangle at all. |
| Compositor.WithLegend | mkkb.py:227-239 | The span's content becomes the legend's text. A colour replaces the fill of the text and of its span; a plain legend keeps both fills. Position and size are untouched. |
| Compositor.RectJobs | mkkb.py:556-558 | At most one job per template rectangle. |
| Compositor.TextJobs | mkkb.py:562-571 | At most one job per template text. |
| Compositor.RectJobsSelect | mkkb.py:556-558 | Every rectangle job is listed in the definition, and every listed template rectangle gets a job. Only the background is stretched. |
| Compositor.TextJobsSelect | mkkb.py:562-571 | Every text job has a legend, and every template text with a legend gets a job carrying it. A job is centred iff its label starts with "special " or is break or space. |
| Compositor.RectJobsStep | mkkb.py:556-560 | One more template rectangle appends its own job, if any. |
| Compositor.TextJobsStep | mkkb.py:562-573 | One more template text appends its own job, if any. |
| Compositor.RectJobsOfPrefix | mkkb.py:556 | Rectangle jobs keep template order: the jobs of a prefix come first. |
| Compositor.TextJobsOfPrefix | mkkb.py:562 | Text jobs keep template order: the jobs of a prefix come first. |
| Compositor.NoBackgroundPlacesNoRects | mkkb.py:557 | A definition without rects places no rectangle of any template. |
| Compositor.SpecialLegendsAreCentred | mkkb.py:570-571 | `IsCentred`, the test of mkkb.py:570-571, holds for every legend of a special key and of the space bar. |
| Compositor.UncentredLabelsAreNotCentred | mkkb.py:570-571 | None of the number, letter or arrow labels is centred. |
| Compositor.NumberLegendsAreNotCentred | mkkb.py:570-571 | No legend of a number key is centred. |
| Compositor.LetterLegendsAreNotCentred | mkkb.py:570-571 | No legend of a letter key is centred. |
| Compositor.ArrowLegendsAreNotCentred | mkkb.py:570-571 | No arrow glyph is centred. |
| Compositor.PlaceJob | mkkb.py:556-573 | A rectangle job is placed by `add_rect` with its stretch flag, and a text job by `add_text` with its centring flag. |
| Compositor.PlaceAll | mkkb.py:556-573 | One group per job. |
| Compositor.PlaceAllAppend | mkkb.py:556-573 | Placing one more job appends exactly its group. |
| Compositor.PlaceAllConcat | mkkb.py:556-573 | Placing two lists in turn places their concatenation. |
| Compositor.PlaceAllKeepsId | mkkb.py:552-573 | Every group of a key carries the placeholder's id and the frames' matrix. |
| Compositor.Placed | mkkb.py:552-573 | No jobs means no groups and no error. Otherwise it fails exactly when the outline cannot be measured, with that error, and gives one group per job. |
| Compositor.PlacedGroups | mkkb.py:552-573 | When a key's jobs are placed, the outline was measured, and group i is job i placed by `add_rect` or `add_text` against that measured outline, with the placeholder's id and the frames' matrix. |
| Compositor.PlacedConcat | mkkb.py:556-573 | Placing the rectangles and then the texts gives the same result, error included, as placing all jobs at once. |
| Compositor.KeyPlacementSplits | mkkb.py:553-573 | `KeyPlacement`, the reference placement of one key (`Placed` over its rectangle jobs then its text jobs), is its rectangle loop followed by its text loop: an error in the first stops it, otherwise the groups are joined. |
| Compositor.Layer.Append | mkkb.py:199 | `cobra.append` adds the group at the end. |
| Compositor.AppendJob | mkkb.py:167-225 | One `add_rect` or `add_text` appends exactly the placed group. |
| Compositor.PlaceRects | mkkb.py:556-560 | On success, the rectangle loop appends exactly the placed rectangle jobs. If the outline cannot be measured, it appends nothing and returns that error. |
| Compositor.PlaceTexts | mkkb.py:562-573 | On success, the text loop appends exactly the placed text jobs. If the outline cannot be measured, it appends nothing and returns that error. |
| Compositor.PlaceStep | mkkb.py:556-573 | One iteration of either loop measures the outline again. If that fails on a job, it appends nothing and returns the error; otherwise it appends the job's placed group. |
| Compositor.PlaceKey | mkkb.py:553-573 | One defined placeholder appends exactly the groups of `KeyPlacement` (its rectangles and then its texts), or nothing together with the outline's error, which `KeyPlacement` reports. |
| Compositor.CompositeStep | mkkb.py:552-573 | `CompositeAll`, the reference outcome of the outer loop over a list of placeholders (groups so far, first error), grows by one placeholder at a time through `CompositeNext`. |
| Compositor.CompositeNext | mkkb.py:552-573 | One placeholder of the outer loop: after an error, or for a placeholder without a definition, nothing changes. Placed groups are only ever appended. |
| Compositor.CompositeNextOfKey | mkkb.py:553-573 | A defined placeholder, with no earlier error, appends its key's groups or stops with its key's error. |
| Compositor.PlaceNext | mkkb.py:553-573 | The body of the outer loop leaves the layer and the error as `CompositeNext` says. |
| Compositor.Composite | mkkb.py:552-573 | The outer loop appends exactly the groups of `CompositeAll` over all placeholders and reports the error of `CompositeAll` that stopped it. |
| Compositor.CompositeStops | mkkb.py:552-573 | Once `CompositeAll` over a prefix of the placeholders has failed, `CompositeAll` over the whole list has the same outcome: no later placeholder changes it. |
| Compositor.CompositeKeepsIds | mkkb.py:552-554 | Every group in `CompositeAll`'s outcome carries the id of a placeholder of the list that has a definition, and the frames' matrix. |
| Compositor.UndefinedPlaceholderIsSkipped | mkkb.py:553 | A placeholder without a definition adds nothing and cannot fail. |

## Left out

- XML parsing, searching and writing (`xml.etree.ElementTree`) are not modelled. Elements are records, the layer is a sequence of groups, and `copy.deepcopy` is value semantics.
- A placeholder group's children other than its outline path are not modelled. The removal of that path from the copy is implicit: a group holds only its overlay.
- `numpy.linalg.inv` and floating point are replaced by the exact inverse over reals. No rounding and no `str(float)` formatting are modelled.
- Placement.TransformX, Placement.TransformY, Compositor.Placed, Compositor.PlaceRects, Compositor.PlaceTexts, Compositor.PlaceKey, Compositor.Composite: a singular matrix is excluded by the precondition `Invertible` rather than modelled as an error. The source does not reject it up front: numpy raises LinAlgError only at the first `add_rect` or `add_text` (mkkb.py:147-165), and a run that places no job completes. The model does not cover that run.
- Regular-expression extraction and `float()` parsing of the stroke width, font size and translation are not modelled. They are given reals, and `replace_fill` is an abstract fill update.
- Token parsing is abstracted: a `Numbers` token is one whose comma-separated parts `int()` all accepts, already converted.
- `peek`'s deep copy of the iterator is modelled as index lookahead on the token sequence.
- `load_template` and `parse_translate_from_transform` are not modelled: a template is given as its translation and its labelled rectangles and texts in document order. Two template elements with the same label, which the source's dict would merge, are not merged.
- `main`'s file names, its "not found" messages and early returns, and its static key tables are not modelled. Only the '1' row of the number table is used, as an example.
- An exception in the source ends the program before the output file is written. Compositor.Composite reports the first error and keeps the groups appended so far; nothing is written either way.
- Each `add_rect` and `add_text` measures the placeholder's outline again, and so do the methods `PlaceRects` and `PlaceTexts`. Only the specification `Placed` measures it once per key, which gives the same value because the path is the same.
- A path element without a `d` or `style` attribute (KeyError), a style without a stroke width (AttributeError) and a stroke width `float()` rejects (mkkb.py:81, 134-135) are not modelled: the tokens and the stroke width are given.
- The frames' `matrix(...)` text, its regular expression and `float()` (mkkb.py:15-22) are modelled only by `Placement.ParseSvgMatrix`. `Compositor.Composite` and `Compositor.PlaceKey` take the matrix already parsed, so the IndexError that `add_rect` and `add_text` raise on a matrix with fewer than six numbers (mkkb.py:168, 202) is not modelled there.
- KeyDefinitions.MakeSpecial, KeyDefinitions.MakeArrowVertical, KeyDefinitions.MakeArrowHorizontal: an empty line list, on which the source raises IndexError, is excluded by a precondition.
- KeyDefinitions.MakeNumber: a mask shorter than five characters, on which the source raises IndexError, is excluded by a precondition. The number is a plain string: a tuple number would raise TypeError in the substring test.
