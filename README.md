# Window configurator geometry, in Dafny

This project models the geometry layer of a 2-D window configurator, a React page that draws
windows with Konva. The page keeps a form record. From that record it draws either an arched
window (`ArchedWindow`) or a rectangular window (`Window`), each with its dimension annotations
(`Cotes`). A small semicircular-window helper (`WindowArc`) sits beside them. Every drawn
coordinate is a closed-form function of the window's parameters, so the renderers are modelled
as pure functions over `real` that return the shapes they would draw:

- rectangles, segments and point sequences for paths;
- `Option` values for shapes a renderer skips;
- a datatype for annotation primitives.

The form record is modelled as the state of a class with one method per input handler.

Modules, one per concern:

- `Geometry`: points, segments, rectangles and polygons, with insetting, containment and
  reflection. It also has `Flatten` and `Somes`, which stand for `.flat().filter(Boolean)`.
- `Roots`: the square root, taken as a parameter `sqrt` constrained by `IsSqrt`, and the unit
  half-circle `UnitArc(r) = sqrt(1 - r^2)`.
- `Spacing`: the equal-spacing law shared by muntins and glazing bars.
- `HalfEllipse`: the glazing's arch, with `getArcYAtX` as `YAt` and `getArcWidthAtY` as
  `WidthAt`, and the facts relating the two.
- `ArchedWindow`: the arched window's dimensions, outlines, base panels, muntins, corner
  diagonals, opening indicators and annotations.
- `ArchedBars`: the arched window's glazing bars and their crossing patches, all clipped
  against the arch.
- `Window`: the rectangular window.
- `Cotes`: the dimension annotations.
- `WindowArc`: the semicircular helper.
- `App`: the form record and its three handlers.

Two behaviours one might expect do not hold in the code, and the model follows the code:

- The frame's arch can rise above the window's height. A semicircular arch ("plein-cintre")
  does so whenever the width exceeds twice the height, and `ArchedWindow.ArcHeightBounds`
  states exactly when.
- Collapsed configurations are not clamped to zero. The code never clamps negative inner
  widths or heights, so the model does not either. Non-negativity results are stated under
  explicit preconditions instead.

## Model

| member | source | states |
|---|---|---|
| Spacing.Gap | src/components/ArchedWindow/ArchedWindow.tsx:265 | N+1 gaps fill the span exactly |
| Spacing.BarCenter | src/components/ArchedWindow/ArchedWindow.tsx:264-266 | each of N bars lies strictly inside a positive span, at least one gap from either end; on an empty span every bar lies at the start; on a negative span each lies strictly between the end and the start |
| Spacing.GapMultiple | src/components/ArchedWindow/ArchedWindow.tsx:305-311 | a whole number j of gaps, with 1 <= j <= N, lies between one gap and the span less one gap, with the bounds reversed for a negative span |
| Spacing.BarStep | src/components/ArchedWindow/ArchedWindow.tsx:305-311 | consecutive bars are exactly one gap apart |
| Spacing.BarMirror | src/components/ArchedWindow/ArchedWindow.tsx:493-495 | bar k and bar N-1-k are mirror images about the middle of the span |
| Spacing.BarsIncreasing | src/components/ArchedWindow/ArchedWindow.tsx:368-374 | on a positive span, bar centres strictly increase with the index (proved by induction) |
| Spacing.BarCenters | src/components/Window/Window.tsx:171-174 | N bars, bar k at its centre; N = 0 gives no bars |
| Cotes.ResolveOptions | src/components/Cotes/Cotes.tsx:18-24 | each axis is shown unless its toggle is false; offsets default to 20 and otherwise take the given value |
| Cotes.Round | src/components/Cotes/Cotes.tsx:71 | `Math.round` is the integer within half a unit, halves rounded up |
| Cotes.WidthCote | src/components/Cotes/Cotes.tsx:36-74 | the width part has four primitives: two ticks, an arrow and a label |
| Cotes.HeightCote | src/components/Cotes/Cotes.tsx:82-111 | the height part has four primitives: two ticks, an arrow and a label |
| Cotes.Group | src/components/Cotes/Cotes.tsx:31-114 | the width part appears iff its toggle is on, then the height part iff its toggle is on |
| Cotes.Cotes | src/components/Cotes/Cotes.tsx:27-31 | one group per measured rectangle, in input order |
| Cotes.GroupsIndependent | src/components/Cotes/Cotes.tsx:27-31 | replacing one rectangle changes its own group and no other |
| Cotes.WidthCoteGeometry | src/components/Cotes/Cotes.tsx:36-74 | ticks stand on the bottom corners and are offsetY long; the arrow joins their far ends, 5 short of each, so it is width-10 long and centred; the label is 30 left of the arrow's middle and 20 above it, and shows the width rounded, with " mm" |
| Cotes.HeightCoteGeometry | src/components/Cotes/Cotes.tsx:82-111 | ticks leave the left corners offsetX to the left; the arrow joins their far ends, 5 short of each, so it is height-10 long and centred; the label is turned -90 degrees, 20 left of the arrow and 20 below its middle, and shows the height rounded, with " mm" |
| WindowArc.ResolveProps | src/components/WindowArc/WindowArc.tsx:11-17 | missing props default to width 200, position (550, 250) and margin 10; given ones are kept |
| WindowArc.OuterRadius | src/components/WindowArc/WindowArc.tsx:21 | the outer half-disc's diameter is the width |
| WindowArc.InnerRadius | src/components/WindowArc/WindowArc.tsx:22 | the inner radius is margin short of the outer one, and lies between 0 and it when the margin is at most half the width |
| WindowArc.ArcCenter | src/components/WindowArc/WindowArc.tsx:27 | the centre is on the base line, midway between positionX and positionX + width |
| WindowArc.ArcsShareCenter | src/components/WindowArc/WindowArc.tsx:21-55 | both arcs share the centre, sweep 180 degrees at rotation 180 and are solid; the outer one spans exactly [positionX, positionX + width]; the radii differ by the margin |
| WindowArc.BaseUnderArcs | src/components/WindowArc/WindowArc.tsx:58-66 | the base strip spans the outer arc's diameter and hangs from the base line, margin high |
| WindowArc.FillersMirrored | src/components/WindowArc/WindowArc.tsx:69-83 | both filler lines lie on the base line and mirror each other about the centre; the left one runs from 1 inside the outer circle to 1 outside the inner circle |
| Window.ResolveProps | src/components/Window/Window.tsx:39-71 | the dimensions are required; every other prop left out takes its default (margin 10, no opening direction, no base, a 20 high base with a 15 margin and a 10 glazed strip, no muntins, 2 × 2 muntins, no bars, 0 × 0 bars 20 wide, both annotations); a given prop is kept |
| Window.ResolveAllGiven | src/components/Window/Window.tsx:39-71 | props given in full pass through unchanged |
| Window.DefaultWindow | src/components/Window/Window.tsx:39-71 | with only its dimensions the window draws no opening, base, muntins or crossing patches and one annotation group; switching bars on still draws none, since both counts default to 0 |
| Window.EffectiveInnerHeight | src/components/Window/Window.tsx:80-83 | with a base, glazing and base share the inner height; without one the glazing has all of it; it lies in [0, inner height] when the base fits |
| Window.InnerGlazing | src/components/Window/Window.tsx:108-117 | the glazing is the frame inset by the margin |
| Window.BaseBand | src/components/Window/Window.tsx:119-129 | the base band spans the glazing's width, sits on the glazing's bottom and is soubassementHeight high; with a base, its top is the bottom of the effective glazing |
| Window.BaseInset | src/components/Window/Window.tsx:131-139 | the base inset is the band inset by soubassementMargin |
| Window.GlazedBaseInset | src/components/Window/Window.tsx:155-163 | the glazed inset starts like the base inset and is soubassementVitreMargin high |
| Window.BasePanels | src/components/Window/Window.tsx:119-165 | band and inset are drawn for a solid base, and band and glazed inset for a glazed base, in that order |
| Window.SolidBaseInsetIsBand | src/components/Window/Window.tsx:85-86 | with no base margin, the inset is the band |
| Window.PanelsNested | src/components/Window/Window.tsx:98-165 | for sane dimensions, frame ⊇ glazing ⊇ base band ⊇ base inset, all with non-negative sizes |
| Window.HorizontalTraverseY | src/components/Window/Window.tsx:171-174 | horizontal bar lines lie strictly inside a positive effective glazing height |
| Window.VerticalTraverseX | src/components/Window/Window.tsx:204-206 | vertical bar lines lie strictly inside a positive glazing width |
| Window.HorizontalTraverse | src/components/Window/Window.tsx:171-199 | outer and inner bars share a centre on the bar's line; the outer bar is 4 thicker; both span the glazing's width |
| Window.VerticalTraverse | src/components/Window/Window.tsx:204-232 | outer and inner bars share a centre on the bar's line; the outer bar is 4 wider; both run from the glazing's top down the effective height |
| Window.HorizontalTraverses | src/components/Window/Window.tsx:168-201 | traverseCountY horizontal bars when bars are enabled, none otherwise |
| Window.VerticalTraverses | src/components/Window/Window.tsx:203-233 | traverseCountX vertical bars when bars are enabled, none otherwise |
| Window.TraversesInsideGlazing | src/components/Window/Window.tsx:204-206 | on a glazing of positive width, vertical bar lines lie strictly inside it, in increasing order |
| Window.CrossingPatch | src/components/Window/Window.tsx:240-256 | a patch is centred on its grid intersection and measures (tw+6) × (tw+2) |
| Window.CrossingRow | src/components/Window/Window.tsx:244-263 | column xi has one patch per horizontal bar |
| Window.CrossingRows | src/components/Window/Window.tsx:239-264 | one column of patches per vertical bar |
| Window.CrossingsCount | src/components/Window/Window.tsx:236-266 | exactly countX·countY patches when bars are enabled and both counts are positive, none otherwise |
| Window.CrossingAt | src/components/Window/Window.tsx:236-266 | the patch for (xi, yi) is at position xi·countY + yi of the drawn list |
| Window.PatchHidesCrossedBorders | src/components/Window/Window.tsx:251-256 | each patch overhangs the vertical bar's borders sideways and stays within the horizontal bar's borders vertically |
| Window.Crossings | src/components/Window/Window.tsx:235-266 | patches are drawn only when bars are enabled and both counts are positive |
| Window.VerticalMuntins | src/components/Window/Window.tsx:270-289 | petitsBoisCountX vertical muntins when muntins are shown, none otherwise |
| Window.HorizontalMuntins | src/components/Window/Window.tsx:291-308 | petitsBoisCountY horizontal muntins when muntins are shown, none otherwise |
| Window.VerticalMuntin | src/components/Window/Window.tsx:273-289 | muntin i is the vertical line at the i-th equal-spacing position across the glazing width, from the glazing's top to the bottom of the effective height |
| Window.HorizontalMuntin | src/components/Window/Window.tsx:291-308 | muntin i is the horizontal line at the i-th equal-spacing position down the effective height, from the glazing's left edge to its right edge |
| Window.MuntinsSpanGlazing | src/components/Window/Window.tsx:273-308 | vertical muntin i stands at margin + (i+1) gaps, a gap being the glazing width over N+1, and runs from the glazing's top to the bottom of the effective height, strictly inside the glazing sideways; horizontal muntin i lies at margin + (i+1) gaps of the effective height, spans the glazing's width and is strictly inside it vertically |
| Window.CornerDiagonals | src/components/Window/Window.tsx:312-333 | four diagonals, each joining a frame corner to the matching glazing corner |
| Window.DiagonalsAreMitres | src/components/Window/Window.tsx:312-333 | each diagonal is a 45-degree line, margin long on each axis, that runs towards the frame's centre |
| Window.HandleX | src/components/Window/Window.tsx:88-90 | the handle is at W − margin for "droite" and at the frame's left edge otherwise |
| Window.HandleY | src/components/Window/Window.tsx:92-93 | the handle's height is the middle of the effective glazing |
| Window.Handle | src/components/Window/Window.tsx:371-381 | the handle is a margin-sized square at handleX, centred vertically at the handle height |
| Window.HorizontalOpening | src/components/Window/Window.tsx:336-370 | two indicator lines iff the direction is "gauche" or "droite"; both start on the hinge side (the glazing's left edge for "droite", its right edge for "gauche"), one at the glazing's top and one at the bottom of the effective glazing, and meet on the opposite edge at the handle height |
| Window.HandleGlyph | src/components/Window/Window.tsx:371-381 | one handle iff the direction is "gauche" or "droite", and that handle is `Handle(p)` |
| Window.VerticalOpening | src/components/Window/Window.tsx:385-420 | two indicator lines iff the direction is "haut" or "bas"; they leave the glazing's left and right edges at one height and meet at the middle of its width; for "haut" they run from the bottom of the effective glazing up to its top, for "bas" from its top down to that bottom |
| Window.HandleOnStile | src/components/Window/Window.tsx:336-381 | the margin-sized handle is centred at the handle height on the stile of the hinge-free side; both lines leave the glazing's top and bottom at the hinge-side edge (left for "droite", right for "gauche") and meet on the handle's inner edge |
| Window.VerticalDirectionsSwapEnds | src/components/Window/Window.tsx:386-418 | "haut" and "bas" draw the same lines with their ends' heights swapped |
| Window.WindowCotes | src/components/Window/Window.tsx:422-458 | when either axis is shown there is one annotation group for the frame, and one more with a base |
| Window.CotesMeasureFrameAndBand | src/components/Window/Window.tsx:424-456 | the frame is measured with offsets 60/80 and the base band with offsets 40/50 |
| HalfEllipse.Rise | src/components/ArchedWindow/ArchedWindow.tsx:140-141 | the arch's rise is its full height on the axis, lies between 0 and the height in the span, and is positive and below the height off the axis |
| HalfEllipse.YAt | src/components/ArchedWindow/ArchedWindow.tsx:129-145 | outside the span, or with no span, it is the springing line plus margin; inside it lies between apex+margin and springing line+margin, strictly above the latter for a positive height |
| HalfEllipse.ApexOnAxis | src/components/ArchedWindow/ArchedWindow.tsx:129-145 | on the axis the arch is at its apex (plus margin) |
| HalfEllipse.Symmetric | src/components/ArchedWindow/ArchedWindow.tsx:129-145 | the arch is symmetric about its axis |
| HalfEllipse.RiseOnEllipse | src/components/ArchedWindow/ArchedWindow.tsx:140-141 | (distance, rise) satisfies the ellipse equation with semi-axes halfWidth and height |
| HalfEllipse.OnEllipse | src/components/ArchedWindow/ArchedWindow.tsx:129-145 | inside the span, (x, YAt(x)) lies on the ellipse centred at (centerX, springY) with semi-axes width/2 and height |
| HalfEllipse.Chord | src/components/ArchedWindow/ArchedWindow.tsx:397-401 | the chord lies between 0 and the width, strictly for a depth strictly inside the arch |
| HalfEllipse.WidthAt | src/components/ArchedWindow/ArchedWindow.tsx:389-403 | the full width at or below the springing line, 0 at or above the apex, and strictly between 0 and the width in between |
| HalfEllipse.WidthAtYAt | src/components/ArchedWindow/ArchedWindow.tsx:389-403 | round trip x → y → width: the width at the arch's height above x is twice the distance from x to the axis |
| HalfEllipse.YAtWidthAt | src/components/ArchedWindow/ArchedWindow.tsx:389-403 | round trip y → width → y: at either end of the chord at y, the arch is at y |
| HalfEllipse.ChordAntitone | src/components/ArchedWindow/ArchedWindow.tsx:397-401 | the chord shortens as it rises |
| HalfEllipse.WidthMonotone | src/components/ArchedWindow/ArchedWindow.tsx:389-403 | the width never decreases going down |
| HalfEllipse.WidthZeroIff | src/components/ArchedWindow/ArchedWindow.tsx:389-403 | for a non-degenerate arch, the width is 0 exactly at and above the apex |
| ArchedWindow.ResolveProps | src/components/ArchedWindow/ArchedWindow.tsx:55-96 | the dimensions are required; every other prop left out takes its default (innerMargin 10, no opening direction, no base, a 20 high base with a 10 margin and a 10 glazed strip, no muntins, 2 × 2 muntins, no bars, 1 × 1 bars 6 wide, the shallow "leger" arc, both annotations); a given prop is kept |
| ArchedWindow.ResolveAllGiven | src/components/ArchedWindow/ArchedWindow.tsx:55-96 | props given in full pass through unchanged |
| ArchedWindow.DefaultWindow | src/components/ArchedWindow/ArchedWindow.tsx:55-96 | with only its dimensions the window is a shallow-arched frame with no opening, base, muntins or bars, a glazing arch at least 10 high, and one annotation group |
| ArchedWindow.ArcHeight | src/components/ArchedWindow/ArchedWindow.tsx:97-100 | half the width for "plein-cintre"; otherwise the smaller of 15% of the height and 25% of the width |
| ArchedWindow.ArcHeightBounds | src/components/ArchedWindow/ArchedWindow.tsx:97-102 | the shallow arc stays within the height and radiusX; the semicircle exceeds the height exactly when W > 2H |
| ArchedWindow.InnerArcHeight | src/components/ArchedWindow/ArchedWindow.tsx:109 | the larger of arcHeight − innerMargin and innerMargin |
| ArchedWindow.InnerArcAtLeastMargin | src/components/ArchedWindow/ArchedWindow.tsx:108-109 | the glazing's arch is at least innerMargin high, and exactly innerMargin lower than the frame's when that is at least 2·innerMargin |
| ArchedWindow.EffectiveInnerHeight | src/components/ArchedWindow/ArchedWindow.tsx:111-114 | with a base, glazing and base share the inner height; without one the glazing has all of it; it lies in [0, inner height] when the base fits |
| ArchedWindow.Glazing | src/components/ArchedWindow/ArchedWindow.tsx:129-136 | the glazing arch spans [innerMargin, innerMargin + innerW], peaks at innerMargin and is innerArcHeight high |
| ArchedWindow.ArchOutline | src/components/ArchedWindow/ArchedWindow.tsx:150-168 | a closed path from the bottom-left corner, up the left side to the arch's left end, over the upper half-ellipse to its right end, down the right side and back |
| ArchedWindow.OuterFrame | src/components/ArchedWindow/ArchedWindow.tsx:150-168 | the frame path starts at (0, H), draws the upper half-ellipse centred at (radiusX, arcHeight) with radii radiusX and arcHeight, goes to (W, H) and closes at its start |
| ArchedWindow.GlazingOutline | src/components/ArchedWindow/ArchedWindow.tsx:176-203 | the glazing path starts at (innerMargin, innerMargin + effective height), draws the upper half-ellipse centred at (innerMargin + innerW/2, innerMargin + innerArcHeight) with radii innerW/2 and innerArcHeight, goes to the bottom right of the effective glazing and closes at its start |
| ArchedWindow.GlazingOutlineIsGlazingArch | src/components/ArchedWindow/ArchedWindow.tsx:176-203 | the drawn glazing ellipse is the arch `getArcYAtX` computes; its bottom is the base band's top with a base, and the glazing's bottom otherwise |
| ArchedWindow.OutlinesConcentric | src/components/ArchedWindow/ArchedWindow.tsx:150-203 | frame and glazing ellipses share a vertical axis, their x-radii differ by innerMargin, and they peak at 0 and at innerMargin |
| ArchedWindow.ArcYOnDrawnGlazing | src/components/ArchedWindow/ArchedWindow.tsx:129-203 | every point `getArcYAtX` yields inside the span lies on the ellipse actually drawn |
| ArchedWindow.BaseBand | src/components/ArchedWindow/ArchedWindow.tsx:213-217 | the band spans the glazing's width, sits on its bottom and is baseHeight high; with a base, its top is the glazing outline's bottom |
| ArchedWindow.BaseInset | src/components/ArchedWindow/ArchedWindow.tsx:223-227 | the inset is the band inset by baseMargin |
| ArchedWindow.GlazedBaseInset | src/components/ArchedWindow/ArchedWindow.tsx:248-252 | the glazed inset starts like the base inset and is baseWindowMargin high |
| ArchedWindow.BasePanels | src/components/ArchedWindow/ArchedWindow.tsx:211-258 | band and inset for a solid base, and band and glazed inset for a glazed base, in that order |
| ArchedWindow.VerticalMuntin | src/components/ArchedWindow/ArchedWindow.tsx:264-302 | drawn iff its line is strictly inside the arch's span; vertical at the i-th equal-spacing position across the glazing width, from `getArcYAtX` of that position (between apex and springing line) down to the bottom of the effective glazing |
| ArchedWindow.HorizontalMuntin | src/components/ArchedWindow/ArchedWindow.tsx:305-360 | drawn iff its line is at or below the springing line or below the apex; horizontal at the i-th equal-spacing position down the effective glazing, symmetric about the axis; full width at or below the springing line |
| ArchedWindow.VerticalMuntinSlots | src/components/ArchedWindow/ArchedWindow.tsx:261-302 | sillCountX vertical slots when muntins are shown, none otherwise |
| ArchedWindow.HorizontalMuntinSlots | src/components/ArchedWindow/ArchedWindow.tsx:304-360 | sillCountY horizontal slots when muntins are shown, none otherwise |
| ArchedWindow.VerticalMuntinsCount | src/components/ArchedWindow/ArchedWindow.tsx:264-302 | every vertical muntin is drawn when the glazing has width, and none when it has none |
| ArchedWindow.HorizontalMuntinsCount | src/components/ArchedWindow/ArchedWindow.tsx:305-360 | with a positive effective height, every horizontal muntin is drawn |
| ArchedWindow.MuntinsMeetArch | src/components/ArchedWindow/ArchedWindow.tsx:264-360 | a vertical muntin starts where the arch's chord is as wide as the muntin's distance from the axis allows; an arched horizontal muntin ends on the arch at both sides |
| ArchedWindow.BottomDiagonals | src/components/ArchedWindow/ArchedWindow.tsx:622-638 | two diagonals from the bottom frame corners to the bottom glazing corners |
| ArchedWindow.BottomDiagonalsMirrored | src/components/ArchedWindow/ArchedWindow.tsx:622-638 | the two diagonals mirror each other about the axis and are 45-degree lines innerMargin long on each axis |
| ArchedWindow.HandleX | src/components/ArchedWindow/ArchedWindow.tsx:121-122 | the handle is at windowWidth − innerMargin for "right" and at 0 otherwise |
| ArchedWindow.HandleY | src/components/ArchedWindow/ArchedWindow.tsx:124-127 | the handle's height is midway between the springing line and the bottom of the effective glazing |
| ArchedWindow.Handle | src/components/ArchedWindow/ArchedWindow.tsx:677-686 | the handle is innerMargin square, at handleX and centred at the handle height |
| ArchedWindow.HorizontalOpening | src/components/ArchedWindow/ArchedWindow.tsx:640-675 | two indicator lines iff the direction is "left" or "right" |
| ArchedWindow.HandleGlyph | src/components/ArchedWindow/ArchedWindow.tsx:676-688 | one handle iff the direction is "left" or "right", and that handle is `Handle(p)` |
| ArchedWindow.HandleOnStile | src/components/ArchedWindow/ArchedWindow.tsx:640-688 | the lines leave the springing line and the glazing's bottom on the hinge side and meet at the handle, which sits on the opposite stile |
| ArchedWindow.VerticalOpening | src/components/ArchedWindow/ArchedWindow.tsx:690-747 | two indicator lines iff the direction is "up" or "down" |
| ArchedWindow.VerticalOpeningMeetsArch | src/components/ArchedWindow/ArchedWindow.tsx:690-747 | the lines mirror each other about the axis and meet on it; "down" starts at `getArcYAtX` of the glazing's edges (the springing line) and ends at the bottom middle; "up" runs from the bottom corners to the apex, which is on the arch |
| ArchedWindow.WindowCotes | src/components/ArchedWindow/ArchedWindow.tsx:749-784 | when either axis is shown there is one annotation group for the frame, and one more with a base |
| ArchedWindow.CotesMeasureFrameAndBand | src/components/ArchedWindow/ArchedWindow.tsx:749-784 | the frame is measured with offsets 60/80 and the base band with offsets 40/50 |
| ArchedBars.BandWidth | src/components/ArchedWindow/ArchedWindow.tsx:405-419 | no band iff the arch has no width at either edge; otherwise the smaller of the two widths |
| ArchedBars.BandWidthAtTop | src/components/ArchedWindow/ArchedWindow.tsx:405-419 | since the arch widens downwards, a band is omitted iff the bottom width is 0, and is otherwise as wide as the arch at its top |
| ArchedBars.TraverseY | src/components/ArchedWindow/ArchedWindow.tsx:368-374 | horizontal bar lines lie strictly inside a positive effective glazing height |
| ArchedBars.OuterTraverseAsWritten | src/components/ArchedWindow/ArchedWindow.tsx:420-429 | the path the code traces is closed and has five points |
| ArchedBars.OuterBand | src/components/ArchedWindow/ArchedWindow.tsx:381-419 | the band exists iff the arch has width at its top or bottom edge (`BandWidth` is some), is then exactly that band width (the smaller edge width) wide, is centred on the axis and on the bar's line, and is traverseWidth + 4 high |
| ArchedBars.OuterTraverse | src/components/ArchedWindow/ArchedWindow.tsx:379-436 | the corrected outline is drawn exactly when the band is, and traces that band's rectangle |
| ArchedBars.InnerTraverse | src/components/ArchedWindow/ArchedWindow.tsx:439-487 | the inside is drawn iff its own traverseWidth-high band has width under the arch, and is then that band width plus 4 wide; it is centred on the axis and on the bar's line |
| ArchedBars.OuterTraverseCrossesItself | src/components/ArchedWindow/ArchedWindow.tsx:423-428 | the path as written swaps the two top vertices of the rectangle; with any width, two of its edges cross at the band's centre |
| ArchedBars.OuterTraverseFitsArch | src/components/ArchedWindow/ArchedWindow.tsx:384-430 | inside the arch the band's top corners lie on the arch; below the springing line it spans the glazing |
| ArchedBars.OuterTraverseDrawnIff | src/components/ArchedWindow/ArchedWindow.tsx:405-414 | a bar is drawn iff its bottom edge is below the glazing's apex |
| ArchedBars.InnerTraverseCoversOutline | src/components/ArchedWindow/ArchedWindow.tsx:439-479 | the inside is drawn only over a drawn outline; it stays 2 inside it vertically and overhangs it by at least 2 on each side |
| ArchedBars.BarOutline | src/components/ArchedWindow/ArchedWindow.tsx:500-521 | a closed five-point path; its sides are vertical at x ± half, its bottom is the bottom of the effective glazing, and its top corners are at `getArcYAtX` of x ± half, between apex and springing line |
| ArchedBars.BarTopOnDrawnArch | src/components/ArchedWindow/ArchedWindow.tsx:500-521 | where its sides are within the span, a bar outline's top corners lie on the half-ellipse the glazing is drawn with |
| ArchedBars.TraverseX | src/components/ArchedWindow/ArchedWindow.tsx:493-495 | vertical bar lines lie strictly inside a positive glazing width |
| ArchedBars.TraverseXMirror | src/components/ArchedWindow/ArchedWindow.tsx:493-495 | vertical bar N-1-i's line is the mirror image of bar i's about the glazing's axis |
| ArchedBars.VerticalTraverse | src/components/ArchedWindow/ArchedWindow.tsx:493-555 | the outer outline is `BarOutline` at the bar's line with half-width (traverseWidth + 4)/2, the inner one with half-width traverseWidth/2; both are centred on the bar's line and the outer is 4 wider |
| ArchedBars.BarOutlineMirror | src/components/ArchedWindow/ArchedWindow.tsx:500-521 | the outline about the mirror line of x is the outline about x reflected about the axis and walked the other way round (`Mirrored`) |
| ArchedBars.VerticalTraversesMirrored | src/components/ArchedWindow/ArchedWindow.tsx:493-555 | the outer and inner outlines of bar N-1-i are those of bar i reflected about the axis (`Mirrored`) |
| ArchedBars.HorizontalTraverseSlots | src/components/ArchedWindow/ArchedWindow.tsx:365-490 | traverseCountY bars when bars are enabled, none otherwise, each an outline and its inside |
| ArchedBars.VerticalTraverses | src/components/ArchedWindow/ArchedWindow.tsx:492-555 | traverseCountX vertical bars when bars are enabled, none otherwise |
| ArchedBars.CrossingPatch | src/components/ArchedWindow/ArchedWindow.tsx:556-613 | a patch is emitted iff the arch has width at the bar's line and the intersection's x, shifted by −2, is within the chord; it is centred at (x, y + 0.25) and measures (tw+4) × (tw+0.5) |
| ArchedBars.CrossingRow | src/components/ArchedWindow/ArchedWindow.tsx:564-615 | column xi has one slot per horizontal bar |
| ArchedBars.CrossingRows | src/components/ArchedWindow/ArchedWindow.tsx:559-616 | one column of slots per vertical bar |
| ArchedBars.Crossings | src/components/ArchedWindow/ArchedWindow.tsx:556-618 | patches are drawn only when bars are enabled and both counts are positive |
| ArchedBars.CrossingsBound | src/components/ArchedWindow/ArchedWindow.tsx:556-618 | at most countX·countY patches |
| ArchedBars.CrossingsOnlyPatches | src/components/ArchedWindow/ArchedWindow.tsx:556-618 | every drawn patch is the patch of some intersection, and bars are enabled |
| ArchedBars.CrossingsAllPatches | src/components/ArchedWindow/ArchedWindow.tsx:556-618 | every emitted patch is drawn |
| ArchedBars.CrossingBelowArch | src/components/ArchedWindow/ArchedWindow.tsx:589-599 | an intersection at or below the springing line, at least 2 right of the glazing's left edge, gets its patch |
| ArchedBars.CrossingsBelowArch | src/components/ArchedWindow/ArchedWindow.tsx:556-618 | when the bars clear the arch and are at least 2 apart, all countX·countY patches are drawn |
| App.Changed | src/App.tsx:50-63 | the named field takes the checkbox state, the parsed number or the raw text; every other field is unchanged |
| App.ChangedLastWins | src/App.tsx:50-63 | a later change to the same field overrides an earlier one, and repeating a change does nothing more |
| App.ChangedCommute | src/App.tsx:50-63 | changes to different fields commute |
| App.SoubassementTypeChanged | src/App.tsx:66-98 | a base exists iff a type is chosen and is glazed iff the type is "vitre"; "plein" and "vitre" clear the margin; any other type restores the saved custom margin; the saved margin and every other field are unchanged |
| App.TypeChangeLastWins | src/App.tsx:66-98 | choosing types in sequence is the same as choosing the last one |
| App.MarginChanged | src/App.tsx:101-109 | both the current and the saved custom margin take the new number; nothing else changes |
| App.CustomMarginRestored | src/App.tsx:66-109 | after a custom margin is typed, any detour through other base types followed by "avec_marge" restores it |
| App.InitialCoherent | src/App.tsx:7-48 | the initial record's base fields agree with its base type |
| App.TypeChangeCoherent | src/App.tsx:66-98 | choosing a base type always leaves the base fields consistent with it |
| App.MarginChangeCoherent | src/App.tsx:343-353 | editing the margin, whose input exists only for "avec_marge", keeps the base fields consistent |
| App.ChangeInputs | src/App.tsx:120-405 | the names of the inputs the generic handler serves, the base-height input under its as-written name "soubassementHeight"; none of them names a base field |
| App.ChangeCoherent | src/App.tsx:50-63 | editing a field that is not a base field keeps the base fields consistent |
| App.BaseHeightInputAsWritten | src/App.tsx:330-336 | the base-height input as written is a number input whose name is not baseHeight |
| App.BaseHeightInput | src/App.tsx:330-336 | the corrected base-height input is a number input named baseHeight |
| App.BaseHeightInputAsWrittenIgnored | src/App.tsx:330-336 | as written, typing a base height leaves baseHeight unchanged and only sets an unread soubassementHeight field |
| App.BaseHeightInputSetsBaseHeight | src/App.tsx:330-336 | with the corrected name, the typed number becomes baseHeight and the base fields stay consistent |
| App.HomePage.constructor | src/App.tsx:7-48 | the page starts from the initial record, which is consistent |
| App.HomePage.HandleChange | src/App.tsx:50-63 | the record becomes `Changed` of the old record; a form input keeps it consistent |
| App.HomePage.HandleSoubassementTypeChange | src/App.tsx:66-98 | the record becomes `SoubassementTypeChanged` of the old record and is consistent |
| App.HomePage.HandleMarginChange | src/App.tsx:101-109 | the record becomes `MarginChanged` of the old record; under "avec_marge" it stays consistent |

## Left out

- Rendering: Konva stages, layers and the group translation by windowBorderX/Y; colours, stroke
  widths, dash patterns, corner radii, font sizes, arrowhead sizes and React keys. They
  carry no geometry.
- Canvas path calls: paths are point sequences. The ellipse is recorded as its centre and radii
  (`PathOp.UpperHalfEllipse`); the curve itself is not traced.
- `Math.sqrt` is a foreign call. Every function that uses it takes it as a parameter `sqrt`
  constrained by `IsSqrt` (non-negative with the right square on the non-negative reals).
- Floating point: all arithmetic is on exact reals. NaN, infinities and rounding are not
  modelled, and `Math.round` is exact rounding to the nearest integer, halves up.
- Opening directions left out of the props (`undefined` in the source) are the empty string;
  no direction test matches either.
- The renderers' style props and their defaults (border, stroke and fill colours, stroke widths)
  and the group offsets windowBorderX/Y are not modelled; they place or colour shapes but do
  not change their geometry.
- Label text: the "mm" label is an integer and a suffix string, not a formatted string.
- Counts are `nat`, so only whole non-negative counts are modelled. In the source a negative or
  fractional count makes `Array(n)` throw a RangeError. A NaN count also throws for the muntins
  (`[...Array(n)]`). For the glazing bars and their crossings, `Number(n) || 0` turns a NaN count
  into 0 and nothing is drawn. None of these cases is modelled.
- `Number()` on an input's text is a parameter `number: string -> real`; its parsing of
  malformed text, including the NaN result, is not modelled.
- HalfEllipse.WidthAt: requires a non-negative arch height. With a negative height h the
  source's ratio `dist / h` is negative. It gets NaN (the root of a negative number) when the
  ratio is below -1, and otherwise returns `width * sqrt(1 - ratio^2)`. Neither case is modelled.
- ArchedWindow.HorizontalMuntin: requires innerMargin >= 0, which gives a non-negative
  glazing arch height (see `HalfEllipse.WidthAt`). The same precondition is on every ArchedBars
  member that measures the arch's width.
- The render-time assignment of soubassementStrokeWidth in the form markup (src/App.tsx:340-342)
  is a UI side effect on a stroke width and is not modelled.
- The page's choice between the two renderers (src/App.tsx:424) and the wiring of form fields
  to their props are not modelled. That wiring passes "left"/"right"/"up"/"down" to the
  rectangular window, which only reacts to "gauche"/"droite"/"haut"/"bas"; each component is
  modelled as written.
- WindowArc.Render and Window.OuterFrame have no contract of their own. Their shapes are stated
  by `WindowArc.ArcsShareCenter`, `WindowArc.BaseUnderArcs`, `WindowArc.FillersMirrored` and
  `Window.InnerGlazing`.
- Drawing order across features (frame, base, muntins, bars, crossings, diagonals, openings,
  annotations) is not modelled as one list. Each feature is its own function.

## Findings

| source | as written | input that shows it | evidently intended | confidence | as-written member | corrected member |
|---|---|---|---|---|---|---|
| src/components/ArchedWindow/ArchedWindow.tsx:423-428 | the outer horizontal-bar path goes (leftX, bottom), (rightX, bottom), (rightX − EF, top), (leftX + EF, top); since rightX − EF = leftX, its two top vertices are swapped and the outline is a bow-tie crossing at the bar's centre | any drawn bar with EF > 0 and a positive height, e.g. a bar below the springing line of a 350 × 400 window with innerMargin 10 (EF = 330) | the rectangle (leftX, bottom), (rightX, bottom), (rightX, top), (leftX, top), like the bar's inside drawn with `rect` at line 479 | high; not executed | ArchedBars.OuterTraverseAsWritten, ArchedBars.OuterTraverseCrossesItself | ArchedBars.OuterTraverse, ArchedBars.OuterTraverseFitsArch |
| src/App.tsx:334 | the base-height input is named "soubassementHeight" while it shows and should edit `baseHeight`, the field both renderers read (lines 445 and 480) | typing 120 into the base-height input: `baseHeight` stays 80 | the input named "baseHeight" | high; not executed | App.BaseHeightInputAsWritten, App.BaseHeightInputAsWrittenIgnored | App.BaseHeightInput, App.BaseHeightInputSetsBaseHeight |
