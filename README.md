# Passive structured light: geometry kernel and control state

This project models two self-contained parts of the light-spot tracker and
proves properties of them.

- **The `Vector3D` kernel** (`geometry.dfy`, module `Geometry`). It covers the
  component-wise operators, dot and cross product, length, in-place and
  copying normalisation, reflection about a normal that the kernel
  normalises itself, and the yaw, roll and pitch rotations with their
  snap-to-zero cleanup (threshold `min = 1e-7`). It also covers the
  roll, then pitch, then yaw composition that the rotation test performs.
  - Components are mathematical reals.
  - `sqrtf` is replaced by an explicit length argument `l` with
    `IsLength(v, l)`, meaning `l >= 0` and `l * l` equals the squared
    length. `LengthIsUnique` shows that this argument is determined by the
    vector.
  - `cos` and `sin` are given with the angle as `Angle(radians, cos, sin)`.
    `Valid()` demands `cos² + sin² = 1`, and cosine 1 and sine 0 at angle 0.
  - The value type `Point3D` is the whole state of a vector. The class
    `Vector3D` holds it in its public field `p`. Only `Normalize` writes
    that field; the other operations are functions of the value.
- **The control state of the tracking loop** (`controls.dfy`, module
  `Controls`).
  - The globals are grouped into a `Settings` value: which image is shown,
    the three operation sizes, the keyboard switches, the tracking mode and
    the print request.
  - The class `Controller` holds the same globals as fields. It has one
    method per key, `SetOdd` for the trackbar callback, `Slide` for a
    trackbar move, `WaitKey` for a key wait with the trackbar moves handled
    during it, the intro-screen `ChooseMode`, the part of a tracking
    pass that touches the control state, and `Run` for the main loop.
  - Each method's contract ties the new state to a function of the old
    (`Dispatch`, `OddSizes`, `AfterSlide`, `AfterMoves`, `WithMode`, `Track`, `Loop`).
    The lemmas state the source's promises about those functions.

Key codes and trackbar positions, and the trackbar moves handled during
each key wait, are method arguments. The window system that produces them is not modelled.

## Model

| member | source | states |
|---|---|---|
| Geometry.Neg | Code/Geometry.cpp:288-291 | `v + (-v)` is the zero vector |
| Geometry.NegIsInvolution | Code/Geometry.cpp:288-291 | negating twice gives the vector back |
| Geometry.Times | Code/Geometry.cpp:293-302 | scaling by 1 changes nothing; scaling by 0, or scaling the zero vector, gives the zero vector |
| Geometry.ScalingIsUndone | Code/Geometry.cpp:293-302 | scaling by a non-zero `k` and then by `1/k` gives the vector back |
| Geometry.Divide | Code/Geometry.cpp:304-307 | for a non-zero divisor, the quotient scaled back by the divisor is the original vector |
| Geometry.DivideIsTimesReciprocal | Code/Geometry.cpp:304-307 | dividing by `k` is every component scaled by `1/k` |
| Geometry.Minus | Code/Geometry.cpp:309-312 | `a - b == a + (-b)`, and adding `b` back gives `a` |
| Geometry.Plus | Code/Geometry.cpp:314-317 | the zero vector is an identity on either side |
| Geometry.PlusIsCommutativeAndAssociative | Code/Geometry.cpp:314-317 | `a + b == b + a` and `(a + b) + c == a + (b + c)` |
| Geometry.Equal | Code/Geometry.cpp:319-322 | `==` holds exactly when the two component triples are equal |
| Geometry.BitwiseOr | Code/Geometry.cpp:326 | the bitwise or of two `bool`s promoted to `int` is their logical or |
| Geometry.NotEqual | Code/Geometry.cpp:324-327 | `!=` as written, mixing a logical or with a bitwise or, is exactly the negation of `==` |
| Geometry.Dot | Code/Geometry.cpp:127-130 | the dot product with the zero vector, on either side, is 0 |
| Geometry.DotOfSelfIsLengthSq | Code/Geometry.cpp:127-130 | `v · v` is the squared length whose root `length` takes |
| Geometry.DotIsSymmetric | Code/Geometry.cpp:127-130 | `a · b == b · a` |
| Geometry.Cross | Code/Geometry.cpp:135-145 | the cross product is orthogonal to both inputs |
| Geometry.CrossIsAntiCommutative | Code/Geometry.cpp:135-145 | `a × b == -(b × a)` |
| Geometry.CrossOfSelfIsZero | Code/Geometry.cpp:135-145 | `a × a` is the zero vector |
| Geometry.ProductExamples | Code/Geometry.cpp:127-145 | `(1,2,3)·(4,5,6) = 32` and `(1,0,0)×(0,1,0) = (0,0,1)` |
| Geometry.LengthSqIsPositive | Code/Geometry.cpp:150-153 | the argument of `sqrtf` is never negative, and is 0 only for the zero vector |
| Geometry.LengthIsUnique | Code/Geometry.cpp:150-153 | two non-negative square roots of the squared length are equal, so `length` is determined |
| Geometry.LengthIsZeroIffZeroVector | Code/Geometry.cpp:150-153 | the length is 0 exactly for the zero vector |
| Geometry.Normalized | Code/Geometry.cpp:170-181 | the normalised vector has length 1, and scaling it by the old length gives the vector back |
| Geometry.UnitAfterDivision | Code/Geometry.cpp:162-164 | dividing each component by the length gives squared length 1 and loses nothing |
| Geometry.NormalizedUnitIsItself | Code/Geometry.cpp:158-165 | normalising a unit vector leaves it unchanged |
| Geometry.Vector3D.constructor | Code/Geometry.cpp:108-111 | the default vector is `(0,0,0)` |
| Geometry.Vector3D.FromComponents | Code/Geometry.cpp:116-119 | the three arguments are stored unvalidated |
| Geometry.Vector3D.Normalize | Code/Geometry.cpp:158-165 | the receiver is overwritten with its normalised value (length 1, same direction) |
| Geometry.Vector3D.GetNormalized | Code/Geometry.cpp:170-181 | returns the same value `Normalize` would store, leaving the receiver unchanged |
| Geometry.Vector3D.Reflect | Code/Geometry.h:42 | returns the reflection about a normalised copy of `normal`; receiver and caller's normal untouched; squared length preserved |
| Geometry.Reflected | Code/Geometry.cpp:186-199 | the component along the normalised normal is negated and the squared length is preserved |
| Geometry.ReflectionFacts | Code/Geometry.cpp:192-196 | for a unit normal, `v - 2(v·n)n` has dot product `-(v·n)` with `n` and the same squared length as `v` |
| Geometry.MirrorUnitIsInvolution | Code/Geometry.cpp:196 | reflecting twice about a unit normal gives the vector back |
| Geometry.ReflectIsInvolution | Code/Geometry.cpp:186-199 | reflecting the result again about the same normal gives back the original vector |
| Geometry.MirrorUnitKeepsOrthogonal | Code/Geometry.cpp:196 | the dot product with any vector orthogonal to a unit normal is kept |
| Geometry.ReflectKeepsOrthogonalPart | Code/Geometry.cpp:186-199 | for any `w` orthogonal to the normal, `reflect(v)·w == v·w` |
| Geometry.ReflectReversesNormal | Code/Geometry.cpp:186-199 | a vector equal to minus a unit normal is sent back onto the normal |
| Geometry.ReflectExample | Code/Geometry.cpp:186-199 | `(0,-1,0)` reflected about `(0,1,0)` is `(0,1,0)` |
| Geometry.Angle.Inverse | Code/Geometry.cpp:204-274 | the opposite angle of a valid angle is valid |
| Geometry.Snap | Code/Geometry.cpp:219-221 | a snapped component is 0 or has magnitude at least `min`; it moves by less than `min`; magnitudes of at least `min` are kept |
| Geometry.SnapAll | Code/Geometry.cpp:219-221 | every component ends exactly 0 or of magnitude at least `min`, within `min` of its value before; an already-snapped vector is unchanged |
| Geometry.RotateYaw | Code/Geometry.cpp:204-224 | z is only snapped; the result is snapped and within `min` of the exact rotation about Z |
| Geometry.RotateRoll | Code/Geometry.cpp:229-249 | x is only snapped; the result is snapped and within `min` of the exact rotation about X |
| Geometry.RotatePitch | Code/Geometry.cpp:254-274 | y is only snapped; the result is snapped and within `min` of the exact rotation about Y |
| Geometry.PlaneRotationPreservesLength | Code/Geometry.cpp:215-216 | a plane rotation with `c²+s²=1` keeps the squared length of the pair |
| Geometry.PlaneRotationInverse | Code/Geometry.cpp:215-216 | rotating by `(c,s)` and then by `(c,-s)` restores the pair |
| Geometry.YawMatrixIsRotation | Code/Geometry.cpp:215-217 | before snapping, yaw preserves squared length and the opposite angle undoes it |
| Geometry.RollMatrixIsRotation | Code/Geometry.cpp:240-242 | before snapping, roll preserves squared length and the opposite angle undoes it |
| Geometry.PitchMatrixIsRotation | Code/Geometry.cpp:265-267 | before snapping, pitch preserves squared length and the opposite angle undoes it |
| Geometry.ZeroAngleOnlySnaps | Code/Geometry.cpp:204-274 | a rotation by angle 0 only applies the snap-to-zero cleanup |
| Geometry.YawQuarterTurn | Code/Geometry.cpp:204-224 | a quarter turn of yaw whose computed cosine is a residue below `min` in magnitude takes `(1,0,0)` to `(c,1,0)` before cleanup and to exactly `(0,1,0)` after it |
| Geometry.EulerRotate | Code/Geometry.cpp:89-92 | when no angle exceeds `min` in magnitude the vector is returned unchanged; once any axis is applied, every component is exactly 0 or of magnitude at least `min` |
| Geometry.EulerOrder | Code/Geometry.cpp:89-92 | when all three angles apply, the result is yaw of pitch of roll |
| Geometry.TestRotation | Code/Geometry.cpp:89-92 | the step-by-step reassignment of `rotated` computes the roll, pitch, yaw composition with the strict `> min` skips |
| Controls.TruncRem2 | Code/main.cpp:529 | C++ `% 2`: magnitude below 2, sign of the dividend, congruent to the dividend, zero exactly for even numbers |
| Controls.MakeOdd | Code/main.cpp:529-541 | a cleaned size is odd, at least 1 and at most `max(old, 1)` |
| Controls.MakeOddIsLargestOdd | Code/main.cpp:529-531 | a cleaned size is the largest positive odd number not above `max(old, 1)` |
| Controls.MakeOddCases | Code/main.cpp:529-531 | an odd size is kept, an even size above 1 drops by exactly 1, and 0 or a negative size becomes 1 |
| Controls.MakeOddIsIdempotent | Code/main.cpp:529-531 | cleaning a size twice is the same as once |
| Controls.Forward | Code/main.cpp:268 | stepping forward keeps an index in `[0, n)` |
| Controls.Back | Code/main.cpp:266 | stepping back keeps an index in `[0, n)` |
| Controls.StepsAreModular | Code/main.cpp:265-268 | on a valid index the steps are `(i + 1) mod n` and `(i - 1) mod n` |
| Controls.ForwardBackAreInverse | Code/main.cpp:265-268 | each step undoes the other |
| Controls.InitialIsInRange | Code/main.cpp:66-68 | the initial indices and sizes are within their ranges, and no tracking mode is chosen yet |
| Controls.OddSizes | Code/main.cpp:525-544 | `setOdd(0)` changes nothing; with a non-zero value all three sizes end odd; nothing but the sizes ever changes |
| Controls.SetOddIsIdempotent | Code/main.cpp:527-543 | calling `setOdd` twice is the same as once |
| Controls.SetOddKeepsRange | Code/main.cpp:529-542 | no size rises above `max(old, 1)`, so sizes stay within `erodeMax`, `dilateMax`, `blurMax` |
| Controls.AfterSlide | Code/main.cpp:462-464 | a size trackbar move, stored and followed by `setOdd`, changes only the sizes |
| Controls.SlideKeepsRange | Code/main.cpp:429-431 | moving any size trackbar within its range and then calling `setOdd` keeps every range |
| Controls.SlideWakesZeroSizes | Code/main.cpp:462-464 | a non-zero move of another bar turns a zero blur strength into 1, because `setOdd` cleans all three sizes |
| Controls.WithMode | Code/main.cpp:227-238 | `c` adds colour tracking, any other key difference tracking; the frame-tracking switch and everything outside the mode are unchanged |
| Controls.ChooseModeSelectsOne | Code/main.cpp:227-238 | `c` selects colour tracking, any other key difference tracking, and nothing else changes |
| Controls.Dispatch | Code/main.cpp:250-284 | no key touches the sizes or the tracking mode, and a key none of the tests match leaves the state unchanged |
| Controls.DispatchKeepsRange | Code/main.cpp:253-268 | after any key both image indices are still within their ranges |
| Controls.EscapeIsUnbound | Code/main.cpp:243-284 | escape and the no-key code `-1` match no key test |
| Controls.ImageKeys | Code/main.cpp:264-268 | `d` advances the image index modulo `imageIndexMax`, `a` steps it back, and each undoes the other |
| Controls.ImageSetKeys | Code/main.cpp:253-262 | `w` and `s` cycle the image set in opposite directions modulo `imageSetIndexMax`, both select image 1, and each undoes the other's set change |
| Controls.FlagKeysToggle | Code/main.cpp:270-284 | `r`, `t`, `b`, `m` each flip only their own switch, and pressing the same key twice restores the state |
| Controls.PrintKeySetsFlag | Code/main.cpp:251 | `p` only sets the print request, and pressing it again changes nothing more |
| Controls.AfterMoves | Code/main.cpp:248 | the trackbar callbacks run during one key wait change only the sizes |
| Controls.MovesKeepRange | Code/main.cpp:462-464 | trackbar moves within their bars' ranges keep every size within its range |
| Controls.Track | Code/main.cpp:519 | a tracking pass changes only the print request, and clears it whenever a mode is chosen and frame tracking is on |
| Controls.PrintIsOneShot | Code/main.cpp:519 | once a mode is chosen, the print request set by `p` is cleared by the following tracking pass |
| Controls.Loop | Code/main.cpp:243-285 | the loop never changes the tracking mode, and an escape read before it leaves the state as it is |
| Controls.StepKeepsRange | Code/main.cpp:245-284 | one pass of the loop body, with its trackbar moves in range, keeps every range |
| Controls.LoopKeepsRange | Code/main.cpp:243-285 | the whole loop, including the trackbar moves handled during each key wait, keeps indices and sizes within their ranges when the moves are within their bars |
| Controls.LoopStopsAtEscape | Code/main.cpp:243 | the loop ends at the first escape; keys after it are never read |
| Controls.Controller.constructor | Code/main.cpp:77-80 | the globals start with their declared values, which are within range |
| Controls.Controller.ChooseMode | Code/main.cpp:227-238 | the intro switch, including the `default` that falls through to the `m` case |
| Controls.Controller.SetOdd | Code/main.cpp:525-544 | the three guarded reassignments compute `OddSizes` |
| Controls.Controller.Slide | Code/main.cpp:429-431 | a trackbar move stores the position and runs `setOdd` (the state becomes `AfterSlide`); a position within its bar keeps every range |
| Controls.Controller.WaitKey | Code/main.cpp:248 | a key wait runs the callbacks of its trackbar moves in order (the state becomes `AfterMoves`), keeps ranges when the moves are within their bars, and returns its key |
| Controls.Controller.PressP | Code/main.cpp:251 | key `p` sets the print request |
| Controls.Controller.PressW | Code/main.cpp:254-257 | key `w` advances the image set with wrap-around and selects image 1 |
| Controls.Controller.PressS | Code/main.cpp:258-262 | key `s` steps the image set back with wrap-around and selects image 1 |
| Controls.Controller.PressA | Code/main.cpp:265-266 | key `a` steps the image index back with wrap-around |
| Controls.Controller.PressD | Code/main.cpp:267-268 | key `d` advances the image index with wrap-around |
| Controls.Controller.PressR | Code/main.cpp:271-272 | key `r` toggles erosion |
| Controls.Controller.PressT | Code/main.cpp:275-276 | key `t` toggles dilation |
| Controls.Controller.PressB | Code/main.cpp:279-280 | key `b` toggles blurring |
| Controls.Controller.PressM | Code/main.cpp:283-284 | key `m` toggles the HSV view |
| Controls.Controller.HandleKey | Code/main.cpp:250-284 | the sequence of key tests has the effect of `Dispatch` |
| Controls.Controller.TrackingPass | Code/main.cpp:519 | a tracking pass clears the print request whenever the spot search runs |
| Controls.Controller.Run | Code/main.cpp:240-285 | the final state is `Loop` of the state after the first key wait; it reports escape exactly when some key wait returned escape; ranges are kept when every move is within its bar |

## Left out

- Floating point: components are reals. IEEE rounding, `float` width, and the NaN or infinity that a zero length or a zero divisor would produce are not modelled. A non-zero length or divisor is a precondition instead.
- `sqrtf`, `cos` and `sin` are not computed. A length is passed with `IsLength`, and an angle carries its cosine and sine.
- The `PI` constant and the degree-to-radian conversion (Code/Geometry.cpp:17, 84-86) are left out; they only matter with real trigonometry.
- Console I/O: `print`, `inputVector`, `runGeometryCalculations`, and the prompts and output of `testReflection` and `testRotation`.
- Reflection has no snap-to-zero cleanup (Code/Geometry.cpp:186-199), and the model has none either.
- `Code/MorphOps.cpp` and `Code/MorphOps.h` are not part of this model. They wrap image operations whose behaviour is not visible.
- The image processing of `trackByColour`, `trackByDifference` and `trackThresholdPixels` is not modelled: thresholding, contours, moments, drawing and printing. Each tracking pass is reduced to its one effect on the control state, the reset of `printCoordinates` at Code/main.cpp:519.
- Windows, trackbar creation, `printHSV`, `onMouse`, `VideoCapture` and `imread` are left out, along with `intToString` and the `imageNames` table.
- `waitKey` is not computed. Its results are method arguments: the intro key and, for the key wait before the loop and each one inside it, a `Reading` of the size trackbar moves whose callbacks run during the wait and the key it returns.
- The hue, saturation, value and sensitivity trackbars have no callback and only write variables this model does not hold, so they are not among the moves.
- Controls.Controller.Run: the key waits are a finite sequence. When they run out before an escape, the method stops and reports that no escape was read; the program would keep waiting.
- Controls.Controller.Slide: it takes the window system to write the new position into the size variable before calling `setOdd`. Ranges are guaranteed only for a position within `[0, max]` of its bar, which the window system ensures.
- The source's `int` is 32 bits wide. No value here comes near that width, so wrap-around is not modelled.
