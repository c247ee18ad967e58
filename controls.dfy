/**
  The keyboard- and trackbar-driven control state of the light-spot tracker:
  the image selection indices, the morphological operation sizes with their
  odd-size cleanup, and the boolean switches toggled from the keyboard.

  The globals form one `Settings` value; the `Controller` class holds them as
  fields and changes them one key, one trackbar move or one tracking pass at a
  time. Key codes are method arguments; the window system that produces them
  is not modelled.
*/
module Controls {

  const ImageIndexMax: int := 6
  const ImageSetIndexMax: int := 7
  const ErodeMax: int := 9
  const DilateMax: int := 9
  const BlurMax: int := 20

  // Key codes returned by the window system's key wait.
  const Escape: int := 27
  const KeyA: int := 97
  const KeyB: int := 98
  const KeyC: int := 99
  const KeyD: int := 100
  const KeyM: int := 109
  const KeyP: int := 112
  const KeyR: int := 114
  const KeyS: int := 115
  const KeyT: int := 116
  const KeyW: int := 119

  function Max(a: int, b: int): int
  {
    if a < b then b else a
  }

  /**
    The C++ `a % 2` on `int`: the quotient is truncated toward zero, so a
    non-zero remainder has the sign of the dividend.
  */
  function TruncRem2(a: int): (r: int)
    ensures -2 < r < 2
    ensures r == 0 || (r > 0 <==> a > 0)
    ensures (a - r) % 2 == 0
    ensures r == 0 <==> a % 2 == 0
  {
    if a < 0 then -((-a) % 2) else a % 2
  }

  // ------------------------------------------------------------- odd sizes

  /**
    What `setOdd` does to one size: a size whose C++ remainder by 2 is not 1
    is replaced. The cleaned size is a positive odd number no larger than the
    old size, or 1.
  */
  function MakeOdd(size: int): (r: int)
    ensures r >= 1 && IsOdd(r)
    ensures r <= Max(size, 1)
  {
    if !(TruncRem2(size) == 1) then (if size > 1 then size - 1 else 1) else size
  }

  predicate IsOdd(k: int)
  {
    k % 2 == 1
  }

  /** The cleaned size is the largest positive odd number not above `max(size, 1)`. */
  lemma MakeOddIsLargestOdd(size: int, k: int)
    requires k >= 1 && IsOdd(k) && k <= Max(size, 1)
    ensures k <= MakeOdd(size)
  {
    if size > 1 && TruncRem2(size) != 1 {
      assert TruncRem2(size) == 0;
      assert size % 2 == 0;
    }
  }

  /** The cases of the cleanup one by one: odd kept, even above 1 lowered by one, anything else 1. */
  lemma MakeOddCases(size: int)
    ensures size >= 1 && IsOdd(size) ==> MakeOdd(size) == size
    ensures size > 1 && !IsOdd(size) ==> MakeOdd(size) == size - 1
    ensures size <= 1 && !(size == 1) ==> MakeOdd(size) == 1
  {
    if size >= 1 {
      var r := TruncRem2(size);
      assert r == 0 || r == 1;
      assert IsOdd(size) <==> r == 1;
    }
  }

  lemma MakeOddIsIdempotent(size: int)
    ensures MakeOdd(MakeOdd(size)) == MakeOdd(size)
  {
    MakeOddCases(MakeOdd(size));
  }

  // ------------------------------------------------------- index stepping

  /** `i == n - 1 ? i = 0 : i++`. */
  function Forward(i: int, n: int): (r: int)
    ensures 0 <= i < n ==> 0 <= r < n
  {
    if i == n - 1 then 0 else i + 1
  }

  /** `i == 0 ? i = n - 1 : i--`. */
  function Back(i: int, n: int): (r: int)
    ensures 0 <= i < n ==> 0 <= r < n
  {
    if i == 0 then n - 1 else i - 1
  }

  /** On a valid index the two steps are successor and predecessor modulo `n`. */
  lemma StepsAreModular(i: int, n: int)
    requires 0 <= i < n
    ensures Forward(i, n) == (i + 1) % n
    ensures Back(i, n) == (i - 1) % n
  {
  }

  lemma ForwardBackAreInverse(i: int, n: int)
    requires 0 <= i < n
    ensures Back(Forward(i, n), n) == i
    ensures Forward(Back(i, n), n) == i
  {
  }

  // --------------------------------------------------------------- settings

  /** Which image of which image set is shown. */
  datatype View = View(imageIndex: int, imageSetIndex: int)

  /** The kernel sizes of the three image operations, each changed by its trackbar. */
  datatype Sizes = Sizes(erodeSize: int, dilateSize: int, blurStrength: int)

  /** The switches the keyboard toggles: whether each operation runs, and the HSV view. */
  datatype Switches = Switches(blurFrame: bool, erodeFrame: bool, dilateFrame: bool, showHSV: bool)

  /** The tracking mode chosen on the intro screen; `trackFrame` is never reassigned but guards the tracking pass. */
  datatype Mode = Mode(trackFrame: bool, colourTrack: bool, differenceTrack: bool)

  /** The control globals, grouped by what they control. */
  datatype Settings = Settings(view: View, sizes: Sizes, switches: Switches, mode: Mode, printCoordinates: bool)

  /** The initial values of the globals. */
  function Initial(): Settings
  {
    Settings(View(0, 0), Sizes(3, 3, 0), Switches(true, true, true, true), Mode(true, false, false), false)
  }

  /** A size as the image operations accept it: 0 (operation skipped) or odd, and at most its bar's maximum. */
  predicate SizeOk(size: int, max: int)
  {
    0 <= size <= max && (size == 0 || IsOdd(size))
  }

  predicate SizesInRange(z: Sizes)
  {
    && SizeOk(z.erodeSize, ErodeMax)
    && SizeOk(z.dilateSize, DilateMax)
    && SizeOk(z.blurStrength, BlurMax)
  }

  predicate ViewInRange(v: View)
  {
    0 <= v.imageIndex < ImageIndexMax && 0 <= v.imageSetIndex < ImageSetIndexMax
  }

  /** The ranges that the key and trackbar handlers keep. */
  predicate InRange(s: Settings)
  {
    ViewInRange(s.view) && SizesInRange(s.sizes)
  }

  lemma InitialIsInRange()
    ensures InRange(Initial())
    ensures !Initial().mode.colourTrack && !Initial().mode.differenceTrack
  {
  }

  // ------------------------------------------------------------------ setOdd

  /** What `setOdd` does to the sizes when called with a non-zero value. */
  function OddSizeTriple(z: Sizes): Sizes
  {
    Sizes(MakeOdd(z.erodeSize), MakeOdd(z.dilateSize), MakeOdd(z.blurStrength))
  }

  /**
    The trackbar callback `setOdd(val)`: a zero value changes nothing; any
    other value leaves every size odd and changes nothing but the sizes.
  */
  function OddSizes(s: Settings, val: int): (r: Settings)
    ensures val == 0 ==> r == s
    ensures val != 0 ==> IsOdd(r.sizes.erodeSize) && IsOdd(r.sizes.dilateSize) && IsOdd(r.sizes.blurStrength)
    ensures r.(sizes := s.sizes) == s
  {
    if val != 0 then s.(sizes := OddSizeTriple(s.sizes)) else s
  }

  lemma SetOddIsIdempotent(s: Settings, val: int)
    ensures OddSizes(OddSizes(s, val), val) == OddSizes(s, val)
  {
    MakeOddIsIdempotent(s.sizes.erodeSize);
    MakeOddIsIdempotent(s.sizes.dilateSize);
    MakeOddIsIdempotent(s.sizes.blurStrength);
  }

  /** No size rises above `max(old, 1)`, so each stays within its bar's maximum. */
  lemma SetOddKeepsRange(s: Settings, val: int)
    requires InRange(s)
    ensures InRange(OddSizes(s, val))
    ensures OddSizes(s, val).sizes.erodeSize <= Max(s.sizes.erodeSize, 1)
    ensures OddSizes(s, val).sizes.dilateSize <= Max(s.sizes.dilateSize, 1)
    ensures OddSizes(s, val).sizes.blurStrength <= Max(s.sizes.blurStrength, 1)
  {
  }

  /** The three trackbars that call `setOdd`. */
  datatype SizeBar = ErodeBar | DilateBar | BlurBar

  function BarMax(bar: SizeBar): int
  {
    match bar
    case ErodeBar => ErodeMax
    case DilateBar => DilateMax
    case BlurBar => BlurMax
  }

  /** The sizes once the trackbar `bar` has written `pos` into its variable. */
  function WithBar(z: Sizes, bar: SizeBar, pos: int): Sizes
  {
    match bar
    case ErodeBar => z.(erodeSize := pos)
    case DilateBar => z.(dilateSize := pos)
    case BlurBar => z.(blurStrength := pos)
  }

  /**
    Moving a size trackbar to `pos`: the trackbar writes `pos` into its
    variable and then calls `setOdd(pos)`.
  */
  function AfterSlide(s: Settings, bar: SizeBar, pos: int): (r: Settings)
    ensures r.(sizes := s.sizes) == s
  {
    OddSizes(s.(sizes := WithBar(s.sizes, bar, pos)), pos)
  }

  lemma SlideKeepsRange(s: Settings, bar: SizeBar, pos: int)
    requires InRange(s) && 0 <= pos <= BarMax(bar)
    ensures InRange(AfterSlide(s, bar, pos))
  {
  }

  /** Moving one bar to a non-zero position also turns a zero size on another bar into 1. */
  lemma SlideWakesZeroSizes(s: Settings, bar: SizeBar, pos: int)
    requires pos != 0 && s.sizes.blurStrength == 0 && bar != BlurBar
    ensures AfterSlide(s, bar, pos).sizes.blurStrength == 1
  {
    assert MakeOdd(0) == 1;
  }

  // --------------------------------------------------------------- the keys

  /** The intro screen: `c` selects colour tracking, any other key difference tracking; nothing else changes. */
  function WithMode(s: Settings, key: int): (r: Settings)
    ensures r.mode.colourTrack == (s.mode.colourTrack || key == KeyC)
    ensures r.mode.differenceTrack == (s.mode.differenceTrack || key != KeyC)
    ensures r.mode.trackFrame == s.mode.trackFrame
    ensures r.(mode := s.mode) == s
  {
    if key == KeyC then s.(mode := s.mode.(colourTrack := true))
    else s.(mode := s.mode.(differenceTrack := true))
  }

  /** Starting from no mode, exactly one mode is chosen. */
  lemma ChooseModeSelectsOne(s: Settings, key: int)
    requires !s.mode.colourTrack && !s.mode.differenceTrack
    ensures WithMode(s, key).mode.colourTrack <==> key == KeyC
    ensures WithMode(s, key).mode.differenceTrack <==> key != KeyC
    ensures WithMode(s, key).(mode := s.mode) == s
  {
  }

  /** The key codes the loop body tests. */
  predicate IsBound(key: int)
  {
    key in {KeyP, KeyW, KeyS, KeyA, KeyD, KeyR, KeyT, KeyB, KeyM}
  }

  /**
    The key tests of the loop body; the key codes are distinct, so at most
    one branch runs. No key touches the sizes or the tracking mode, and a key
    none of the tests match changes nothing.
  */
  function Dispatch(s: Settings, key: int): (r: Settings)
    ensures r.sizes == s.sizes && r.mode == s.mode
    ensures !IsBound(key) ==> r == s
  {
    var v, w := s.view, s.switches;
    if key == KeyP then s.(printCoordinates := true)
    else if key == KeyW then s.(view := View(1, Forward(v.imageSetIndex, ImageSetIndexMax)))
    else if key == KeyS then s.(view := View(1, Back(v.imageSetIndex, ImageSetIndexMax)))
    else if key == KeyA then s.(view := v.(imageIndex := Back(v.imageIndex, ImageIndexMax)))
    else if key == KeyD then s.(view := v.(imageIndex := Forward(v.imageIndex, ImageIndexMax)))
    else if key == KeyR then s.(switches := w.(erodeFrame := !w.erodeFrame))
    else if key == KeyT then s.(switches := w.(dilateFrame := !w.dilateFrame))
    else if key == KeyB then s.(switches := w.(blurFrame := !w.blurFrame))
    else if key == KeyM then s.(switches := w.(showHSV := !w.showHSV))
    else s
  }

  lemma DispatchKeepsRange(s: Settings, key: int)
    requires InRange(s)
    ensures InRange(Dispatch(s, key))
  {
  }

  /** Escape and the no-key code are not among the tested keys. */
  lemma EscapeIsUnbound()
    ensures !IsBound(Escape) && !IsBound(-1)
  {
  }

  /** `d` advances the image index with wrap-around, `a` steps it back, and each undoes the other. */
  lemma ImageKeys(s: Settings)
    requires InRange(s)
    ensures Dispatch(s, KeyD) == s.(view := s.view.(imageIndex := (s.view.imageIndex + 1) % ImageIndexMax))
    ensures Dispatch(s, KeyA) == s.(view := s.view.(imageIndex := (s.view.imageIndex - 1) % ImageIndexMax))
    ensures Dispatch(Dispatch(s, KeyA), KeyD) == s
    ensures Dispatch(Dispatch(s, KeyD), KeyA) == s
  {
    StepsAreModular(s.view.imageIndex, ImageIndexMax);
    ForwardBackAreInverse(s.view.imageIndex, ImageIndexMax);
  }

  /** `w` and `s` cycle the image set in opposite directions and both select image 1. */
  lemma ImageSetKeys(s: Settings)
    requires InRange(s)
    ensures Dispatch(s, KeyW) == s.(view := View(1, (s.view.imageSetIndex + 1) % ImageSetIndexMax))
    ensures Dispatch(s, KeyS) == s.(view := View(1, (s.view.imageSetIndex - 1) % ImageSetIndexMax))
    ensures Dispatch(Dispatch(s, KeyS), KeyW).view.imageSetIndex == s.view.imageSetIndex
    ensures Dispatch(Dispatch(s, KeyW), KeyS).view.imageSetIndex == s.view.imageSetIndex
  {
    StepsAreModular(s.view.imageSetIndex, ImageSetIndexMax);
    ForwardBackAreInverse(s.view.imageSetIndex, ImageSetIndexMax);
  }

  /** A flag key flips its own flag and nothing else; pressing it twice restores the settings. */
  lemma FlagKeysToggle(s: Settings)
    ensures Dispatch(s, KeyR) == s.(switches := s.switches.(erodeFrame := !s.switches.erodeFrame))
    ensures Dispatch(s, KeyT) == s.(switches := s.switches.(dilateFrame := !s.switches.dilateFrame))
    ensures Dispatch(s, KeyB) == s.(switches := s.switches.(blurFrame := !s.switches.blurFrame))
    ensures Dispatch(s, KeyM) == s.(switches := s.switches.(showHSV := !s.switches.showHSV))
    ensures forall key :: key in {KeyR, KeyT, KeyB, KeyM} ==> Dispatch(Dispatch(s, key), key) == s
  {
  }

  /** `p` only sets `printCoordinates`, and pressing it again changes nothing more. */
  lemma PrintKeySetsFlag(s: Settings)
    ensures Dispatch(s, KeyP) == s.(printCoordinates := true)
    ensures Dispatch(Dispatch(s, KeyP), KeyP) == Dispatch(s, KeyP)
  {
  }

  // ------------------------------------------------------- the key wait

  /** A size trackbar moved to `pos` by the user. */
  datatype Move = Move(bar: SizeBar, pos: int)

  /**
    What one key wait delivers: the trackbar moves whose callbacks run while
    it waits, then the key code it returns.
  */
  datatype Reading = Reading(moves: seq<Move>, key: int)

  /** The trackbar moves of one key wait, applied in order; only the sizes change. */
  function AfterMoves(s: Settings, ms: seq<Move>): (r: Settings)
    ensures r.(sizes := s.sizes) == s
    decreases |ms|
  {
    if |ms| == 0 then s else AfterMoves(AfterSlide(s, ms[0].bar, ms[0].pos), ms[1..])
  }

  /** Each position lies within its trackbar's range, as the window system keeps it. */
  predicate MovesInRange(ms: seq<Move>)
  {
    forall i :: 0 <= i < |ms| ==> 0 <= ms[i].pos <= BarMax(ms[i].bar)
  }

  lemma {:induction false} MovesKeepRange(s: Settings, ms: seq<Move>)
    requires InRange(s) && MovesInRange(ms)
    ensures InRange(AfterMoves(s, ms))
    decreases |ms|
  {
    if |ms| > 0 {
      SlideKeepsRange(s, ms[0].bar, ms[0].pos);
      assert MovesInRange(ms[1..]) by {
        forall i | 0 <= i < |ms[1..]|
          ensures 0 <= ms[1..][i].pos <= BarMax(ms[1..][i].bar)
        {
          assert ms[1..][i] == ms[i + 1];
        }
      }
      MovesKeepRange(AfterSlide(s, ms[0].bar, ms[0].pos), ms[1..]);
    }
  }

  // --------------------------------------------------------------- the loop

  /**
    The effect of one tracking pass on the control state: every tracking pass
    that reaches the spot search clears `printCoordinates` after printing,
    and nothing else changes.
  */
  function Track(s: Settings): (r: Settings)
    ensures r.(printCoordinates := s.printCoordinates) == s
    ensures (s.mode.colourTrack || s.mode.differenceTrack) && s.mode.trackFrame ==> !r.printCoordinates
  {
    if (s.mode.colourTrack || s.mode.differenceTrack) && s.mode.trackFrame then s.(printCoordinates := false) else s
  }

  /** Once a mode is chosen, coordinates are printed for exactly one pass after `p`. */
  lemma PrintIsOneShot(s: Settings)
    requires (s.mode.colourTrack || s.mode.differenceTrack) && s.mode.trackFrame
    ensures Dispatch(s, KeyP).printCoordinates
    ensures !Track(Dispatch(s, KeyP)).printCoordinates
    ensures Track(Dispatch(s, KeyP)) == Track(s)
  {
  }

  /** One pass of the loop body: tracking, the key wait with its trackbar moves, the key tests. */
  function Step(s: Settings, r: Reading): Settings
  {
    Dispatch(AfterMoves(Track(s), r.moves), r.key)
  }

  /**
    The loop from its test with `input` to the last test reached within the
    supplied key waits `rest`: while `input` is not escape, one pass runs
    and its key becomes the next `input`. The tracking mode never changes,
    and an escape stops the loop at once.
  */
  function Loop(s: Settings, input: int, rest: seq<Reading>): (r: Settings)
    ensures r.mode == s.mode
    ensures input == Escape ==> r == s
    decreases |rest|
  {
    if input == Escape || |rest| == 0 then s
    else Loop(Step(s, rest[0]), rest[0].key, rest[1..])
  }

  predicate ReadingsInRange(rest: seq<Reading>)
  {
    forall i :: 0 <= i < |rest| ==> MovesInRange(rest[i].moves)
  }

  lemma {:induction false} LoopKeepsRange(s: Settings, input: int, rest: seq<Reading>)
    requires InRange(s) && ReadingsInRange(rest)
    ensures InRange(Loop(s, input, rest))
    decreases |rest|
  {
    if input != Escape && |rest| > 0 {
      StepKeepsRange(s, rest[0]);
      assert ReadingsInRange(rest[1..]) by {
        forall i | 0 <= i < |rest[1..]|
          ensures MovesInRange(rest[1..][i].moves)
        {
          assert rest[1..][i] == rest[i + 1];
        }
      }
      LoopKeepsRange(Step(s, rest[0]), rest[0].key, rest[1..]);
    }
  }

  /** Some key wait among `rest` returns escape. */
  predicate ReadsEscape(rest: seq<Reading>)
  {
    exists i :: 0 <= i < |rest| && rest[i].key == Escape
  }

  lemma ReadsEscapeFirstOrLater(rest: seq<Reading>)
    requires |rest| > 0
    ensures ReadsEscape(rest) <==> rest[0].key == Escape || ReadsEscape(rest[1..])
  {
    if ReadsEscape(rest) && rest[0].key != Escape {
      var i :| 0 <= i < |rest| && rest[i].key == Escape;
      assert rest[1..][i - 1].key == Escape;
    }
    if ReadsEscape(rest[1..]) {
      var i :| 0 <= i < |rest[1..]| && rest[1..][i].key == Escape;
      assert rest[i + 1].key == Escape;
    }
  }

  /** One pass of the loop body keeps the state in range when its trackbar moves are. */
  lemma StepKeepsRange(s: Settings, r: Reading)
    requires InRange(s) && MovesInRange(r.moves)
    ensures InRange(Step(s, r))
  {
    MovesKeepRange(Track(s), r.moves);
    DispatchKeepsRange(AfterMoves(Track(s), r.moves), r.key);
  }

  /** Escape ends the loop at once; key waits after an escape never happen. */
  lemma {:induction false} LoopStopsAtEscape(s: Settings, input: int, rest: seq<Reading>, more: seq<Reading>)
    requires input == Escape || ReadsEscape(rest)
    ensures Loop(s, input, rest + more) == Loop(s, input, rest)
    decreases |rest|
  {
    if input != Escape {
      var i :| 0 <= i < |rest| && rest[i].key == Escape;
      assert (rest + more)[0] == rest[0];
      assert (rest + more)[1..] == rest[1..] + more;
      if rest[0].key != Escape {
        assert rest[1..][i - 1].key == Escape;
      }
      LoopStopsAtEscape(Step(s, rest[0]), rest[0].key, rest[1..], more);
    }
  }

  // ------------------------------------------------------------------ class

  /** The globals as the fields of one object; each handler changes them in place. */
  class Controller {
    var imageIndex: int
    var imageSetIndex: int
    var erodeSize: int
    var dilateSize: int
    var blurStrength: int
    var blurFrame: bool
    var erodeFrame: bool
    var dilateFrame: bool
    var trackFrame: bool
    var colourTrack: bool
    var differenceTrack: bool
    var printCoordinates: bool
    var showHSV: bool
    var input: int

    ghost function State(): Settings
      reads this
    {
      Settings(View(imageIndex, imageSetIndex), Sizes(erodeSize, dilateSize, blurStrength),
        Switches(blurFrame, erodeFrame, dilateFrame, showHSV), Mode(trackFrame, colourTrack, differenceTrack),
        printCoordinates)
    }

    /** The globals with their initial values. */
    constructor ()
      ensures State() == Initial() && input == 0
      ensures InRange(State())
    {
      imageIndex, imageSetIndex := 0, 0;
      erodeSize, dilateSize, blurStrength := 3, 3, 0;
      blurFrame, erodeFrame, dilateFrame, trackFrame := true, true, true, true;
      colourTrack, differenceTrack := false, false;
      printCoordinates, showHSV := false, true;
      input := 0;
    }

    /** The intro screen's key switch. */
    method ChooseMode(key: int)
      modifies this
      ensures State() == WithMode(old(State()), key) && input == old(input)
    {
      if key == KeyC {
        colourTrack := true;
      } else {
        differenceTrack := true;
      }
    }

    /** `setOdd(val)`. */
    method SetOdd(val: int)
      modifies this
      ensures State() == OddSizes(old(State()), val) && input == old(input)
    {
      if val != 0 {
        if !(TruncRem2(erodeSize) == 1) {
          erodeSize := if erodeSize > 1 then erodeSize - 1 else 1;
        }
        if !(TruncRem2(dilateSize) == 1) {
          dilateSize := if dilateSize > 1 then dilateSize - 1 else 1;
        }
        if !(TruncRem2(blurStrength) == 1) {
          blurStrength := if blurStrength > 1 then blurStrength - 1 else 1;
        }
      }
    }

    /** A size trackbar moved to `pos`: the position is stored, then `setOdd(pos)` runs. */
    method Slide(bar: SizeBar, pos: int)
      modifies this
      ensures State() == AfterSlide(old(State()), bar, pos) && input == old(input)
      ensures old(InRange(State())) && 0 <= pos <= BarMax(bar) ==> InRange(State())
    {
      if InRange(State()) && 0 <= pos <= BarMax(bar) {
        SlideKeepsRange(State(), bar, pos);
      }
      match bar {
        case ErodeBar => erodeSize := pos;
        case DilateBar => dilateSize := pos;
        case BlurBar => blurStrength := pos;
      }
      SetOdd(pos);
    }

    /** A key wait: the callbacks of the trackbar moves run in order, then the key code is returned. */
    method WaitKey(r: Reading) returns (key: int)
      modifies this
      ensures State() == AfterMoves(old(State()), r.moves) && input == old(input) && key == r.key
      ensures old(InRange(State())) && MovesInRange(r.moves) ==> InRange(State())
    {
      ghost var start := State();
      var j := 0;
      while j < |r.moves|
        invariant 0 <= j <= |r.moves|
        invariant AfterMoves(start, r.moves) == AfterMoves(State(), r.moves[j..])
        invariant input == old(input)
        invariant InRange(start) && MovesInRange(r.moves) ==> InRange(State())
        decreases |r.moves| - j
      {
        Slide(r.moves[j].bar, r.moves[j].pos);
        assert r.moves[j..][1..] == r.moves[j + 1..];
        j := j + 1;
      }
      key := r.key;
    }

    method PressP()
      modifies this
      ensures State() == Dispatch(old(State()), KeyP) && input == old(input)
    {
      printCoordinates := true;
    }

    method PressW()
      modifies this
      ensures State() == Dispatch(old(State()), KeyW) && input == old(input)
    {
      if imageSetIndex == ImageSetIndexMax - 1 {
        imageSetIndex := 0;
      } else {
        imageSetIndex := imageSetIndex + 1;
      }
      imageIndex := 1;
    }

    method PressS()
      modifies this
      ensures State() == Dispatch(old(State()), KeyS) && input == old(input)
    {
      if imageSetIndex == 0 {
        imageSetIndex := ImageSetIndexMax - 1;
      } else {
        imageSetIndex := imageSetIndex - 1;
      }
      imageIndex := 1;
    }

    method PressA()
      modifies this
      ensures State() == Dispatch(old(State()), KeyA) && input == old(input)
    {
      if imageIndex == 0 {
        imageIndex := ImageIndexMax - 1;
      } else {
        imageIndex := imageIndex - 1;
      }
    }

    method PressD()
      modifies this
      ensures State() == Dispatch(old(State()), KeyD) && input == old(input)
    {
      if imageIndex == ImageIndexMax - 1 {
        imageIndex := 0;
      } else {
        imageIndex := imageIndex + 1;
      }
    }

    method PressR()
      modifies this
      ensures State() == Dispatch(old(State()), KeyR) && input == old(input)
    {
      erodeFrame := !erodeFrame;
    }

    method PressT()
      modifies this
      ensures State() == Dispatch(old(State()), KeyT) && input == old(input)
    {
      dilateFrame := !dilateFrame;
    }

    method PressB()
      modifies this
      ensures State() == Dispatch(old(State()), KeyB) && input == old(input)
    {
      blurFrame := !blurFrame;
    }

    method PressM()
      modifies this
      ensures State() == Dispatch(old(State()), KeyM) && input == old(input)
    {
      showHSV := !showHSV;
    }

    /** The key tests of the loop body, in the order written. */
    method HandleKey(key: int)
      modifies this
      ensures State() == Dispatch(old(State()), key) && input == old(input)
    {
      if key == KeyP { PressP(); }
      if key == KeyW { PressW(); }
      if key == KeyS { PressS(); }
      if key == KeyA { PressA(); }
      if key == KeyD { PressD(); }
      if key == KeyR { PressR(); }
      if key == KeyT { PressT(); }
      if key == KeyB { PressB(); }
      if key == KeyM { PressM(); }
    }

    /** The part of a tracking pass that touches the control state. */
    method TrackingPass()
      modifies this
      ensures State() == Track(old(State())) && input == old(input)
    {
      if colourTrack && trackFrame {
        if printCoordinates { printCoordinates := !printCoordinates; }
      }
      if differenceTrack && trackFrame {
        if printCoordinates { printCoordinates := !printCoordinates; }
      }
    }

    /**
      The key wait before the loop (`first`), whose key is only tested, and
      the loop over the key waits inside it (`waits`). It stops at an escape
      or when the supplied key waits run out.
    */
    method Run(first: Reading, waits: seq<Reading>) returns (escaped: bool)
      modifies this
      ensures State() == Loop(AfterMoves(old(State()), first.moves), first.key, waits)
      ensures escaped <==> first.key == Escape || ReadsEscape(waits)
      ensures old(InRange(State())) && MovesInRange(first.moves) && ReadingsInRange(waits) ==> InRange(State())
    {
      ghost var inRange := InRange(State()) && MovesInRange(first.moves) && ReadingsInRange(waits);
      var k := WaitKey(first);
      input := k;
      ghost var entry := State();
      var i := 0;
      while input != Escape && i < |waits|
        invariant 0 <= i <= |waits|
        invariant input == if i == 0 then first.key else waits[i - 1].key
        invariant Loop(entry, first.key, waits) == Loop(State(), input, waits[i..])
        invariant (first.key == Escape || ReadsEscape(waits)) <==> (input == Escape || ReadsEscape(waits[i..]))
        invariant inRange ==> InRange(State())
        decreases |waits| - i
      {
        ghost var before := State();
        TrackingPass();
        k := WaitKey(waits[i]);
        input := k;
        HandleKey(input);
        assert waits[i..][1..] == waits[i + 1..];
        ReadsEscapeFirstOrLater(waits[i..]);
        if inRange {
          StepKeepsRange(before, waits[i]);
        }
        i := i + 1;
      }
      escaped := input == Escape;
    }
  }
}
