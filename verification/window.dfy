/**
  Window: the key and mouse-button tables filled by GLFW's callbacks, the
  first-mouse cursor logic, and the per-frame input step that turns held
  keys into camera commands. Window creation, the context and the camera's
  own arithmetic are outside the model; camera calls are recorded.
 */
module Windows {
  import Device

  const MaxKeys: nat := 1024
  const MaxMouseButtons: nat := 32

  /** GLFW action and key codes the window uses. */
  const Release: int := 0
  const Press: int := 1
  const KeyUnknown: int := -1
  const KeyEscape: nat := 256
  const KeyW: nat := 87
  const KeyS: nat := 83
  const KeyA: nat := 65
  const KeyD: nat := 68

  /** The initial cursor position: half the 800 x 600 screen. */
  const StartX: real := 400.0
  const StartY: real := 300.0

  datatype Direction = Forward | Backward | Left | Right

  /** What the window asks of its camera: a keyboard move, or a look by a cursor offset. */
  datatype CameraCall = Move(direction: Direction) | Look(xOffset: real, yOffset: real)

  datatype WindowState = WindowState(
    keys: seq<bool>,
    buttons: seq<bool>,
    firstMouse: bool,
    mouseX: real,
    mouseY: real,
    closing: bool,
    camera: seq<CameraCall>)

  /** A window whose tables have their declared sizes. */
  type Window = w: WindowState | |w.keys| == MaxKeys && |w.buttons| == MaxMouseButtons
    witness WindowState(Released(MaxKeys), Released(MaxMouseButtons), true, StartX, StartY, false, [])

  /** A table with nothing held. */
  function Released(n: nat): (t: seq<bool>)
    ensures |t| == n && forall i | 0 <= i < n :: !t[i]
  {
    seq(n, _ => false)
  }

  // ---------------------------------------------------------------------
  // Construction

  /**
    The constructor as written: the initialiser list sets the title, sizes,
    timing, camera, first-mouse flag and cursor, but not the two tables, so
    they hold whatever the memory held.
   */
  function NewAsWritten(keys: seq<bool>, buttons: seq<bool>): (r: Window)
    requires |keys| == MaxKeys && |buttons| == MaxMouseButtons
    ensures r.keys == keys && r.buttons == buttons
    ensures r.firstMouse && r.mouseX == StartX && r.mouseY == StartY && !r.closing && r.camera == []
  {
    WindowState(keys, buttons, true, StartX, StartY, false, [])
  }

  /** The constructor with both tables cleared. */
  function New(): (r: Window)
    ensures forall k | 0 <= k < MaxKeys :: !r.keys[k]
    ensures forall b | 0 <= b < MaxMouseButtons :: !r.buttons[b]
    ensures r == NewAsWritten(r.keys, r.buttons)
  {
    NewAsWritten(Released(MaxKeys), Released(MaxMouseButtons))
  }

  // ---------------------------------------------------------------------
  // Queries

  /** The result of reading a table entry: its value, or a read one past the end. */
  datatype Read = Read(value: bool) | OutOfBounds

  /** The guard as written: only codes strictly above the table size are refused, so the size itself is read. */
  function ReadAsWritten(table: seq<bool>, code: Device.Uint): (r: Read)
    ensures r.OutOfBounds? <==> code == |table|
    ensures code > |table| ==> r == Read(false)
  {
    if code > |table| then Read(false)
    else if code < |table| then Read(table[code])
    else OutOfBounds
  }

  /** The guard with the bound the table needs. */
  function ReadChecked(table: seq<bool>, code: Device.Uint): (r: bool)
    ensures r ==> code < |table|
    ensures code != |table| ==> ReadAsWritten(table, code) == Read(r)
  {
    if code >= |table| then false else table[code]
  }

  function IsKeyPressedAsWritten(w: Window, keycode: Device.Uint): (r: Read)
    ensures r.OutOfBounds? <==> keycode == MaxKeys
  {
    ReadAsWritten(w.keys, keycode)
  }

  function IsKeyPressed(w: Window, keycode: Device.Uint): (r: bool)
    ensures r <==> keycode < MaxKeys && w.keys[keycode]
  {
    ReadChecked(w.keys, keycode)
  }

  function IsMouseButtonPressedAsWritten(w: Window, button: Device.Uint): (r: Read)
    ensures r.OutOfBounds? <==> button == MaxMouseButtons
  {
    ReadAsWritten(w.buttons, button)
  }

  function IsMouseButtonPressed(w: Window, button: Device.Uint): (r: bool)
    ensures r <==> button < MaxMouseButtons && w.buttons[button]
  {
    ReadChecked(w.buttons, button)
  }

  /** Both queries agree with the written guard everywhere except at the table size, where the written one reads past the end. */
  lemma QueriesAgreeBelowBound(w: Window, code: Device.Uint)
    ensures code != MaxKeys <==> IsKeyPressedAsWritten(w, code) == Read(IsKeyPressed(w, code))
    ensures code != MaxMouseButtons <==> IsMouseButtonPressedAsWritten(w, code) == Read(IsMouseButtonPressed(w, code))
  {
  }

  // ---------------------------------------------------------------------
  // Callbacks

  /** The result of a callback: the updated window, or a write outside the table. */
  datatype Outcome = Done(w: Window) | OutOfBoundsWrite(index: int)

  /** Storing one entry as written: the index GLFW passes is used unchecked. */
  function StoreAsWritten(table: seq<bool>, index: int, action: int): (r: Device.Option<seq<bool>>)
    ensures r.Some? <==> 0 <= index < |table|
    ensures r.Some? ==> |r.value| == |table| && r.value[index] == (action != Release)
    ensures r.Some? ==> forall i | 0 <= i < |table| && i != index :: r.value[i] == table[i]
  {
    if 0 <= index < |table| then Device.Some(table[index := action != Release]) else Device.None
  }

  /** key_callback as written: a key code outside 0..1023 (GLFW reports unidentified keys as -1) is written anyway. */
  function KeyCallbackAsWritten(w: Window, key: int, action: int): (r: Outcome)
    ensures r.OutOfBoundsWrite? <==> !(0 <= key < MaxKeys)
    ensures r.Done? ==> r.w == w.(keys := r.w.keys)
  {
    match StoreAsWritten(w.keys, key, action)
    case None => OutOfBoundsWrite(key)
    case Some(keys) => Done(w.(keys := keys))
  }

  /** key_callback with codes outside the table ignored. */
  function KeyCallback(w: Window, key: int, action: int): (r: Window)
    ensures 0 <= key < MaxKeys ==> r.keys[key] == (action != Release)
    ensures forall k | 0 <= k < MaxKeys && k != key :: r.keys[k] == w.keys[k]
    ensures r == w.(keys := r.keys)
    ensures 0 <= key < MaxKeys ==> KeyCallbackAsWritten(w, key, action) == Done(r)
  {
    match StoreAsWritten(w.keys, key, action)
    case None => w
    case Some(keys) => w.(keys := keys)
  }

  function MouseButtonCallbackAsWritten(w: Window, button: int, action: int): (r: Outcome)
    ensures r.OutOfBoundsWrite? <==> !(0 <= button < MaxMouseButtons)
    ensures r.Done? ==> r.w == w.(buttons := r.w.buttons)
  {
    match StoreAsWritten(w.buttons, button, action)
    case None => OutOfBoundsWrite(button)
    case Some(buttons) => Done(w.(buttons := buttons))
  }

  function MouseButtonCallback(w: Window, button: int, action: int): (r: Window)
    ensures 0 <= button < MaxMouseButtons ==> r.buttons[button] == (action != Release)
    ensures forall b | 0 <= b < MaxMouseButtons && b != button :: r.buttons[b] == w.buttons[b]
    ensures r == w.(buttons := r.buttons)
    ensures 0 <= button < MaxMouseButtons ==> MouseButtonCallbackAsWritten(w, button, action) == Done(r)
  {
    match StoreAsWritten(w.buttons, button, action)
    case None => w
    case Some(buttons) => w.(buttons := buttons)
  }

  /** A key event is what the next query sees: pressed unless the action was a release, and no other key moves. */
  lemma KeyEventThenQuery(w: Window, key: Device.Uint, other: Device.Uint, action: int)
    requires key < MaxKeys && other != key
    ensures IsKeyPressed(KeyCallback(w, key, action), key) <==> action != Release
    ensures IsKeyPressed(KeyCallback(w, key, action), other) == IsKeyPressed(w, other)
  {
  }

  /** GLFW's code for an unidentified key makes the written callback store before the table. */
  lemma UnknownKeyWritesOutside(w: Window, action: int)
    ensures KeyCallbackAsWritten(w, KeyUnknown, action) == OutOfBoundsWrite(-1)
    ensures KeyCallback(w, KeyUnknown, action) == w
  {
  }

  // ---------------------------------------------------------------------
  // Cursor

  /**
    mouse_position_callback: on the first event the stored position jumps to
    the cursor; the look offsets are measured from the stored position
    (y reversed) and the cursor becomes the stored position. The stored
    position is a float and the event's a double: `narrow` is the conversion.
   */
  function MousePosition(w: Window, mx: real, my: real, narrow: real -> real): (r: Window)
    ensures !r.firstMouse && r.mouseX == narrow(mx) && r.mouseY == narrow(my)
    ensures r.keys == w.keys && r.buttons == w.buttons && r.closing == w.closing
    ensures |r.camera| == |w.camera| + 1 && r.camera[..|w.camera|] == w.camera
    ensures r.camera[|w.camera|].Look?
  {
    var x0 := if w.firstMouse then narrow(mx) else w.mouseX;
    var y0 := if w.firstMouse then narrow(my) else w.mouseY;
    w.(firstMouse := false, mouseX := narrow(mx), mouseY := narrow(my),
       camera := w.camera + [Look(narrow(mx - x0), narrow(y0 - my))])
  }

  /** A conversion that keeps `x` and zero exactly. */
  predicate Exact(narrow: real -> real, x: real) {
    narrow(x) == x && narrow(0.0) == 0.0
  }

  /**
    The first cursor event looks nowhere: its offsets are zero whenever the
    position survives the conversion to float; otherwise they are the
    conversion's rounding error.
   */
  lemma FirstMouseLooksNowhere(w: Window, mx: real, my: real, narrow: real -> real)
    requires w.firstMouse
    ensures var r := MousePosition(w, mx, my, narrow);
            r.camera[|w.camera|] == Look(narrow(mx - narrow(mx)), narrow(narrow(my) - my))
    ensures Exact(narrow, mx) && Exact(narrow, my) ==> MousePosition(w, mx, my, narrow).camera[|w.camera|] == Look(0.0, 0.0)
  {
  }

  /** After any event, the next one measures from where that event left the cursor, and the first-mouse reset never recurs. */
  lemma LaterMouseMeasuresFromLast(w: Window, mx: real, my: real, nx: real, ny: real, narrow: real -> real)
    ensures var r1 := MousePosition(w, mx, my, narrow);
            var r2 := MousePosition(r1, nx, ny, narrow);
            && !r2.firstMouse
            && r2.camera[|r1.camera|] == Look(narrow(nx - narrow(mx)), narrow(narrow(my) - ny))
  {
  }

  // ---------------------------------------------------------------------
  // Per-frame input

  /** The key processInput reads for each direction. */
  function KeyFor(d: Direction): Device.Uint {
    match d
    case Forward => KeyW
    case Backward => KeyS
    case Left => KeyA
    case Right => KeyD
  }

  /** The order processInput tests the movement keys in. */
  function Order(d: Direction): nat {
    match d
    case Forward => 0
    case Backward => 1
    case Left => 2
    case Right => 3
  }

  /** The movement keys in the order processInput tests them. */
  const Directions: seq<Direction> := [Forward, Backward, Left, Right]

  /** A move for each direction of `ds` whose key is held, in the order of `ds`. */
  function Held(w: Window, ds: seq<Direction>): (ms: seq<CameraCall>)
    ensures forall i | 0 <= i < |ms| :: ms[i].Move?
  {
    if ds == [] then []
    else (if IsKeyPressed(w, KeyFor(ds[0])) then [Move(ds[0])] else []) + Held(w, ds[1..])
  }

  /** The moves one processInput asks for. */
  function Moves(w: Window): seq<CameraCall> {
    Held(w, Directions)
  }

  /** processInput: Escape requests closing; each held movement key asks the camera to move. */
  function ProcessInput(w: Window): (r: Window)
    ensures r.closing <==> w.closing || w.keys[KeyEscape]
    ensures r.keys == w.keys && r.buttons == w.buttons && r.firstMouse == w.firstMouse
    ensures r.mouseX == w.mouseX && r.mouseY == w.mouseY
    ensures r.camera == w.camera + Moves(w)
  {
    var c := if IsKeyPressed(w, KeyEscape) then w.(closing := true) else w;
    c.(camera := w.camera + Moves(w))
  }

  /** Held asks only for moves, one for each listed direction whose key is held. */
  lemma {:induction false} HeldKeys(w: Window, ds: seq<Direction>)
    ensures forall d: Direction :: Move(d) in Held(w, ds) <==> d in ds && IsKeyPressed(w, KeyFor(d))
    ensures forall e | e in Held(w, ds) :: e.Move? && e.direction in ds
    ensures |Held(w, ds)| <= |ds|
  {
    if ds != [] {
      HeldKeys(w, ds[1..]);
      assert forall d: Direction :: d in ds <==> d == ds[0] || d in ds[1..];
    }
  }

  /** Every move Held asks for lies above any bound its whole list lies above. */
  lemma {:induction false} HeldAbove(w: Window, ds: seq<Direction>, bound: int)
    requires forall i | 0 <= i < |ds| :: Order(ds[i]) > bound
    ensures forall i | 0 <= i < |Held(w, ds)| :: Order(Held(w, ds)[i].direction) > bound
  {
    if ds != [] {
      HeldAbove(w, ds[1..], bound);
    }
  }

  /** Held keeps the order of its list. */
  lemma {:induction false} HeldOrdered(w: Window, ds: seq<Direction>)
    requires forall i, j | 0 <= i < j < |ds| :: Order(ds[i]) < Order(ds[j])
    ensures forall i, j | 0 <= i < j < |Held(w, ds)| :: Order(Held(w, ds)[i].direction) < Order(Held(w, ds)[j].direction)
  {
    if ds != [] {
      var rest := Held(w, ds[1..]);
      HeldOrdered(w, ds[1..]);
      HeldAbove(w, ds[1..], Order(ds[0]));
      var head := if IsKeyPressed(w, KeyFor(ds[0])) then [Move(ds[0])] else [];
      assert Held(w, ds) == head + rest;
    }
  }

  /**
    processInput's moves are exactly the held movement keys, each once, in
    the order forward, backward, left, right; nothing but moves is asked.
   */
  lemma MovesAreHeldKeys(w: Window)
    ensures forall d: Direction :: Move(d) in Moves(w) <==> IsKeyPressed(w, KeyFor(d))
    ensures forall i, j | 0 <= i < j < |Moves(w)| :: Order(Moves(w)[i].direction) < Order(Moves(w)[j].direction)
    ensures |Moves(w)| <= 4
  {
    HeldKeys(w, Directions);
    HeldOrdered(w, Directions);
    forall d: Direction
      ensures d in Directions
    {
      assert Directions[Order(d)] == d;
    }
  }

  /** With cleared tables, a frame's input asks nothing and does not close. */
  lemma FreshWindowIdle()
    ensures var r := ProcessInput(New());
            r.camera == [] && !r.closing
  {
  }

  /**
    As written, a table entry left set by the memory the window was built in
    reads as a held key: with W's entry set, the first frame moves the camera
    forward although no key event arrived.
   */
  lemma AsWrittenPhantomKey()
    ensures var w := NewAsWritten(Released(MaxKeys)[KeyW := true], Released(MaxMouseButtons));
            ProcessInput(w).camera == [Move(Forward)]
  {
    var w := NewAsWritten(Released(MaxKeys)[KeyW := true], Released(MaxMouseButtons));
    assert IsKeyPressed(w, KeyW);
    assert !IsKeyPressed(w, KeyS) && !IsKeyPressed(w, KeyA) && !IsKeyPressed(w, KeyD);
    assert Held(w, Directions[3..]) == [];
    assert Held(w, Directions[2..]) == [];
    assert Held(w, Directions[1..]) == [];
  }
}
