/** The interactive state of the viewer and the three GLFW input callbacks
    of main.cpp that change it: mouse buttons, cursor motion and keys.

    The abstract state is the datatype ViewState, and each callback is
    specified by a pure step function on it. The class Viewer holds the
    same state as mutable fields (the program keeps it in globals) and
    its methods update those fields in place, proved against the step
    functions. */
module Viewer {

  // GLFW's codes for the buttons, actions and keys that the callbacks test.
  const MOUSE_BUTTON_LEFT: int := 0
  const MOUSE_BUTTON_RIGHT: int := 1
  const RELEASE: int := 0
  const PRESS: int := 1
  const REPEAT: int := 2
  const KEY_0: int := 48
  const KEY_1: int := 49
  const KEY_2: int := 50
  const KEY_3: int := 51
  const KEY_N: int := 78
  const KEY_P: int := 80
  const KEY_ESCAPE: int := 256
  const KEY_F6: int := 295

  /** Radians of rotation per pixel of drag. */
  const ROT_SPEED: real := 0.005
  /** Units of camera distance per pixel of vertical right-drag. */
  const ZOOM_SPEED: real := 0.02
  /** Largest pitch magnitude, for the camera and for the light (about 89 degrees). */
  const PITCH_LIMIT: real := 1.55
  const MIN_DIST: real := 0.5
  const MAX_DIST: real := 5.0

  /** Button flags and the cursor position seen last. */
  datatype Mouse = Mouse(leftDown: bool, rightDown: bool, lastX: real, lastY: real)

  /** The orbit camera: angles in radians and the distance to the object. */
  datatype Camera = Camera(yaw: real, pitch: real, dist: real)

  /** The light's direction, as angles in radians. */
  datatype Light = Light(yaw: real, pitch: real)

  /** Projection flag, visualisation mode (0 full shading, 1 ambient,
      2 diffuse, 3 specular, 4 normals) and the two requests a key can
      raise: glfwSetWindowShouldClose, and the shader's reload flag that
      the main loop consumes. */
  datatype Display = Display(usePerspective: bool, visMode: int,
                             closeRequested: bool, reloadRequested: bool)

  /** Everything the callbacks read or write. */
  datatype ViewState = ViewState(mouse: Mouse, camera: Camera, light: Light, display: Display)

  /** The state the program starts with. */
  const Initial: ViewState := ViewState(
    Mouse(false, false, 0.0, 0.0),
    Camera(0.0, 0.0, 2.0),
    Light(0.7, 0.4),
    Display(true, 0, false, false))

  /** What the callbacks keep true: both pitches within the limit, the
      distance within its range and a known visualisation mode. */
  predicate Inv(s: ViewState)
  {
    -PITCH_LIMIT <= s.camera.pitch <= PITCH_LIMIT &&
    -PITCH_LIMIT <= s.light.pitch <= PITCH_LIMIT &&
    MIN_DIST <= s.camera.dist <= MAX_DIST &&
    0 <= s.display.visMode <= 4
  }

  /** The two-sided clamp the callbacks apply. The pitch clamps test the
      upper bound first and the distance clamp the lower bound first; for
      lo <= hi both orders give this value. */
  function Clamp(v: real, lo: real, hi: real): (c: real)
    requires lo <= hi
    ensures lo <= c <= hi
    ensures lo <= v <= hi ==> c == v
    ensures v < lo ==> c == lo
    ensures v > hi ==> c == hi
  {
    var c1 := if v > hi then hi else v;
    if c1 < lo then lo else c1
  }

  /** mouse_button_callback: the left and right flags follow the last action
      on their button; any press records the cursor position (cx, cy) that
      GLFW reports at that moment. */
  function MouseButtonStep(s: ViewState, button: int, action: int, cx: real, cy: real): (s': ViewState)
    ensures s'.mouse.leftDown == if button == MOUSE_BUTTON_LEFT then action == PRESS else s.mouse.leftDown
    ensures s'.mouse.rightDown == if button == MOUSE_BUTTON_RIGHT then action == PRESS else s.mouse.rightDown
    ensures (s'.mouse.lastX, s'.mouse.lastY) ==
            if action == PRESS then (cx, cy) else (s.mouse.lastX, s.mouse.lastY)
    // the camera, the light and the display are not touched
    ensures s'.(mouse := s.mouse) == s
  {
    var m := s.mouse;
    var m1 := if button == MOUSE_BUTTON_LEFT then m.(leftDown := action == PRESS) else m;
    var m2 := if button == MOUSE_BUTTON_RIGHT then m1.(rightDown := action == PRESS) else m1;
    s.(mouse := if action == PRESS then m2.(lastX := cx, lastY := cy) else m2)
  }

  /** A drag of (dx, dy) pixels turns the camera: yaw follows dx freely,
      pitch follows dy up to the limit. */
  function Orbit(c: Camera, dx: real, dy: real): (c': Camera)
    ensures c'.yaw == c.yaw + dx * ROT_SPEED
    ensures -PITCH_LIMIT <= c'.pitch <= PITCH_LIMIT
    ensures -PITCH_LIMIT <= c.pitch + dy * ROT_SPEED <= PITCH_LIMIT ==> c'.pitch == c.pitch + dy * ROT_SPEED
    ensures c.pitch + dy * ROT_SPEED > PITCH_LIMIT ==> c'.pitch == PITCH_LIMIT
    ensures c.pitch + dy * ROT_SPEED < -PITCH_LIMIT ==> c'.pitch == -PITCH_LIMIT
    ensures c'.dist == c.dist
  {
    c.(yaw := c.yaw + dx * ROT_SPEED,
       pitch := Clamp(c.pitch + dy * ROT_SPEED, -PITCH_LIMIT, PITCH_LIMIT))
  }

  /** The same drag with Ctrl held turns the light instead. */
  function TurnLight(l: Light, dx: real, dy: real): (l': Light)
    ensures l'.yaw == l.yaw + dx * ROT_SPEED
    ensures -PITCH_LIMIT <= l'.pitch <= PITCH_LIMIT
    ensures -PITCH_LIMIT <= l.pitch + dy * ROT_SPEED <= PITCH_LIMIT ==> l'.pitch == l.pitch + dy * ROT_SPEED
    ensures l.pitch + dy * ROT_SPEED > PITCH_LIMIT ==> l'.pitch == PITCH_LIMIT
    ensures l.pitch + dy * ROT_SPEED < -PITCH_LIMIT ==> l'.pitch == -PITCH_LIMIT
  {
    Light(l.yaw + dx * ROT_SPEED, Clamp(l.pitch + dy * ROT_SPEED, -PITCH_LIMIT, PITCH_LIMIT))
  }

  /** A right-drag of dy pixels moves the camera in or out, within range. */
  function ZoomCamera(c: Camera, dy: real): (c': Camera)
    ensures MIN_DIST <= c'.dist <= MAX_DIST
    ensures MIN_DIST <= c.dist + dy * ZOOM_SPEED <= MAX_DIST ==> c'.dist == c.dist + dy * ZOOM_SPEED
    ensures c.dist + dy * ZOOM_SPEED < MIN_DIST ==> c'.dist == MIN_DIST
    ensures c.dist + dy * ZOOM_SPEED > MAX_DIST ==> c'.dist == MAX_DIST
    ensures c'.yaw == c.yaw && c'.pitch == c.pitch
  {
    c.(dist := Clamp(c.dist + dy * ZOOM_SPEED, MIN_DIST, MAX_DIST))
  }

  /** cursor_pos_callback with the cursor now at (x, y); `ctrl` says whether
      a Control key is held. */
  function CursorStep(s: ViewState, x: real, y: real, ctrl: bool): (s': ViewState)
    // the new position is always recorded, and the buttons and display stay
    ensures s'.mouse == s.mouse.(lastX := x, lastY := y)
    ensures s'.display == s.display
    // left-drag without Ctrl: yaw grows by exactly dx times the speed, pitch stays within the limit
    ensures s.mouse.leftDown && !ctrl ==>
      s'.camera.yaw == s.camera.yaw + (x - s.mouse.lastX) * ROT_SPEED &&
      -PITCH_LIMIT <= s'.camera.pitch <= PITCH_LIMIT &&
      s'.light == s.light
    // left-drag with Ctrl: only the light turns, its pitch within the limit
    ensures s.mouse.leftDown && ctrl ==>
      s'.light == TurnLight(s.light, x - s.mouse.lastX, y - s.mouse.lastY) &&
      -PITCH_LIMIT <= s'.light.pitch <= PITCH_LIMIT &&
      s'.camera.yaw == s.camera.yaw && s'.camera.pitch == s.camera.pitch
    // no left button: no angle moves
    ensures !s.mouse.leftDown ==>
      s'.light == s.light && s'.camera.yaw == s.camera.yaw && s'.camera.pitch == s.camera.pitch
    // the exact values: the camera pitch of Orbit, the distance of ZoomCamera
    ensures s.mouse.leftDown && !ctrl ==>
      s'.camera.pitch == Orbit(s.camera, x - s.mouse.lastX, y - s.mouse.lastY).pitch
    ensures s.mouse.rightDown ==> s'.camera.dist == ZoomCamera(s.camera, y - s.mouse.lastY).dist
    // right-drag: the distance stays within range whatever dy is; otherwise it stays
    ensures s.mouse.rightDown ==> MIN_DIST <= s'.camera.dist <= MAX_DIST
    ensures !s.mouse.rightDown ==> s'.camera.dist == s.camera.dist
  {
    var dx := x - s.mouse.lastX;
    var dy := y - s.mouse.lastY;
    RightDrag(LeftDrag(s.(mouse := s.mouse.(lastX := x, lastY := y)), dx, dy, ctrl), dy)
  }

  /** The left-button part of cursor_pos_callback. */
  function LeftDrag(s: ViewState, dx: real, dy: real, ctrl: bool): (s': ViewState)
    // without the left button nothing changes
    ensures !s.mouse.leftDown ==> s' == s
    // with it, Ctrl selects whether the light or the camera turns, and the other stays
    ensures s.mouse.leftDown && ctrl ==> s' == s.(light := TurnLight(s.light, dx, dy))
    ensures s.mouse.leftDown && !ctrl ==> s' == s.(camera := Orbit(s.camera, dx, dy))
    // the mouse, the distance and the display are never touched
    ensures s'.mouse == s.mouse && s'.display == s.display && s'.camera.dist == s.camera.dist
  {
    if !s.mouse.leftDown then s
    else if ctrl then s.(light := TurnLight(s.light, dx, dy))
    else s.(camera := Orbit(s.camera, dx, dy))
  }

  /** The right-button part of cursor_pos_callback. */
  function RightDrag(s: ViewState, dy: real): (s': ViewState)
    ensures s.mouse.rightDown ==> s' == s.(camera := ZoomCamera(s.camera, dy))
    ensures !s.mouse.rightDown ==> s' == s
    // only the distance can change
    ensures s'.(camera := s.camera) == s && s'.camera.yaw == s.camera.yaw && s'.camera.pitch == s.camera.pitch
    ensures s.mouse.rightDown ==> MIN_DIST <= s'.camera.dist <= MAX_DIST
  {
    if s.mouse.rightDown then s.(camera := ZoomCamera(s.camera, dy)) else s
  }

  /** The visualisation mode a pressed key selects, or -1 if it selects none. */
  function ModeOfKey(key: int): (m: int)
    ensures -1 <= m <= 4
    ensures m == 0 <==> key == KEY_0
    ensures m == 1 <==> key == KEY_1
    ensures m == 2 <==> key == KEY_2
    ensures m == 3 <==> key == KEY_3
    ensures m == 4 <==> key == KEY_N
  {
    if key == KEY_0 then 0
    else if key == KEY_1 then 1
    else if key == KEY_2 then 2
    else if key == KEY_3 then 3
    else if key == KEY_N then 4
    else -1
  }

  /** key_callback. On a press: Escape asks the window to close, F6 asks
      for a shader rebuild when a shader is attached to the window, P
      switches between perspective and orthographic projection, and
      0/1/2/3/N choose the visualisation mode. Releases and repeats do
      nothing. */
  function KeyStep(s: ViewState, key: int, action: int, hasShader: bool): (s': ViewState)
    ensures action != PRESS ==> s' == s
    ensures s'.display.usePerspective ==
            if action == PRESS && key == KEY_P then !s.display.usePerspective else s.display.usePerspective
    ensures s'.display.visMode ==
            if action == PRESS && ModeOfKey(key) >= 0 then ModeOfKey(key) else s.display.visMode
    ensures 0 <= s.display.visMode <= 4 ==> 0 <= s'.display.visMode <= 4
    ensures s'.display.closeRequested ==
            (s.display.closeRequested || (action == PRESS && key == KEY_ESCAPE))
    ensures s'.display.reloadRequested ==
            (s.display.reloadRequested || (action == PRESS && key == KEY_F6 && hasShader))
    // the mouse, camera and light are not touched
    ensures s'.(display := s.display) == s
  {
    if action != PRESS then s
    else
      var d := s.display;
      var d1 := if key == KEY_ESCAPE then d.(closeRequested := true) else d;
      var d2 := if key == KEY_F6 && hasShader then d1.(reloadRequested := true) else d1;
      var d3 := if key == KEY_P then d2.(usePerspective := !d2.usePerspective) else d2;
      var m := ModeOfKey(key);
      s.(display := if m >= 0 then d3.(visMode := m) else d3)
  }

  /** One input event, with what GLFW would report alongside it: the cursor
      position at a button press, whether Ctrl is held during a motion, and
      whether a shader is attached when a key arrives. */
  datatype Event =
    | ButtonEvent(button: int, action: int, cx: real, cy: real)
    | MotionEvent(x: real, y: real, ctrl: bool)
    | KeyEvent(key: int, action: int, hasShader: bool)

  function Step(s: ViewState, e: Event): ViewState
  {
    match e
    case ButtonEvent(button, action, cx, cy) => MouseButtonStep(s, button, action, cx, cy)
    case MotionEvent(x, y, ctrl) => CursorStep(s, x, y, ctrl)
    case KeyEvent(key, action, hasShader) => KeyStep(s, key, action, hasShader)
  }

  /** The state after a sequence of events, in order. */
  function Run(s: ViewState, events: seq<Event>): ViewState
    decreases |events|
  {
    if events == [] then s else Run(Step(s, events[0]), events[1..])
  }

  lemma InitialInv()
    ensures Inv(Initial)
  {
  }

  lemma CursorStepKeepsInv(s: ViewState, x: real, y: real, ctrl: bool)
    requires Inv(s)
    ensures Inv(CursorStep(s, x, y, ctrl))
  {
  }

  lemma {:induction false} StepPreservesInv(s: ViewState, e: Event)
    requires Inv(s)
    ensures Inv(Step(s, e))
  {
    match e
    case ButtonEvent(button, action, cx, cy) =>
    case MotionEvent(x, y, ctrl) =>
    case KeyEvent(key, action, hasShader) =>
  }

  /** However the user drives the mouse and keyboard, the pitches, the
      distance and the mode never leave their ranges. */
  lemma {:induction false} RunPreservesInv(s: ViewState, events: seq<Event>)
    requires Inv(s)
    ensures Inv(Run(s, events))
    decreases |events|
  {
    if events != [] {
      StepPreservesInv(s, events[0]);
      RunPreservesInv(Step(s, events[0]), events[1..]);
    }
  }

  /** Pressing P twice gives back the state before the first press. */
  lemma ToggleProjectionTwice(s: ViewState, hasShader: bool)
    ensures Run(s, [KeyEvent(KEY_P, PRESS, hasShader), KeyEvent(KEY_P, PRESS, hasShader)]) == s
  {
    var e := KeyEvent(KEY_P, PRESS, hasShader);
    var once := Step(s, e);
    assert once.display == s.display.(usePerspective := !s.display.usePerspective);
    assert Step(once, e) == s;
    assert [e, e][1..] == [e];
    assert [e][1..] == [];
    calc {
      Run(s, [e, e]);
      Run(once, [e]);
      Run(Step(once, e), []);
      s;
    }
  }

  /** Cursor motions to the given positions, all with Ctrl held. */
  function CtrlDrag(moves: seq<(real, real)>): (evs: seq<Event>)
    ensures |evs| == |moves|
    ensures forall i :: 0 <= i < |moves| ==> evs[i] == MotionEvent(moves[i].0, moves[i].1, true)
  {
    seq(|moves|, i requires 0 <= i < |moves| => MotionEvent(moves[i].0, moves[i].1, true))
  }

  /** A drag made entirely with Ctrl held leaves the camera angles exactly
      where they were, and keeps the light's pitch within its limit. */
  lemma {:induction false} CtrlDragKeepsCamera(s: ViewState, moves: seq<(real, real)>)
    ensures Run(s, CtrlDrag(moves)).camera.yaw == s.camera.yaw
    ensures Run(s, CtrlDrag(moves)).camera.pitch == s.camera.pitch
    ensures -PITCH_LIMIT <= s.light.pitch <= PITCH_LIMIT ==>
      -PITCH_LIMIT <= Run(s, CtrlDrag(moves)).light.pitch <= PITCH_LIMIT
    decreases |moves|
  {
    if moves != [] {
      assert CtrlDrag(moves)[0] == MotionEvent(moves[0].0, moves[0].1, true);
      assert CtrlDrag(moves)[1..] == CtrlDrag(moves[1..]);
      CtrlDragKeepsCamera(Step(s, CtrlDrag(moves)[0]), moves[1..]);
    }
  }

  /** The viewer's input state as the program keeps it: one mutable field
      per global variable of main.cpp. */
  class Viewer {
    var leftDown: bool
    var rightDown: bool
    var lastX: real
    var lastY: real
    var yaw: real
    var pitch: real
    var dist: real
    var lightYaw: real
    var lightPitch: real
    var usePerspective: bool
    var visMode: int
    var closeRequested: bool
    var reloadRequested: bool

    /** The fields as one value. */
    function State(): ViewState
      reads this
    {
      ViewState(Mouse(leftDown, rightDown, lastX, lastY),
                Camera(yaw, pitch, dist),
                Light(lightYaw, lightPitch),
                Display(usePerspective, visMode, closeRequested, reloadRequested))
    }

    predicate Valid()
      reads this
    {
      Inv(State())
    }

    /** The globals' initial values. */
    constructor ()
      ensures State() == Initial && Valid()
    {
      leftDown, rightDown := false, false;
      lastX, lastY := 0.0, 0.0;
      yaw, pitch, dist := 0.0, 0.0, 2.0;
      lightYaw, lightPitch := 0.7, 0.4;
      usePerspective := true;
      visMode := 0;
      closeRequested, reloadRequested := false, false;
    }

    /** mouse_button_callback; (cx, cy) is where GLFW reports the cursor. */
    method MouseButton(button: int, action: int, cx: real, cy: real)
      modifies this
      ensures State() == MouseButtonStep(old(State()), button, action, cx, cy)
      ensures old(Valid()) ==> Valid()
    {
      if button == MOUSE_BUTTON_LEFT {
        leftDown := action == PRESS;
      }
      if button == MOUSE_BUTTON_RIGHT {
        rightDown := action == PRESS;
      }
      if action == PRESS {
        lastX, lastY := cx, cy;
      }
    }

    /** cursor_pos_callback; `ctrl` says whether either Control key is held. */
    method CursorPos(x: real, y: real, ctrl: bool)
      modifies this
      ensures State() == CursorStep(old(State()), x, y, ctrl)
      ensures old(Valid()) ==> Valid()
    {
      ghost var before := State();
      var dx := x - lastX;
      var dy := y - lastY;
      lastX := x;
      lastY := y;
      TurnBy(dx, dy, ctrl);
      ZoomBy(dy);
      if Inv(before) {
        CursorStepKeepsInv(before, x, y, ctrl);
      }
    }

    /** The left-button block of cursor_pos_callback. */
    method TurnBy(dx: real, dy: real, ctrl: bool)
      modifies this
      ensures State() == LeftDrag(old(State()), dx, dy, ctrl)
    {
      if leftDown {
        if ctrl {
          lightYaw := lightYaw + dx * ROT_SPEED;
          lightPitch := lightPitch + dy * ROT_SPEED;
          if lightPitch > PITCH_LIMIT {
            lightPitch := PITCH_LIMIT;
          }
          if lightPitch < -PITCH_LIMIT {
            lightPitch := -PITCH_LIMIT;
          }
        } else {
          yaw := yaw + dx * ROT_SPEED;
          pitch := pitch + dy * ROT_SPEED;
          if pitch > PITCH_LIMIT {
            pitch := PITCH_LIMIT;
          }
          if pitch < -PITCH_LIMIT {
            pitch := -PITCH_LIMIT;
          }
        }
      }
    }

    /** The right-button block of cursor_pos_callback. */
    method ZoomBy(dy: real)
      modifies this
      ensures State() == RightDrag(old(State()), dy)
    {
      if rightDown {
        dist := dist + dy * ZOOM_SPEED;
        if dist < MIN_DIST {
          dist := MIN_DIST;
        }
        if dist > MAX_DIST {
          dist := MAX_DIST;
        }
      }
    }

    /** key_callback; `hasShader` says whether a shader is attached to the window. */
    method Key(key: int, action: int, hasShader: bool)
      modifies this
      ensures State() == KeyStep(old(State()), key, action, hasShader)
      ensures old(Valid()) ==> Valid()
    {
      if key == KEY_ESCAPE && action == PRESS {
        closeRequested := true;
      }
      if key == KEY_F6 && action == PRESS {
        if hasShader {
          reloadRequested := true;
        }
      }
      if key == KEY_P && action == PRESS {
        usePerspective := !usePerspective;
      }
      if action == PRESS {
        if key == KEY_0 {
          visMode := 0;
        }
        if key == KEY_1 {
          visMode := 1;
        }
        if key == KEY_2 {
          visMode := 2;
        }
        if key == KEY_3 {
          visMode := 3;
        }
        if key == KEY_N {
          visMode := 4;
        }
      }
    }
  }
}
