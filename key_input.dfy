/** The key bindings of the viewer: per-bind key state updated by the window's key-up and
    key-down messages, and the per-frame reset of the transition counters and the relative
    mouse motion. */
module KeyInput {

  /** The virtual keys the viewer binds. */
  datatype Vkey = Z | Q | S | D | A | Space | F1

  const VK_SPACE: int := 0x20
  const VK_F1: int := 0x70

  /** The virtual-key code of each key: the letters are their upper-case ASCII codes. */
  function KeyCode(k: Vkey): int {
    match k
    case Z => 'Z' as int
    case Q => 'Q' as int
    case S => 'S' as int
    case D => 'D' as int
    case A => 'A' as int
    case Space => VK_SPACE
    case F1 => VK_F1
  }

  /** No two keys share a code, so a message names at most one key. */
  lemma KeyCodeInjective(a: Vkey, b: Vkey)
    ensures KeyCode(a) == KeyCode(b) <==> a == b
  {
  }

  /** A 64-bit unsigned word. */
  type Word = x: int | 0 <= x < 0x1_0000_0000_0000_0000

  /** The two fields of a window message the handlers read: the virtual-key code, an
      unsigned word, and the flags word, read bit by bit. */
  datatype Msg = Msg(wParam: Word, lParam: bv64)

  /** Bit 30 of a key message's flags: the key was already down before this message, so the
      message is an auto-repeat. */
  const PREVIOUS_KEY_STATE: bv64 := 1 << 30

  /** The message is about `key`: the key's code, widened to the message's width, is its
      `wParam`; the codes are positive, so widening keeps their value. */
  predicate Matches(key: Vkey, event: Msg) {
    event.wParam == KeyCode(key)
  }

  predicate IsRepeat(event: Msg) {
    event.lParam & PREVIOUS_KEY_STATE != 0
  }

  /** The fields of a bind, as a value. */
  datatype KeyState = KeyState(key: Vkey, keyDownTransitionCount: int, keyUpTransitionCount: int,
                               isKeyDown: bool)

  /** What a key-up message does to a bind: a message about its key marks the key up and
      counts one up transition; a message about another key changes nothing. The key and
      the down count are never touched. */
  function KeyUp(s: KeyState, event: Msg): (r: KeyState)
    ensures r.key == s.key && r.keyDownTransitionCount == s.keyDownTransitionCount
    ensures Matches(s.key, event) ==> !r.isKeyDown && r.keyUpTransitionCount == s.keyUpTransitionCount + 1
    ensures !Matches(s.key, event) ==> r == s
  {
    if Matches(s.key, event) then s.(isKeyDown := false, keyUpTransitionCount := s.keyUpTransitionCount + 1)
    else s
  }

  /** What a key-down message does to a bind: a message about its key marks the key down and
      counts one down transition unless it is an auto-repeat; a message about another key
      changes nothing. The key and the up count are never touched. */
  function KeyDown(s: KeyState, event: Msg): (r: KeyState)
    ensures r.key == s.key && r.keyUpTransitionCount == s.keyUpTransitionCount
    ensures Matches(s.key, event) ==>
              r.isKeyDown && r.keyDownTransitionCount == s.keyDownTransitionCount + (if IsRepeat(event) then 0 else 1)
    ensures !Matches(s.key, event) ==> r == s
  {
    if Matches(s.key, event) then
      s.(isKeyDown := true,
         keyDownTransitionCount := if IsRepeat(event) then s.keyDownTransitionCount
                                   else s.keyDownTransitionCount + 1)
    else s
  }

  /** What the per-frame reset does to a bind: both transition counts start again from 0,
      while the key and whether it is held carry over to the next frame. */
  function ResetTransitions(s: KeyState): (r: KeyState)
    ensures r.keyDownTransitionCount == 0 && r.keyUpTransitionCount == 0
    ensures r.key == s.key && r.isKeyDown == s.isKeyDown
  {
    s.(keyDownTransitionCount := 0, keyUpTransitionCount := 0)
  }

  /** The key-down messages a bind receives in one frame, applied in order. */
  function KeyDowns(s: KeyState, events: seq<Msg>): KeyState
    decreases |events|
  {
    if events == [] then s else KeyDowns(KeyDown(s, events[0]), events[1..])
  }

  /** A key held down: one fresh press followed by any number of auto-repeats of the same key
      counts as one down transition and leaves the key down. */
  lemma {:induction false} HeldKeyCountsOnce(s: KeyState, press: Msg, repeats: seq<Msg>)
    requires Matches(s.key, press) && !IsRepeat(press)
    requires forall i :: 0 <= i < |repeats| ==> Matches(s.key, repeats[i]) && IsRepeat(repeats[i])
    ensures KeyDowns(s, [press] + repeats).keyDownTransitionCount == s.keyDownTransitionCount + 1
    ensures KeyDowns(s, [press] + repeats).isKeyDown
    ensures KeyDowns(s, [press] + repeats).keyUpTransitionCount == s.keyUpTransitionCount
  {
    assert ([press] + repeats)[1..] == repeats;
    RepeatsCountNothing(KeyDown(s, press), repeats);
  }

  /** Auto-repeats of a key that is down change nothing. */
  lemma {:induction false} RepeatsCountNothing(s: KeyState, repeats: seq<Msg>)
    requires s.isKeyDown
    requires forall i :: 0 <= i < |repeats| ==> Matches(s.key, repeats[i]) && IsRepeat(repeats[i])
    ensures KeyDowns(s, repeats) == s
    decreases |repeats|
  {
    if repeats != [] {
      assert KeyDown(s, repeats[0]) == s;
      RepeatsCountNothing(s, repeats[1..]);
    }
  }

  /** One key binding. */
  class Keybind {
    var key: Vkey
    var keyDownTransitionCount: int
    var keyUpTransitionCount: int
    var isKeyDown: bool

    function State(): KeyState
      reads this
    {
      KeyState(key, keyDownTransitionCount, keyUpTransitionCount, isKeyDown)
    }

    /** A bind for `key` as the designated initializer leaves it: no transitions, key up. */
    constructor (key: Vkey)
      ensures State() == KeyState(key, 0, 0, false)
    {
      this.key := key;
      keyDownTransitionCount := 0;
      keyUpTransitionCount := 0;
      isKeyDown := false;
    }

    method HandleKeyUpForBind(event: Msg)
      modifies this
      ensures State() == KeyUp(old(State()), event)
    {
      if KeyCode(key) == event.wParam {
        isKeyDown := false;
        keyUpTransitionCount := keyUpTransitionCount + 1;
      }
    }

    method HandleKeyDownForBind(event: Msg)
      modifies this
      ensures State() == KeyDown(old(State()), event)
    {
      if KeyCode(key) == event.wParam {
        isKeyDown := true;
        if event.lParam & (1 << 30) == 0 {
          keyDownTransitionCount := keyDownTransitionCount + 1;
        }
      }
    }

    method ResetKeyTransitions()
      modifies this
      ensures State() == ResetTransitions(old(State()))
      ensures keyDownTransitionCount == 0 && keyUpTransitionCount == 0
      ensures key == old(key) && isKeyDown == old(isKeyDown)
    {
      keyUpTransitionCount := 0;
      keyDownTransitionCount := 0;
    }
  }

  /** The input state of the viewer: seven binds and the mouse. */
  class Input {
    const moveForward: Keybind
    const moveBackward: Keybind
    const moveLeft: Keybind
    const moveRight: Keybind
    const moveDown: Keybind
    const moveUp: Keybind
    const devToggle: Keybind
    var mousePosX: int
    var mousePosY: int
    var mouseMoveX: int
    var mouseMoveY: int

    /** The binds, in declaration order. */
    function Binds(): seq<Keybind> {
      [moveForward, moveBackward, moveLeft, moveRight, moveDown, moveUp, devToggle]
    }

    /** The binds are seven separate records, as the struct's members are. */
    ghost predicate Valid() {
      && moveForward !in {moveBackward, moveLeft, moveRight, moveDown, moveUp, devToggle}
      && moveBackward !in {moveLeft, moveRight, moveDown, moveUp, devToggle}
      && moveLeft !in {moveRight, moveDown, moveUp, devToggle}
      && moveRight !in {moveDown, moveUp, devToggle}
      && moveDown !in {moveUp, devToggle}
      && moveUp != devToggle
    }

    /** The input record of the viewer's start-up: Z, S, Q, D move forward, back, left and
        right, A and space move down and up, F1 toggles the developer view; every counter,
        flag and mouse field starts at zero. */
    constructor ()
      ensures Valid()
      ensures moveForward.State() == KeyState(Z, 0, 0, false)
      ensures moveBackward.State() == KeyState(S, 0, 0, false)
      ensures moveLeft.State() == KeyState(Q, 0, 0, false)
      ensures moveRight.State() == KeyState(D, 0, 0, false)
      ensures moveDown.State() == KeyState(A, 0, 0, false)
      ensures moveUp.State() == KeyState(Space, 0, 0, false)
      ensures devToggle.State() == KeyState(F1, 0, 0, false)
      ensures mousePosX == 0 && mousePosY == 0 && mouseMoveX == 0 && mouseMoveY == 0
    {
      moveForward := new Keybind(Z);
      moveBackward := new Keybind(S);
      moveLeft := new Keybind(Q);
      moveRight := new Keybind(D);
      moveDown := new Keybind(A);
      moveUp := new Keybind(Space);
      devToggle := new Keybind(F1);
      mousePosX, mousePosY, mouseMoveX, mouseMoveY := 0, 0, 0, 0;
    }

    /** Resets the transition counters of every bind, keeping each key and its down flag. */
    method ResetInputKeyTransitions()
      requires Valid()
      modifies moveForward, moveBackward, moveLeft, moveRight, moveDown, moveUp, devToggle
      ensures moveForward.State() == ResetTransitions(old(moveForward.State()))
      ensures moveBackward.State() == ResetTransitions(old(moveBackward.State()))
      ensures moveLeft.State() == ResetTransitions(old(moveLeft.State()))
      ensures moveRight.State() == ResetTransitions(old(moveRight.State()))
      ensures moveDown.State() == ResetTransitions(old(moveDown.State()))
      ensures moveUp.State() == ResetTransitions(old(moveUp.State()))
      ensures devToggle.State() == ResetTransitions(old(devToggle.State()))
    {
      moveForward.ResetKeyTransitions();
      moveBackward.ResetKeyTransitions();
      moveLeft.ResetKeyTransitions();
      moveRight.ResetKeyTransitions();
      moveDown.ResetKeyTransitions();
      moveUp.ResetKeyTransitions();
      devToggle.ResetKeyTransitions();
    }

    /** Clears the mouse motion of the frame; the position stays. */
    method ResetRelativeInputMouseData()
      modifies this
      ensures mouseMoveX == 0 && mouseMoveY == 0
      ensures mousePosX == old(mousePosX) && mousePosY == old(mousePosY)
    {
      mouseMoveX := 0;
      mouseMoveY := 0;
    }

    /** The two resets the main loop runs at the start of every frame: afterwards no bind has
        a transition and the mouse has not moved, while keys, down flags and the mouse
        position are as they were. */
    method BeginFrame()
      requires Valid()
      modifies this, set b | b in Binds()
      ensures forall i :: 0 <= i < |Binds()| ==>
                Binds()[i].keyDownTransitionCount == 0 && Binds()[i].keyUpTransitionCount == 0
                && Binds()[i].key == old(Binds()[i].key) && Binds()[i].isKeyDown == old(Binds()[i].isKeyDown)
      ensures mouseMoveX == 0 && mouseMoveY == 0
      ensures mousePosX == old(mousePosX) && mousePosY == old(mousePosY)
    {
      ResetInputKeyTransitions();
      ResetRelativeInputMouseData();
    }
  }
}
