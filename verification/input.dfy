/**
 * The shapes of winit's events and key codes that src/input.rs matches on.
 * Only the key codes the translation table names are listed one by one; every
 * other winit key code is `Unlisted`.
 */
module Winit {
  import opened Wrappers

  /** `winit::event::ButtonId`, a `u32`. */
  type ButtonId = id: int | 0 <= id < 0x1_0000_0000

  /**
   * `winit::keyboard::KeyCode`. Winit declares one flat enum; here the
   * variants that src/input.rs names are grouped into families, each its own
   * enum, and every other variant is `Unlisted`. The grouping is a modelling
   * device that keeps each `match` short; it carries no meaning of its own.
   */
  datatype KeyCode =
    | Numpad(numpadCode: NumpadCode)
    | Letter(letterCode: LetterCode)
    | Function(functionCode: FunctionCode)
    | Navigation(navigationCode: NavigationCode)
    | Symbol(symbolCode: SymbolCode)
    | Unlisted(code: nat)

  /** The key codes of the numeric keypad. */
  datatype NumpadCode =
    Numpad0 | Numpad1 | Numpad2 | Numpad3 | Numpad4 | Numpad5 | Numpad6 | Numpad7 | Numpad8 |
    Numpad9 | NumpadAdd | NumpadDivide | NumpadDecimal | NumpadComma | NumpadEnter |
    NumpadMultiply | NumpadSubtract

  /** The key codes of the letter keys. */
  datatype LetterCode =
    KeyA | KeyB | KeyC | KeyD | KeyE | KeyF | KeyG | KeyH | KeyI | KeyJ | KeyK | KeyL | KeyM |
    KeyN | KeyO | KeyP | KeyQ | KeyR | KeyS | KeyT | KeyU | KeyV | KeyW | KeyX | KeyY | KeyZ

  /** The key codes of escape and the function keys. */
  datatype FunctionCode =
    Escape | F1 | F2 | F3 | F4 | F5 | F6 | F7 | F8 | F9 | F10 | F11 | F12 | F13 | F14 | F15 | F16 |
    F17 | F18 | F19 | F20 | F21 | F22 | F23 | F24

  /** The key codes of navigation and editing keys. */
  datatype NavigationCode =
    Pause | Insert | Home | Delete | End | PageDown | PageUp | ArrowLeft | ArrowUp | ArrowRight |
    ArrowDown | Backspace | Enter | Space | NumLock

  /** The key codes of punctuation, media and system keys. */
  datatype SymbolCode =
    Backslash | Comma | Convert | MediaSelect | MediaStop | Minus | Period | Power | Semicolon |
    Slash | Sleep | Tab | Copy | Paste | Cut

  datatype ElementState = Pressed | Released

  datatype MouseScrollDelta = LineDelta(horizontal: real, vertical: real) | PixelDelta(x: real, y: real)

  datatype KeyboardInput = KeyboardInput(state: ElementState, virtualKeycode: Option<KeyCode>)

  datatype DeviceEvent =
    | MouseMotion(delta: (real, real))
    | MouseWheel(wheelDelta: MouseScrollDelta)
    | Button(button: ButtonId, state: ElementState)
    | Key(input: KeyboardInput)
    | OtherDeviceEvent

  /** A device event, or any other kind of winit event (window, user, lifecycle). */
  datatype Event = DeviceEvent(event: DeviceEvent) | OtherEvent
}

/** The engine-side input vocabulary of the `input_actions` crate, as far as src/input.rs produces it. */
module InputActions {

  datatype MouseButton = Left | Center | Right

  /** `source::Key`, its variants grouped into families as for winit's key codes. */
  datatype Key =
    | Digit(digitKey: DigitKey)
    | Letter(letterKey: LetterKey)
    | Function(functionKey: FunctionKey)
    | Navigation(navigationKey: NavigationKey)
    | Numpad(numpadKey: NumpadKey)
    | Symbol(symbolKey: SymbolKey)

  datatype DigitKey =
    Key1 | Key2 | Key3 | Key4 | Key5 | Key6 | Key7 | Key8 | Key9 | Key0

  datatype LetterKey =
    A | B | C | D | E | F | G | H | I | J | K | L | M | N | O | P | Q | R | S | T | U | V | W | X |
    Y | Z

  datatype FunctionKey =
    Escape | F1 | F2 | F3 | F4 | F5 | F6 | F7 | F8 | F9 | F10 | F11 | F12 | F13 | F14 | F15 | F16 |
    F17 | F18 | F19 | F20 | F21 | F22 | F23 | F24

  datatype NavigationKey =
    Pause | Insert | Home | Delete | End | PageDown | PageUp | Left | Up | Right | Down | Back |
    Return | Space | Numlock

  datatype NumpadKey =
    Numpad0 | Numpad1 | Numpad2 | Numpad3 | Numpad4 | Numpad5 | Numpad6 | Numpad7 | Numpad8 |
    Numpad9 | NumpadPlus | NumpadSlash | NumpadEnter | NumpadAsterisk | NumpadMinus

  datatype SymbolKey =
    Backslash | Comma | Minus | Period | Semicolon | Slash | Tab

  /** `event::Source`: which device an event came from. */
  datatype EventSource = Mouse | Keyboard

  /** `binding::Mouse` */
  datatype MouseInput = Move | Scroll | Button(button: MouseButton)

  /** `binding::Source` */
  datatype BindingSource = MouseBinding(input: MouseInput) | KeyboardBinding(key: Key)

  datatype ButtonState = Pressed | Released

  /** `event::State` */
  datatype State = MouseMove(x: real, y: real) | MouseScroll(horizontal: real, vertical: real) | Buttons(state: ButtonState)

  /** `event::Event` */
  datatype Event = Event(binding: BindingSource, state: State)
}

/** The translation of winit input into `input_actions` input: src/input.rs. */
module Input {
  import opened Wrappers
  import W = Winit
  import A = InputActions

  // ---------------------------------------------------------------------------
  // Mouse buttons
  // ---------------------------------------------------------------------------

  /** `TryFrom<ButtonId> for MouseButton`: ids 1, 2, 3; any other id is handed back as the error. */
  function MouseButtonFromId(id: W.ButtonId): (r: Result<A.MouseButton, W.ButtonId>)
    ensures r.Ok? <==> 1 <= id <= 3
    ensures r.Err? ==> r.error == id
  {
    match id
    case 1 => Ok(A.MouseButton.Left)
    case 2 => Ok(A.MouseButton.Center)
    case 3 => Ok(A.MouseButton.Right)
    case _ => Err(id)
  }

  /** The id of each engine mouse button. */
  function IdOfButton(b: A.MouseButton): W.ButtonId {
    match b
    case Left => 1
    case Center => 2
    case Right => 3
  }

  /** The button table is a bijection between the ids 1..3 and the three buttons. */
  lemma MouseButtonRoundTrip(id: W.ButtonId, b: A.MouseButton)
    ensures MouseButtonFromId(IdOfButton(b)) == Ok(b)
    ensures MouseButtonFromId(id) == Ok(b) <==> id == IdOfButton(b)
  {
  }

  // ---------------------------------------------------------------------------
  // Key codes
  // ---------------------------------------------------------------------------

  /** The codes the table handles; any other code reaches `unimplemented!("Key")`. */
  predicate Implemented(code: W.KeyCode) {
    !code.Unlisted?
  }

  /** The codes the table rejects with `Err(())`. */
  predicate Unsupported(code: W.KeyCode) {
    match code
    case Numpad(n) => n.NumpadDecimal? || n.NumpadComma?
    case Symbol(s) =>
      s.Convert? || s.MediaSelect? || s.MediaStop? || s.Power? || s.Sleep? || s.Copy? || s.Paste? || s.Cut?
    case _ => false
  }

  /**
   * `TryFrom<KeyCode> for Key`, arm by arm in the source's order. The ten
   * arms at lines 177-186 map `Numpad0..Numpad9` to `Key::Numpad0..Key::Numpad9`,
   * but the arms at lines 97-106 already match those codes, so they can never
   * be reached and are not written here (`NumpadKeysUnreachable`).
   */
  function KeyFromCode(code: W.KeyCode): Result<A.Key, ()>
    requires Implemented(code)
  {
    match code
    case Numpad(Numpad1) => Ok(A.Key.Digit(A.DigitKey.Key1))
    case Numpad(Numpad2) => Ok(A.Key.Digit(A.DigitKey.Key2))
    case Numpad(Numpad3) => Ok(A.Key.Digit(A.DigitKey.Key3))
    case Numpad(Numpad4) => Ok(A.Key.Digit(A.DigitKey.Key4))
    case Numpad(Numpad5) => Ok(A.Key.Digit(A.DigitKey.Key5))
    case Numpad(Numpad6) => Ok(A.Key.Digit(A.DigitKey.Key6))
    case Numpad(Numpad7) => Ok(A.Key.Digit(A.DigitKey.Key7))
    case Numpad(Numpad8) => Ok(A.Key.Digit(A.DigitKey.Key8))
    case Numpad(Numpad9) => Ok(A.Key.Digit(A.DigitKey.Key9))
    case Numpad(Numpad0) => Ok(A.Key.Digit(A.DigitKey.Key0))
    case Letter(KeyA) => Ok(A.Key.Letter(A.LetterKey.A))
    case Letter(KeyB) => Ok(A.Key.Letter(A.LetterKey.B))
    case Letter(KeyC) => Ok(A.Key.Letter(A.LetterKey.C))
    case Letter(KeyD) => Ok(A.Key.Letter(A.LetterKey.D))
    case Letter(KeyE) => Ok(A.Key.Letter(A.LetterKey.E))
    case Letter(KeyF) => Ok(A.Key.Letter(A.LetterKey.F))
    case Letter(KeyG) => Ok(A.Key.Letter(A.LetterKey.G))
    case Letter(KeyH) => Ok(A.Key.Letter(A.LetterKey.H))
    case Letter(KeyI) => Ok(A.Key.Letter(A.LetterKey.I))
    case Letter(KeyJ) => Ok(A.Key.Letter(A.LetterKey.J))
    case Letter(KeyK) => Ok(A.Key.Letter(A.LetterKey.K))
    case Letter(KeyL) => Ok(A.Key.Letter(A.LetterKey.L))
    case Letter(KeyM) => Ok(A.Key.Letter(A.LetterKey.M))
    case Letter(KeyN) => Ok(A.Key.Letter(A.LetterKey.N))
    case Letter(KeyO) => Ok(A.Key.Letter(A.LetterKey.O))
    case Letter(KeyP) => Ok(A.Key.Letter(A.LetterKey.P))
    case Letter(KeyQ) => Ok(A.Key.Letter(A.LetterKey.Q))
    case Letter(KeyR) => Ok(A.Key.Letter(A.LetterKey.R))
    case Letter(KeyS) => Ok(A.Key.Letter(A.LetterKey.S))
    case Letter(KeyT) => Ok(A.Key.Letter(A.LetterKey.T))
    case Letter(KeyU) => Ok(A.Key.Letter(A.LetterKey.U))
    case Letter(KeyV) => Ok(A.Key.Letter(A.LetterKey.V))
    case Letter(KeyW) => Ok(A.Key.Letter(A.LetterKey.W))
    case Letter(KeyX) => Ok(A.Key.Letter(A.LetterKey.X))
    case Letter(KeyY) => Ok(A.Key.Letter(A.LetterKey.Y))
    case Letter(KeyZ) => Ok(A.Key.Letter(A.LetterKey.Z))
    case Function(Escape) => Ok(A.Key.Function(A.FunctionKey.Escape))
    case Function(F1) => Ok(A.Key.Function(A.FunctionKey.F1))
    case Function(F2) => Ok(A.Key.Function(A.FunctionKey.F2))
    case Function(F3) => Ok(A.Key.Function(A.FunctionKey.F3))
    case Function(F4) => Ok(A.Key.Function(A.FunctionKey.F4))
    case Function(F5) => Ok(A.Key.Function(A.FunctionKey.F5))
    case Function(F6) => Ok(A.Key.Function(A.FunctionKey.F6))
    case Function(F7) => Ok(A.Key.Function(A.FunctionKey.F7))
    case Function(F8) => Ok(A.Key.Function(A.FunctionKey.F8))
    case Function(F9) => Ok(A.Key.Function(A.FunctionKey.F9))
    case Function(F10) => Ok(A.Key.Function(A.FunctionKey.F10))
    case Function(F11) => Ok(A.Key.Function(A.FunctionKey.F11))
    case Function(F12) => Ok(A.Key.Function(A.FunctionKey.F12))
    case Function(F13) => Ok(A.Key.Function(A.FunctionKey.F13))
    case Function(F14) => Ok(A.Key.Function(A.FunctionKey.F14))
    case Function(F15) => Ok(A.Key.Function(A.FunctionKey.F15))
    case Function(F16) => Ok(A.Key.Function(A.FunctionKey.F16))
    case Function(F17) => Ok(A.Key.Function(A.FunctionKey.F17))
    case Function(F18) => Ok(A.Key.Function(A.FunctionKey.F18))
    case Function(F19) => Ok(A.Key.Function(A.FunctionKey.F19))
    case Function(F20) => Ok(A.Key.Function(A.FunctionKey.F20))
    case Function(F21) => Ok(A.Key.Function(A.FunctionKey.F21))
    case Function(F22) => Ok(A.Key.Function(A.FunctionKey.F22))
    case Function(F23) => Ok(A.Key.Function(A.FunctionKey.F23))
    case Function(F24) => Ok(A.Key.Function(A.FunctionKey.F24))
    case Navigation(Pause) => Ok(A.Key.Navigation(A.NavigationKey.Pause))
    case Navigation(Insert) => Ok(A.Key.Navigation(A.NavigationKey.Insert))
    case Navigation(Home) => Ok(A.Key.Navigation(A.NavigationKey.Home))
    case Navigation(Delete) => Ok(A.Key.Navigation(A.NavigationKey.Delete))
    case Navigation(End) => Ok(A.Key.Navigation(A.NavigationKey.End))
    case Navigation(PageDown) => Ok(A.Key.Navigation(A.NavigationKey.PageDown))
    case Navigation(PageUp) => Ok(A.Key.Navigation(A.NavigationKey.PageUp))
    case Navigation(ArrowLeft) => Ok(A.Key.Navigation(A.NavigationKey.Left))
    case Navigation(ArrowUp) => Ok(A.Key.Navigation(A.NavigationKey.Up))
    case Navigation(ArrowRight) => Ok(A.Key.Navigation(A.NavigationKey.Right))
    case Navigation(ArrowDown) => Ok(A.Key.Navigation(A.NavigationKey.Down))
    case Navigation(Backspace) => Ok(A.Key.Navigation(A.NavigationKey.Back))
    case Navigation(Enter) => Ok(A.Key.Navigation(A.NavigationKey.Return))
    case Navigation(Space) => Ok(A.Key.Navigation(A.NavigationKey.Space))
    case Navigation(NumLock) => Ok(A.Key.Navigation(A.NavigationKey.Numlock))
    case Numpad(NumpadAdd) => Ok(A.Key.Numpad(A.NumpadKey.NumpadPlus))
    case Numpad(NumpadDivide) => Ok(A.Key.Numpad(A.NumpadKey.NumpadSlash))
    case Numpad(NumpadDecimal) => Err(())
    case Numpad(NumpadComma) => Err(())
    case Numpad(NumpadEnter) => Ok(A.Key.Numpad(A.NumpadKey.NumpadEnter))
    case Numpad(NumpadMultiply) => Ok(A.Key.Numpad(A.NumpadKey.NumpadAsterisk))
    case Numpad(NumpadSubtract) => Ok(A.Key.Numpad(A.NumpadKey.NumpadMinus))
    case Symbol(Backslash) => Ok(A.Key.Symbol(A.SymbolKey.Backslash))
    case Symbol(Comma) => Ok(A.Key.Symbol(A.SymbolKey.Comma))
    case Symbol(Convert) => Err(())
    case Symbol(MediaSelect) => Err(())
    case Symbol(MediaStop) => Err(())
    case Symbol(Minus) => Ok(A.Key.Symbol(A.SymbolKey.Minus))
    case Symbol(Period) => Ok(A.Key.Symbol(A.SymbolKey.Period))
    case Symbol(Power) => Err(())
    case Symbol(Semicolon) => Ok(A.Key.Symbol(A.SymbolKey.Semicolon))
    case Symbol(Slash) => Ok(A.Key.Symbol(A.SymbolKey.Slash))
    case Symbol(Sleep) => Err(())
    case Symbol(Tab) => Ok(A.Key.Symbol(A.SymbolKey.Tab))
    case Symbol(Copy) => Err(())
    case Symbol(Paste) => Err(())
    case Symbol(Cut) => Err(())
    case Unlisted(_) => assert false; Err(())
  }

  /** The key table read backwards: the code that produces each key, if any. */
  function CodeOfKey(k: A.Key): Option<W.KeyCode> {
    match k
    case Digit(Key1) => Some(W.KeyCode.Numpad(W.NumpadCode.Numpad1))
    case Digit(Key2) => Some(W.KeyCode.Numpad(W.NumpadCode.Numpad2))
    case Digit(Key3) => Some(W.KeyCode.Numpad(W.NumpadCode.Numpad3))
    case Digit(Key4) => Some(W.KeyCode.Numpad(W.NumpadCode.Numpad4))
    case Digit(Key5) => Some(W.KeyCode.Numpad(W.NumpadCode.Numpad5))
    case Digit(Key6) => Some(W.KeyCode.Numpad(W.NumpadCode.Numpad6))
    case Digit(Key7) => Some(W.KeyCode.Numpad(W.NumpadCode.Numpad7))
    case Digit(Key8) => Some(W.KeyCode.Numpad(W.NumpadCode.Numpad8))
    case Digit(Key9) => Some(W.KeyCode.Numpad(W.NumpadCode.Numpad9))
    case Digit(Key0) => Some(W.KeyCode.Numpad(W.NumpadCode.Numpad0))
    case Letter(A) => Some(W.KeyCode.Letter(W.LetterCode.KeyA))
    case Letter(B) => Some(W.KeyCode.Letter(W.LetterCode.KeyB))
    case Letter(C) => Some(W.KeyCode.Letter(W.LetterCode.KeyC))
    case Letter(D) => Some(W.KeyCode.Letter(W.LetterCode.KeyD))
    case Letter(E) => Some(W.KeyCode.Letter(W.LetterCode.KeyE))
    case Letter(F) => Some(W.KeyCode.Letter(W.LetterCode.KeyF))
    case Letter(G) => Some(W.KeyCode.Letter(W.LetterCode.KeyG))
    case Letter(H) => Some(W.KeyCode.Letter(W.LetterCode.KeyH))
    case Letter(I) => Some(W.KeyCode.Letter(W.LetterCode.KeyI))
    case Letter(J) => Some(W.KeyCode.Letter(W.LetterCode.KeyJ))
    case Letter(K) => Some(W.KeyCode.Letter(W.LetterCode.KeyK))
    case Letter(L) => Some(W.KeyCode.Letter(W.LetterCode.KeyL))
    case Letter(M) => Some(W.KeyCode.Letter(W.LetterCode.KeyM))
    case Letter(N) => Some(W.KeyCode.Letter(W.LetterCode.KeyN))
    case Letter(O) => Some(W.KeyCode.Letter(W.LetterCode.KeyO))
    case Letter(P) => Some(W.KeyCode.Letter(W.LetterCode.KeyP))
    case Letter(Q) => Some(W.KeyCode.Letter(W.LetterCode.KeyQ))
    case Letter(R) => Some(W.KeyCode.Letter(W.LetterCode.KeyR))
    case Letter(S) => Some(W.KeyCode.Letter(W.LetterCode.KeyS))
    case Letter(T) => Some(W.KeyCode.Letter(W.LetterCode.KeyT))
    case Letter(U) => Some(W.KeyCode.Letter(W.LetterCode.KeyU))
    case Letter(V) => Some(W.KeyCode.Letter(W.LetterCode.KeyV))
    case Letter(W) => Some(W.KeyCode.Letter(W.LetterCode.KeyW))
    case Letter(X) => Some(W.KeyCode.Letter(W.LetterCode.KeyX))
    case Letter(Y) => Some(W.KeyCode.Letter(W.LetterCode.KeyY))
    case Letter(Z) => Some(W.KeyCode.Letter(W.LetterCode.KeyZ))
    case Function(Escape) => Some(W.KeyCode.Function(W.FunctionCode.Escape))
    case Function(F1) => Some(W.KeyCode.Function(W.FunctionCode.F1))
    case Function(F2) => Some(W.KeyCode.Function(W.FunctionCode.F2))
    case Function(F3) => Some(W.KeyCode.Function(W.FunctionCode.F3))
    case Function(F4) => Some(W.KeyCode.Function(W.FunctionCode.F4))
    case Function(F5) => Some(W.KeyCode.Function(W.FunctionCode.F5))
    case Function(F6) => Some(W.KeyCode.Function(W.FunctionCode.F6))
    case Function(F7) => Some(W.KeyCode.Function(W.FunctionCode.F7))
    case Function(F8) => Some(W.KeyCode.Function(W.FunctionCode.F8))
    case Function(F9) => Some(W.KeyCode.Function(W.FunctionCode.F9))
    case Function(F10) => Some(W.KeyCode.Function(W.FunctionCode.F10))
    case Function(F11) => Some(W.KeyCode.Function(W.FunctionCode.F11))
    case Function(F12) => Some(W.KeyCode.Function(W.FunctionCode.F12))
    case Function(F13) => Some(W.KeyCode.Function(W.FunctionCode.F13))
    case Function(F14) => Some(W.KeyCode.Function(W.FunctionCode.F14))
    case Function(F15) => Some(W.KeyCode.Function(W.FunctionCode.F15))
    case Function(F16) => Some(W.KeyCode.Function(W.FunctionCode.F16))
    case Function(F17) => Some(W.KeyCode.Function(W.FunctionCode.F17))
    case Function(F18) => Some(W.KeyCode.Function(W.FunctionCode.F18))
    case Function(F19) => Some(W.KeyCode.Function(W.FunctionCode.F19))
    case Function(F20) => Some(W.KeyCode.Function(W.FunctionCode.F20))
    case Function(F21) => Some(W.KeyCode.Function(W.FunctionCode.F21))
    case Function(F22) => Some(W.KeyCode.Function(W.FunctionCode.F22))
    case Function(F23) => Some(W.KeyCode.Function(W.FunctionCode.F23))
    case Function(F24) => Some(W.KeyCode.Function(W.FunctionCode.F24))
    case Navigation(Pause) => Some(W.KeyCode.Navigation(W.NavigationCode.Pause))
    case Navigation(Insert) => Some(W.KeyCode.Navigation(W.NavigationCode.Insert))
    case Navigation(Home) => Some(W.KeyCode.Navigation(W.NavigationCode.Home))
    case Navigation(Delete) => Some(W.KeyCode.Navigation(W.NavigationCode.Delete))
    case Navigation(End) => Some(W.KeyCode.Navigation(W.NavigationCode.End))
    case Navigation(PageDown) => Some(W.KeyCode.Navigation(W.NavigationCode.PageDown))
    case Navigation(PageUp) => Some(W.KeyCode.Navigation(W.NavigationCode.PageUp))
    case Navigation(Left) => Some(W.KeyCode.Navigation(W.NavigationCode.ArrowLeft))
    case Navigation(Up) => Some(W.KeyCode.Navigation(W.NavigationCode.ArrowUp))
    case Navigation(Right) => Some(W.KeyCode.Navigation(W.NavigationCode.ArrowRight))
    case Navigation(Down) => Some(W.KeyCode.Navigation(W.NavigationCode.ArrowDown))
    case Navigation(Back) => Some(W.KeyCode.Navigation(W.NavigationCode.Backspace))
    case Navigation(Return) => Some(W.KeyCode.Navigation(W.NavigationCode.Enter))
    case Navigation(Space) => Some(W.KeyCode.Navigation(W.NavigationCode.Space))
    case Navigation(Numlock) => Some(W.KeyCode.Navigation(W.NavigationCode.NumLock))
    case Numpad(Numpad0) => None
    case Numpad(Numpad1) => None
    case Numpad(Numpad2) => None
    case Numpad(Numpad3) => None
    case Numpad(Numpad4) => None
    case Numpad(Numpad5) => None
    case Numpad(Numpad6) => None
    case Numpad(Numpad7) => None
    case Numpad(Numpad8) => None
    case Numpad(Numpad9) => None
    case Numpad(NumpadPlus) => Some(W.KeyCode.Numpad(W.NumpadCode.NumpadAdd))
    case Numpad(NumpadSlash) => Some(W.KeyCode.Numpad(W.NumpadCode.NumpadDivide))
    case Numpad(NumpadEnter) => Some(W.KeyCode.Numpad(W.NumpadCode.NumpadEnter))
    case Numpad(NumpadAsterisk) => Some(W.KeyCode.Numpad(W.NumpadCode.NumpadMultiply))
    case Numpad(NumpadMinus) => Some(W.KeyCode.Numpad(W.NumpadCode.NumpadSubtract))
    case Symbol(Backslash) => Some(W.KeyCode.Symbol(W.SymbolCode.Backslash))
    case Symbol(Comma) => Some(W.KeyCode.Symbol(W.SymbolCode.Comma))
    case Symbol(Minus) => Some(W.KeyCode.Symbol(W.SymbolCode.Minus))
    case Symbol(Period) => Some(W.KeyCode.Symbol(W.SymbolCode.Period))
    case Symbol(Semicolon) => Some(W.KeyCode.Symbol(W.SymbolCode.Semicolon))
    case Symbol(Slash) => Some(W.KeyCode.Symbol(W.SymbolCode.Slash))
    case Symbol(Tab) => Some(W.KeyCode.Symbol(W.SymbolCode.Tab))
  }

  /** The rows for the numeric keypad: each translated code comes back from its key, and only the unsupported ones fail. */
  lemma NumpadRows(c: W.NumpadCode)
    ensures var r := KeyFromCode(W.KeyCode.Numpad(c));
      (r.Ok? ==> CodeOfKey(r.value) == Some(W.KeyCode.Numpad(c))) && (r.Err? <==> Unsupported(W.KeyCode.Numpad(c)))
  {
  }

  /** The first half of the letter codes; the rows of each half are proved separately to keep each proof small. */
  predicate EarlyLetterCode(c: W.LetterCode) {
    c.KeyA? || c.KeyB? || c.KeyC? || c.KeyD? || c.KeyE? || c.KeyF? || c.KeyG? || c.KeyH? ||
    c.KeyI? || c.KeyJ? || c.KeyK? || c.KeyL? || c.KeyM?
  }

  lemma LetterRowsEarly(c: W.LetterCode)
    requires EarlyLetterCode(c)
    ensures var r := KeyFromCode(W.KeyCode.Letter(c));
      (r.Ok? ==> CodeOfKey(r.value) == Some(W.KeyCode.Letter(c))) && (r.Err? <==> Unsupported(W.KeyCode.Letter(c)))
  {
  }

  lemma LetterRowsLate(c: W.LetterCode)
    requires !EarlyLetterCode(c)
    ensures var r := KeyFromCode(W.KeyCode.Letter(c));
      (r.Ok? ==> CodeOfKey(r.value) == Some(W.KeyCode.Letter(c))) && (r.Err? <==> Unsupported(W.KeyCode.Letter(c)))
  {
  }

  /** The rows for the letter keys: each translated code comes back from its key, and only the unsupported ones fail. */
  lemma LetterRows(c: W.LetterCode)
    ensures var r := KeyFromCode(W.KeyCode.Letter(c));
      (r.Ok? ==> CodeOfKey(r.value) == Some(W.KeyCode.Letter(c))) && (r.Err? <==> Unsupported(W.KeyCode.Letter(c)))
  {
    if EarlyLetterCode(c) {
      LetterRowsEarly(c);
    } else {
      LetterRowsLate(c);
    }
  }

  /** The first half of the escape and function key codes; the rows of each half are proved separately to keep each proof small. */
  predicate EarlyFunctionCode(c: W.FunctionCode) {
    c.Escape? || c.F1? || c.F2? || c.F3? || c.F4? || c.F5? || c.F6? || c.F7? || c.F8? || c.F9? ||
    c.F10? || c.F11? || c.F12?
  }

  lemma FunctionRowsEarly(c: W.FunctionCode)
    requires EarlyFunctionCode(c)
    ensures var r := KeyFromCode(W.KeyCode.Function(c));
      (r.Ok? ==> CodeOfKey(r.value) == Some(W.KeyCode.Function(c))) && (r.Err? <==> Unsupported(W.KeyCode.Function(c)))
  {
  }

  lemma FunctionRowsLate(c: W.FunctionCode)
    requires !EarlyFunctionCode(c)
    ensures var r := KeyFromCode(W.KeyCode.Function(c));
      (r.Ok? ==> CodeOfKey(r.value) == Some(W.KeyCode.Function(c))) && (r.Err? <==> Unsupported(W.KeyCode.Function(c)))
  {
  }

  /** The rows for escape and the function keys: each translated code comes back from its key, and only the unsupported ones fail. */
  lemma FunctionRows(c: W.FunctionCode)
    ensures var r := KeyFromCode(W.KeyCode.Function(c));
      (r.Ok? ==> CodeOfKey(r.value) == Some(W.KeyCode.Function(c))) && (r.Err? <==> Unsupported(W.KeyCode.Function(c)))
  {
    if EarlyFunctionCode(c) {
      FunctionRowsEarly(c);
    } else {
      FunctionRowsLate(c);
    }
  }

  /** The rows for navigation and editing keys: each translated code comes back from its key, and only the unsupported ones fail. */
  lemma NavigationRows(c: W.NavigationCode)
    ensures var r := KeyFromCode(W.KeyCode.Navigation(c));
      (r.Ok? ==> CodeOfKey(r.value) == Some(W.KeyCode.Navigation(c))) && (r.Err? <==> Unsupported(W.KeyCode.Navigation(c)))
  {
  }

  /** The rows for punctuation, media and system keys: each translated code comes back from its key, and only the unsupported ones fail. */
  lemma SymbolRows(c: W.SymbolCode)
    ensures var r := KeyFromCode(W.KeyCode.Symbol(c));
      (r.Ok? ==> CodeOfKey(r.value) == Some(W.KeyCode.Symbol(c))) && (r.Err? <==> Unsupported(W.KeyCode.Symbol(c)))
  {
  }

  /** The digit keys read backwards: a key that has a code is what that code translates to. */
  lemma DigitKeysBack(k: A.DigitKey)
    requires CodeOfKey(A.Key.Digit(k)).Some?
    ensures Implemented(CodeOfKey(A.Key.Digit(k)).value)
    ensures KeyFromCode(CodeOfKey(A.Key.Digit(k)).value) == Ok(A.Key.Digit(k))
  {
  }

  /** The first half of the letter keys; the rows of each half are proved separately to keep each proof small. */
  predicate EarlyLetterKey(k: A.LetterKey) {
    k.A? || k.B? || k.C? || k.D? || k.E? || k.F? || k.G? || k.H? || k.I? || k.J? || k.K? || k.L? ||
    k.M?
  }

  lemma LetterKeysBackEarly(k: A.LetterKey)
    requires EarlyLetterKey(k)
    requires CodeOfKey(A.Key.Letter(k)).Some?
    ensures Implemented(CodeOfKey(A.Key.Letter(k)).value)
    ensures KeyFromCode(CodeOfKey(A.Key.Letter(k)).value) == Ok(A.Key.Letter(k))
  {
  }

  lemma LetterKeysBackLate(k: A.LetterKey)
    requires !EarlyLetterKey(k)
    requires CodeOfKey(A.Key.Letter(k)).Some?
    ensures Implemented(CodeOfKey(A.Key.Letter(k)).value)
    ensures KeyFromCode(CodeOfKey(A.Key.Letter(k)).value) == Ok(A.Key.Letter(k))
  {
  }

  /** The letter keys read backwards: a key that has a code is what that code translates to. */
  lemma LetterKeysBack(k: A.LetterKey)
    requires CodeOfKey(A.Key.Letter(k)).Some?
    ensures Implemented(CodeOfKey(A.Key.Letter(k)).value)
    ensures KeyFromCode(CodeOfKey(A.Key.Letter(k)).value) == Ok(A.Key.Letter(k))
  {
    if EarlyLetterKey(k) {
      LetterKeysBackEarly(k);
    } else {
      LetterKeysBackLate(k);
    }
  }

  /** The first half of the escape and function keys; the rows of each half are proved separately to keep each proof small. */
  predicate EarlyFunctionKey(k: A.FunctionKey) {
    k.Escape? || k.F1? || k.F2? || k.F3? || k.F4? || k.F5? || k.F6? || k.F7? || k.F8? || k.F9? ||
    k.F10? || k.F11? || k.F12?
  }

  lemma FunctionKeysBackEarly(k: A.FunctionKey)
    requires EarlyFunctionKey(k)
    requires CodeOfKey(A.Key.Function(k)).Some?
    ensures Implemented(CodeOfKey(A.Key.Function(k)).value)
    ensures KeyFromCode(CodeOfKey(A.Key.Function(k)).value) == Ok(A.Key.Function(k))
  {
  }

  lemma FunctionKeysBackLate(k: A.FunctionKey)
    requires !EarlyFunctionKey(k)
    requires CodeOfKey(A.Key.Function(k)).Some?
    ensures Implemented(CodeOfKey(A.Key.Function(k)).value)
    ensures KeyFromCode(CodeOfKey(A.Key.Function(k)).value) == Ok(A.Key.Function(k))
  {
  }

  /** The escape and function keys read backwards: a key that has a code is what that code translates to. */
  lemma FunctionKeysBack(k: A.FunctionKey)
    requires CodeOfKey(A.Key.Function(k)).Some?
    ensures Implemented(CodeOfKey(A.Key.Function(k)).value)
    ensures KeyFromCode(CodeOfKey(A.Key.Function(k)).value) == Ok(A.Key.Function(k))
  {
    if EarlyFunctionKey(k) {
      FunctionKeysBackEarly(k);
    } else {
      FunctionKeysBackLate(k);
    }
  }

  /** The navigation and editing keys read backwards: a key that has a code is what that code translates to. */
  lemma NavigationKeysBack(k: A.NavigationKey)
    requires CodeOfKey(A.Key.Navigation(k)).Some?
    ensures Implemented(CodeOfKey(A.Key.Navigation(k)).value)
    ensures KeyFromCode(CodeOfKey(A.Key.Navigation(k)).value) == Ok(A.Key.Navigation(k))
  {
  }

  /** The numeric keypad keys read backwards: a key that has a code is what that code translates to. */
  lemma NumpadKeysBack(k: A.NumpadKey)
    requires CodeOfKey(A.Key.Numpad(k)).Some?
    ensures Implemented(CodeOfKey(A.Key.Numpad(k)).value)
    ensures KeyFromCode(CodeOfKey(A.Key.Numpad(k)).value) == Ok(A.Key.Numpad(k))
  {
  }

  /** The punctuation keys read backwards: a key that has a code is what that code translates to. */
  lemma SymbolKeysBack(k: A.SymbolKey)
    requires CodeOfKey(A.Key.Symbol(k)).Some?
    ensures Implemented(CodeOfKey(A.Key.Symbol(k)).value)
    ensures KeyFromCode(CodeOfKey(A.Key.Symbol(k)).value) == Ok(A.Key.Symbol(k))
  {
  }

  /** A translated code is the one the backward table gives for its key. */
  lemma KeyTableLeftInverse(code: W.KeyCode)
    requires Implemented(code) && KeyFromCode(code).Ok?
    ensures CodeOfKey(KeyFromCode(code).value) == Some(code)
  {
    match code
    case Numpad(c) => NumpadRows(c);
    case Letter(c) => LetterRows(c);
    case Function(c) => FunctionRows(c);
    case Navigation(c) => NavigationRows(c);
    case Symbol(c) => SymbolRows(c);
    case Unlisted(_) => {}
  }

  /** Every code the backward table gives translates to its key. */
  lemma KeyTableRightInverse(k: A.Key)
    requires CodeOfKey(k).Some?
    ensures Implemented(CodeOfKey(k).value) && KeyFromCode(CodeOfKey(k).value) == Ok(k)
  {
    match k
    case Digit(k) => DigitKeysBack(k);
    case Letter(k) => LetterKeysBack(k);
    case Function(k) => FunctionKeysBack(k);
    case Navigation(k) => NavigationKeysBack(k);
    case Numpad(k) => NumpadKeysBack(k);
    case Symbol(k) => SymbolKeysBack(k);
  }

  /** No two codes translate to the same key. */
  lemma KeyTableInjective(c1: W.KeyCode, c2: W.KeyCode)
    requires Implemented(c1) && Implemented(c2)
    requires KeyFromCode(c1).Ok? && KeyFromCode(c1) == KeyFromCode(c2)
    ensures c1 == c2
  {
    KeyTableLeftInverse(c1);
    KeyTableLeftInverse(c2);
  }

  /** A handled code is rejected exactly when it is one of the ten unsupported codes. */
  lemma KeyRejections(code: W.KeyCode)
    requires Implemented(code)
    ensures KeyFromCode(code).Err? <==> Unsupported(code)
  {
    match code
    case Numpad(c) => NumpadRows(c);
    case Letter(c) => LetterRows(c);
    case Function(c) => FunctionRows(c);
    case Navigation(c) => NavigationRows(c);
    case Symbol(c) => SymbolRows(c);
    case Unlisted(_) => {}
  }

  /** The numeric keypad's digit codes, `Numpad0..Numpad9`. */
  predicate NumpadDigitCode(n: W.NumpadCode) {
    n.Numpad0? || n.Numpad1? || n.Numpad2? || n.Numpad3? || n.Numpad4? || n.Numpad5? ||
    n.Numpad6? || n.Numpad7? || n.Numpad8? || n.Numpad9?
  }

  /** The engine's numeric keypad digit keys, `Key::Numpad0..Key::Numpad9`. */
  predicate NumpadDigitKey(k: A.Key) {
    k.Numpad? &&
    (k.numpadKey.Numpad0? || k.numpadKey.Numpad1? || k.numpadKey.Numpad2? || k.numpadKey.Numpad3? ||
     k.numpadKey.Numpad4? || k.numpadKey.Numpad5? || k.numpadKey.Numpad6? || k.numpadKey.Numpad7? ||
     k.numpadKey.Numpad8? || k.numpadKey.Numpad9?)
  }

  /** The first matching arm wins: no key code produces `Key::Numpad0..Key::Numpad9`. */
  lemma NumpadKeysUnreachable(code: W.KeyCode)
    requires Implemented(code) && KeyFromCode(code).Ok?
    ensures !NumpadDigitKey(KeyFromCode(code).value)
  {
    KeyTableLeftInverse(code);
  }

  /**
   * `Numpad0..Numpad9` translate one-to-one onto the digit keys `Key0..Key9`
   * (the arms at lines 97-106), and each digit key comes back from its code.
   */
  lemma NumpadDigitsAsDigitKeys(n: W.NumpadCode, d: A.DigitKey)
    requires NumpadDigitCode(n)
    ensures KeyFromCode(W.KeyCode.Numpad(n)).Ok? && KeyFromCode(W.KeyCode.Numpad(n)).value.Digit?
    ensures KeyFromCode(W.KeyCode.Numpad(n)) == Ok(A.Key.Digit(d)) <==>
            CodeOfKey(A.Key.Digit(d)) == Some(W.KeyCode.Numpad(n))
  {
    NumpadRows(n);
    DigitKeysBack(d);
  }

  /** `KeyA..KeyZ` translate one-to-one onto the letter keys `A..Z`. */
  lemma LettersOneToOne(l: W.LetterCode, k: A.LetterKey)
    ensures KeyFromCode(W.KeyCode.Letter(l)).Ok? && KeyFromCode(W.KeyCode.Letter(l)).value.Letter?
    ensures CodeOfKey(A.Key.Letter(k)).Some? && CodeOfKey(A.Key.Letter(k)).value.Letter?
    ensures KeyFromCode(W.KeyCode.Letter(l)) == Ok(A.Key.Letter(k)) <==>
            CodeOfKey(A.Key.Letter(k)) == Some(W.KeyCode.Letter(l))
  {
    LetterRows(l);
    LetterKeysBack(k);
  }

  // ---------------------------------------------------------------------------
  // Event routing
  // ---------------------------------------------------------------------------

  function ButtonStateOf(state: W.ElementState): (r: A.ButtonState)
    ensures r.Pressed? <==> state.Pressed?
  {
    match state
    case Pressed => A.ButtonState.Pressed
    case Released => A.ButtonState.Released
  }

  /** A key event whose code the table does not handle would panic. */
  predicate KeyCodeHandled(e: W.Event) {
    e.DeviceEvent? && e.event.Key? && e.event.input.virtualKeycode.Some? ==>
      Implemented(e.event.input.virtualKeycode.value)
  }

  /**
   * `parse_winit_event`: mouse motion, line-delta wheel steps, known mouse
   * buttons and translatable keys become an event tagged with its device;
   * everything else is `Err(())`.
   */
  function ParseWinitEvent(e: W.Event): (r: Result<(A.EventSource, A.Event), ()>)
    requires KeyCodeHandled(e)
    ensures r.Ok? ==> e.DeviceEvent?
    ensures r.Ok? ==> (r.value.0 == A.EventSource.Mouse <==> r.value.1.binding.MouseBinding?)
  {
    match e
    case DeviceEvent(MouseMotion(delta)) =>
      Ok((A.EventSource.Mouse, A.Event(A.MouseBinding(A.Move), A.MouseMove(delta.0, delta.1))))
    case DeviceEvent(MouseWheel(LineDelta(horizontal, vertical))) =>
      Ok((A.EventSource.Mouse, A.Event(A.MouseBinding(A.Scroll), A.MouseScroll(horizontal, vertical))))
    case DeviceEvent(Button(button, state)) =>
      (match MouseButtonFromId(button)
       case Ok(b) => Ok((A.EventSource.Mouse, A.Event(A.MouseBinding(A.Button(b)), A.Buttons(ButtonStateOf(state)))))
       case Err(_) => Err(()))
    case DeviceEvent(Key(KeyboardInput(state, Some(keycode)))) =>
      (match KeyFromCode(keycode)
       case Ok(k) => Ok((A.EventSource.Keyboard, A.Event(A.KeyboardBinding(k), A.Buttons(ButtonStateOf(state)))))
       case Err(_) => Err(()))
    case _ => Err(())
  }

  /** The events `parse_winit_event` accepts, stated without the translation tables. */
  predicate Routable(e: W.Event) {
    e.DeviceEvent? &&
    match e.event
    case MouseMotion(_) => true
    case MouseWheel(delta) => delta.LineDelta?
    case Button(button, _) => 1 <= button <= 3
    case Key(input) => input.virtualKeycode.Some? && !Unsupported(input.virtualKeycode.value)
    case OtherDeviceEvent => false
  }

  /** An event is rejected exactly when it is not routable. */
  lemma ParseFailsExactly(e: W.Event)
    requires KeyCodeHandled(e)
    ensures ParseWinitEvent(e).Err? <==> !Routable(e)
  {
    if e.DeviceEvent? && e.event.Key? && e.event.input.virtualKeycode.Some? {
      KeyRejections(e.event.input.virtualKeycode.value);
    }
  }

  /** Motion and line-delta wheel events carry their two values through unchanged. */
  lemma ParseMouseValues(e: W.Event)
    requires e.DeviceEvent? && (e.event.MouseMotion? || (e.event.MouseWheel? && e.event.wheelDelta.LineDelta?))
    ensures var r := ParseWinitEvent(e);
      r.Ok? && r.value.0 == A.EventSource.Mouse &&
      (e.event.MouseMotion? ==>
        r.value.1 == A.Event(A.MouseBinding(A.Move), A.MouseMove(e.event.delta.0, e.event.delta.1))) &&
      (e.event.MouseWheel? ==>
        r.value.1 == A.Event(A.MouseBinding(A.Scroll), A.MouseScroll(e.event.wheelDelta.horizontal, e.event.wheelDelta.vertical)))
  {
  }

  /** A button or key event that parses keeps its press state, on the device and binding it came from. */
  lemma ParseKeepsPressState(e: W.Event)
    requires KeyCodeHandled(e) && ParseWinitEvent(e).Ok?
    requires e.event.Button? || e.event.Key?
    ensures var r := ParseWinitEvent(e).value;
      var state := if e.event.Button? then e.event.state else e.event.input.state;
      r.1.state == A.Buttons(ButtonStateOf(state)) &&
      (e.event.Button? ==> r.0 == A.EventSource.Mouse && r.1.binding == A.MouseBinding(A.Button(MouseButtonFromId(e.event.button).value))) &&
      (e.event.Key? ==> r.0 == A.EventSource.Keyboard && r.1.binding == A.KeyboardBinding(KeyFromCode(e.event.input.virtualKeycode.value).value))
  {
  }
}
