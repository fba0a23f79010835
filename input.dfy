/**
 * Keyboard codes (pygame 2, which takes them from SDL 2) and the events the
 * game's handlers receive.
 */
module Input {
  const KeyUnknown: int := 0
  const KeyBackspace: int := 8
  const KeyTab: int := 9
  const KeyReturn: int := 13
  const KeyEscape: int := 27
  const KeySpace: int := 32
  const KeyPlus: int := 43
  const KeyMinus: int := 45
  const Key0: int := 48
  const Key1: int := 49
  const Key2: int := 50
  const Key3: int := 51
  const Key5: int := 53
  const Key9: int := 57
  const KeyEquals: int := 61
  const KeyA: int := 97
  const KeyD: int := 100
  const KeyM: int := 109
  const KeyR: int := 114
  const KeyS: int := 115
  const KeyW: int := 119
  const KeyX: int := 120
  const KeyZ: int := 122
  const KeyDelete: int := 127
  const KeyRight: int := 1073741903
  const KeyLeft: int := 1073741904
  const KeyDown: int := 1073741905
  const KeyUp: int := 1073741906
  const KeyKeypadMinus: int := 1073741910
  const KeyKeypadPlus: int := 1073741911
  const KeyLeftCtrl: int := 1073742048
  const KeyLeftShift: int := 1073742049
  const KeyLeftAlt: int := 1073742050
  const KeyRightCtrl: int := 1073742052
  const KeyRightShift: int := 1073742053
  const KeyRightAlt: int := 1073742054

  /** A pygame event as the handlers see it: its type and the one field they read. */
  datatype Event =
    | KeyPress(key: int)
    | MouseWheel(y: int)
    | Quit
    | OtherEvent
}
