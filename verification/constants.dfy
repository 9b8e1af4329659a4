/** The constants of constants.py that the dispatcher uses. Times are in
    milliseconds: the source's seconds times 1000. */
module Constants {
  /** DEBOUNCE_TIME, 0.3 s. */
  const DebounceTime: int := 300
  /** BOOKMARK_SAVE_WINDOW, 10 s. */
  const BookmarkSaveWindow: int := 10000
  /** JOYSTICK_MIN_THRESHOLD: below it the stick is left / up. */
  const JoystickMinThreshold: int := 100
  /** JOYSTICK_MAX_THRESHOLD: above it the stick is right / down. */
  const JoystickMaxThreshold: int := 150

  const ButtonSelect: string := "BTN_BASE3"
  const ButtonStart: string := "BTN_BASE4"
  const ButtonA: string := "BTN_TRIGGER"
  const ButtonB: string := "BTN_THUMB"
  const JoystickX: string := "ABS_X"
  const JoystickY: string := "ABS_Y"
}
