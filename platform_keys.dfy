/**
 * Remote-control key codes (src/platform/keys.ts): one table per platform,
 * the table lookup of `getKeyCodes`, the `isKey` match rule and the filtering
 * done by the handler `registerKeyHandler` installs.
 *
 * Every table defines the same 21 key names and maps each to a number, so a
 * table is a total function from `KeyName` to `int`; a name string is first
 * resolved to a `KeyName`.
 */
module Keys {
  import opened Wrappers
  import opened Detect

  datatype KeyName =
    | Up | Down | Left | Right | Enter | Back | Exit
    | Play | Pause | PlayPause | Stop | FastForward | Rewind
    | Info | Menu | Red | Green | Yellow | Blue | ChannelUp | ChannelDown

  /** The property name a key has in the tables. */
  function KeyNameString(k: KeyName): string {
    match k
    case Up => "UP"
    case Down => "DOWN"
    case Left => "LEFT"
    case Right => "RIGHT"
    case Enter => "ENTER"
    case Back => "BACK"
    case Exit => "EXIT"
    case Play => "PLAY"
    case Pause => "PAUSE"
    case PlayPause => "PLAY_PAUSE"
    case Stop => "STOP"
    case FastForward => "FAST_FORWARD"
    case Rewind => "REWIND"
    case Info => "INFO"
    case Menu => "MENU"
    case Red => "RED"
    case Green => "GREEN"
    case Yellow => "YELLOW"
    case Blue => "BLUE"
    case ChannelUp => "CHANNEL_UP"
    case ChannelDown => "CHANNEL_DOWN"
  }

  /** Which table entry a property name selects, if any. */
  function ParseKeyName(s: string): (k: Option<KeyName>)
    ensures k.Some? ==> KeyNameString(k.value) == s
  {
    if s == "UP" then Some(Up)
    else if s == "DOWN" then Some(Down)
    else if s == "LEFT" then Some(Left)
    else if s == "RIGHT" then Some(Right)
    else if s == "ENTER" then Some(Enter)
    else if s == "BACK" then Some(Back)
    else if s == "EXIT" then Some(Exit)
    else if s == "PLAY" then Some(Play)
    else if s == "PAUSE" then Some(Pause)
    else if s == "PLAY_PAUSE" then Some(PlayPause)
    else if s == "STOP" then Some(Stop)
    else if s == "FAST_FORWARD" then Some(FastForward)
    else if s == "REWIND" then Some(Rewind)
    else if s == "INFO" then Some(Info)
    else if s == "MENU" then Some(Menu)
    else if s == "RED" then Some(Red)
    else if s == "GREEN" then Some(Green)
    else if s == "YELLOW" then Some(Yellow)
    else if s == "BLUE" then Some(Blue)
    else if s == "CHANNEL_UP" then Some(ChannelUp)
    else if s == "CHANNEL_DOWN" then Some(ChannelDown)
    else None
  }

  /** Every key's own name is recognised, so all 21 names are defined in every table. */
  lemma ParseKeyNameString(k: KeyName)
    ensures ParseKeyName(KeyNameString(k)) == Some(k)
  {
  }

  function TizenKeyCodes(k: KeyName): int {
    match k
    case Up => 38 case Down => 40 case Left => 37 case Right => 39 case Enter => 13
    case Back => 10009 case Exit => 10182
    case Play => 415 case Pause => 19 case PlayPause => 10252 case Stop => 413
    case FastForward => 417 case Rewind => 412 case Info => 457 case Menu => 10135
    case Red => 403 case Green => 404 case Yellow => 405 case Blue => 406
    case ChannelUp => 427 case ChannelDown => 428
  }

  function WebOSKeyCodes(k: KeyName): int {
    match k
    case Up => 38 case Down => 40 case Left => 37 case Right => 39 case Enter => 13
    case Back => 461 case Exit => 27
    case Play => 415 case Pause => 19 case PlayPause => 10252 case Stop => 413
    case FastForward => 417 case Rewind => 412 case Info => 457 case Menu => 457
    case Red => 403 case Green => 404 case Yellow => 405 case Blue => 406
    case ChannelUp => 33 case ChannelDown => 34
  }

  function HisenseKeyCodes(k: KeyName): int {
    match k
    case Up => 38 case Down => 40 case Left => 37 case Right => 39 case Enter => 13
    case Back => 8 case Exit => 27
    case Play => 415 case Pause => 19 case PlayPause => 10252 case Stop => 413
    case FastForward => 417 case Rewind => 412 case Info => 457 case Menu => 36
    case Red => 403 case Green => 404 case Yellow => 405 case Blue => 406
    case ChannelUp => 427 case ChannelDown => 428
  }

  /** The fallback table, bound to ordinary keyboard keys. */
  function GenericKeyCodes(k: KeyName): int {
    match k
    case Up => 38 case Down => 40 case Left => 37 case Right => 39 case Enter => 13
    case Back => 8 case Exit => 27
    case Play => 32 case Pause => 32 case PlayPause => 32 case Stop => 83
    case FastForward => 70 case Rewind => 82 case Info => 73 case Menu => 77
    case Red => 49 case Green => 50 case Yellow => 51 case Blue => 52
    case ChannelUp => 33 case ChannelDown => 34
  }

  /** `getKeyCodes()` for a detected platform. */
  function GetKeyCodes(p: Platform): (table: KeyName -> int)
    ensures p == Tizen ==> table == TizenKeyCodes
    ensures p == WebOS ==> table == WebOSKeyCodes
    ensures p == Hisense ==> table == HisenseKeyCodes
    ensures p == Generic ==> table == GenericKeyCodes
  {
    match p
    case Tizen => TizenKeyCodes
    case WebOS => WebOSKeyCodes
    case Hisense => HisenseKeyCodes
    case Generic => GenericKeyCodes
  }

  /** The navigation keys have the same codes on every platform. */
  lemma NavigationCodesShared(p: Platform)
    ensures GetKeyCodes(p)(Up) == 38 && GetKeyCodes(p)(Down) == 40
    ensures GetKeyCodes(p)(Left) == 37 && GetKeyCodes(p)(Right) == 39
    ensures GetKeyCodes(p)(Enter) == 13
  {
  }

  /** The fields of a keyboard event that `isKey` reads. */
  datatype KeyEvent = KeyEvent(keyCode: int, which: int, key: string)

  /**
   * `isKey(event, keyName)` on the detected platform: a name in the table
   * matches when the event's `keyCode` or `which` equals its code. A name not
   * in the table yields `undefined`, which `event.key` (always a string)
   * never equals.
   */
  predicate IsKey(p: Platform, event: KeyEvent, keyName: string) {
    match ParseKeyName(keyName)
    case Some(k) =>
      var code := GetKeyCodes(p)(k);
      event.keyCode == code || event.which == code
    case None => false
  }

  /** For a key of the table, `isKey` holds exactly when `keyCode` or `which` carries its code. */
  lemma IsKeyByCode(p: Platform, event: KeyEvent, k: KeyName)
    ensures IsKey(p, event, KeyNameString(k)) <==>
            event.keyCode == GetKeyCodes(p)(k) || event.which == GetKeyCodes(p)(k)
  {
    ParseKeyNameString(k);
  }

  /** A name missing from the tables matches no event. */
  lemma UnknownNameNeverMatches(p: Platform, event: KeyEvent, keyName: string)
    requires forall k: KeyName :: KeyNameString(k) != keyName
    ensures !IsKey(p, event, keyName)
  {
  }

  /** Codes are shared: on the generic table a space bar press is PLAY, PAUSE and PLAY_PAUSE at once. */
  lemma GenericSpaceMatchesThreeKeys(which: int)
    ensures var space := KeyEvent(32, which, " ");
            IsKey(Generic, space, "PLAY") && IsKey(Generic, space, "PAUSE") && IsKey(Generic, space, "PLAY_PAUSE")
  {
  }

  /** On webOS one code, 457, is both INFO and MENU. */
  lemma WebOSInfoIsMenu(event: KeyEvent)
    ensures IsKey(WebOS, event, "INFO") <==> IsKey(WebOS, event, "MENU")
  {
  }

  /** What the installed `keydown` handler does with one event, in order. */
  datatype Effect = InvokeHandler | PreventDefault

  /** The handler calls the callback and then `preventDefault`, and only for a matching event. */
  function OnKeyDown(p: Platform, keyName: string, event: KeyEvent): (effects: seq<Effect>)
    ensures effects != [] <==> IsKey(p, event, keyName)
    ensures effects != [] ==> effects == [InvokeHandler, PreventDefault]
  {
    if IsKey(p, event, keyName) then [InvokeHandler, PreventDefault] else []
  }

  /** An arrow press is handled identically on every platform. */
  lemma ArrowHandlingPlatformIndependent(p: Platform, q: Platform, event: KeyEvent)
    ensures OnKeyDown(p, "UP", event) == OnKeyDown(q, "UP", event)
    ensures OnKeyDown(p, "LEFT", event) == OnKeyDown(q, "LEFT", event)
  {
    NavigationCodesShared(p);
    NavigationCodesShared(q);
  }
}
