/**
 * The security state machine of the briefcase: the four state enums, the alarm
 * interval, the displayed and saved PINs, the cursor marker, and one step of each
 * task body (buttons, potentiometer, accelerometer) as a function of the globals
 * before the step. Guards are read as C reads them: a bare enumerator in a `||`
 * is a truth value, true unless its value is 0.
 */
module Security {
  import opened Messages

  datatype Button = JLeft | JRight | JUp | JDown | JCenter

  datatype BriefcaseState = Locked | Unlocked | Moving {
    /** The enumerator's value in C. */
    function Value(): int {
      match this case Locked => 0 case Unlocked => 1 case Moving => 2
    }
  }

  datatype SecurityState = Enabled | Disabled {
    function Value(): int {
      match this case Enabled => 0 case Disabled => 1
    }
  }

  datatype AlarmState = On | Off | Pending {
    function Value(): int {
      match this case On => 0 case Off => 1 case Pending => 2
    }
  }

  datatype PinEditMode = Active | Inactive {
    function Value(): int {
      match this case Active => 0 case Inactive => 1
    }
  }

  /** How C reads an integer used as a condition. */
  predicate CTrue(v: int) {
    v != 0
  }

  // Message identifiers (`taskId`).
  const M_BRIEFCASE_LOCKED: uint32 := 0
  const M_BRIEFCASE_UNLOCKED: uint32 := 1
  const M_BRIEFCASE_MOVING: uint32 := 2
  const M_SECURITY_ENABLED: uint32 := 3
  const M_SECURITY_DISABLED: uint32 := 4
  const M_ALARM_ON: uint32 := 5
  const M_ALARM_OFF: uint32 := 6
  const M_ALARM_PENDING: uint32 := 7
  const M_TIME_INTERVAL: uint32 := 8
  const M_COUNTDOWN_VALUE: uint32 := 9
  const M_DISPLAYED_PIN: uint32 := 10
  const M_SAVED_PIN: uint32 := 11
  const M_POSITION: uint32 := 12
  const M_DISPLAY_CLEAR: uint32 := 13
  const M_PIN_EDIT_ON: uint32 := 14
  const M_PIN_EDIT_OFF: uint32 := 15

  const ZERO: uint8 := '0' as uint8
  const ONE: uint8 := '1' as uint8
  const NINE: uint8 := '9' as uint8
  const DASH: uint8 := '-' as uint8
  const BLANK: uint8 := ' ' as uint8

  /** Bounds a dial reading must meet to become the alarm interval. */
  const MIN_INTERVAL: uint8 := 10
  const MAX_INTERVAL: uint8 := 120
  /** Readings at or beyond this magnitude on any axis count as movement. */
  const MOTION_THRESHOLD: int := 40

  /** The globals the tasks share. */
  datatype Globals = Globals(
    briefcase: BriefcaseState,
    security: SecurityState,
    alarm: AlarmState,
    pinEdit: PinEditMode,
    alarmInterval: uint8,
    dPin: Quad,        // displayed PIN (the one being entered)
    sPin: Quad,        // saved PIN
    position: Quad,    // cursor marker line
    index: uint8)      // cursor, shared by both PINs

  /** The result of one task step: new globals, the task's message payload after the step, messages sent. */
  datatype Step = Step(g: Globals, data: Quad, out: seq<Message>)

  // ---------------------------------------------------------------------------
  // Helpers on digits, the cursor and the marker

  predicate IsDigit(c: uint8) {
    ZERO <= c <= NINE
  }

  predicate AllDigits(q: Quad) {
    forall k :: 0 <= k < 4 ==> IsDigit(q[k])
  }

  function DigitValue(c: uint8): int {
    c as int - ZERO as int
  }

  /** Raises a PIN digit; '9' wraps to '0'. */
  function IncDigit(c: uint8): (r: uint8)
    ensures IsDigit(c) ==> IsDigit(r) && DigitValue(r) == (DigitValue(c) + 1) % 10
  {
    if c < NINE then c + 1 else ZERO
  }

  /** Lowers a PIN digit; '0' wraps to '9'. */
  function DecDigit(c: uint8): (r: uint8)
    ensures IsDigit(c) ==> IsDigit(r) && DigitValue(r) == (DigitValue(c) + 9) % 10
  {
    if c > ZERO then c - 1 else NINE
  }

  /** The cursor after JRIGHT: one cell to the left, 0 wraps to 3. */
  function CursorLeft(i: uint8): (r: uint8)
    ensures r < 4
    ensures i < 4 ==> r as int == (i as int + 3) % 4
  {
    if i > 0 then ((i as int - 1) % 4) as uint8 else 3
  }

  /** The cursor after JLEFT: one cell to the right, 3 wraps to 0. */
  function CursorRight(i: uint8): (r: uint8)
    ensures r < 4
    ensures i < 4 ==> CursorLeft(r) == i
  {
    ((i as int + 1) % 4) as uint8
  }

  /** The marker line with '-' under cell `i` and blanks elsewhere. */
  function Marker(i: uint8): (r: Quad)
    requires i < 4
    ensures forall k :: 0 <= k < 4 ==> (r[k] == DASH <==> k == i as int)
    ensures forall k :: 0 <= k < 4 ==> (r[k] == BLANK <==> k != i as int)
  {
    [if i == 0 then DASH else BLANK, if i == 1 then DASH else BLANK,
     if i == 2 then DASH else BLANK, if i == 3 then DASH else BLANK]
  }

  /** Whether the displayed PIN equals the saved PIN digit by digit. */
  function ProvePin(d: Quad, s: Quad): (r: bool)
    ensures r <==> d == s
  {
    assert d == s <== forall k :: 0 <= k < 4 ==> d[k] == s[k];
    d[0] == s[0] && d[1] == s[1] && d[2] == s[2] && d[3] == s[3]
  }

  // ---------------------------------------------------------------------------
  // Initialisation

  /** The globals as the program image starts them: every enum is 0. */
  function StaticImage(): (r: Globals)
    ensures r.briefcase.Value() == 0 && r.security.Value() == 0 && r.alarm.Value() == 0 && r.pinEdit.Value() == 0
    ensures r.alarmInterval == MIN_INTERVAL && r.index == 0 && r.position == Marker(r.index)
    ensures AllDigits(r.dPin) && AllDigits(r.sPin) && !ProvePin(r.dPin, r.sPin)
  {
    Globals(Locked, Enabled, On, Active, 10,
            [ZERO, ZERO, ZERO, ZERO], [ONE, ZERO, ZERO, ZERO], [DASH, BLANK, BLANK, BLANK], 0)
  }

  /** The defaults the button task sets before its loop. */
  function StatesInit(g: Globals): (r: Globals)
    ensures r.briefcase == Unlocked && r.security == Disabled && r.alarm == Off && r.pinEdit == Inactive
    ensures r.(briefcase := g.briefcase, security := g.security, alarm := g.alarm, pinEdit := g.pinEdit) == g
  {
    g.(briefcase := Unlocked, alarm := Off, security := Disabled, pinEdit := Inactive)
  }

  /** The five messages that describe the start state; `junk` is the uninitialised payload. */
  function DisplayInit(alarmInterval: uint8, junk: Quad): (out: seq<Message>)
    ensures Kinds(out) == [M_SECURITY_DISABLED, M_ALARM_OFF, M_TIME_INTERVAL, M_BRIEFCASE_UNLOCKED, M_DISPLAY_CLEAR]
    ensures out[2].dataArray[0] == alarmInterval && out[2].dataArray[1] == alarmInterval
  {
    var t := junk[0 := alarmInterval][1 := alarmInterval];
    [Message(M_SECURITY_DISABLED, junk), Message(M_ALARM_OFF, junk), Message(M_TIME_INTERVAL, t),
     Message(M_BRIEFCASE_UNLOCKED, t), Message(M_DISPLAY_CLEAR, t)]
  }

  // ---------------------------------------------------------------------------
  // The button task: an ordered list of guarded branches, first match wins

  datatype Pin = Displayed | Saved

  datatype Branch =
    | LockBriefcase | UnlockBriefcase | EnableSecurity | DisableSecurity
    | RaiseDigit(pin: Pin) | LowerDigit(pin: Pin) | MoveLeft(pin: Pin) | MoveRight(pin: Pin)
    | EnterPinEdit | ExitPinEdit | NoBranch

  /** The joystick direction each branch reacts to. */
  function Key(b: Branch): Button
    requires b != NoBranch
  {
    match b
    case LockBriefcase => JUp
    case UnlockBriefcase => JDown
    case EnableSecurity => JRight
    case DisableSecurity => JCenter
    case RaiseDigit(_) => JUp
    case LowerDigit(_) => JDown
    case MoveLeft(_) => JRight
    case MoveRight(_) => JLeft
    case EnterPinEdit => JLeft
    case ExitPinEdit => JCenter
  }

  /**
   * The branch the button loop takes, with the guards as C evaluates them. A
   * branch runs only when its direction is pressed; the set-up branches only
   * when idle; a digit or cursor branch works on the displayed PIN exactly when
   * security is enabled and on the saved PIN otherwise.
   */
  function SelectBranch(g: Globals, pressed: set<Button>): (r: Branch)
    ensures r != NoBranch ==> Key(r) in pressed
    ensures r in {LockBriefcase, UnlockBriefcase, EnableSecurity, EnterPinEdit} ==>
              g.security == Disabled && g.alarm == Off && g.pinEdit == Inactive
    ensures r == DisableSecurity ==> g.security == Enabled && g.pinEdit == Inactive
    ensures r == ExitPinEdit ==> g.security == Disabled
    ensures r.RaiseDigit? || r.LowerDigit? || r.MoveLeft? || r.MoveRight? ==>
              (r.pin == Displayed <==> g.security == Enabled) &&
              (r.pin == Displayed ==> g.pinEdit == Inactive) &&
              (r.pin == Saved ==> g.pinEdit == Active)
  {
    var idle := g.security == Disabled && g.alarm == Off && g.pinEdit == Inactive;
    var armed := g.security == Enabled && g.pinEdit == Inactive;
    var anyAlarm := g.alarm == Off || CTrue(Pending.Value()) || CTrue(On.Value());
    var editing := g.pinEdit == Active && g.security == Disabled;
    if JUp in pressed && g.briefcase == Unlocked && idle then LockBriefcase
    else if JDown in pressed && g.briefcase == Locked && idle then UnlockBriefcase
    else if JRight in pressed && g.briefcase == Locked && idle then EnableSecurity
    else if JCenter in pressed && (g.briefcase == Locked || CTrue(Moving.Value())) && armed && anyAlarm then
      DisableSecurity
    else if JUp in pressed && (g.briefcase == Locked || CTrue(Moving.Value())) && armed && anyAlarm then
      RaiseDigit(Displayed)
    else if JDown in pressed && (g.briefcase == Locked || CTrue(Moving.Value())) && armed && anyAlarm then
      LowerDigit(Displayed)
    else if JRight in pressed
         && (g.briefcase == Locked || CTrue(Unlocked.Value()) || CTrue(Moving.Value())) && armed && anyAlarm then
      MoveLeft(Displayed)
    else if JLeft in pressed
         && (g.briefcase == Locked || CTrue(Unlocked.Value()) || CTrue(Moving.Value())) && armed && anyAlarm then
      MoveRight(Displayed)
    else if JLeft in pressed && (g.briefcase == Locked || CTrue(Unlocked.Value())) && idle then EnterPinEdit
    else if JCenter in pressed && g.security == Disabled then ExitPinEdit
    else if JUp in pressed && editing then RaiseDigit(Saved)
    else if JDown in pressed && editing then LowerDigit(Saved)
    else if JRight in pressed && editing then MoveLeft(Saved)
    else if JLeft in pressed && editing then MoveRight(Saved)
    else NoBranch
  }

  /** The same list with the multi-state guards the comparisons were evidently meant to express. */
  function IntendedBranch(g: Globals, pressed: set<Button>): Branch {
    var idle := g.security == Disabled && g.alarm == Off && g.pinEdit == Inactive;
    var armed := g.security == Enabled && g.pinEdit == Inactive;
    var editing := g.pinEdit == Active && g.security == Disabled;
    var lockedOrMoving := g.briefcase == Locked || g.briefcase == Moving;
    if JUp in pressed && g.briefcase == Unlocked && idle then LockBriefcase
    else if JDown in pressed && g.briefcase == Locked && idle then UnlockBriefcase
    else if JRight in pressed && g.briefcase == Locked && idle then EnableSecurity
    else if JCenter in pressed && lockedOrMoving && armed then DisableSecurity
    else if JUp in pressed && lockedOrMoving && armed then RaiseDigit(Displayed)
    else if JDown in pressed && lockedOrMoving && armed then LowerDigit(Displayed)
    else if JRight in pressed && armed then MoveLeft(Displayed)
    else if JLeft in pressed && armed then MoveRight(Displayed)
    else if JLeft in pressed && (g.briefcase == Locked || g.briefcase == Unlocked) && idle then EnterPinEdit
    else if JCenter in pressed && g.security == Disabled then ExitPinEdit
    else if JUp in pressed && editing then RaiseDigit(Saved)
    else if JDown in pressed && editing then LowerDigit(Saved)
    else if JRight in pressed && editing then MoveLeft(Saved)
    else if JLeft in pressed && editing then MoveRight(Saved)
    else NoBranch
  }

  function PinOf(g: Globals, p: Pin): Quad {
    match p case Displayed => g.dPin case Saved => g.sPin
  }

  function WithPin(g: Globals, p: Pin, q: Quad): Globals {
    match p case Displayed => g.(dPin := q) case Saved => g.(sPin := q)
  }

  /** Moves the marker from the cursor to `j` and the cursor with it. */
  function MoveCursor(g: Globals, data: Quad, j: uint8): Step
    requires g.index < 4 && j < 4
  {
    var pos := g.position[g.index as int := BLANK][j as int := DASH];
    Step(g.(position := pos, index := j), pos, [Message(M_POSITION, pos)])
  }

  /** The effect of one branch: new globals, the button task's payload afterwards, messages in order. */
  function ApplyBranch(g: Globals, data: Quad, b: Branch): (r: Step)
    requires g.index < 4
    ensures r.g.index < 4 && |r.out| <= 4
    ensures r.g.alarmInterval == g.alarmInterval
    ensures r.g.alarm != g.alarm ==> b == DisableSecurity && r.g.alarm == Off
    ensures r.g.briefcase != g.briefcase ==> b in {LockBriefcase, UnlockBriefcase, DisableSecurity}
    ensures r.g.sPin != g.sPin ==> b in {RaiseDigit(Saved), LowerDigit(Saved)}
    ensures r.out == [] <==> b == NoBranch || (b == DisableSecurity && !ProvePin(g.dPin, g.sPin))
    ensures r.out == [] ==> r.g == g && r.data == data
  {
    match b
    case NoBranch => Step(g, data, [])
    case LockBriefcase => Step(g.(briefcase := Locked), data, [Message(M_BRIEFCASE_LOCKED, data)])
    case UnlockBriefcase => Step(g.(briefcase := Unlocked), data, [Message(M_BRIEFCASE_UNLOCKED, data)])
    case EnableSecurity =>
      var pin: Quad := [ZERO, ZERO, ZERO, ZERO];
      var pos := Marker(0);
      Step(g.(security := Enabled, dPin := pin, position := pos, index := 0), pos,
           [Message(M_SECURITY_ENABLED, data), Message(M_DISPLAYED_PIN, pin), Message(M_POSITION, pos)])
    case DisableSecurity =>
      if ProvePin(g.dPin, g.sPin) then
        Step(g.(briefcase := Locked, security := Disabled, alarm := Off), data,
             [Message(M_BRIEFCASE_LOCKED, data), Message(M_SECURITY_DISABLED, data),
              Message(M_ALARM_OFF, data), Message(M_DISPLAY_CLEAR, data)])
      else Step(g, data, [])
    case RaiseDigit(p) =>
      var pin := PinOf(g, p)[g.index as int := IncDigit(PinOf(g, p)[g.index])];
      Step(WithPin(g, p, pin), pin, [Message(M_DISPLAYED_PIN, pin)])
    case LowerDigit(p) =>
      var pin := PinOf(g, p)[g.index as int := DecDigit(PinOf(g, p)[g.index])];
      Step(WithPin(g, p, pin), pin, [Message(M_DISPLAYED_PIN, pin)])
    case MoveLeft(_) => MoveCursor(g, data, CursorLeft(g.index))
    case MoveRight(_) => MoveCursor(g, data, CursorRight(g.index))
    case EnterPinEdit =>
      var pos := Marker(0);
      Step(g.(pinEdit := Active, position := pos, index := 0), pos,
           [Message(M_PIN_EDIT_ON, data), Message(M_DISPLAYED_PIN, g.sPin), Message(M_POSITION, pos)])
    case ExitPinEdit =>
      Step(g.(pinEdit := Inactive), data, [Message(M_PIN_EDIT_OFF, data), Message(M_DISPLAY_CLEAR, data)])
  }

  /** One pass of the button loop given the buttons that read as pressed. */
  function ButtonStep(g: Globals, data: Quad, pressed: set<Button>): (r: Step)
    requires g.index < 4
    ensures r.g.index < 4
  {
    ApplyBranch(g, data, SelectBranch(g, pressed))
  }

  // ---------------------------------------------------------------------------
  // The potentiometer task

  /** When the dial is read, as C evaluates the guard. */
  function DialGuard(g: Globals): (r: bool)
    ensures r <==> g.security == Disabled && g.alarm == Off && g.pinEdit == Inactive
    ensures IntendedDialGuard(g) ==> r
  {
    (g.briefcase == Locked || CTrue(Unlocked.Value())) && g.security == Disabled
    && g.alarm == Off && g.pinEdit == Inactive
  }

  /** The same guard with the comparison evidently meant. */
  predicate IntendedDialGuard(g: Globals) {
    (g.briefcase == Locked || g.briefcase == Unlocked) && g.security == Disabled
    && g.alarm == Off && g.pinEdit == Inactive
  }

  /** The guard of the countdown branch. */
  function Counting(g: Globals): (r: bool)
    ensures r ==> !DialGuard(g) && !IntendedDialGuard(g)
  {
    g.briefcase == Moving && g.security == Enabled && g.alarm == Pending && g.pinEdit == Inactive
  }

  /** One pass of the potentiometer loop given the dial reading already truncated to a byte. */
  function PotStep(g: Globals, data: Quad, dial: uint8): (r: Step)
    ensures r.g == g.(alarmInterval := r.g.alarmInterval, alarm := r.g.alarm) && |r.out| <= 2
    ensures r.g.alarm != g.alarm ==> Counting(g) && r.g.alarm == On && r.g.alarmInterval == 0
    ensures r.g.alarmInterval != g.alarmInterval ==>
              Counting(g) || (DialGuard(g) && r.g.alarmInterval == dial && MIN_INTERVAL <= dial <= MAX_INTERVAL)
    ensures Counting(g) ==> r.out != [] && r.out[0].taskId == M_COUNTDOWN_VALUE &&
                            r.out[0].dataArray[0] == r.g.alarmInterval
    ensures r.out == [] ==> r.g == g && r.data == data
  {
    if DialGuard(g) then
      if MIN_INTERVAL <= dial <= MAX_INTERVAL then
        var d := data[0 := dial][1 := dial];
        Step(g.(alarmInterval := dial), d, [Message(M_TIME_INTERVAL, d)])
      else Step(g, data, [])
    else if Counting(g) then
      var ai := ((g.alarmInterval as int - 1) % 0x100) as uint8;
      var d := data[0 := ai];
      if ai == 0 then
        Step(g.(alarmInterval := ai, alarm := On), d, [Message(M_COUNTDOWN_VALUE, d), Message(M_ALARM_ON, d)])
      else Step(g.(alarmInterval := ai), d, [Message(M_COUNTDOWN_VALUE, d)])
    else Step(g, data, [])
  }

  // ---------------------------------------------------------------------------
  // The accelerometer task

  predicate Jolted(v: int) {
    v >= MOTION_THRESHOLD || v <= -MOTION_THRESHOLD
  }

  /** How many readings of `axes` are at or beyond the threshold. */
  function JoltCount(axes: seq<int>): (n: nat)
    ensures n <= |axes|
    ensures n == 0 <==> forall k :: 0 <= k < |axes| ==> !Jolted(axes[k])
  {
    if axes == [] then 0
    else JoltCount(axes[..|axes| - 1]) + (if Jolted(axes[|axes| - 1]) then 1 else 0)
  }

  /** `n` copies of the pair ALARM_PENDING, BRIEFCASE_MOVING. */
  function AlarmPairs(n: nat, data: Quad): (out: seq<Message>)
    ensures |out| == 2 * n
    ensures forall k :: 0 <= k < |out| ==>
              out[k] == Message(if k % 2 == 0 then M_ALARM_PENDING else M_BRIEFCASE_MOVING, data)
  {
    if n == 0 then [] else AlarmPairs(n - 1, data) + [Message(M_ALARM_PENDING, data), Message(M_BRIEFCASE_MOVING, data)]
  }

  /** One pass of the accelerometer loop given the three axis readings. */
  function AccStep(g: Globals, data: Quad, x: int, y: int, z: int): (r: Step)
    ensures r.data == data && r.g == g.(briefcase := r.g.briefcase, alarm := r.g.alarm)
    ensures |r.out| <= 6 && |r.out| % 2 == 0
    ensures r.out != [] <==> r.g != g
    ensures r.g != g ==> g.security == Enabled && r.g.alarm == Pending && r.g.briefcase == Moving
  {
    if g.briefcase == Locked && g.security == Enabled && g.alarm == Off && g.pinEdit == Inactive then
      var n := JoltCount([x, y, z]);
      Step(if n > 0 then g.(alarm := Pending, briefcase := Moving) else g, data, AlarmPairs(n, data))
    else Step(g, data, [])
  }

  // ---------------------------------------------------------------------------
  // Reachable states

  /** What holds of the globals after start-up and after every atomic task step. */
  predicate Inv(g: Globals) {
    (g.security == Enabled ==> g.briefcase == Locked || g.briefcase == Moving) &&
    (g.security == Disabled ==> g.briefcase == Locked || g.briefcase == Unlocked) &&
    (g.briefcase == Moving <==> g.alarm != Off) &&
    (g.alarm != Off ==> g.security == Enabled) &&
    (g.pinEdit == Active ==> g.security == Disabled) &&
    g.index < 4 && g.position == Marker(g.index) &&
    AllDigits(g.dPin) && AllDigits(g.sPin)
  }

  // ---------------------------------------------------------------------------
  // Runs: task bodies interleaved, each one atomic

  /** The globals and each task's own message payload (its `msg.dataArray`). */
  datatype System = System(g: Globals, buttonData: Quad, potData: Quad, accData: Quad)

  /** One pass of one task's loop, with what it sampled. */
  datatype Event = Buttons(pressed: set<Button>) | Dial(value: uint8) | Motion(x: int, y: int, z: int)

  /** The state once the button task has run statesInit; the payloads are uninitialised memory. */
  function Start(buttonJunk: Quad, potJunk: Quad, accJunk: Quad): System {
    System(StatesInit(StaticImage()), buttonJunk, potJunk, accJunk)
  }

  /** One task pass applied to the whole state. */
  function Apply(s: System, e: Event): (r: System)
    requires s.g.index < 4
    ensures r.g.index < 4
  {
    match e
    case Buttons(pressed) =>
      var st := ButtonStep(s.g, s.buttonData, pressed);
      s.(g := st.g, buttonData := st.data)
    case Dial(v) =>
      var st := PotStep(s.g, s.potData, v);
      s.(g := st.g, potData := st.data)
    case Motion(x, y, z) =>
      var st := AccStep(s.g, s.accData, x, y, z);
      s.(g := st.g, accData := st.data)
  }

  /** The state after the passes `es`, in order. */
  function RunEvents(s: System, es: seq<Event>): (r: System)
    requires s.g.index < 4
    ensures r.g.index < 4
    decreases |es|
  {
    if es == [] then s else RunEvents(Apply(s, es[0]), es[1..])
  }
}
