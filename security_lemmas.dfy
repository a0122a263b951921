/**
 * Properties of the security state machine: the reachable-state invariant, the
 * agreement of the literal C guards with the intended ones on reachable states,
 * and what each button, dial and motion step does.
 */
module SecurityLemmas {
  import opened Messages
  import opened Security

  // ---------------------------------------------------------------------------
  // Helpers on digits, cursor and marker

  /** Lowering a digit undoes raising it, and the other way round. */
  lemma DigitStepsInverse(c: uint8)
    requires IsDigit(c)
    ensures DecDigit(IncDigit(c)) == c && IncDigit(DecDigit(c)) == c
  {
  }

  /** JLEFT undoes JRIGHT on the cursor. */
  lemma CursorStepsInverse(i: uint8)
    requires i < 4
    ensures CursorRight(CursorLeft(i)) == i
  {
  }

  /** Blanking the old cell and marking the new one turns one marker line into the other. */
  lemma MarkerMoves(i: uint8, j: uint8)
    requires i < 4 && j < 4
    ensures Marker(i)[i as int := BLANK][j as int := DASH] == Marker(j)
  {
    var m := Marker(i)[i as int := BLANK][j as int := DASH];
    forall k | 0 <= k < 4
      ensures m[k] == Marker(j)[k]
    {
    }
  }

  /** A raised or lowered digit at the cursor leaves a PIN of digits a PIN of digits. */
  lemma EditKeepsDigits(q: Quad, i: uint8, c: uint8)
    requires AllDigits(q) && i < 4 && IsDigit(c)
    ensures AllDigits(q[i as int := c])
  {
    var r := q[i as int := c];
    forall k | 0 <= k < 4
      ensures IsDigit(r[k])
    {
      if k != i as int {
        assert r[k] == q[k];
      }
    }
  }

  // ---------------------------------------------------------------------------
  // The invariant

  /** The zero-initialised image breaks the invariant; the defaults of statesInit establish it. */
  lemma StartupEstablishesInv()
    ensures !Inv(StaticImage())
    ensures Inv(StatesInit(StaticImage()))
  {
    var g := StatesInit(StaticImage());
    assert g.position == Marker(0);
    assert AllDigits(g.dPin) && AllDigits(g.sPin);
  }

  lemma ButtonStepKeepsInv(g: Globals, data: Quad, pressed: set<Button>)
    requires Inv(g)
    ensures Inv(ButtonStep(g, data, pressed).g)
  {
    var b := SelectBranch(g, pressed);
    match b
    case EnableSecurity =>
      assert AllDigits([ZERO, ZERO, ZERO, ZERO]);
    case RaiseDigit(p) =>
      EditKeepsDigits(PinOf(g, p), g.index, IncDigit(PinOf(g, p)[g.index]));
    case LowerDigit(p) =>
      EditKeepsDigits(PinOf(g, p), g.index, DecDigit(PinOf(g, p)[g.index]));
    case MoveLeft(_) =>
      MarkerMoves(g.index, CursorLeft(g.index));
    case MoveRight(_) =>
      MarkerMoves(g.index, CursorRight(g.index));
    case _ =>
  }

  lemma PotStepKeepsInv(g: Globals, data: Quad, dial: uint8)
    requires Inv(g)
    ensures Inv(PotStep(g, data, dial).g)
  {
  }

  lemma AccStepKeepsInv(g: Globals, data: Quad, x: int, y: int, z: int)
    requires Inv(g)
    ensures Inv(AccStep(g, data, x, y, z).g)
  {
  }

  /** Every state reached from `s` by atomic task passes keeps the invariant. */
  lemma {:induction false} RunKeepsInv(s: System, es: seq<Event>)
    requires Inv(s.g)
    ensures Inv(RunEvents(s, es).g)
    decreases |es|
  {
    if es != [] {
      match es[0] {
        case Buttons(pressed) => ButtonStepKeepsInv(s.g, s.buttonData, pressed);
        case Dial(v) => PotStepKeepsInv(s.g, s.potData, v);
        case Motion(x, y, z) => AccStepKeepsInv(s.g, s.accData, x, y, z);
      }
      RunKeepsInv(Apply(s, es[0]), es[1..]);
    }
  }

  /** After start-up, whatever the tasks sample and however their passes interleave, the invariant holds. */
  lemma ReachableInv(bj: Quad, pj: Quad, aj: Quad, es: seq<Event>)
    ensures Inv(RunEvents(Start(bj, pj, aj), es).g)
  {
    StartupEstablishesInv();
    RunKeepsInv(Start(bj, pj, aj), es);
  }

  // ---------------------------------------------------------------------------
  // Literal guards against intended guards

  /** On a state satisfying the invariant the literal guards pick the branch the intended ones pick. */
  lemma LiteralGuardsAsIntended(g: Globals, pressed: set<Button>)
    requires Inv(g)
    ensures SelectBranch(g, pressed) == IntendedBranch(g, pressed)
    ensures DialGuard(g) == IntendedDialGuard(g)
  {
  }

  /** Off the invariant they differ: a moving, disarmed briefcase would enter PIN edit on JLEFT. */
  lemma LiteralGuardsDifferOffInv()
    ensures var g := StatesInit(StaticImage()).(briefcase := Moving);
      !Inv(g) && SelectBranch(g, {JLeft}) == EnterPinEdit && IntendedBranch(g, {JLeft}) == NoBranch
      && DialGuard(g) && !IntendedDialGuard(g)
  {
  }

  /** In every reachable state the program behaves as if its guards were the intended ones. */
  lemma ReachableGuardsAsIntended(bj: Quad, pj: Quad, aj: Quad, es: seq<Event>, pressed: set<Button>)
    ensures var g := RunEvents(Start(bj, pj, aj), es).g;
      SelectBranch(g, pressed) == IntendedBranch(g, pressed) && DialGuard(g) == IntendedDialGuard(g)
  {
    ReachableInv(bj, pj, aj, es);
    LiteralGuardsAsIntended(RunEvents(Start(bj, pj, aj), es).g, pressed);
  }

  // ---------------------------------------------------------------------------
  // The button task

  /** JUP locks an unlocked, disarmed, quiet briefcase; JDOWN unlocks a locked one. One message each. */
  lemma LockAndUnlock(g: Globals, data: Quad)
    requires g.index < 4 && g.security == Disabled && g.alarm == Off && g.pinEdit == Inactive
    ensures g.briefcase == Unlocked ==>
      ButtonStep(g, data, {JUp}) == Step(g.(briefcase := Locked), data, [Message(M_BRIEFCASE_LOCKED, data)])
    ensures g.briefcase == Locked ==>
      ButtonStep(g, data, {JDown}) == Step(g.(briefcase := Unlocked), data, [Message(M_BRIEFCASE_UNLOCKED, data)])
  {
  }

  /** JRIGHT arms a locked, disarmed, quiet briefcase: PIN "0000", cursor 0, three messages. */
  lemma ArmSecurity(g: Globals, data: Quad)
    requires g.index < 4 && g.briefcase == Locked && g.security == Disabled && g.alarm == Off
    requires g.pinEdit == Inactive
    ensures var st := ButtonStep(g, data, {JRight});
      st.g == g.(security := Enabled, dPin := [ZERO, ZERO, ZERO, ZERO], index := 0, position := Marker(0))
      && Kinds(st.out) == [M_SECURITY_ENABLED, M_DISPLAYED_PIN, M_POSITION]
      && st.out[1].dataArray == [ZERO, ZERO, ZERO, ZERO] && st.out[2].dataArray == Marker(0)
  {
  }

  /** With security armed, JCENTER disarms exactly when the displayed PIN equals the saved PIN. */
  lemma DisarmIffPinMatches(g: Globals, data: Quad)
    requires g.index < 4 && g.security == Enabled && g.pinEdit == Inactive
    ensures var st := ButtonStep(g, data, {JCenter});
      (st.g.security == Disabled <==> g.dPin == g.sPin)
      && (g.dPin == g.sPin ==>
            st.g == g.(briefcase := Locked, security := Disabled, alarm := Off)
            && Kinds(st.out) == [M_BRIEFCASE_LOCKED, M_SECURITY_DISABLED, M_ALARM_OFF, M_DISPLAY_CLEAR])
      && (g.dPin != g.sPin ==> st == Step(g, data, []))
  {
  }

  /** Armed, the four direction buttons edit the displayed PIN and cursor whatever the briefcase and alarm. */
  lemma ArmedButtons(g: Globals)
    requires g.security == Enabled && g.pinEdit == Inactive
    ensures SelectBranch(g, {JUp}) == RaiseDigit(Displayed)
    ensures SelectBranch(g, {JDown}) == LowerDigit(Displayed)
    ensures SelectBranch(g, {JRight}) == MoveLeft(Displayed)
    ensures SelectBranch(g, {JLeft}) == MoveRight(Displayed)
    ensures SelectBranch(g, {JCenter}) == DisableSecurity
  {
  }

  /** In PIN edit mode the same buttons edit the saved PIN and cursor, and JCENTER leaves. */
  lemma EditingButtons(g: Globals)
    requires Inv(g) && g.pinEdit == Active
    ensures SelectBranch(g, {JUp}) == RaiseDigit(Saved)
    ensures SelectBranch(g, {JDown}) == LowerDigit(Saved)
    ensures SelectBranch(g, {JRight}) == MoveLeft(Saved)
    ensures SelectBranch(g, {JLeft}) == MoveRight(Saved)
    ensures SelectBranch(g, {JCenter}) == ExitPinEdit
  {
  }

  /**
   * A digit edit changes only the digit under the cursor of the targeted PIN, by one
   * with wrap-around, keeps every digit in '0'..'9' and sends the edited PIN.
   */
  lemma DigitEdit(g: Globals, data: Quad, pressed: set<Button>, p: Pin)
    requires Inv(g)
    requires SelectBranch(g, pressed) == RaiseDigit(p) || SelectBranch(g, pressed) == LowerDigit(p)
    ensures var st := ButtonStep(g, data, pressed);
      var before, after := PinOf(g, p)[g.index], PinOf(st.g, p)[g.index];
      (forall k :: 0 <= k < 4 && k != g.index as int ==> PinOf(st.g, p)[k] == PinOf(g, p)[k])
      && DigitValue(after) == (DigitValue(before) + if SelectBranch(g, pressed).RaiseDigit? then 1 else 9) % 10
      && AllDigits(st.g.dPin) && AllDigits(st.g.sPin)
      && st.g == WithPin(g, p, PinOf(st.g, p))
      && st.out == [Message(M_DISPLAYED_PIN, PinOf(st.g, p))]
  {
    ButtonStepKeepsInv(g, data, pressed);
  }

  /**
   * A cursor move sets the cursor one cell left (JRIGHT) or right (JLEFT) with
   * wrap-around, the marker follows it, and the new marker line is sent.
   */
  lemma CursorMove(g: Globals, data: Quad, pressed: set<Button>, p: Pin)
    requires Inv(g)
    requires SelectBranch(g, pressed) == MoveLeft(p) || SelectBranch(g, pressed) == MoveRight(p)
    ensures var st := ButtonStep(g, data, pressed);
      var j := if SelectBranch(g, pressed).MoveLeft? then (g.index as int + 3) % 4 else (g.index as int + 1) % 4;
      st.g.index as int == j && st.g.position == Marker(st.g.index)
      && st.g == g.(index := st.g.index, position := st.g.position)
      && st.out == [Message(M_POSITION, Marker(st.g.index))]
  {
    MarkerMoves(g.index, if SelectBranch(g, pressed).MoveLeft? then CursorLeft(g.index) else CursorRight(g.index));
  }

  /**
   * JLEFT on a disarmed, quiet briefcase enters PIN edit: the cursor resets, the saved
   * PIN is sent for display, and the displayed PIN is left as it was.
   */
  lemma EnterEditKeepsDisplayedPin(g: Globals, data: Quad)
    requires g.index < 4 && g.security == Disabled && g.alarm == Off && g.pinEdit == Inactive
    ensures var st := ButtonStep(g, data, {JLeft});
      st.g == g.(pinEdit := Active, index := 0, position := Marker(0))
      && st.g.dPin == g.dPin
      && Kinds(st.out) == [M_PIN_EDIT_ON, M_DISPLAYED_PIN, M_POSITION]
      && st.out[1].dataArray == g.sPin && st.out[2].dataArray == Marker(0)
  {
  }

  /** JCENTER leaves PIN edit whenever security is disarmed, also when edit mode is already off. */
  lemma ExitEditWheneverDisabled(g: Globals, data: Quad)
    requires g.index < 4 && g.security == Disabled
    ensures ButtonStep(g, data, {JCenter}) ==
      Step(g.(pinEdit := Inactive), data, [Message(M_PIN_EDIT_OFF, data), Message(M_DISPLAY_CLEAR, data)])
  {
  }

  // ---------------------------------------------------------------------------
  // The potentiometer task

  /** Disarmed and quiet, a reading in [10, 120] becomes the interval and is sent; any other changes nothing. */
  lemma DialSetsInterval(g: Globals, data: Quad, v: uint8)
    requires g.security == Disabled && g.alarm == Off && g.pinEdit == Inactive
    ensures var st := PotStep(g, data, v);
      (10 <= v <= 120 ==>
         st.g == g.(alarmInterval := v) && Kinds(st.out) == [M_TIME_INTERVAL]
         && st.out[0].dataArray[0] == v && st.out[0].dataArray[1] == v)
      && (!(10 <= v <= 120) ==> st == Step(g, data, []))
  {
  }

  /** A countdown tick lowers the interval by one as a byte and sends it; reaching 0 turns the alarm on. */
  lemma CountdownTick(g: Globals, data: Quad, v: uint8)
    requires Counting(g)
    ensures var st := PotStep(g, data, v);
      st.g.alarmInterval as int == (g.alarmInterval as int + 255) % 256
      && st.out[0] == Message(M_COUNTDOWN_VALUE, data[0 := st.g.alarmInterval])
      && (g.alarmInterval == 1 ==>
            st.g == g.(alarmInterval := 0, alarm := On) && Kinds(st.out) == [M_COUNTDOWN_VALUE, M_ALARM_ON])
      && (g.alarmInterval != 1 ==>
            st.g == g.(alarmInterval := st.g.alarmInterval) && Kinds(st.out) == [M_COUNTDOWN_VALUE])
  {
  }

  /** A countdown that starts at 0 wraps to 255 instead of raising the alarm. */
  lemma CountdownFromZeroWraps(g: Globals, data: Quad, v: uint8)
    requires Counting(g) && g.alarmInterval == 0
    ensures PotStep(g, data, v).g.alarmInterval == 255
    ensures PotStep(g, data, v).g.alarm == Pending
  {
  }

  /** Once the alarm is on, the potentiometer task does nothing, so ALARM_ON is sent at most once. */
  lemma NothingAfterAlarm(g: Globals, data: Quad, v: uint8)
    requires g.alarm == On
    ensures PotStep(g, data, v) == Step(g, data, [])
  {
  }

  /** `k` countdown passes, one dial reading each. */
  function Ticks(g: Globals, data: Quad, dials: seq<uint8>): Step
    decreases |dials|
  {
    if dials == [] then Step(g, data, [])
    else
      var st := PotStep(g, data, dials[0]);
      var rest := Ticks(st.g, st.data, dials[1..]);
      Step(rest.g, rest.data, st.out + rest.out)
  }

  function Repeat(x: uint32, n: nat): (r: seq<uint32>)
    ensures |r| == n && forall k :: 0 <= k < n ==> r[k] == x
  {
    if n == 0 then [] else [x] + Repeat(x, n - 1)
  }

  /**
   * From a countdown at `n >= 1`, after `k <= n` passes the interval is `n - k`
   * and nothing else but the alarm has changed; the alarm turns on at the `n`-th pass.
   */
  lemma {:induction false} Countdown(g: Globals, data: Quad, dials: seq<uint8>)
    requires Counting(g) && 1 <= |dials| <= g.alarmInterval as int
    ensures var st := Ticks(g, data, dials);
      st.g.alarmInterval as int == g.alarmInterval as int - |dials|
      && st.g == g.(alarmInterval := st.g.alarmInterval, alarm := st.g.alarm)
      && (st.g.alarm == On <==> |dials| == g.alarmInterval as int)
      && (|dials| < g.alarmInterval as int ==> st.g.alarm == Pending)
    decreases |dials|
  {
    var first := PotStep(g, data, dials[0]);
    CountdownTick(g, data, dials[0]);
    if |dials| > 1 {
      Countdown(first.g, first.data, dials[1..]);
    }
  }

  /** Those `k` passes send one COUNTDOWN_VALUE each, followed by one ALARM_ON when `k == n`. */
  lemma {:induction false} CountdownMessages(g: Globals, data: Quad, dials: seq<uint8>)
    requires Counting(g) && 1 <= |dials| <= g.alarmInterval as int
    ensures Kinds(Ticks(g, data, dials).out)
      == Repeat(M_COUNTDOWN_VALUE, |dials|) + (if |dials| == g.alarmInterval as int then [M_ALARM_ON] else [])
    decreases |dials|
  {
    var first := PotStep(g, data, dials[0]);
    CountdownTick(g, data, dials[0]);
    var rest := Ticks(first.g, first.data, dials[1..]);
    assert Ticks(g, data, dials).out == first.out + rest.out;
    if |dials| == 1 {
      assert rest.out == [];
      assert first.out + [] == first.out;
    } else {
      var tail: seq<uint32> := if |dials| == g.alarmInterval as int then [M_ALARM_ON] else [];
      var earlier := Repeat(M_COUNTDOWN_VALUE, |dials| - 1);
      assert first.g.alarmInterval as int == g.alarmInterval as int - 1;
      CountdownMessages(first.g, first.data, dials[1..]);
      assert Kinds(rest.out) == earlier + tail;
      KindsAppend(first.out, rest.out);
      assert Kinds(first.out) == [M_COUNTDOWN_VALUE];
      assert Repeat(M_COUNTDOWN_VALUE, |dials|) == [M_COUNTDOWN_VALUE] + earlier;
      Assoc([M_COUNTDOWN_VALUE], earlier, tail);
    }
  }

  lemma KindsAppend(a: seq<Message>, b: seq<Message>)
    ensures Kinds(a + b) == Kinds(a) + Kinds(b)
  {
  }

  // ---------------------------------------------------------------------------
  // The accelerometer task

  /**
   * Armed, locked and quiet, each axis at or beyond 40 in magnitude sends one
   * ALARM_PENDING, BRIEFCASE_MOVING pair and the briefcase becomes moving with the
   * alarm pending; with no such axis nothing changes.
   */
  lemma MotionRaisesAlarm(g: Globals, data: Quad, x: int, y: int, z: int)
    requires g.briefcase == Locked && g.security == Enabled && g.alarm == Off && g.pinEdit == Inactive
    ensures var st := AccStep(g, data, x, y, z);
      var n := (if Jolted(x) then 1 else 0) + (if Jolted(y) then 1 else 0) + (if Jolted(z) then 1 else 0);
      |st.out| == 2 * n
      && (forall k :: 0 <= k < n ==>
            st.out[2 * k].taskId == M_ALARM_PENDING && st.out[2 * k + 1].taskId == M_BRIEFCASE_MOVING)
      && (n > 0 ==> st.g == g.(alarm := Pending, briefcase := Moving))
      && (n == 0 ==> st == Step(g, data, []))
  {
    assert [x, y, z][..2] == [x, y] && [x, y][..1] == [x] && [x][..0] == [];
    assert JoltCount([x]) == (if Jolted(x) then 1 else 0);
    assert JoltCount([x, y]) == JoltCount([x]) + (if Jolted(y) then 1 else 0);
  }
}
