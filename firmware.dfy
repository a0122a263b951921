/**
 * The application's globals and task bodies as they run: the state enums, the
 * alarm interval, the PIN and marker arrays updated in place, the shared cursor,
 * and each task's reused message. Every message a task hands to the queue is
 * appended to `outbox`. Each method is proved to do what the matching function
 * of module Security says.
 */
module Firmware {
  import opened Messages
  import opened Security
  import SecurityLemmas

  class Briefcase {
    var briefcaseState: BriefcaseState
    var securityState: SecurityState
    var alarmState: AlarmState
    var pinEditMode: PinEditMode
    var alarmInterval: uint8
    const dPinArray: array<uint8>
    const sPinArray: array<uint8>
    const positionArray: array<uint8>
    var index: uint8
    /** The `dataArray` of the message each task reuses from pass to pass. */
    var buttonData: Quad
    var potData: Quad
    var accData: Quad
    /** Every message passed to putBufferSave, in order. */
    var outbox: seq<Message>

    /** Three distinct 4-byte arrays and a cursor inside them. */
    ghost predicate Valid()
      reads this
    {
      dPinArray.Length == 4 && sPinArray.Length == 4 && positionArray.Length == 4 &&
      dPinArray != sPinArray && dPinArray != positionArray && sPinArray != positionArray &&
      index < 4
    }

    /** The globals as a value. */
    ghost function State(): Globals
      reads this, dPinArray, sPinArray, positionArray
      requires Valid()
    {
      Globals(briefcaseState, securityState, alarmState, pinEditMode, alarmInterval,
              dPinArray[..], sPinArray[..], positionArray[..], index)
    }

    /** Static initialisation; the payloads of the tasks' messages start as whatever memory held. */
    constructor (buttonJunk: Quad, potJunk: Quad, accJunk: Quad)
      ensures Valid() && State() == StaticImage() && outbox == []
      ensures buttonData == buttonJunk && potData == potJunk && accData == accJunk
      ensures fresh(dPinArray) && fresh(sPinArray) && fresh(positionArray)
    {
      briefcaseState, securityState, alarmState, pinEditMode := Locked, Enabled, On, Active;
      alarmInterval := 10;
      positionArray := new uint8[] [DASH, BLANK, BLANK, BLANK];
      dPinArray := new uint8[] [ZERO, ZERO, ZERO, ZERO];
      sPinArray := new uint8[] [ONE, ZERO, ZERO, ZERO];
      index := 0;
      buttonData, potData, accData := buttonJunk, potJunk, accJunk;
      outbox := [];
    }

    /** Hands a copy of `msg` to the queue. */
    method PutBufferSave(msg: Message)
      modifies this`outbox
      ensures outbox == old(outbox) + [msg]
    {
      outbox := outbox + [msg];
    }

    method StatesInit()
      requires Valid()
      modifies this`briefcaseState, this`alarmState, this`securityState, this`pinEditMode
      ensures Valid() && State() == Security.StatesInit(old(State()))
    {
      briefcaseState := Unlocked;
      alarmState := Off;
      securityState := Disabled;
      pinEditMode := Inactive;
    }

    /** Sends the start-up status; `junk` is the payload of its uninitialised local message. */
    method DisplayInit(junk: Quad)
      modifies this`outbox
      ensures outbox == old(outbox) + Security.DisplayInit(alarmInterval, junk)
    {
      var data := junk;
      PutBufferSave(Message(M_SECURITY_DISABLED, data));
      PutBufferSave(Message(M_ALARM_OFF, data));
      data := data[0 := alarmInterval][1 := alarmInterval];
      PutBufferSave(Message(M_TIME_INTERVAL, data));
      PutBufferSave(Message(M_BRIEFCASE_UNLOCKED, data));
      PutBufferSave(Message(M_DISPLAY_CLEAR, data));
    }

    method DPinArrayInit()
      requires Valid()
      modifies this`index, dPinArray
      ensures Valid() && index == 0 && dPinArray[..] == [ZERO, ZERO, ZERO, ZERO]
    {
      index := 0;
      dPinArray[0] := ZERO;
      dPinArray[1] := ZERO;
      dPinArray[2] := ZERO;
      dPinArray[3] := ZERO;
    }

    method PositionArrayInit()
      requires Valid()
      modifies this`index, positionArray
      ensures Valid() && index == 0 && positionArray[..] == Marker(0)
    {
      index := 0;
      positionArray[0] := DASH;
      positionArray[1] := BLANK;
      positionArray[2] := BLANK;
      positionArray[3] := BLANK;
    }

    /** The button task's part of the state is what step `st` leaves, its messages after `out0`. */
    ghost predicate Took(st: Step, out0: seq<Message>)
      reads this, dPinArray, sPinArray, positionArray
      requires Valid()
    {
      State() == st.g && buttonData == st.data && outbox == out0 + st.out
    }

    /** Enable security: arm, reset the displayed PIN and the cursor, and show both. */
    method Arm()
      requires Valid()
      modifies this`securityState, this`index, this`buttonData, this`outbox, dPinArray, positionArray
      ensures Valid() && Took(ApplyBranch(old(State()), old(buttonData), Branch.EnableSecurity), old(outbox))
    {
      securityState := Enabled;
      PutBufferSave(Message(M_SECURITY_ENABLED, buttonData));
      DPinArrayInit();
      buttonData := dPinArray[..];
      PutBufferSave(Message(M_DISPLAYED_PIN, buttonData));
      PositionArrayInit();
      buttonData := positionArray[..];
      PutBufferSave(Message(M_POSITION, buttonData));
    }

    /** Disable security if the displayed PIN is the saved one. */
    method Disarm()
      requires Valid()
      modifies this`briefcaseState, this`securityState, this`alarmState, this`outbox
      ensures Valid() && Took(ApplyBranch(old(State()), old(buttonData), Branch.DisableSecurity), old(outbox))
    {
      if ProvePin(dPinArray[..], sPinArray[..]) {
        briefcaseState := Locked;
        PutBufferSave(Message(M_BRIEFCASE_LOCKED, buttonData));
        securityState := Disabled;
        PutBufferSave(Message(M_SECURITY_DISABLED, buttonData));
        alarmState := Off;
        PutBufferSave(Message(M_ALARM_OFF, buttonData));
        PutBufferSave(Message(M_DISPLAY_CLEAR, buttonData));
      }
    }

    /** Raise the digit under the cursor of PIN array `a` (the displayed or the saved one) and show it. */
    method IncDigitAt(a: array<uint8>, p: Pin)
      requires Valid() && a == (if p == Displayed then dPinArray else sPinArray)
      modifies a, this`buttonData, this`outbox
      ensures Valid() && Took(ApplyBranch(old(State()), old(buttonData), Branch.RaiseDigit(p)), old(outbox))
    {
      if a[index] < NINE { a[index] := a[index] + 1; } else { a[index] := ZERO; }
      buttonData := a[..];
      PutBufferSave(Message(M_DISPLAYED_PIN, buttonData));
    }

    /** Lower the digit under the cursor of PIN array `a` and show it. */
    method DecDigitAt(a: array<uint8>, p: Pin)
      requires Valid() && a == (if p == Displayed then dPinArray else sPinArray)
      modifies a, this`buttonData, this`outbox
      ensures Valid() && Took(ApplyBranch(old(State()), old(buttonData), Branch.LowerDigit(p)), old(outbox))
    {
      if a[index] > ZERO { a[index] := a[index] - 1; } else { a[index] := NINE; }
      buttonData := a[..];
      PutBufferSave(Message(M_DISPLAYED_PIN, buttonData));
    }

    /** Move the cursor and its marker one cell left (0 wraps to 3) and show the marker line. */
    method MarkLeft(p: Pin)
      requires Valid()
      modifies this`index, this`buttonData, this`outbox, positionArray
      ensures Valid() && Took(ApplyBranch(old(State()), old(buttonData), Branch.MoveLeft(p)), old(outbox))
    {
      positionArray[index] := BLANK;
      if index > 0 { index := ((index as int - 1) % 4) as uint8; } else { index := 3; }
      positionArray[index] := DASH;
      buttonData := positionArray[..];
      PutBufferSave(Message(M_POSITION, buttonData));
    }

    /** Move the cursor and its marker one cell right (3 wraps to 0) and show the marker line. */
    method MarkRight(p: Pin)
      requires Valid()
      modifies this`index, this`buttonData, this`outbox, positionArray
      ensures Valid() && Took(ApplyBranch(old(State()), old(buttonData), Branch.MoveRight(p)), old(outbox))
    {
      positionArray[index] := BLANK;
      index := ((index as int + 1) % 4) as uint8;
      positionArray[index] := DASH;
      buttonData := positionArray[..];
      PutBufferSave(Message(M_POSITION, buttonData));
    }

    /** Enter PIN edit mode: show the saved PIN and reset the cursor. */
    method EnterEdit()
      requires Valid()
      modifies this`pinEditMode, this`index, this`buttonData, this`outbox, positionArray
      ensures Valid() && Took(ApplyBranch(old(State()), old(buttonData), Branch.EnterPinEdit), old(outbox))
    {
      pinEditMode := Active;
      PutBufferSave(Message(M_PIN_EDIT_ON, buttonData));
      buttonData := sPinArray[..];
      PutBufferSave(Message(M_DISPLAYED_PIN, buttonData));
      PositionArrayInit();
      buttonData := positionArray[..];
      PutBufferSave(Message(M_POSITION, buttonData));
    }

    /** Leave PIN edit mode. */
    method ExitEdit()
      requires Valid()
      modifies this`pinEditMode, this`outbox
      ensures Valid() && Took(ApplyBranch(old(State()), old(buttonData), Branch.ExitPinEdit), old(outbox))
    {
      pinEditMode := Inactive;
      PutBufferSave(Message(M_PIN_EDIT_OFF, buttonData));
      PutBufferSave(Message(M_DISPLAY_CLEAR, buttonData));
    }

    /** One pass of the button task's loop; `pressed` holds the buttons that read as pressed. */
    method ButtonTask(pressed: set<Button>)
      requires Valid()
      modifies this`briefcaseState, this`securityState, this`alarmState, this`pinEditMode, this`index
      modifies this`buttonData, this`outbox, dPinArray, sPinArray, positionArray
      ensures Valid()
      ensures Took(ButtonStep(old(State()), old(buttonData), pressed), old(outbox))
    {
      ghost var g := State();
      var idle := securityState == Disabled && alarmState == Off && pinEditMode == Inactive;
      var armed := securityState == Enabled && pinEditMode == Inactive;
      var anyAlarm := alarmState == Off || CTrue(Pending.Value()) || CTrue(On.Value());
      var editing := pinEditMode == Active && securityState == Disabled;
      if JUp in pressed && briefcaseState == Unlocked && idle {
        assert SelectBranch(g, pressed) == LockBriefcase;
        briefcaseState := Locked;
        PutBufferSave(Message(M_BRIEFCASE_LOCKED, buttonData));
      } else if JDown in pressed && briefcaseState == Locked && idle {
        assert SelectBranch(g, pressed) == UnlockBriefcase;
        briefcaseState := Unlocked;
        PutBufferSave(Message(M_BRIEFCASE_UNLOCKED, buttonData));
      } else if JRight in pressed && briefcaseState == Locked && idle {
        assert SelectBranch(g, pressed) == Branch.EnableSecurity;
        Arm();
      } else if JCenter in pressed && (briefcaseState == Locked || CTrue(Moving.Value())) && armed && anyAlarm {
        assert SelectBranch(g, pressed) == Branch.DisableSecurity;
        Disarm();
      } else if JUp in pressed && (briefcaseState == Locked || CTrue(Moving.Value())) && armed && anyAlarm {
        assert SelectBranch(g, pressed) == RaiseDigit(Displayed);
        IncDigitAt(dPinArray, Displayed);
      } else if JDown in pressed && (briefcaseState == Locked || CTrue(Moving.Value())) && armed && anyAlarm {
        assert SelectBranch(g, pressed) == LowerDigit(Displayed);
        DecDigitAt(dPinArray, Displayed);
      } else if JRight in pressed && (briefcaseState == Locked || CTrue(Unlocked.Value()) || CTrue(Moving.Value()))
                && armed && anyAlarm {
        assert SelectBranch(g, pressed) == MoveLeft(Displayed);
        MarkLeft(Displayed);
      } else if JLeft in pressed && (briefcaseState == Locked || CTrue(Unlocked.Value()) || CTrue(Moving.Value()))
                && armed && anyAlarm {
        assert SelectBranch(g, pressed) == MoveRight(Displayed);
        MarkRight(Displayed);
      } else if JLeft in pressed && (briefcaseState == Locked || CTrue(Unlocked.Value())) && idle {
        assert SelectBranch(g, pressed) == EnterPinEdit;
        EnterEdit();
      } else if JCenter in pressed && securityState == Disabled {
        assert SelectBranch(g, pressed) == ExitPinEdit;
        ExitEdit();
      } else if JUp in pressed && editing {
        assert SelectBranch(g, pressed) == RaiseDigit(Saved);
        IncDigitAt(sPinArray, Saved);
      } else if JDown in pressed && editing {
        assert SelectBranch(g, pressed) == LowerDigit(Saved);
        DecDigitAt(sPinArray, Saved);
      } else if JRight in pressed && editing {
        assert SelectBranch(g, pressed) == MoveLeft(Saved);
        MarkLeft(Saved);
      } else if JLeft in pressed && editing {
        assert SelectBranch(g, pressed) == MoveRight(Saved);
        MarkRight(Saved);
      } else {
        assert SelectBranch(g, pressed) == NoBranch;
      }
    }

    /** One pass of the potentiometer task's loop; `dial` is the reading already truncated to a byte. */
    method PotTask(dial: uint8)
      requires Valid()
      modifies this`alarmInterval, this`alarmState, this`potData, this`outbox
      ensures Valid()
      ensures var st := PotStep(old(State()), old(potData), dial);
        State() == st.g && potData == st.data && outbox == old(outbox) + st.out
    {
      if (briefcaseState == Locked || CTrue(Unlocked.Value())) && securityState == Disabled
         && alarmState == Off && pinEditMode == Inactive {
        var intVal := dial;
        if intVal >= MIN_INTERVAL && intVal <= MAX_INTERVAL {
          alarmInterval := intVal;
          potData := potData[0 := alarmInterval][1 := alarmInterval];
          PutBufferSave(Message(M_TIME_INTERVAL, potData));
        }
      } else if briefcaseState == Moving && securityState == Enabled && alarmState == Pending
                && pinEditMode == Inactive {
        alarmInterval := ((alarmInterval as int - 1) % 0x100) as uint8;
        potData := potData[0 := alarmInterval];
        PutBufferSave(Message(M_COUNTDOWN_VALUE, potData));
        if alarmInterval == 0 {
          alarmState := On;
          PutBufferSave(Message(M_ALARM_ON, potData));
        }
      }
    }

    /** One pass of the accelerometer task's loop given the three axis readings. */
    method AccTask(x: int, y: int, z: int)
      requires Valid()
      modifies this`briefcaseState, this`alarmState, this`outbox
      ensures Valid()
      ensures var st := AccStep(old(State()), accData, x, y, z);
        State() == st.g && outbox == old(outbox) + st.out
    {
      if briefcaseState == Locked && securityState == Enabled && alarmState == Off && pinEditMode == Inactive {
        var accVal := [x, y, z];
        ghost var n := 0;
        for i := 0 to 3
          invariant n == JoltCount(accVal[..i])
          invariant outbox == old(outbox) + AlarmPairs(n, accData)
          invariant n == 0 ==> briefcaseState == old(briefcaseState) && alarmState == old(alarmState)
          invariant n > 0 ==> briefcaseState == Moving && alarmState == Pending
        {
          JoltCountStep(accVal, i);
          if accVal[i] >= MOTION_THRESHOLD || accVal[i] <= -MOTION_THRESHOLD {
            ghost var pair := [Message(M_ALARM_PENDING, accData), Message(M_BRIEFCASE_MOVING, accData)];
            alarmState := Pending;
            PutBufferSave(Message(M_ALARM_PENDING, accData));
            briefcaseState := Moving;
            PutBufferSave(Message(M_BRIEFCASE_MOVING, accData));
            Assoc(old(outbox) + AlarmPairs(n, accData), [pair[0]], [pair[1]]);
            assert [pair[0]] + [pair[1]] == pair;
            AlarmPairsStep(n, accData);
            Assoc(old(outbox), AlarmPairs(n, accData), pair);
            n := n + 1;
          }
        }
        assert accVal[..3] == accVal;
      }
    }
  }

  /**
   * The start of the button task: the globals as statically initialised, then
   * statesInit and displayInit. The result satisfies the invariant, and its
   * arrays are new, so the task methods may write them.
   */
  method ButtonTaskStart(buttonJunk: Quad, potJunk: Quad, accJunk: Quad, displayJunk: Quad)
    returns (b: Briefcase)
    ensures fresh(b) && fresh(b.dPinArray) && fresh(b.sPinArray) && fresh(b.positionArray)
    ensures b.Valid() && b.State() == Start(buttonJunk, potJunk, accJunk).g && Inv(b.State())
    ensures b.buttonData == buttonJunk && b.potData == potJunk && b.accData == accJunk
    ensures b.outbox == Security.DisplayInit(10, displayJunk)
  {
    b := new Briefcase(buttonJunk, potJunk, accJunk);
    b.StatesInit();
    b.DisplayInit(displayJunk);
    SecurityLemmas.StartupEstablishesInv();
  }

  /** Counting one more reading adds one exactly when that reading is a jolt. */
  lemma JoltCountStep(axes: seq<int>, i: nat)
    requires i < |axes|
    ensures JoltCount(axes[..i + 1]) == JoltCount(axes[..i]) + (if Jolted(axes[i]) then 1 else 0)
  {
    assert axes[..i + 1][..i] == axes[..i];
  }

  /** One more pair is the old pairs followed by ALARM_PENDING, BRIEFCASE_MOVING. */
  lemma AlarmPairsStep(n: nat, data: Quad)
    ensures AlarmPairs(n + 1, data) == AlarmPairs(n, data) + [Message(M_ALARM_PENDING, data), Message(M_BRIEFCASE_MOVING, data)]
  {
  }
}
