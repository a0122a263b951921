# Briefcase alarm firmware — a verified model

This project models the two sequential parts of a small briefcase-alarm firmware
for an LPC4088 board running µC/OS-II:

- **The message queue** (`buffer.cpp`). It is a ring of four message slots with
  indices `front` and `back`, guarded by a mutex and two counting semaphores. The
  semaphores count free slots and filled slots.
- **The security state machine** (`main.cpp`). It consists of:
  - the globals:
    - the briefcase, security, alarm and PIN-edit states;
    - the alarm interval;
    - the displayed PIN, the saved PIN, the cursor-marker line and the shared cursor `index`;
  - one pass of the button task, the potentiometer task and the accelerometer task;
  - the start-up helpers `statesInit`, `displayInit`, `dPinArrayInit` and `positionArrayInit`;
  - `provePin`.

Modules:

- `Messages` (`messages.dfy`): the message type. A message is a `taskId` plus four
  payload bytes.
- `Buffer` (`buffer.dfy`): the queue as a class `MessageBuffer`.
  - It holds the slot array, `front`, `back` and the three semaphore counters, plus
    a ghost sequence `Contents` of the queued messages.
  - A pend that would block becomes a precondition of the operation that performs it.
  - After the class comes an abstract model of a run of blocking puts and gets,
    which proves FIFO order and the bound.
- `Security` (`security.dfy`): one pass of each task, as pure functions of the
  globals before the pass.
  - The enums keep their C values. A guard such as `briefcaseState == LOCKED || MOVING`
    is read as C reads it: the bare enumerator `MOVING` (value 2) is true, so the
    clause is always true.
  - `SelectBranch` is the button loop's `else if` chain as written. `IntendedBranch`
    is the same chain with the multi-state comparisons the guards evidently mean.
  - `Inv` is the reachable-state invariant.
- `SecurityLemmas` (`security_lemmas.dfy`): what each task pass does.
  - `Inv` holds in every reachable state.
  - On such states the literal guards choose exactly what the intended guards choose.
- `Firmware` (`firmware.dfy`): the globals as a class `Briefcase`.
  - The enums, the alarm interval and the cursor are fields.
  - The three PIN and marker arrays are `array<uint8>`, updated in place.
  - Each task keeps its own reused message payload as a field, so the stale bytes a
    kind-only message carries are exactly those the C code leaves in `msg.dataArray`.
  - Every message handed to `putBufferSave` is appended to `outbox`.
  - Each task method is proved to leave exactly the state, payload and messages that
    the matching `Security` function gives.

Inputs the firmware reads from hardware are parameters:

- the set of buttons that read as pressed;
- the dial value, already truncated to a byte;
- the three accelerometer readings.

Each task pass is atomic: a run of the system is a sequence of passes, one task at a time.

Entering PIN edit mode (`main.cpp:366-390`) sends the saved PIN for display but does
not copy it into `dPinArray`; `EnterEditKeepsDisplayedPin` states this.

The model also reproduces two behaviours of the code as written:

- A countdown that starts from an interval of 0 wraps the `uint8_t` to 255 instead of
  raising the alarm (`CountdownFromZeroWraps`). Interval 0 can be left behind by a
  completed countdown followed by a disarm with the dial below 10.
- JCENTER leaves PIN edit mode whenever security is disabled, even when edit mode is
  already off (`ExitEditWheneverDisabled`).

## Model

| member | source | states |
|---|---|---|
| Buffer.MessageBuffer.constructor | buffer.cpp:5-7 | The ring starts with zeroed slots, `front == back == 0` and an empty queue. The slot array is new, so the queue's methods may write it. |
| Buffer.MessageBuffer.BufferSaveInit | buffer.cpp:12-16 | Sets the mutex to 1, the free-slot count to BUF_SIZE and the filled-slot count to 0. On an empty queue the counters then agree with the contents. |
| Buffer.MessageBuffer.PutBuffer | buffer.cpp:18-21 | Stores a copy of the message at `back`, which advances by one modulo BUF_SIZE. `front` and every other slot are unchanged. |
| Buffer.MessageBuffer.GetBuffer | buffer.cpp:23-26 | Returns the slot at `front`, which advances by one modulo BUF_SIZE. The slots and `back` are unchanged. |
| Buffer.MessageBuffer.PutBufferSave | buffer.cpp:28-36 | Needs a free-slot permit. It appends the message to the queue, takes one free slot and adds one filled slot. It keeps the ring invariant (`back == (front + count) % BUF_SIZE`, each queued message in its slot) and the counter invariant (`fullSlot == count`, `emptySlot == BUF_SIZE - count`, mutex free). |
| Buffer.MessageBuffer.GetBufferSave | buffer.cpp:38-46 | Needs a filled-slot permit. It returns and removes the oldest message, moves one permit from filled to free, and keeps both invariants. |
| Buffer.RunIsFifo | buffer.cpp:18-45 | For any run of blocking puts and gets, the messages already queued followed by those put equal those delivered followed by those left. Nothing is lost, duplicated or reordered. |
| Buffer.RunCounts | buffer.cpp:28-46 | Each get delivers exactly one message, and at most BUF_SIZE messages are ever queued. |
| Buffer.PutsThenGets | buffer.cpp:18-46 | Up to BUF_SIZE puts on an empty queue, then as many gets, always find their permits. The gets return the messages in put order and leave the queue empty. |
| Buffer.FillThenDrain | buffer.cpp:18-46 | The same for a queue that already holds messages: the old messages come out first, then the new ones. |
| Buffer.Perform | buffer.cpp:28-46 | Calling putBufferSave and getBufferSave in turn on a live queue, as a run of operations dictates, leaves the queue holding what `Run` leaves. The gets return what `Run` delivers, in order, and both invariants are kept. |
| Buffer.FromStart | buffer.cpp:5-46 | A queue created statically, initialised by bufferSaveInit and then driven by any run whose operations find their permits delivers exactly `Run`'s messages. |
| Security.StaticImage | main.cpp:100-128 | Before any task runs, every state enum holds its first enumerator (value 0). The interval is 10, the cursor is 0 with the marker on it, and both PINs are digits that differ. |
| Security.SelectBranch | main.cpp:211-474 | A branch is taken only when its joystick direction is pressed. Lock, unlock, arm and enter-edit are taken only when disarmed, quiet and not editing. Disarm is taken only when armed and not editing, exit-edit only when disarmed. A digit or cursor branch works on the displayed PIN exactly when security is enabled, and on the saved PIN only in edit mode. |
| Security.ApplyBranch | main.cpp:214-473 | A branch keeps the cursor in 0..3, sends at most four messages and never changes the interval. Only disarm changes the alarm, and only to OFF. Only lock, unlock and disarm change the briefcase state, and only the saved-PIN digit branches change the saved PIN. A branch sends nothing exactly when no branch is taken or the disarm PIN does not match, and then nothing changes. |
| Security.IncDigit | main.cpp:296-297 | On a digit, the result is a digit whose value is one more, modulo 10 ('9' becomes '0'). |
| Security.DecDigit | main.cpp:312-313 | On a digit, the result is a digit whose value is one less, modulo 10 ('0' becomes '9'). |
| Security.CursorLeft | main.cpp:331-332 | The cursor stays in 0..3 and moves to `(index + 3) % 4`, so 0 wraps to 3. |
| Security.CursorRight | main.cpp:354 | The cursor stays in 0..3, and a left move undoes it. |
| Security.Marker | main.cpp:771-777 | The marker line holds '-' exactly at the cursor cell and ' ' exactly at the others. |
| Security.ProvePin | main.cpp:720-726 | True exactly when the displayed PIN equals the saved PIN. |
| Security.StatesInit | main.cpp:749-754 | Sets UNLOCKED, DISABLED, OFF and INACTIVE and leaves every other global as it was. |
| Security.DisplayInit | main.cpp:728-747 | Sends SECURITY_DISABLED, ALARM_OFF, TIME_INTERVAL, BRIEFCASE_UNLOCKED and DISPLAY_CLEAR, in that order. The TIME_INTERVAL message carries the interval in its first two bytes. |
| Security.ButtonStep | main.cpp:211-474 | One button pass keeps the cursor inside the four cells. |
| Security.DialGuard | main.cpp:487-490 | As C evaluates it, the dial guard holds exactly when disarmed, quiet and not editing, whatever the briefcase state. So it admits every state the intended guard admits. |
| Security.Counting | main.cpp:504-507 | The countdown guard excludes the dial guard, literal or intended, so the two branches of a pass never both apply. |
| Security.PotStep | main.cpp:487-522 | A potentiometer pass changes only the interval and the alarm and sends at most two messages. The alarm changes only in a countdown, and only to ON with the interval at 0. The interval changes only in a countdown or to a reading in [10, 120] under the dial guard. A countdown pass always sends COUNTDOWN_VALUE with the new interval first. A pass that sends nothing changes nothing. |
| Security.AccStep | main.cpp:534-551 | An accelerometer pass keeps the payload and changes only the briefcase and alarm states. It sends an even number of messages, at most six, and sends some exactly when the state changes. A change happens only when armed, and leaves the briefcase moving with the alarm pending. |
| Security.JoltCount | main.cpp:540-542 | The count is at most the number of axes, and it is 0 exactly when no axis reads 40 or more in magnitude. |
| Security.AlarmPairs | main.cpp:544-549 | There are twice as many messages as qualifying axes, alternating ALARM_PENDING and BRIEFCASE_MOVING, all with the task's payload. |
| SecurityLemmas.DigitStepsInverse | main.cpp:296-297 | On a digit, lowering undoes raising and raising undoes lowering. |
| SecurityLemmas.CursorStepsInverse | main.cpp:331-332 | JLEFT's cursor move undoes JRIGHT's. |
| SecurityLemmas.StartupEstablishesInv | main.cpp:100-128 | The zero-initialised image (LOCKED, ENABLED, ON, ACTIVE) breaks the invariant. `statesInit` establishes it. |
| SecurityLemmas.ButtonStepKeepsInv | main.cpp:211-474 | Every button pass keeps the invariant. |
| SecurityLemmas.PotStepKeepsInv | main.cpp:487-522 | Every potentiometer pass keeps the invariant. |
| SecurityLemmas.AccStepKeepsInv | main.cpp:534-551 | Every accelerometer pass keeps the invariant. |
| SecurityLemmas.RunKeepsInv | main.cpp:211-551 | Any interleaving of atomic task passes keeps the invariant. |
| SecurityLemmas.ReachableInv | main.cpp:204-551 | After `statesInit`, whatever the tasks read and however their passes interleave: armed implies locked or moving, disarmed implies locked or unlocked, moving iff alarm not off, alarm not off implies armed, and edit mode implies disarmed. Also the cursor is in 0..3, the marker follows the cursor, and both PINs are digits. |
| SecurityLemmas.LiteralGuardsAsIntended | main.cpp:264-370 | Under the invariant, the literal C guards of the button chain and the dial guard select exactly what the intended multi-state guards select. |
| SecurityLemmas.LiteralGuardsDifferOffInv | main.cpp:366-370 | Off the invariant they differ: a moving, disarmed briefcase would enter PIN edit on JLEFT and read the dial. |
| SecurityLemmas.ReachableGuardsAsIntended | main.cpp:211-503 | In every reachable state the literal guards coincide with the intended ones. |
| SecurityLemmas.LockAndUnlock | main.cpp:214-234 | Disarmed, quiet and not editing: JUP locks an unlocked briefcase and JDOWN unlocks a locked one. Each sends exactly its one message and changes nothing else. |
| SecurityLemmas.ArmSecurity | main.cpp:237-262 | JRIGHT on a locked, disarmed, quiet briefcase arms it, sets the displayed PIN to "0000", the cursor to 0 and the marker to "-   ". It sends SECURITY_ENABLED, DISPLAYED_PIN("0000") and POSITION, in that order. |
| SecurityLemmas.DisarmIffPinMatches | main.cpp:264-287 | Armed and not editing, JCENTER disarms exactly when the displayed PIN equals the saved PIN. On success it sets LOCKED, DISABLED and OFF and sends BRIEFCASE_LOCKED, SECURITY_DISABLED, ALARM_OFF and DISPLAY_CLEAR. On a mismatch nothing changes and nothing is sent. |
| SecurityLemmas.ArmedButtons | main.cpp:264-363 | Armed and not editing, the five buttons select disarm, raise, lower, left and right on the displayed PIN, whatever the briefcase and alarm states. |
| SecurityLemmas.EditingButtons | main.cpp:393-473 | In a reachable edit state, the four direction buttons edit the saved PIN and cursor, and JCENTER leaves edit mode. |
| SecurityLemmas.DigitEdit | main.cpp:290-320 | A digit edit changes only the digit under the cursor of the targeted PIN, by plus or minus one with wrap-around. Every PIN digit stays in '0'..'9', nothing else changes, and exactly the edited PIN is sent. |
| SecurityLemmas.CursorMove | main.cpp:322-363 | A cursor move sets the cursor to `index-1` or `index+1` modulo 4. The marker follows it, nothing else changes, and exactly the new marker line is sent. |
| SecurityLemmas.EnterEditKeepsDisplayedPin | main.cpp:366-390 | JLEFT on a disarmed, quiet briefcase enters edit mode and resets the cursor and marker. It sends PIN_EDIT_ON, DISPLAYED_PIN(saved PIN) and POSITION, and leaves the displayed PIN as it was. |
| SecurityLemmas.ExitEditWheneverDisabled | main.cpp:393-402 | JCENTER with security disabled always sets INACTIVE and sends PIN_EDIT_OFF and DISPLAY_CLEAR, even when edit mode was already off. |
| SecurityLemmas.DialSetsInterval | main.cpp:487-503 | Disarmed, quiet and not editing: a reading in [10, 120] becomes the interval and is sent in TIME_INTERVAL's first two bytes. Any other reading changes nothing and sends nothing. |
| SecurityLemmas.CountdownTick | main.cpp:504-520 | A countdown pass lowers the interval by one as a byte and sends COUNTDOWN_VALUE with it. Reaching 0 also turns the alarm on and sends ALARM_ON. |
| SecurityLemmas.CountdownFromZeroWraps | main.cpp:509 | A countdown from 0 wraps the interval to 255 and leaves the alarm pending. |
| SecurityLemmas.NothingAfterAlarm | main.cpp:487-522 | Once the alarm is on, the potentiometer pass changes nothing and sends nothing, so ALARM_ON is sent at most once. |
| SecurityLemmas.Countdown | main.cpp:504-520 | From interval `n >= 1`, after `k <= n` passes the interval is `n - k` and only the alarm may have changed. The alarm is on exactly when `k == n`, and pending before. |
| SecurityLemmas.CountdownMessages | main.cpp:511-519 | Those `k` passes send `k` COUNTDOWN_VALUE messages, followed by one ALARM_ON exactly when `k == n`. |
| SecurityLemmas.MotionRaisesAlarm | main.cpp:534-551 | Armed, locked, quiet and not editing: each axis reading 40 or more in magnitude sends one ALARM_PENDING, BRIEFCASE_MOVING pair, and any such axis makes the briefcase moving with the alarm pending. With none, nothing changes and nothing is sent. |
| Firmware.Briefcase.constructor | main.cpp:100-128 | The static image: every enum 0, interval 10, displayed PIN "0000", saved PIN "1000", marker "-   ", cursor 0. The three arrays are new, so the task methods may write them. |
| Firmware.Briefcase.PutBufferSave | buffer.cpp:28-36 | A copy of the message joins the end of the outgoing messages. |
| Firmware.Briefcase.StatesInit | main.cpp:749-754 | Leaves the globals `Security.StatesInit` gives. |
| Firmware.Briefcase.DisplayInit | main.cpp:728-747 | Sends exactly `Security.DisplayInit`'s messages from an uninitialised local payload. |
| Firmware.Briefcase.DPinArrayInit | main.cpp:756-762 | Sets the cursor to 0 and the displayed PIN to "0000" in place. |
| Firmware.Briefcase.PositionArrayInit | main.cpp:771-777 | Sets the cursor to 0 and the marker array to "-   " in place. |
| Firmware.Briefcase.Arm | main.cpp:243-261 | The arming branch, run on the arrays, leaves what `ApplyBranch` gives for it. |
| Firmware.Briefcase.Disarm | main.cpp:270-286 | The disarm branch leaves what `ApplyBranch` gives for it. |
| Firmware.Briefcase.IncDigitAt | main.cpp:296-303 | Raising a digit in place in either PIN array leaves what `ApplyBranch` gives for it. |
| Firmware.Briefcase.DecDigitAt | main.cpp:312-319 | Lowering a digit in place in either PIN array leaves what `ApplyBranch` gives for it. |
| Firmware.Briefcase.MarkLeft | main.cpp:329-342 | Moving the cursor and marker left in place leaves what `ApplyBranch` gives for it. |
| Firmware.Briefcase.MarkRight | main.cpp:352-362 | Moving the cursor and marker right in place leaves what `ApplyBranch` gives for it. |
| Firmware.Briefcase.EnterEdit | main.cpp:372-389 | The edit-entry branch leaves what `ApplyBranch` gives for it. |
| Firmware.Briefcase.ExitEdit | main.cpp:396-401 | The edit-exit branch leaves what `ApplyBranch` gives for it. |
| Firmware.Briefcase.ButtonTask | main.cpp:211-474 | The literal `else if` chain, run on the arrays, leaves the globals, payload and messages of `Security.ButtonStep`. |
| Firmware.Briefcase.PotTask | main.cpp:487-522 | The potentiometer pass leaves the globals, payload and messages of `Security.PotStep`. |
| Firmware.ButtonTaskStart | main.cpp:200-205 | The button task's start (static image, statesInit, displayInit) leaves the globals of `Security.Start` and sends `Security.DisplayInit`'s messages. The result satisfies the invariant and its arrays are new. |
| Firmware.Briefcase.AccTask | main.cpp:534-551 | The loop over three axes leaves the globals and messages of `Security.AccStep`. The loop invariant counts the qualifying axes so far. |

## Left out

- RTOS plumbing (task creation, stacks, priorities, `OSTimeDlyHMSM` delays, the real semaphore calls) is not modelled. The semaphores are counters, and a pend that would block is a precondition.
- Concurrency between tasks is not modelled. Each task pass is atomic, although the C button task updates globals across blocking `putBufferSave` calls, where other tasks could run in between.
- `buttonPressedAndReleased` reads GPIO and delays. It is replaced by the set of buttons that read as pressed; the lemmas use single-button sets.
- The float conversion `120 * potentiometer.read()` and its truncation to `uint8_t` are not modelled. The task takes the truncated byte.
- `acc.read`, `accInit` and the MMA7455 library are foreign code. The three readings are parameters.
- The LCD task, the LED task and `timer.c`/`timer.h` are hardware output and tick set-up, and are not part of this model.
- `dPinArrayClear` and `positionArrayClear` are never called.
- Firmware.Briefcase.PutBufferSave: the task methods append to an unbounded `outbox`. They do not call `MessageBuffer.PutBufferSave`, because that blocks on a full queue until the LCD task, which is not modelled, drains it. The bounded queue is modelled and proved on its own in `Buffer`.
- Buffer.MessageBuffer.PutBuffer: a put on a full ring, which the unguarded `putBuffer` would allow, is not tied to `Contents`. Only the guarded `putBufferSave` keeps the queue's contents.
- The `uint16` semaphore counters and the queue's `uint8_t` indices are unbounded integers. They never exceed BUF_SIZE in the model.
- Uninitialised memory, namely the first payload of each task's reused `msg` and `displayInit`'s local `msg`, is a parameter.
