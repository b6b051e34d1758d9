# USB CCID class driver: the action state machine

This project models the per-device action state machine of the ESP-IDF USB
host class driver in `src/driver.hpp`. It also proves properties of it. The
driver keeps one record, `class_driver_t`: the device address (`dev_addr`,
0 when no device is tracked), the open device handle (`dev_hdl`) and a
32-bit word of pending actions (`actions`). The parts modelled:

- The host library's attach and detach events reach `client_event_cb`.
- The `while (1)` loop of `class_driver_task` runs in passes. A pass tests the flags
  in a fixed order and runs the matching `action_*` step for each one set.
- Each step makes one library call, clears its own flag and arms the next:
  open, device info, device descriptor, configuration descriptor, string
  step, and close.
- When the word is zero, `action_ccid_on` builds an 8-byte packet laid out
  as a USB setup packet and submits those bytes with
  `usb_host_transfer_submit` to endpoint 0x81.
- `class_driver_client_deregister`, called from another task, asks the loop
  to close the device and exit.

Modules:

- `Flags` (`flags.dfy`): the `action_t` constants as `bv32` values, with
  predicates for "this flag is set" and "this update cleared `own` and set
  `next`, leaving every other bit alone".
- `SetupPacket` (`setup_packet.dfy`): the packed `usb_setup_custom_t`, its
  little-endian byte image, and its reading as a standard USB 2.0 request
  (section 9.3 of the USB 2.0 specification).
- `Machine` (`machine.dfy`): the state machine as pure functions on a
  `Session` value (address, handle, action word):
  - each step, one pass, one turn of the loop, the shutdown request, and a
    run of the loop over a script of inputs;
  - a failed C `assert`, a failed `ESP_ERROR_CHECK` and `abort()` are all
    modelled as an `Abort(fault)` result, not as preconditions.
- `MachineProps` (`machine_props.dfy`): the properties of that model.
- `Driver` (`driver.dfy`): `class ClassDriver`, whose fields the methods
  update in place as the C functions do. Each method is proved to agree with
  its `Machine` function. Every method except the shared `ReadStep` helper
  also keeps `Valid()`, the session invariant `Inv` on the fields.

The library's replies (a handle or nothing for `usb_host_device_open`,
success or failure for the other calls) are parameters: a `Replies` record
for one pass, or a `bool` per call. Events and shutdown requests arrive as a
script of `Input`s between turns of the loop.

Two behaviours of the code are worth knowing:

- **An open failure is not fatal at the open.** `src/driver.hpp:139-143`
  logs the failure and still arms GET_DEV_INFO. In the same pass the
  `assert(dev_hdl != NULL)` of `action_get_info` then stops the program
  (`MachineProps.OpenFailureAborts`).
- **A shutdown before OPEN_DEV has run leaves the device open.**
  `class_driver_client_deregister` (`src/driver.hpp:263-271`) replaces the
  flags with CLOSE_DEV only when a handle is already open. A request that
  arrives after the attach event but before OPEN_DEV has run therefore only
  adds EXIT. The next pass opens the device, reads its descriptors and
  breaks at the EXIT test without closing it
  (`MachineProps.ShutdownDuringAttach`).

## Model

| member | source | states |
|---|---|---|
| `Flags.CcidOnMeansNonePending` | src/driver.hpp:17-28 | with only the defined flags possible, `actions == ACTION_CCID_ON` holds exactly when none of the eight flags is set |
| `Flags.ArmingCcidOnIsNoOp` | src/driver.hpp:180-181 | OR-ing `ACTION_CCID_ON` into the word leaves it unchanged |
| `SetupPacket.Word` | src/driver.hpp:92-93 | a 16-bit field's little-endian bytes are its low then its high byte |
| `SetupPacket.Serialize` | src/driver.hpp:84-97 | the packed image is exactly `USB_SETUP_PACKET_SIZE` (8) bytes, the fields in declaration order with no padding, each 16-bit field little-endian |
| `SetupPacket.Parse` | src/driver.hpp:95 | the `val[8]` view yields a packet exactly when there are 8 bytes |
| `SetupPacket.ParseSerialize` | src/driver.hpp:84-97 | reading back the image of any packet gives that packet |
| `SetupPacket.SerializeParse` | src/driver.hpp:84-97 | every 8-byte image is the image of the packet it reads as |
| `SetupPacket.CcidOnPacket` | src/driver.hpp:99-105 | the packet serialises to `80 06 01 03 09 03 00 FF`; read as a standard request it is device-to-host, standard, to the device, GET_DESCRIPTOR of STRING descriptor 1, language 0x0309, length 0xFF00 |
| `Machine.OnEvent` | src/driver.hpp:52-76 | an unknown event aborts; attach and detach never do |
| `Machine.Deliver` | src/driver.hpp:213-216 | a batch of events is handled without a fault exactly when it holds no unknown event |
| `Machine.OpenDevice` | src/driver.hpp:135-144 | aborts exactly when no address is tracked; takes the handle only when the open succeeds; clears OPEN_DEV, sets GET_DEV_INFO, other bits and the address unchanged |
| `Machine.GetDevInfo` | src/driver.hpp:146-155 | succeeds exactly when a handle is open and the info call succeeds; aborts on the handle assert without one, on the failed call otherwise; on success clears GET_DEV_INFO, sets GET_DEV_DESC, other bits and the device fields unchanged |
| `Machine.GetDevDesc` | src/driver.hpp:157-164 | the same for GET_DEV_DESC, handing over to GET_CONFIG_DESC |
| `Machine.GetConfigDesc` | src/driver.hpp:166-173 | the same for GET_CONFIG_DESC, handing over to GET_STR_DESC |
| `Machine.GetStrDesc` | src/driver.hpp:175-183 | the same checks; only clears GET_STR_DESC, since arming CCID_ON sets nothing |
| `Machine.CloseDevice` | src/driver.hpp:185-193 | aborts when the close call fails; otherwise the handle is null, the address 0, CLOSE_DEV cleared, RECONNECT set, other bits unchanged |
| `Machine.CcidOnRequestFor` | src/driver.hpp:107-115 | the transfer carries the 8 packet bytes, which parse back to the CCID-on packet; it has `num_bytes` 8, the session's handle, endpoint 0x81 and no callback; interface 0, alternate setting 0 is claimed |
| `Machine.Inv` | src/driver.hpp:36-42 | the invariant of the record: a handle only with an address, only defined flags, OPEN_DEV only without a handle and CLOSE_DEV only with one; so OPEN_DEV and CLOSE_DEV are never pending together, and CLOSE_DEV never without an address |
| `Machine.Read` | src/driver.hpp:146-183 | the shape of the four GET_* steps: succeeds exactly when a handle is open and the call succeeds; aborts on the handle assert without one, otherwise on the failed call; never changes the address or the handle |
| `Machine.Try` | src/driver.hpp:219-246 | one `if (<test>) action_x();`: when nothing has aborted and its test holds, the step is entered, and the trace gains exactly this step with the word it found; otherwise the trace is unchanged; after an abort nothing more runs; an abort leaves the record as it was |
| `Machine.Finish` | src/driver.hpp:247-254 | the tail of a pass: an abort is reported as is; it breaks exactly when EXIT is pending; RECONNECT clears the whole word when the loop goes on; trace, request and device fields unchanged; a continuing pass never leaves EXIT pending |
| `Machine.Pass` | src/driver.hpp:217-255 | one pass: it breaks only with EXIT pending and never goes on with EXIT pending; that it runs every pending action is `MachineProps.PassDrains`, its order and guards `MachineProps.PassOrder` |
| `Machine.Iterate` | src/driver.hpp:211-256 | one turn of `while (1)`: with the word zero it only handles events, running no step and submitting nothing, and never breaks |
| `Machine.ShutdownFlags` | src/driver.hpp:263-269 | the shutdown request adds EXIT in every case, adds CLOSE_DEV when a handle is open, and keeps the address and the handle |
| `Machine.Consume` | src/driver.hpp:211-271 | a shutdown request between turns runs no step, leaves EXIT pending, never breaks by itself, and aborts exactly when the unblock call fails |
| `Machine.Run` | src/driver.hpp:211-256 | the loop consumes at most the whole script, and all of it unless it breaks or aborts |
| `MachineProps.AttachWhenIdle` | src/driver.hpp:57-64 | with no device tracked, an attach records the address and ORs in OPEN_DEV, leaving the handle and the other bits alone |
| `MachineProps.AttachWhenTracked` | src/driver.hpp:57-64 | with a device tracked, an attach changes nothing |
| `MachineProps.DetachOverrides` | src/driver.hpp:65-71 | with a handle open, a detach makes the word exactly CLOSE_DEV, dropping every other pending flag; without one it changes nothing |
| `MachineProps.DetachIdempotent` | src/driver.hpp:65-71 | a second detach changes nothing more |
| `MachineProps.OnEventPreservesInv` | src/driver.hpp:52-76 | the event handler keeps the session invariant (a handle implies an address, and so on) |
| `MachineProps.DeliverPreservesInv` | src/driver.hpp:213-216 | so does handling a whole batch of events |
| `MachineProps.ApplyPreservesInv` | src/driver.hpp:135-193 | every action step that returns keeps the invariant |
| `MachineProps.PassPreservesInv` | src/driver.hpp:217-255 | a whole pass keeps it, whether it continues, breaks or aborts |
| `MachineProps.TryDrains` | src/driver.hpp:219-246 | no step sets the flag of a step tested before it: if the earlier flags are clear when a step is tested, they and its own flag are clear afterwards, unless the pass aborted |
| `MachineProps.StepsDrain` | src/driver.hpp:219-246 | after the seven tests of a pass that has not aborted, none of the six step flags is pending |
| `MachineProps.PassDrains` | src/driver.hpp:217-255 | a pass runs every action whose flag is pending when tested: one that does not abort leaves no step flag set, and one that goes on leaves the word 0 |
| `MachineProps.IteratePreservesInv` | src/driver.hpp:211-256 | one turn of the loop keeps it |
| `MachineProps.ShutdownFlagsSet` | src/driver.hpp:263-269 | with a handle open, a shutdown request makes the word CLOSE_DEV and EXIT; otherwise it only ORs in EXIT; address and handle unchanged |
| `MachineProps.ShutdownPreservesInv` | src/driver.hpp:263-269 | the shutdown request keeps the invariant |
| `MachineProps.RunPreservesInv` | src/driver.hpp:195-256 | the whole loop, from any state that has the invariant, keeps it, so an open handle always has a nonzero address |
| `MachineProps.ReadsInTurn` | src/driver.hpp:223-238 | with a handle and every call succeeding, the four reads run in one pass, in order, each handing over to the next |
| `MachineProps.HappyPass` | src/driver.hpp:219-254 | from OPEN_DEV alone with every call succeeding, one pass runs open, info, device, configuration and string steps and then CCID-on, each once and in that order; it leaves the handle open, the word 0, and the loop going on |
| `MachineProps.OpenFailureAborts` | src/driver.hpp:135-155 | a failed open is only logged; the same pass runs GET_DEV_INFO, whose handle assert aborts |
| `MachineProps.DetachThenPass` | src/driver.hpp:239-254 | after a detach, the next pass closes the device; the RECONNECT it sets is cleared in the same pass, leaving the initial state; a failed close aborts |
| `MachineProps.ShutdownWithDevice` | src/driver.hpp:239-250 | after a shutdown request with a device open, the next pass closes the device before the EXIT test breaks the loop |
| `MachineProps.ShutdownDuringAttach` | src/driver.hpp:219-250 | a shutdown requested before OPEN_DEV has run lets the pass open the device and read it, then breaks with the device still open |
| `MachineProps.PassOrder` | src/driver.hpp:219-246 | the steps a pass enters follow the fixed priority order, each at most once and only when its own test holds; so CCID-on only runs when the word is 0 |
| `MachineProps.CcidOnHasDevice` | src/driver.hpp:235-246 | the transfer CCID-on submits always names an open device |
| `MachineProps.ExitEndsLoop` | src/driver.hpp:247-250 | once EXIT is pending, the next turn breaks or aborts: no step clears EXIT |
| `MachineProps.ShutdownEndsLoop` | src/driver.hpp:263-271 | after a successful shutdown request, whatever the state, the next turn ends the loop |
| `MachineProps.DetachAndShutdown` | src/driver.hpp:211-271 | a set-up device that is detached is closed by the next pass; a later shutdown request then breaks the loop with address 0, no handle and only EXIT set |
| `MachineProps.Lifecycle` | src/driver.hpp:195-256 | from the zeroed record: attach, set-up pass, detach, close pass, shutdown; the loop then breaks with address 0, no handle and only EXIT set |
| `Driver.ClassDriver.constructor` | src/driver.hpp:197 | the record starts zeroed, which satisfies the invariant |
| `Driver.ClassDriver.ClientEventCb` | src/driver.hpp:52-76 | updates the fields in place exactly as `Machine.OnEvent` does, keeping the invariant |
| `Driver.ClassDriver.ActionOpenDev` | src/driver.hpp:135-144 | updates the fields as `Machine.OpenDevice` does |
| `Driver.ClassDriver.ActionGetInfo` | src/driver.hpp:146-155 | updates the fields as `Machine.GetDevInfo` does |
| `Driver.ClassDriver.ActionGetDevDesc` | src/driver.hpp:157-164 | updates the fields as `Machine.GetDevDesc` does |
| `Driver.ClassDriver.ActionGetConfigDesc` | src/driver.hpp:166-173 | updates the fields as `Machine.GetConfigDesc` does |
| `Driver.ClassDriver.ActionGetStrDesc` | src/driver.hpp:175-183 | updates the fields as `Machine.GetStrDesc` does |
| `Driver.ClassDriver.ActionCloseDev` | src/driver.hpp:185-193 | updates the fields as `Machine.CloseDevice` does |
| `Driver.ClassDriver.ActionCcidOn` | src/driver.hpp:78-133 | changes no field; the transfer it builds carries the bytes `80 06 01 03 09 03 00 FF`, 8 bytes, the record's handle, endpoint 0x81 and no callback, with interface 0/0 claimed |
| `Driver.ClassDriver.TestAndRun` | src/driver.hpp:219-246 | tests one flag and runs its step, as `Machine.Try` does |
| `Driver.ClassDriver.RunPass` | src/driver.hpp:217-255 | one pass in place: the new fields, the steps entered, the request submitted and the outcome are exactly those of `Machine.Pass` |
| `Driver.ClassDriver.HandleEvents` | src/driver.hpp:213-216 | hands each delivered event to the callback in turn, as `Machine.Deliver` does |
| `Driver.ClassDriver.Iteration` | src/driver.hpp:211-256 | one turn of `while (1)`, as `Machine.Iterate` |
| `Driver.ClassDriver.ClientDeregister` | src/driver.hpp:263-271 | sets the flags as `Machine.ShutdownFlags` does, and aborts exactly when the unblock call fails |
| `Driver.ClassDriver.Task` | src/driver.hpp:211-256 | the loop over a script of inputs ends in the state, input count and outcome that `Machine.Run` gives |

## Left out

- Client registration and deregistration (`src/driver.hpp:199-209`, `258-260`) and `vTaskSuspend`: library set-up and task teardown around the loop, with no effect on the state machine.
- `usb_host_client_handle_events` blocking until something happens (`src/driver.hpp:213-216`): a turn with nothing pending hands the loop the events that arrived, as a parameter.
- Concurrency. The callback and the shutdown request from the other task run between turns of the loop, never during one.
- The library calls themselves. Their results are inputs. `usb_host_device_open` is assumed to write the handle only when it succeeds, as ESP-IDF does.
- Descriptor contents (`dev_info`, `dev_desc`, `config_desc`) and the library data the reads store in them. Only whether each read succeeds is modelled.
- `Machine.CcidOnRequestFor`: the results of the interface claim and of the transfer submit are only logged by the source, so they are not inputs. Transfer allocation and the `context` pointer are not modelled.
- Logging: `printf`, `usb_print_*` and the packet dump.
- `ccid_cb`: it is never bound, because `callback` is NULL.
- `bufferData` and `transfer->status`: not used by the logic.
- C `assert`s are treated as enabled (no `NDEBUG`): a failing one stops the program like `abort()`.
- `src/main.cpp`: GPIO, FreeRTOS tasks and queues, and the library event pump. It is not part of this model.
