/**
 * The class driver of src/driver.hpp as it runs: one `class_driver_t`
 * record whose fields the event callback, the `action_*` functions, the
 * task loop and the shutdown request update in place. Every method is
 * proved to do what the matching function of module Machine describes.
 */
module Driver {
  import opened Wrappers
  import opened Flags
  import opened SetupPacket
  import opened Machine
  import opened MachineProps

  /** `class_driver_t`. */
  class ClassDriver {
    /** `client_hdl`, handed out by `usb_host_client_register`. */
    const clientHdl: nat
    var devAddr: uint8
    var devHdl: Option<Handle>
    var actions: Mask

    /** The record's fields as a session value. */
    function Snapshot(): Session
      reads this
    {
      Session(devAddr, devHdl, actions)
    }

    ghost predicate Valid()
      reads this
    {
      Inv(Snapshot())
    }

    /** `class_driver_t driver_obj = {0}` after a successful client registration. */
    constructor (client: nat)
      ensures Valid() && Snapshot() == INITIAL && clientHdl == client
    {
      clientHdl := client;
      devAddr := 0;
      devHdl := None;
      actions := 0;
    }

    /** `client_event_cb`. */
    method ClientEventCb(e: Event) returns (fault: Option<Fault>)
      requires Valid()
      modifies this
      ensures Valid()
      ensures Handled(Snapshot(), fault) == Effect(OnEvent(old(Snapshot()), e), old(Snapshot()))
    {
      OnEventPreservesInv(Snapshot(), e);
      fault := None;
      match e
      case NewDev(address) =>
        if devAddr == 0 {
          devAddr := address;
          actions := actions | OPEN_DEV;
        }
      case DevGone =>
        if devHdl.Some? {
          actions := CLOSE_DEV;
        }
      case OtherEvent =>
        fault := Some(UnknownEvent);
    }

    /** `action_open_dev`; `reply` is what `usb_host_device_open` returns. */
    method ActionOpenDev(reply: Option<Handle>) returns (fault: Option<Fault>)
      requires Valid()
      modifies this
      ensures Valid()
      ensures Handled(Snapshot(), fault) == Effect(OpenDevice(old(Snapshot()), reply), old(Snapshot()))
    {
      ApplyPreservesInv(Open, Snapshot(), Replies(reply, false, false, false, false, false));
      if devAddr == 0 {
        return Some(NoAddress);
      }
      if reply.Some? {
        devHdl := reply;
      }
      actions := (actions & !OPEN_DEV) | GET_DEV_INFO;
      fault := None;
    }

    /** The common body of the GET_* actions. */
    method ReadStep(call: Call, ok: bool, own: Mask, next: Mask) returns (fault: Option<Fault>)
      modifies this
      ensures Handled(Snapshot(), fault) == Effect(Read(old(Snapshot()), call, ok, own, next), old(Snapshot()))
    {
      if devHdl.None? {
        return Some(NoHandle);
      }
      if !ok {
        return Some(CallFailed(call));
      }
      actions := (actions & !own) | next;
      fault := None;
    }

    /** `action_get_info`. */
    method ActionGetInfo(ok: bool) returns (fault: Option<Fault>)
      requires Valid()
      modifies this
      ensures Valid()
      ensures Handled(Snapshot(), fault) == Effect(GetDevInfo(old(Snapshot()), ok), old(Snapshot()))
    {
      ApplyPreservesInv(Info, Snapshot(), Replies(None, ok, false, false, false, false));
      fault := ReadStep(DeviceInfo, ok, GET_DEV_INFO, GET_DEV_DESC);
    }

    /** `action_get_dev_desc`. */
    method ActionGetDevDesc(ok: bool) returns (fault: Option<Fault>)
      requires Valid()
      modifies this
      ensures Valid()
      ensures Handled(Snapshot(), fault) == Effect(GetDevDesc(old(Snapshot()), ok), old(Snapshot()))
    {
      ApplyPreservesInv(DevDesc, Snapshot(), Replies(None, false, ok, false, false, false));
      fault := ReadStep(DeviceDescriptor, ok, GET_DEV_DESC, GET_CONFIG_DESC);
    }

    /** `action_get_config_desc`. */
    method ActionGetConfigDesc(ok: bool) returns (fault: Option<Fault>)
      requires Valid()
      modifies this
      ensures Valid()
      ensures Handled(Snapshot(), fault) == Effect(GetConfigDesc(old(Snapshot()), ok), old(Snapshot()))
    {
      ApplyPreservesInv(ConfigDesc, Snapshot(), Replies(None, false, false, ok, false, false));
      fault := ReadStep(ConfigDescriptor, ok, GET_CONFIG_DESC, GET_STR_DESC);
    }

    /** `action_get_str_desc`: "arms" CCID_ON, which is zero. */
    method ActionGetStrDesc(ok: bool) returns (fault: Option<Fault>)
      requires Valid()
      modifies this
      ensures Valid()
      ensures Handled(Snapshot(), fault) == Effect(GetStrDesc(old(Snapshot()), ok), old(Snapshot()))
    {
      ApplyPreservesInv(StrDesc, Snapshot(), Replies(None, false, false, false, ok, false));
      fault := ReadStep(DeviceInfo, ok, GET_STR_DESC, CCID_ON);
    }

    /** `action_close_dev`; `ok` is what `usb_host_device_close` reports. */
    method ActionCloseDev(ok: bool) returns (fault: Option<Fault>)
      requires Valid()
      modifies this
      ensures Valid()
      ensures Handled(Snapshot(), fault) == Effect(CloseDevice(old(Snapshot()), ok), old(Snapshot()))
    {
      ApplyPreservesInv(Close, Snapshot(), Replies(None, false, false, false, false, ok));
      if !ok {
        return Some(CallFailed(DeviceClose));
      }
      devHdl := None;
      devAddr := 0;
      actions := (actions & !CLOSE_DEV) | RECONNECT;
      fault := None;
    }

    /**
     * `action_ccid_on`: fills the setup packet, copies its bytes into the
     * transfer buffer and submits it to endpoint 0x81 after claiming
     * interface 0. The record itself is not changed.
     */
    method ActionCcidOn() returns (q: CcidOnRequest)
      ensures q.transfer.data == [0x80, 0x06, 0x01, 0x03, 0x09, 0x03, 0x00, 0xFF]
      ensures q.transfer.numBytes == USB_SETUP_PACKET_SIZE && q.transfer.device == devHdl
      ensures q.transfer.endpoint == 0x81 && !q.transfer.hasCallback
      ensures q.claimInterface == 0 && q.claimAlt == 0
      ensures q == CcidOnRequestFor(Snapshot())
    {
      var data := SetupCustom(0x80, 0x06, 0x01, 0x03, 0x0309, 0xff00);
      assert data == CcidOnPacket();
      var buffer := Serialize(data);
      var transfer := Transfer(buffer, USB_SETUP_PACKET_SIZE, devHdl, 0x81, false);
      q := CcidOnRequest(0, 0, transfer);
    }

    /**
     * One line of the `else` branch of the `class_driver_task` loop: `if (<guard>) action_x();`.
     * The guard is the step's flag, or `actions == ACTION_CCID_ON` for
     * CCID-on; `ran` gains the step when it is entered.
     */
    method TestAndRun(st: Step, r: Replies, ran0: seq<Ran>, request0: Option<CcidOnRequest>)
      returns (ran: seq<Ran>, request: Option<CcidOnRequest>, fault: Option<Fault>)
      requires Valid()
      modifies this
      ensures Valid()
      ensures Try(old(Progress(Snapshot(), ran0, request0, None)), st, r) == Progress(Snapshot(), ran, request, fault)
    {
      ran, request, fault := ran0, request0, None;
      if Enabled(st, actions) {
        ran := ran + [Ran(st, actions)];
        match st
        case Open => fault := ActionOpenDev(r.open);
        case Info => fault := ActionGetInfo(r.info);
        case DevDesc => fault := ActionGetDevDesc(r.devDesc);
        case ConfigDesc => fault := ActionGetConfigDesc(r.configDesc);
        case StrDesc => fault := ActionGetStrDesc(r.strInfo);
        case Close => fault := ActionCloseDev(r.close);
        case CcidOn =>
          var q := ActionCcidOn();
          request := Some(q);
      }
    }

    /**
     * The `else` branch of the `class_driver_task` loop: every pending action in the fixed
     * order, then the EXIT and RECONNECT tests. `ran` lists the actions
     * entered, as the log lines of the source show them; an abort ends
     * the pass at once.
     */
    method RunPass(r: Replies) returns (ran: seq<Ran>, request: Option<CcidOnRequest>, outcome: Outcome)
      requires Valid() && actions != 0
      modifies this
      ensures Valid()
      ensures Pass(old(Snapshot()), r) == PassResult(Snapshot(), ran, request, outcome)
    {
      var fault: Option<Fault>;

      ran, request, fault := TestAndRun(Open, r, [], None);
      if fault.Some? {
        outcome := Aborted(fault.value);
        return;
      }

      ran, request, fault := TestAndRun(Info, r, ran, request);
      if fault.Some? {
        outcome := Aborted(fault.value);
        return;
      }

      ran, request, fault := TestAndRun(DevDesc, r, ran, request);
      if fault.Some? {
        outcome := Aborted(fault.value);
        return;
      }

      ran, request, fault := TestAndRun(ConfigDesc, r, ran, request);
      if fault.Some? {
        outcome := Aborted(fault.value);
        return;
      }

      ran, request, fault := TestAndRun(StrDesc, r, ran, request);
      if fault.Some? {
        outcome := Aborted(fault.value);
        return;
      }

      ran, request, fault := TestAndRun(Close, r, ran, request);
      if fault.Some? {
        outcome := Aborted(fault.value);
        return;
      }

      ran, request, fault := TestAndRun(CcidOn, r, ran, request);
      if fault.Some? {
        outcome := Aborted(fault.value);
        return;
      }

      if Has(actions, EXIT) {
        outcome := Break;
        return;
      }
      if Has(actions, RECONNECT) {
        actions := 0;
      }
      outcome := Continue;
    }

    /**
     * The blocking `usb_host_client_handle_events` call: the library hands
     * each delivered event to `client_event_cb`; an abort stops everything.
     */
    method HandleEvents(events: seq<Event>) returns (fault: Option<Fault>)
      requires Valid()
      modifies this
      ensures Valid()
      ensures Handled(Snapshot(), fault) == Deliver(old(Snapshot()), events)
    {
      fault := None;
      var i := 0;
      while i < |events|
        invariant 0 <= i <= |events|
        invariant Valid()
        invariant fault.None?
        invariant Deliver(old(Snapshot()), events) == Deliver(Snapshot(), events[i..])
      {
        assert events[i..][0] == events[i] && events[i..][1..] == events[i + 1..];
        fault := ClientEventCb(events[i]);
        if fault.Some? {
          return;
        }
        i := i + 1;
      }
    }

    /** One turn of `while (1)` in `class_driver_task`. */
    method Iteration(events: seq<Event>, r: Replies)
      returns (ran: seq<Ran>, request: Option<CcidOnRequest>, outcome: Outcome)
      requires Valid()
      modifies this
      ensures Valid()
      ensures Iterate(old(Snapshot()), events, r) == PassResult(Snapshot(), ran, request, outcome)
    {
      if actions == 0 {
        var fault := HandleEvents(events);
        ran, request := [], None;
        outcome := if fault.Some? then Aborted(fault.value) else Continue;
      } else {
        ran, request, outcome := RunPass(r);
      }
    }

    /**
     * `class_driver_client_deregister`, called from the other task; the
     * `usb_host_client_unblock` result is `unblockOk`.
     */
    method ClientDeregister(unblockOk: bool) returns (fault: Option<Fault>)
      requires Valid()
      modifies this
      ensures Valid()
      ensures Snapshot() == ShutdownFlags(old(Snapshot()))
      ensures fault == if unblockOk then None else Some(CallFailed(ClientUnblock))
    {
      ShutdownPreservesInv(Snapshot());
      if devHdl.Some? {
        actions := CLOSE_DEV;
      }
      actions := actions | EXIT;
      fault := if unblockOk then None else Some(CallFailed(ClientUnblock));
    }

    /**
     * The `while (1)` loop of `class_driver_task`, fed a script of turns and
     * shutdown requests from the other task; it stops on EXIT, on an abort,
     * or when the script runs out.
     */
    method Task(script: seq<Input>) returns (consumed: nat, outcome: Outcome)
      requires Valid()
      modifies this
      ensures Valid()
      ensures Run(old(Snapshot()), script) == RunResult(Snapshot(), consumed, outcome)
    {
      consumed, outcome := 0, Continue;
      while consumed < |script|
        invariant 0 <= consumed <= |script|
        invariant Valid()
        invariant outcome == Continue
        invariant var rest := Run(Snapshot(), script[consumed..]);
          Run(old(Snapshot()), script) == RunResult(rest.s, rest.consumed + consumed, rest.outcome)
        decreases |script| - consumed
      {
        assert script[consumed..][0] == script[consumed] && script[consumed..][1..] == script[consumed + 1..];
        match script[consumed] {
          case Iteration(events, replies) =>
            var _, _, o := Iteration(events, replies);
            outcome := o;
          case Shutdown(unblockOk) =>
            var fault := ClientDeregister(unblockOk);
            outcome := if fault.Some? then Aborted(fault.value) else Continue;
        }
        consumed := consumed + 1;
        if outcome != Continue {
          return;
        }
      }
    }
  }
}
