/**
 * The per-device action state machine of the class driver
 * (src/driver.hpp), as pure functions over the session record. The class
 * in module Driver performs the same steps in place and is proved to agree
 * with these functions; the lemmas in MachineProps are stated over them.
 */
module Machine {
  import opened Wrappers
  import opened Flags
  import opened SetupPacket

  /** A non-null `usb_device_handle_t`; the null handle is `None`. */
  datatype Handle = Handle(id: nat)

  /** The fields of `class_driver_t` that the state machine updates. */
  datatype Session = Session(devAddr: uint8, devHdl: Option<Handle>, actions: Mask)

  /** `class_driver_t driver_obj = {0}`. */
  const INITIAL: Session := Session(0, None, 0)

  /**
   * The session invariant: an open handle belongs to a tracked address;
   * only defined flags are set; OPEN_DEV is only pending while no handle is
   * open and CLOSE_DEV only while one is.
   */
  predicate Inv(s: Session)
    ensures Inv(s) ==> !(Has(s.actions, OPEN_DEV) && Has(s.actions, CLOSE_DEV))
    ensures Inv(s) ==> s.devAddr == 0 ==> !Has(s.actions, CLOSE_DEV)
  {
    && WellFormed(s.actions)
    && (s.devHdl.Some? ==> s.devAddr != 0)
    && (Has(s.actions, OPEN_DEV) ==> s.devHdl.None?)
    && (Has(s.actions, CLOSE_DEV) ==> s.devHdl.Some?)
  }

  /** The library calls whose failure `ESP_ERROR_CHECK` turns into an abort. */
  datatype Call = DeviceInfo | DeviceDescriptor | ConfigDescriptor | DeviceClose | ClientUnblock

  /** Why the program stops: a failed `assert`, `ESP_ERROR_CHECK` or `abort()`. */
  datatype Fault =
    | UnknownEvent           // the default branch of client_event_cb
    | NoAddress              // assert(dev_addr != 0) in action_open_dev
    | NoHandle               // assert(dev_hdl != NULL) in the GET_* actions
    | CallFailed(call: Call) // ESP_ERROR_CHECK on a failed library call

  datatype Result<T> = Ok(value: T) | Abort(fault: Fault)

  /** What a call leaves: the new session, or the old one and the fault it stopped on. */
  datatype Handled = Handled(s: Session, fault: Option<Fault>)

  function Effect(r: Result<Session>, before: Session): Handled
  {
    match r
    case Ok(s) => Handled(s, None)
    case Abort(f) => Handled(before, Some(f))
  }

  // ---------------------------------------------------------------------
  // client_event_cb

  /** The client events the host library delivers. */
  datatype Event = NewDev(address: uint8) | DevGone | OtherEvent

  /** `client_event_cb` applied to the session. */
  function OnEvent(s: Session, e: Event): (r: Result<Session>)
    ensures r.Abort? <==> e.OtherEvent?
  {
    match e
    case NewDev(address) =>
      if s.devAddr == 0 then Ok(s.(devAddr := address, actions := s.actions | OPEN_DEV))
      else Ok(s)
    case DevGone =>
      if s.devHdl.Some? then Ok(s.(actions := CLOSE_DEV)) else Ok(s)
    case OtherEvent => Abort(UnknownEvent)
  }

  /** The events of one wait, handed to `client_event_cb` one by one. */
  function Deliver(s: Session, events: seq<Event>): (h: Handled)
    ensures h.fault.None? <==> forall i | 0 <= i < |events| :: !events[i].OtherEvent?
    decreases |events|
  {
    if events == [] then Handled(s, None)
    else
      match OnEvent(s, events[0])
      case Abort(f) => Handled(s, Some(f))
      case Ok(s1) =>
        var h := Deliver(s1, events[1..]);
        assert forall i | 1 <= i < |events| :: events[i] == events[1..][i - 1];
        h
  }

  // ---------------------------------------------------------------------
  // The action_* steps

  /**
   * `action_open_dev`. The library writes the handle only when the open
   * succeeds; a failure is logged and the step advances all the same.
   */
  function OpenDevice(s: Session, reply: Option<Handle>): (r: Result<Session>)
    ensures r.Abort? <==> s.devAddr == 0
    ensures r.Ok? ==> r.value.devAddr == s.devAddr
    ensures r.Ok? && reply.Some? ==> r.value.devHdl == reply
    ensures r.Ok? && reply.None? ==> r.value.devHdl == s.devHdl
    ensures r.Ok? ==> Advanced(s.actions, r.value.actions, OPEN_DEV, GET_DEV_INFO)
  {
    if s.devAddr == 0 then Abort(NoAddress)
    else
      var hdl := if reply.Some? then reply else s.devHdl;
      Ok(s.(devHdl := hdl, actions := (s.actions & !OPEN_DEV) | GET_DEV_INFO))
  }

  /**
   * The shape shared by the four GET_* actions: assert an open handle,
   * make one library call under `ESP_ERROR_CHECK`, clear `own`, set `next`.
   */
  function Read(s: Session, call: Call, ok: bool, own: Mask, next: Mask): (r: Result<Session>)
    ensures r.Ok? <==> s.devHdl.Some? && ok
    ensures r == Abort(NoHandle) <==> s.devHdl.None?
    ensures r.Abort? && s.devHdl.Some? ==> r.fault == CallFailed(call)
    ensures r.Ok? ==> r.value.devAddr == s.devAddr && r.value.devHdl == s.devHdl
  {
    if s.devHdl.None? then Abort(NoHandle)
    else if !ok then Abort(CallFailed(call))
    else Ok(s.(actions := (s.actions & !own) | next))
  }

  /** `action_get_info`. */
  function GetDevInfo(s: Session, ok: bool): (r: Result<Session>)
    ensures r == Abort(NoHandle) <==> s.devHdl.None?
    ensures r.Ok? <==> s.devHdl.Some? && ok
    ensures r == Abort(CallFailed(DeviceInfo)) <==> s.devHdl.Some? && !ok
    ensures r.Ok? ==> r.value.devAddr == s.devAddr && r.value.devHdl == s.devHdl
    ensures r.Ok? ==> Advanced(s.actions, r.value.actions, GET_DEV_INFO, GET_DEV_DESC)
  {
    Read(s, DeviceInfo, ok, GET_DEV_INFO, GET_DEV_DESC)
  }

  /** `action_get_dev_desc`. */
  function GetDevDesc(s: Session, ok: bool): (r: Result<Session>)
    ensures r == Abort(NoHandle) <==> s.devHdl.None?
    ensures r.Ok? <==> s.devHdl.Some? && ok
    ensures r == Abort(CallFailed(DeviceDescriptor)) <==> s.devHdl.Some? && !ok
    ensures r.Ok? ==> r.value.devAddr == s.devAddr && r.value.devHdl == s.devHdl
    ensures r.Ok? ==> Advanced(s.actions, r.value.actions, GET_DEV_DESC, GET_CONFIG_DESC)
  {
    Read(s, DeviceDescriptor, ok, GET_DEV_DESC, GET_CONFIG_DESC)
  }

  /** `action_get_config_desc`. */
  function GetConfigDesc(s: Session, ok: bool): (r: Result<Session>)
    ensures r == Abort(NoHandle) <==> s.devHdl.None?
    ensures r.Ok? <==> s.devHdl.Some? && ok
    ensures r == Abort(CallFailed(ConfigDescriptor)) <==> s.devHdl.Some? && !ok
    ensures r.Ok? ==> r.value.devAddr == s.devAddr && r.value.devHdl == s.devHdl
    ensures r.Ok? ==> Advanced(s.actions, r.value.actions, GET_CONFIG_DESC, GET_STR_DESC)
  {
    Read(s, ConfigDescriptor, ok, GET_CONFIG_DESC, GET_STR_DESC)
  }

  /**
   * `action_get_str_desc`: re-reads the device information, clears its own
   * flag and "sets" CCID_ON, which is zero, so it only clears.
   */
  function GetStrDesc(s: Session, ok: bool): (r: Result<Session>)
    ensures r == Abort(NoHandle) <==> s.devHdl.None?
    ensures r.Ok? <==> s.devHdl.Some? && ok
    ensures r == Abort(CallFailed(DeviceInfo)) <==> s.devHdl.Some? && !ok
    ensures r.Ok? ==> r.value.devAddr == s.devAddr && r.value.devHdl == s.devHdl
    ensures r.Ok? ==> r.value.actions == s.actions & !GET_STR_DESC
  {
    Read(s, DeviceInfo, ok, GET_STR_DESC, CCID_ON)
  }

  /** `action_close_dev`: both device fields reset together. */
  function CloseDevice(s: Session, ok: bool): (r: Result<Session>)
    ensures r.Abort? <==> !ok
    ensures r.Ok? ==> r.value.devAddr == 0 && r.value.devHdl.None?
    ensures r.Ok? ==> Advanced(s.actions, r.value.actions, CLOSE_DEV, RECONNECT)
  {
    if !ok then Abort(CallFailed(DeviceClose))
    else Ok(Session(0, None, (s.actions & !CLOSE_DEV) | RECONNECT))
  }

  /**
   * The `usb_transfer_t` that `action_ccid_on` submits with
   * `usb_host_transfer_submit`. Only its buffer, `num_bytes`, device
   * handle, endpoint address and whether a callback is bound are modelled.
   */
  datatype Transfer = Transfer(
    data: seq<uint8>,
    numBytes: nat,
    device: Option<Handle>,
    endpoint: uint8,
    hasCallback: bool)

  /** What `action_ccid_on` hands to the library: an interface claim and a transfer. */
  datatype CcidOnRequest = CcidOnRequest(claimInterface: uint8, claimAlt: uint8, transfer: Transfer)

  /** `action_ccid_on`: the request it submits for the session's device. */
  function CcidOnRequestFor(s: Session): (q: CcidOnRequest)
    ensures q.transfer.data == [0x80, 0x06, 0x01, 0x03, 0x09, 0x03, 0x00, 0xFF]
    ensures Parse(q.transfer.data) == Some(CcidOnPacket())
    ensures q.transfer.numBytes == USB_SETUP_PACKET_SIZE
    ensures q.transfer.device == s.devHdl
    ensures q.transfer.endpoint == 0x81 && !q.transfer.hasCallback
    ensures q.claimInterface == 0 && q.claimAlt == 0
  {
    ParseSerialize(CcidOnPacket());
    CcidOnRequest(0, 0, Transfer(Serialize(CcidOnPacket()), USB_SETUP_PACKET_SIZE, s.devHdl, 0x81, false))
  }

  // ---------------------------------------------------------------------
  // One pass of the class_driver_task loop

  /** What the host library answers to the calls one pass can make. */
  datatype Replies = Replies(
    open: Option<Handle>,  // usb_host_device_open: the handle, or None on failure
    info: bool,            // usb_host_device_info in action_get_info
    devDesc: bool,         // usb_host_get_device_descriptor
    configDesc: bool,      // usb_host_get_active_config_descriptor
    strInfo: bool,         // usb_host_device_info in action_get_str_desc
    close: bool)           // usb_host_device_close

  /** The replies of a library that succeeds at every call. */
  function AllSucceed(h: Handle): Replies
  {
    Replies(Some(h), true, true, true, true, true)
  }

  /** The actions a pass can run. */
  datatype Step = Open | Info | DevDesc | ConfigDesc | StrDesc | Close | CcidOn

  /** The position of a step in the fixed order in which a pass tests the flags. */
  function Rank(st: Step): nat
  {
    match st
    case Open => 0
    case Info => 1
    case DevDesc => 2
    case ConfigDesc => 3
    case StrDesc => 4
    case Close => 5
    case CcidOn => 6
  }

  /** The test a pass makes before running a step. */
  predicate Enabled(st: Step, m: Mask)
  {
    match st
    case Open => Has(m, OPEN_DEV)
    case Info => Has(m, GET_DEV_INFO)
    case DevDesc => Has(m, GET_DEV_DESC)
    case ConfigDesc => Has(m, GET_CONFIG_DESC)
    case StrDesc => Has(m, GET_STR_DESC)
    case Close => Has(m, CLOSE_DEV)
    case CcidOn => m == CCID_ON
  }

  /** Runs one step on the session. */
  function Apply(st: Step, s: Session, r: Replies): Result<Session>
  {
    match st
    case Open => OpenDevice(s, r.open)
    case Info => GetDevInfo(s, r.info)
    case DevDesc => GetDevDesc(s, r.devDesc)
    case ConfigDesc => GetConfigDesc(s, r.configDesc)
    case StrDesc => GetStrDesc(s, r.strInfo)
    case Close => CloseDevice(s, r.close)
    case CcidOn => Ok(s)
  }

  /** A step a pass entered, with the action word it found. */
  datatype Ran = Ran(step: Step, before: Mask)

  /** A pass part-way through its tests. */
  datatype Progress = Progress(s: Session, ran: seq<Ran>, request: Option<CcidOnRequest>, fault: Option<Fault>)

  /** Tests one step and runs it when it is enabled; an abort ends the pass. */
  function Try(p: Progress, st: Step, r: Replies): (q: Progress)
    ensures p.fault.Some? ==> q == p
    ensures q.ran == p.ran || q.ran == p.ran + [Ran(st, p.s.actions)]
    ensures q.ran != p.ran ==> p.fault.None? && Enabled(st, p.s.actions)
    ensures p.fault.None? && Enabled(st, p.s.actions) ==> q.ran == p.ran + [Ran(st, p.s.actions)]
    ensures q.fault.Some? ==> q.s == p.s
  {
    if p.fault.Some? || !Enabled(st, p.s.actions) then p
    else
      var ran := p.ran + [Ran(st, p.s.actions)];
      match Apply(st, p.s, r)
      case Abort(f) => p.(ran := ran, fault := Some(f))
      case Ok(s1) =>
        var request := if st == CcidOn then Some(CcidOnRequestFor(p.s)) else p.request;
        Progress(s1, ran, request, None)
  }

  /** The seven tests of a pass, in their fixed order. */
  function Steps(p: Progress, r: Replies): Progress
  {
    var p1 := Try(p, Open, r);
    var p2 := Try(p1, Info, r);
    var p3 := Try(p2, DevDesc, r);
    var p4 := Try(p3, ConfigDesc, r);
    var p5 := Try(p4, StrDesc, r);
    var p6 := Try(p5, Close, r);
    Try(p6, CcidOn, r)
  }

  /** How a pass of the loop ends. */
  datatype Outcome = Continue | Break | Aborted(fault: Fault)

  datatype PassResult = PassResult(s: Session, ran: seq<Ran>, request: Option<CcidOnRequest>, outcome: Outcome)

  /** The tail of a pass: the EXIT test (break) and the RECONNECT test (clear every flag). */
  function Finish(p: Progress): (res: PassResult)
    ensures res.ran == p.ran && res.request == p.request
    ensures res.outcome.Aborted? <==> p.fault.Some?
    ensures res.outcome == Break <==> p.fault.None? && Has(p.s.actions, EXIT)
    ensures res.outcome == Continue ==> !Has(res.s.actions, EXIT)
    ensures res.s.devAddr == p.s.devAddr && res.s.devHdl == p.s.devHdl
    ensures res.outcome == Continue && Has(p.s.actions, RECONNECT) ==> res.s.actions == 0
    ensures !(res.outcome == Continue && Has(p.s.actions, RECONNECT)) ==> res.s == p.s
  {
    if p.fault.Some? then PassResult(p.s, p.ran, p.request, Aborted(p.fault.value))
    else if Has(p.s.actions, EXIT) then PassResult(p.s, p.ran, p.request, Break)
    else if Has(p.s.actions, RECONNECT) then PassResult(p.s.(actions := 0), p.ran, p.request, Continue)
    else PassResult(p.s, p.ran, p.request, Continue)
  }

  /** The `else` branch of the `while (1)` loop: the steps in priority order, then the tail. */
  function Pass(s: Session, r: Replies): (res: PassResult)
    requires s.actions != 0
    ensures res.outcome == Break ==> Has(res.s.actions, EXIT)
    ensures res.outcome == Continue ==> !Has(res.s.actions, EXIT)
  {
    Finish(Steps(Progress(s, [], None, None), r))
  }

  /**
   * One turn of the loop: with nothing pending it waits and handles the
   * delivered events; otherwise it makes a pass.
   */
  function Iterate(s: Session, events: seq<Event>, r: Replies): (res: PassResult)
    ensures s.actions == 0 ==> res.ran == [] && res.request.None? && res.outcome != Break
  {
    if s.actions == 0 then
      var h := Deliver(s, events);
      PassResult(h.s, [], None, if h.fault.Some? then Aborted(h.fault.value) else Continue)
    else Pass(s, r)
  }

  // ---------------------------------------------------------------------
  // class_driver_client_deregister

  /**
   * The flags a shutdown request leaves: with an open handle every pending
   * flag is replaced by CLOSE_DEV; EXIT is added in every case.
   */
  function ShutdownFlags(s: Session): (t: Session)
    ensures t.devAddr == s.devAddr && t.devHdl == s.devHdl
    ensures Has(t.actions, EXIT)
    ensures s.devHdl.Some? ==> Has(t.actions, CLOSE_DEV)
  {
    var s1 := if s.devHdl.Some? then s.(actions := CLOSE_DEV) else s;
    s1.(actions := s1.actions | EXIT)
  }

  // ---------------------------------------------------------------------
  // The loop as a whole

  /** The inputs one run of the loop sees, in order. */
  datatype Input =
    | Iteration(events: seq<Event>, replies: Replies)  // one turn of the loop
    | Shutdown(unblockOk: bool)                         // a shutdown request from the other task

  datatype RunResult = RunResult(s: Session, consumed: nat, outcome: Outcome)

  /** Applies one input; `Continue` means the loop goes on. */
  function Consume(s: Session, i: Input): (res: PassResult)
    ensures i.Shutdown? ==> res.ran == [] && res.request.None? && Has(res.s.actions, EXIT)
    ensures i.Shutdown? ==> (res.outcome.Aborted? <==> !i.unblockOk) && res.outcome != Break
  {
    match i
    case Iteration(events, replies) => Iterate(s, events, replies)
    case Shutdown(unblockOk) =>
      PassResult(ShutdownFlags(s), [], None, if unblockOk then Continue else Aborted(CallFailed(ClientUnblock)))
  }

  /** Runs the loop over a script of inputs until it breaks, aborts or the script ends. */
  function Run(s: Session, script: seq<Input>): (res: RunResult)
    ensures res.consumed <= |script|
    ensures res.outcome == Continue ==> res.consumed == |script|
    decreases |script|
  {
    if script == [] then RunResult(s, 0, Continue)
    else
      var p := Consume(s, script[0]);
      if p.outcome != Continue then RunResult(p.s, 1, p.outcome)
      else
        var rest := Run(p.s, script[1..]);
        RunResult(rest.s, rest.consumed + 1, rest.outcome)
  }
}
