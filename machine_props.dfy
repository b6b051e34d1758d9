/**
 * What the action state machine of src/driver.hpp guarantees, stated over
 * the pure model in module Machine.
 */
module MachineProps {
  import opened Wrappers
  import opened Flags
  import opened SetupPacket
  import opened Machine

  // ---------------------------------------------------------------------
  // client_event_cb

  /** A new device is recorded and OPEN_DEV armed, when no device is tracked. */
  lemma AttachWhenIdle(s: Session, address: uint8)
    requires s.devAddr == 0
    ensures var r := OnEvent(s, NewDev(address));
      && r.Ok?
      && r.value.devAddr == address
      && r.value.devHdl == s.devHdl
      && Added(s.actions, r.value.actions, OPEN_DEV)
  {
  }

  /** A tracked device is never replaced: the event changes nothing. */
  lemma AttachWhenTracked(s: Session, address: uint8)
    requires s.devAddr != 0
    ensures OnEvent(s, NewDev(address)) == Ok(s)
  {
  }

  /**
   * Device gone with an open handle: every pending flag is discarded and
   * CLOSE_DEV is the only one left; without a handle nothing changes.
   */
  lemma DetachOverrides(s: Session)
    ensures var r := OnEvent(s, DevGone);
      && r.Ok?
      && r.value.devAddr == s.devAddr
      && r.value.devHdl == s.devHdl
      && (s.devHdl.Some? ==> r.value.actions == CLOSE_DEV)
      && (s.devHdl.None? ==> r.value == s)
  {
  }

  /** A second device-gone event changes nothing more than the first. */
  lemma DetachIdempotent(s: Session)
    ensures OnEvent(s, DevGone).Ok?
    ensures OnEvent(OnEvent(s, DevGone).value, DevGone) == OnEvent(s, DevGone)
  {
  }

  lemma OnEventPreservesInv(s: Session, e: Event)
    requires Inv(s)
    ensures OnEvent(s, e).Ok? ==> Inv(OnEvent(s, e).value)
  {
  }

  lemma {:induction false} DeliverPreservesInv(s: Session, events: seq<Event>)
    requires Inv(s)
    ensures Inv(Deliver(s, events).s)
    decreases |events|
  {
    if events != [] {
      OnEventPreservesInv(s, events[0]);
      if OnEvent(s, events[0]).Ok? {
        DeliverPreservesInv(OnEvent(s, events[0]).value, events[1..]);
      }
    }
  }

  // ---------------------------------------------------------------------
  // The action steps

  /** Every step, applied to a session that satisfies the invariant, keeps it. */
  lemma ApplyPreservesInv(st: Step, s: Session, r: Replies)
    requires Inv(s)
    ensures Apply(st, s, r).Ok? ==> Inv(Apply(st, s, r).value)
  {
    match st
    case Open =>
    case Info =>
    case DevDesc =>
    case ConfigDesc =>
    case StrDesc =>
    case Close =>
    case CcidOn =>
  }

  lemma TryPreservesInv(p: Progress, st: Step, r: Replies)
    requires Inv(p.s)
    ensures Inv(Try(p, st, r).s)
  {
    ApplyPreservesInv(st, p.s, r);
  }

  lemma StepsPreservesInv(p: Progress, r: Replies)
    requires Inv(p.s)
    ensures Inv(Steps(p, r).s)
  {
    var p1 := Try(p, Open, r);
    TryPreservesInv(p, Open, r);
    var p2 := Try(p1, Info, r);
    TryPreservesInv(p1, Info, r);
    var p3 := Try(p2, DevDesc, r);
    TryPreservesInv(p2, DevDesc, r);
    var p4 := Try(p3, ConfigDesc, r);
    TryPreservesInv(p3, ConfigDesc, r);
    var p5 := Try(p4, StrDesc, r);
    TryPreservesInv(p4, StrDesc, r);
    var p6 := Try(p5, Close, r);
    TryPreservesInv(p5, Close, r);
    TryPreservesInv(p6, CcidOn, r);
  }

  /** A pass keeps the session invariant, whether it continues, breaks or aborts. */
  lemma PassPreservesInv(s: Session, r: Replies)
    requires Inv(s) && s.actions != 0
    ensures Inv(Pass(s, r).s)
  {
    StepsPreservesInv(Progress(s, [], None, None), r);
  }

  // ---------------------------------------------------------------------
  // A pass runs every pending action

  /** The flags of the six steps that own a bit: OPEN_DEV through CLOSE_DEV. */
  const STEP_FLAGS: Mask := 0x3F

  /**
   * The flags of the steps a pass tests before `st`. The step flags are the
   * low six bits in test order, so these are the bits below `st`'s own.
   */
  function TestedBefore(st: Step): Mask
  {
    match st
    case Open => 0x00
    case Info => 0x01
    case DevDesc => 0x03
    case ConfigDesc => 0x07
    case StrDesc => 0x0F
    case Close => 0x1F
    case CcidOn => 0x3F
  }

  /** The flags of the steps a pass tests up to and including `st`. */
  function TestedThrough(st: Step): Mask
  {
    match st
    case Open => 0x01
    case Info => 0x03
    case DevDesc => 0x07
    case ConfigDesc => 0x0F
    case StrDesc => 0x1F
    case Close => 0x3F
    case CcidOn => 0x3F
  }

  /** Unless the pass has aborted, the word is well formed and the flags in `m` are clear. */
  predicate Drained(p: Progress, m: Mask)
  {
    p.fault.None? ==> WellFormed(p.s.actions) && p.s.actions & m == 0
  }

  /**
   * No step sets the flag of a step tested earlier: if the earlier flags are
   * clear when `st` is tested, they and `st`'s own flag are clear after it,
   * unless the pass has aborted.
   */
  lemma TryDrains(p: Progress, st: Step, r: Replies)
    requires Drained(p, TestedBefore(st))
    ensures Drained(Try(p, st, r), TestedThrough(st))
  {
    if p.fault.None? && Enabled(st, p.s.actions) {
      var a := p.s.actions;
      match Apply(st, p.s, r)
      case Abort(_) =>
      case Ok(s1) =>
        match st
        case Open => assert Advanced(a, s1.actions, OPEN_DEV, GET_DEV_INFO);
        case Info => assert Advanced(a, s1.actions, GET_DEV_INFO, GET_DEV_DESC);
        case DevDesc => assert Advanced(a, s1.actions, GET_DEV_DESC, GET_CONFIG_DESC);
        case ConfigDesc => assert Advanced(a, s1.actions, GET_CONFIG_DESC, GET_STR_DESC);
        case StrDesc => assert s1.actions == a & !GET_STR_DESC;
        case Close => assert Advanced(a, s1.actions, CLOSE_DEV, RECONNECT);
        case CcidOn => assert s1 == p.s;
    }
  }

  /** The open and the first two reads leave their three flags clear. */
  lemma FirstTestsDrain(p: Progress, r: Replies)
    requires Drained(p, 0x00)
    ensures Drained(Try(Try(Try(p, Open, r), Info, r), DevDesc, r), 0x07)
  {
    var p1 := Try(p, Open, r);
    TryDrains(p, Open, r);
    var p2 := Try(p1, Info, r);
    TryDrains(p1, Info, r);
    TryDrains(p2, DevDesc, r);
  }

  /** The last two reads and the close leave every step flag clear. */
  lemma LaterTestsDrain(p: Progress, r: Replies)
    requires Drained(p, 0x07)
    ensures Drained(Try(Try(Try(p, ConfigDesc, r), StrDesc, r), Close, r), STEP_FLAGS)
  {
    var p4 := Try(p, ConfigDesc, r);
    TryDrains(p, ConfigDesc, r);
    var p5 := Try(p4, StrDesc, r);
    TryDrains(p4, StrDesc, r);
    TryDrains(p5, Close, r);
  }

  /** After the seven tests of a pass that has not aborted, no step flag is pending. */
  lemma StepsDrain(p: Progress, r: Replies)
    requires Drained(p, 0x00)
    ensures Drained(Steps(p, r), STEP_FLAGS)
  {
    var p3 := Try(Try(Try(p, Open, r), Info, r), DevDesc, r);
    FirstTestsDrain(p, r);
    var p6 := Try(Try(Try(p3, ConfigDesc, r), StrDesc, r), Close, r);
    LaterTestsDrain(p3, r);
    TryDrains(p6, CcidOn, r);
    assert Steps(p, r) == Try(p6, CcidOn, r);
  }

  /**
   * A pass runs every action whose flag is pending when it is tested: one
   * that does not abort leaves no step flag set, and one that goes on
   * leaves the word 0.
   */
  lemma PassDrains(s: Session, r: Replies)
    requires WellFormed(s.actions) && s.actions != 0
    ensures Pass(s, r).outcome.Aborted? || Pass(s, r).s.actions & STEP_FLAGS == 0
    ensures Pass(s, r).outcome == Continue ==> Pass(s, r).s.actions == 0
  {
    var q := Steps(Progress(s, [], None, None), r);
    StepsDrain(Progress(s, [], None, None), r);
    assert Pass(s, r) == Finish(q);
  }

  lemma IteratePreservesInv(s: Session, events: seq<Event>, r: Replies)
    requires Inv(s)
    ensures Inv(Iterate(s, events, r).s)
  {
    if s.actions == 0 {
      DeliverPreservesInv(s, events);
    } else {
      PassPreservesInv(s, r);
    }
  }

  // ---------------------------------------------------------------------
  // class_driver_client_deregister

  /**
   * Shutdown with an open handle leaves exactly CLOSE_DEV and EXIT pending;
   * without one it only adds EXIT. The device fields are untouched.
   */
  lemma ShutdownFlagsSet(s: Session)
    ensures ShutdownFlags(s).devAddr == s.devAddr && ShutdownFlags(s).devHdl == s.devHdl
    ensures s.devHdl.Some? ==> ShutdownFlags(s).actions == CLOSE_DEV | EXIT
    ensures s.devHdl.None? ==> Added(s.actions, ShutdownFlags(s).actions, EXIT)
  {
  }

  lemma ShutdownPreservesInv(s: Session)
    requires Inv(s)
    ensures Inv(ShutdownFlags(s))
  {
  }

  // ---------------------------------------------------------------------
  // The loop

  lemma ConsumePreservesInv(s: Session, i: Input)
    requires Inv(s)
    ensures Inv(Consume(s, i).s)
  {
    match i
    case Iteration(events, replies) => IteratePreservesInv(s, events, replies);
    case Shutdown(_) => ShutdownPreservesInv(s);
  }

  /**
   * For every interleaving of events, library replies and shutdown
   * requests, an open handle always belongs to a tracked address.
   */
  lemma {:induction false} RunPreservesInv(s: Session, script: seq<Input>)
    requires Inv(s)
    ensures Inv(Run(s, script).s)
    ensures Run(s, script).s.devHdl.Some? ==> Run(s, script).s.devAddr != 0
    decreases |script|
  {
    if script != [] {
      ConsumePreservesInv(s, script[0]);
      if Consume(s, script[0]).outcome == Continue {
        RunPreservesInv(Consume(s, script[0]).s, script[1..]);
      }
    }
  }

  // ---------------------------------------------------------------------
  // Whole passes

  /** A successful open records the handle and hands over to GET_DEV_INFO; a pending EXIT stays. */
  lemma OpenSucceeds(s: Session, h: Handle, x: Mask, r: Replies)
    requires x == 0 || x == EXIT
    requires s.actions == OPEN_DEV | x && s.devAddr != 0 && r.open == Some(h)
    ensures Try(Progress(s, [], None, None), Open, r)
      == Progress(Session(s.devAddr, Some(h), GET_DEV_INFO | x), [Ran(Open, OPEN_DEV | x)], None, None)
  {
  }

  /**
   * With a handle and every call succeeding, the four reads follow one
   * another, each clearing its own flag and arming the next; a pending EXIT
   * is left alone.
   */
  lemma ReadsInTurn(a: uint8, h: Handle, x: Mask, ran: seq<Ran>, r: Replies)
    requires x == 0 || x == EXIT
    requires r.info && r.devDesc && r.configDesc && r.strInfo
    ensures Try(Try(Try(Try(Progress(Session(a, Some(h), GET_DEV_INFO | x), ran, None, None),
        Info, r), DevDesc, r), ConfigDesc, r), StrDesc, r)
      == Progress(Session(a, Some(h), x),
           ran + [Ran(Info, GET_DEV_INFO | x), Ran(DevDesc, GET_DEV_DESC | x),
                  Ran(ConfigDesc, GET_CONFIG_DESC | x), Ran(StrDesc, GET_STR_DESC | x)],
           None, None)
  {
    var p1 := Progress(Session(a, Some(h), GET_DEV_INFO | x), ran, None, None);
    var p2 := Try(p1, Info, r);
    assert p2 == Progress(Session(a, Some(h), GET_DEV_DESC | x), ran + [Ran(Info, GET_DEV_INFO | x)], None, None);
    var p3 := Try(p2, DevDesc, r);
    assert p3.s == Session(a, Some(h), GET_CONFIG_DESC | x);
    var p4 := Try(p3, ConfigDesc, r);
    assert p4.s == Session(a, Some(h), GET_STR_DESC | x);
    var p5 := Try(p4, StrDesc, r);
    assert p5.s == Session(a, Some(h), x);
  }

  /** With every flag clear, CLOSE_DEV is skipped and CCID-on runs; the loop goes on. */
  lemma CcidOnLast(p: Progress, r: Replies)
    requires p.fault.None? && p.s.actions == 0 && p.request.None?
    ensures Finish(Try(Try(p, Close, r), CcidOn, r))
      == PassResult(p.s, p.ran + [Ran(CcidOn, CCID_ON)], Some(CcidOnRequestFor(p.s)), Continue)
  {
  }

  /** With only EXIT pending, neither CLOSE_DEV nor CCID-on runs and the loop breaks. */
  lemma ExitLast(p: Progress, r: Replies)
    requires p.fault.None? && p.s.actions == EXIT
    ensures Finish(Try(Try(p, Close, r), CcidOn, r)) == PassResult(p.s, p.ran, p.request, Break)
  {
  }

  /** With only CLOSE_DEV (and perhaps EXIT) pending, the first five tests fail. */
  lemma OnlyCloseDev(p: Progress, x: Mask, r: Replies)
    requires x == 0 || x == EXIT
    requires p.fault.None? && p.s.actions == CLOSE_DEV | x
    ensures Try(Try(Try(Try(Try(p, Open, r), Info, r), DevDesc, r), ConfigDesc, r), StrDesc, r) == p
  {
  }

  /**
   * CLOSE_DEV, then the tail: a successful close forgets the device and sets
   * RECONNECT, which the tail clears unless EXIT breaks the loop first.
   */
  lemma CloseThenTail(p: Progress, x: Mask, r: Replies)
    requires x == 0 || x == EXIT
    requires p.fault.None? && p.s.actions == CLOSE_DEV | x && p.s.devHdl.Some?
    ensures Finish(Try(Try(p, Close, r), CcidOn, r)) == if !r.close then
        PassResult(p.s, p.ran + [Ran(Close, CLOSE_DEV | x)], p.request, Aborted(CallFailed(DeviceClose)))
      else if x == EXIT then
        PassResult(Session(0, None, EXIT | RECONNECT), p.ran + [Ran(Close, CLOSE_DEV | x)], p.request, Break)
      else
        PassResult(Session(0, None, 0), p.ran + [Ran(Close, CLOSE_DEV | x)], p.request, Continue)
  {
    var p6 := Try(p, Close, r);
    if r.close {
      assert p6.s == Session(0, None, RECONNECT | x);
    }
  }

  /**
   * The happy path: a freshly attached device is opened, queried and has
   * its CCID interface switched on, in that order, in one pass; the flags
   * end clear and the loop goes on.
   */
  lemma HappyPass(s: Session, h: Handle)
    requires s.actions == OPEN_DEV && s.devAddr != 0
    ensures Pass(s, AllSucceed(h)) == PassResult(
      Session(s.devAddr, Some(h), 0),
      [Ran(Open, OPEN_DEV), Ran(Info, GET_DEV_INFO), Ran(DevDesc, GET_DEV_DESC),
       Ran(ConfigDesc, GET_CONFIG_DESC), Ran(StrDesc, GET_STR_DESC), Ran(CcidOn, CCID_ON)],
      Some(CcidOnRequestFor(Session(s.devAddr, Some(h), 0))),
      Continue)
  {
    var r := AllSucceed(h);
    var p1 := Try(Progress(s, [], None, None), Open, r);
    OpenSucceeds(s, h, 0, r);
    var p5 := Try(Try(Try(Try(p1, Info, r), DevDesc, r), ConfigDesc, r), StrDesc, r);
    ReadsInTurn(s.devAddr, h, 0, [Ran(Open, OPEN_DEV)], r);
    assert p5.ran == [Ran(Open, OPEN_DEV), Ran(Info, GET_DEV_INFO), Ran(DevDesc, GET_DEV_DESC),
      Ran(ConfigDesc, GET_CONFIG_DESC), Ran(StrDesc, GET_STR_DESC)];
    CcidOnLast(p5, r);
    assert Pass(s, r) == Finish(Try(Try(p5, Close, r), CcidOn, r));
  }

  /**
   * A failed open is only logged: the step still advances to
   * GET_DEV_INFO, whose call then has no handle and stops the program.
   */
  lemma OpenFailureAborts(s: Session, r: Replies)
    requires s.actions == OPEN_DEV && s.devAddr != 0 && s.devHdl.None? && r.open.None?
    ensures Pass(s, r) == PassResult(
      s.(actions := GET_DEV_INFO), [Ran(Open, OPEN_DEV), Ran(Info, GET_DEV_INFO)], None, Aborted(NoHandle))
  {
    var p1 := Try(Progress(s, [], None, None), Open, r);
    assert p1 == Progress(s.(actions := GET_DEV_INFO), [Ran(Open, OPEN_DEV)], None, None);
    var p2 := Try(p1, Info, r);
    assert p2.fault == Some(NoHandle);
  }

  /**
   * After a detach with an open device, the next pass closes it, and the
   * RECONNECT flag the close sets is cleared by the same pass: the driver
   * is back to waiting for a device. A failed close aborts.
   */
  lemma DetachThenPass(s: Session, r: Replies)
    requires s.actions == CLOSE_DEV && s.devHdl.Some?
    ensures Pass(s, r) == if r.close then
        PassResult(Session(0, None, 0), [Ran(Close, CLOSE_DEV)], None, Continue)
      else
        PassResult(s, [Ran(Close, CLOSE_DEV)], None, Aborted(CallFailed(DeviceClose)))
  {
    var p0 := Progress(s, [], None, None);
    assert s.actions == CLOSE_DEV | 0;
    OnlyCloseDev(p0, 0, r);
    CloseThenTail(p0, 0, r);
  }

  /**
   * A shutdown while a device is open: the next pass closes the device
   * and the loop breaks; the RECONNECT flag set by the close stays, since
   * the EXIT test comes first.
   */
  lemma ShutdownWithDevice(s: Session, r: Replies)
    requires s.devHdl.Some?
    ensures var s1 := ShutdownFlags(s);
      Pass(s1, r) == if r.close then
        PassResult(Session(0, None, EXIT | RECONNECT), [Ran(Close, CLOSE_DEV | EXIT)], None, Break)
      else
        PassResult(s1, [Ran(Close, CLOSE_DEV | EXIT)], None, Aborted(CallFailed(DeviceClose)))
  {
    var s1 := ShutdownFlags(s);
    assert s1 == s.(actions := CLOSE_DEV | EXIT);
    var p0 := Progress(s1, [], None, None);
    OnlyCloseDev(p0, EXIT, r);
    CloseThenTail(p0, EXIT, r);
  }

  /**
   * A shutdown requested after an attach but before OPEN_DEV ran: the pass
   * opens the device and reads its descriptors, EXIT then ends the loop,
   * and the handle is never closed.
   */
  lemma ShutdownDuringAttach(s: Session, h: Handle)
    requires s.actions == OPEN_DEV && s.devAddr != 0 && s.devHdl.None?
    ensures var s1 := ShutdownFlags(s);
      && s1.actions == OPEN_DEV | EXIT
      && Pass(s1, AllSucceed(h)) == PassResult(
        Session(s.devAddr, Some(h), EXIT),
        [Ran(Open, OPEN_DEV | EXIT), Ran(Info, GET_DEV_INFO | EXIT), Ran(DevDesc, GET_DEV_DESC | EXIT),
         Ran(ConfigDesc, GET_CONFIG_DESC | EXIT), Ran(StrDesc, GET_STR_DESC | EXIT)],
        None,
        Break)
  {
    var r := AllSucceed(h);
    var s1 := ShutdownFlags(s);
    assert s1 == s.(actions := OPEN_DEV | EXIT);
    var p1 := Try(Progress(s1, [], None, None), Open, r);
    OpenSucceeds(s1, h, EXIT, r);
    var p5 := Try(Try(Try(Try(p1, Info, r), DevDesc, r), ConfigDesc, r), StrDesc, r);
    ReadsInTurn(s.devAddr, h, EXIT, [Ran(Open, OPEN_DEV | EXIT)], r);
    assert p5.ran == [Ran(Open, OPEN_DEV | EXIT), Ran(Info, GET_DEV_INFO | EXIT), Ran(DevDesc, GET_DEV_DESC | EXIT),
      Ran(ConfigDesc, GET_CONFIG_DESC | EXIT), Ran(StrDesc, GET_STR_DESC | EXIT)];
    ExitLast(p5, r);
    assert Pass(s1, r) == Finish(Try(Try(p5, Close, r), CcidOn, r));
  }

  // ---------------------------------------------------------------------
  // The order of a pass

  /** Steps appear in the trace in strictly increasing position: none twice, none out of order. */
  predicate Ordered(ran: seq<Ran>)
  {
    forall i, j | 0 <= i < j < |ran| :: Rank(ran[i].step) < Rank(ran[j].step)
  }

  /** Every step in the trace was entered because its own test held. */
  predicate Guarded(ran: seq<Ran>)
  {
    forall i | 0 <= i < |ran| :: Enabled(ran[i].step, ran[i].before)
  }

  /** No step in the trace comes at or after position `k`. */
  predicate Before(ran: seq<Ran>, k: nat)
  {
    forall i | 0 <= i < |ran| :: Rank(ran[i].step) < k
  }

  /** The test at position `k` adds at most its own step to the trace, and only when its guard holds. */
  lemma TryExtendsTrace(p: Progress, st: Step, k: nat, r: Replies)
    requires Rank(st) == k
    requires Ordered(p.ran) && Guarded(p.ran) && Before(p.ran, k)
    ensures Ordered(Try(p, st, r).ran) && Guarded(Try(p, st, r).ran) && Before(Try(p, st, r).ran, k + 1)
  {
    var q := Try(p, st, r);
    if q.ran != p.ran {
      assert q.ran == p.ran + [Ran(st, p.s.actions)] && Enabled(st, p.s.actions);
      assert forall i | 0 <= i < |p.ran| :: q.ran[i] == p.ran[i];
    }
  }

  /** The first three tests keep the trace in order. */
  lemma TraceOfOpenAndReads(p: Progress, r: Replies)
    requires Ordered(p.ran) && Guarded(p.ran) && Before(p.ran, 0)
    ensures var q := Try(Try(Try(p, Open, r), Info, r), DevDesc, r);
      Ordered(q.ran) && Guarded(q.ran) && Before(q.ran, 3)
  {
    TryExtendsTrace(p, Open, 0, r);
    var p1 := Try(p, Open, r);
    TryExtendsTrace(p1, Info, 1, r);
    TryExtendsTrace(Try(p1, Info, r), DevDesc, 2, r);
  }

  /** The last four tests keep the trace in order. */
  lemma TraceOfRest(p: Progress, r: Replies)
    requires Ordered(p.ran) && Guarded(p.ran) && Before(p.ran, 3)
    ensures var q := Try(Try(Try(Try(p, ConfigDesc, r), StrDesc, r), Close, r), CcidOn, r);
      Ordered(q.ran) && Guarded(q.ran)
  {
    TryExtendsTrace(p, ConfigDesc, 3, r);
    var p1 := Try(p, ConfigDesc, r);
    TryExtendsTrace(p1, StrDesc, 4, r);
    var p2 := Try(p1, StrDesc, r);
    TryExtendsTrace(p2, Close, 5, r);
    TryExtendsTrace(Try(p2, Close, r), CcidOn, 6, r);
  }

  /**
   * The trace of a pass follows the fixed order OPEN_DEV, GET_DEV_INFO,
   * GET_DEV_DESC, GET_CONFIG_DESC, GET_STR_DESC, CLOSE_DEV, CCID-on, each
   * step at most once and only under its own test; in particular CCID-on is
   * only entered when the action word is zero.
   */
  lemma PassOrder(s: Session, r: Replies)
    requires s.actions != 0
    ensures Ordered(Pass(s, r).ran) && Guarded(Pass(s, r).ran)
  {
    var p0 := Progress(s, [], None, None);
    TraceOfOpenAndReads(p0, r);
    TraceOfRest(Try(Try(Try(p0, Open, r), Info, r), DevDesc, r), r);
  }

  // ---------------------------------------------------------------------
  // The CCID-on request

  /** CCID-on has only run, and only requested, with a device open. */
  predicate RequestsOpenDevice(p: Progress)
  {
    && (p.s.actions == 0 ==> p.s.devHdl.Some?)
    && (p.request.Some? ==> p.request.value.transfer.device.Some?)
  }

  lemma TryKeepsOpenDevice(p: Progress, st: Step, r: Replies)
    requires RequestsOpenDevice(p)
    ensures RequestsOpenDevice(Try(p, st, r))
  {
  }

  /**
   * Within a pass the action word only reaches zero through a successful
   * GET_STR_DESC, which needs a handle: the transfer `action_ccid_on`
   * submits always names an open device.
   */
  lemma CcidOnHasDevice(s: Session, r: Replies)
    requires s.actions != 0
    ensures Pass(s, r).request.Some? ==> Pass(s, r).request.value.transfer.device.Some?
  {
    var p0 := Progress(s, [], None, None);
    var p1 := Try(p0, Open, r);
    TryKeepsOpenDevice(p0, Open, r);
    var p2 := Try(p1, Info, r);
    TryKeepsOpenDevice(p1, Info, r);
    var p3 := Try(p2, DevDesc, r);
    TryKeepsOpenDevice(p2, DevDesc, r);
    var p4 := Try(p3, ConfigDesc, r);
    TryKeepsOpenDevice(p3, ConfigDesc, r);
    var p5 := Try(p4, StrDesc, r);
    TryKeepsOpenDevice(p4, StrDesc, r);
    var p6 := Try(p5, Close, r);
    TryKeepsOpenDevice(p5, Close, r);
    TryKeepsOpenDevice(p6, CcidOn, r);
  }

  // ---------------------------------------------------------------------
  // EXIT

  /** No step clears EXIT. */
  lemma TryKeepsExit(p: Progress, st: Step, r: Replies)
    requires Has(p.s.actions, EXIT)
    ensures Has(Try(p, st, r).s.actions, EXIT)
  {
  }

  /** Once EXIT is pending, the pass that follows ends the loop, by breaking or aborting. */
  lemma ExitEndsLoop(s: Session, events: seq<Event>, r: Replies)
    requires Has(s.actions, EXIT)
    ensures Iterate(s, events, r).outcome != Continue
  {
    var p0 := Progress(s, [], None, None);
    var p1 := Try(p0, Open, r);
    TryKeepsExit(p0, Open, r);
    var p2 := Try(p1, Info, r);
    TryKeepsExit(p1, Info, r);
    var p3 := Try(p2, DevDesc, r);
    TryKeepsExit(p2, DevDesc, r);
    var p4 := Try(p3, ConfigDesc, r);
    TryKeepsExit(p3, ConfigDesc, r);
    var p5 := Try(p4, StrDesc, r);
    TryKeepsExit(p4, StrDesc, r);
    var p6 := Try(p5, Close, r);
    TryKeepsExit(p5, Close, r);
    TryKeepsExit(p6, CcidOn, r);
  }

  /**
   * `class_driver_client_deregister` ends the loop: whatever the state,
   * the turn after a successful request breaks or aborts.
   */
  lemma ShutdownEndsLoop(s: Session, events: seq<Event>, r: Replies)
    ensures Consume(s, Shutdown(true)).outcome == Continue
    ensures Iterate(Consume(s, Shutdown(true)).s, events, r).outcome != Continue
  {
    var s1 := ShutdownFlags(s);
    assert Has(s1.actions, EXIT);
    ExitEndsLoop(s1, events, r);
  }

  // ---------------------------------------------------------------------
  // A whole session

  /** One input that lets the loop go on, then the rest of the script. */
  lemma RunFirst(s: Session, script: seq<Input>)
    requires script != [] && Consume(s, script[0]).outcome == Continue
    ensures var rest := Run(Consume(s, script[0]).s, script[1..]);
      Run(s, script) == RunResult(rest.s, rest.consumed + 1, rest.outcome)
  {
  }

  /** A turn with nothing pending hands a single event to `client_event_cb`. */
  lemma IdleTurn(s: Session, e: Event, r: Replies)
    requires s.actions == 0 && OnEvent(s, e).Ok?
    ensures Consume(s, Iteration([e], r)) == PassResult(OnEvent(s, e).value, [], None, Continue)
  {
    assert [e][0] == e && [e][1..] == [];
    assert Deliver(OnEvent(s, e).value, []) == Handled(OnEvent(s, e).value, None);
  }

  /** A shutdown with no device open and nothing pending leaves EXIT alone, and the next turn breaks. */
  lemma ShutdownWhenIdle(r: Replies)
    ensures Consume(Session(0, None, 0), Shutdown(true)) == PassResult(Session(0, None, EXIT), [], None, Continue)
    ensures Consume(Session(0, None, EXIT), Iteration([], r)) == PassResult(Session(0, None, EXIT), [], None, Break)
  {
    var p := Progress(Session(0, None, EXIT), [], None, None);
    ExitLast(p, r);
  }

  /**
   * The second half of a session: the device set up by the first pass is
   * detached and closed, and a shutdown request then ends the loop.
   */
  lemma DetachAndShutdown(a: uint8, h: Handle, r: Replies)
    requires a != 0
    ensures Run(Session(a, Some(h), 0), [
        Iteration([DevGone], r),
        Iteration([], AllSucceed(h)),
        Shutdown(true),
        Iteration([], r)])
      == RunResult(Session(0, None, EXIT), 4, Break)
  {
    var script := [
        Iteration([DevGone], r),
        Iteration([], AllSucceed(h)),
        Shutdown(true),
        Iteration([], r)];
    var s2 := Session(a, Some(h), 0);
    var s3 := Session(a, Some(h), CLOSE_DEV);
    DetachOverrides(s2);
    IdleTurn(s2, DevGone, r);
    RunFirst(s2, script);

    DetachThenPass(s3, AllSucceed(h));
    RunFirst(s3, script[1..]);

    ShutdownWhenIdle(r);
    RunFirst(Session(0, None, 0), script[2..]);
    assert script[3..][1..] == [];
  }

  /**
   * A session from the initial state: a device is attached and fully set
   * up, then detached and closed, and a shutdown request ends the loop with
   * the driver back to its initial state apart from the EXIT flag.
   */
  lemma Lifecycle(a: uint8, h: Handle, r: Replies)
    requires a != 0
    ensures Run(INITIAL, [
        Iteration([NewDev(a)], r),
        Iteration([], AllSucceed(h)),
        Iteration([DevGone], r),
        Iteration([], AllSucceed(h)),
        Shutdown(true),
        Iteration([], r)])
      == RunResult(Session(0, None, EXIT), 6, Break)
  {
    var script := [
        Iteration([NewDev(a)], r),
        Iteration([], AllSucceed(h)),
        Iteration([DevGone], r),
        Iteration([], AllSucceed(h)),
        Shutdown(true),
        Iteration([], r)];
    var s1 := Session(a, None, OPEN_DEV);
    AttachWhenIdle(INITIAL, a);
    IdleTurn(INITIAL, NewDev(a), r);
    RunFirst(INITIAL, script);

    HappyPass(s1, h);
    RunFirst(s1, script[1..]);
    assert script[2..] == [
        Iteration([DevGone], r),
        Iteration([], AllSucceed(h)),
        Shutdown(true),
        Iteration([], r)];
    DetachAndShutdown(a, h, r);
  }
}
