/**
 * The two loops of `WsConn` (src/wsconn.rs), run as sequential steps over
 * explicit queues instead of spawned tasks.
 *
 * `sender_loop` drains the command queue `from_client` (an item `None`
 * stands for a `recv` that found the channel closed), stamps ids with the
 * shared counter and writes frames to the sink. Whether a write succeeds is
 * the environment's choice, given as `fault(k)`: the error, if any, of the
 * write attempted after `k` successful writes.
 *
 * `receiver_loop` drains the frame stream (an item `None` stands for the
 * stream's end), hands events to the listener registered under the event's
 * id, and forwards everything else to the client queue `to_client`.
 */
module WsConn {
  import opened Wrappers
  import opened Protocol
  import opened Errors
  import opened Sequence

  // ---------------------------------------------------------------------
  // Sender loop

  /** A frame written to the sink: the close frame, or the encoding of a command. */
  datatype SinkItem = CloseMessage | CommandMessage(cmd: Command)

  /** Outcome of each write, indexed by the number of writes that succeeded before it. */
  type Faults = nat -> Option<WsError>

  /** The commands the loop stamps with a fresh id: all but `Close` and `AuthInit`. */
  predicate Stamped(cmd: Command)
  {
    !cmd.Close? && !cmd.AuthInit?
  }

  /** `cmd` with its id field overwritten; `Close` and `AuthInit` have none and stay as they are. */
  function WithId(cmd: Command, id: Option<nat>): (c: Command)
    ensures Stamped(cmd) ==> c.Id() == id
    ensures !Stamped(cmd) ==> c == cmd
  {
    match cmd
    case Close => cmd
    case AuthInit(_) => cmd
    case Ping(a) => Ping(a.(id := id))
    case SubscribeEvent(s) => SubscribeEvent(s.(id := id))
    case Unsubscribe(u) => Unsubscribe(u.(id := id))
    case GetConfig(a) => GetConfig(a.(id := id))
    case GetStates(a) => GetStates(a.(id := id))
    case GetServices(a) => GetServices(a.(id := id))
    case GetPanels(a) => GetPanels(a.(id := id))
    case CallService(c) => CallService(c.(id := id))
  }

  /** Overwriting the id changes nothing else: putting the old id back restores the command. */
  lemma WithIdRestores(cmd: Command, id: Option<nat>)
    ensures WithId(WithId(cmd, id), cmd.Id()) == cmd
    ensures WithId(WithId(cmd, id), None) == WithId(cmd, None)
  {
  }

  /**
   * The frame the loop writes for a command other than `Close`, given the id
   * it allocated. A `GetPanels` request is re-wrapped as `GetServices`.
   */
  function Encode(cmd: Command, id: Option<nat>): (m: SinkItem)
    requires !cmd.Close?
    ensures m.CommandMessage?
    ensures cmd.AuthInit? ==> m.cmd == cmd
    ensures Stamped(cmd) ==> m.cmd.Id() == id
    ensures cmd.GetPanels? ==> m.cmd.GetServices? && m.cmd.ask == cmd.ask.(id := id)
    ensures !cmd.GetPanels? ==> m.cmd == WithId(cmd, id)
  {
    match cmd
    case GetPanels(a) => CommandMessage(GetServices(a.(id := id)))
    case _ => CommandMessage(WithId(cmd, id))
  }

  /** What one queue item does: the frames it writes, the counter after it, and whether the loop ends. */
  datatype Step = Step(written: seq<SinkItem>, next: u64, stop: Option<HassResult<()>>)

  /**
   * One command of `sender_loop`: `Close` writes the close frame and ends
   * the loop (`Ok(())`, or `ConnectionClosed` if the write fails); any
   * other command takes an id first when it is stamped, then is written,
   * and a failed write ends the loop with the owned conversion of the error.
   */
  function SendStep(counter: u64, cmd: Command, fault: Option<WsError>): (s: Step)
    ensures |s.written| == (if fault.None? then 1 else 0)
    ensures s.next == (if Stamped(cmd) then Successor(counter) else counter)
    ensures s.stop.None? <==> !cmd.Close? && fault.None?
    ensures s.stop == Some(Ok(())) <==> cmd.Close? && fault.None?
    ensures s.stop.Some? && s.stop.value.Err? ==>
              s.stop.value.error == (if cmd.Close? then HassError.ConnectionClosed else FromOwned(fault.value))
    ensures cmd.Close? && fault.None? ==> s.written == [CloseMessage]
    ensures !cmd.Close? && fault.None? ==> s.written == [Encode(cmd, if Stamped(cmd) then IdOf(counter) else None)]
  {
    if cmd.Close? then
      if fault.None? then Step([CloseMessage], counter, Some(Ok(())))
      else Step([], counter, Some(Err(HassError.ConnectionClosed)))
    else
      var id := if Stamped(cmd) then IdOf(counter) else None;
      var next := if Stamped(cmd) then Successor(counter) else counter;
      if fault.Some? then Step([], next, Some(Err(FromOwned(fault.value))))
      else Step([Encode(cmd, id)], next, None)
  }

  /** What a run of the sender loop did: frames written, final counter, items consumed, and how it ended (`None`: still running). */
  datatype SenderRun = SenderRun(sent: seq<SinkItem>, counter: u64, consumed: nat, stopped: Option<HassResult<()>>)

  /** `run` preceded by `consumed` items that wrote `sent`. */
  function AfterSent(sent: seq<SinkItem>, consumed: nat, run: SenderRun): (r: SenderRun)
    ensures r.sent == sent + run.sent && r.consumed == consumed + run.consumed
    ensures r.counter == run.counter && r.stopped == run.stopped
  {
    SenderRun(sent + run.sent, run.counter, consumed + run.consumed, run.stopped)
  }

  lemma AfterSentTwice(a: seq<SinkItem>, n: nat, b: seq<SinkItem>, m: nat, run: SenderRun)
    ensures AfterSent(a, n, AfterSent(b, m, run)) == AfterSent(a + b, n + m, run)
  {
    assert a + (b + run.sent) == (a + b) + run.sent;
  }

  /**
   * `sender_loop` over the queue `items`, from a counter holding `counter`,
   * after `k` successful writes.
   */
  function RunSender(counter: u64, items: seq<Option<Command>>, k: nat, fault: Faults): (r: SenderRun)
    ensures |r.sent| <= r.consumed <= |items|
    ensures r.stopped.None? ==> r.consumed == |items|
    ensures r.stopped.Some? ==> 0 < r.consumed
    decreases |items|
  {
    if items == [] then SenderRun([], counter, 0, None)
    else if items[0].None? then AfterSent([], 1, RunSender(counter, items[1..], k, fault))
    else
      var s := SendStep(counter, items[0].value, fault(k));
      if s.stop.Some? then SenderRun(s.written, s.next, 1, s.stop)
      else AfterSent(s.written, 1, RunSender(s.next, items[1..], k + 1, fault))
  }

  /** The first item of `RunSender`: a closed channel is skipped, a command is one `SendStep`. */
  lemma RunSenderStep(counter: u64, items: seq<Option<Command>>, k: nat, fault: Faults)
    requires items != []
    ensures items[0].None? ==> RunSender(counter, items, k, fault) == AfterSent([], 1, RunSender(counter, items[1..], k, fault))
    ensures items[0].Some? ==>
              var s := SendStep(counter, items[0].value, fault(k));
              RunSender(counter, items, k, fault)
                == if s.stop.Some? then SenderRun(s.written, s.next, 1, s.stop)
                   else AfterSent(s.written, 1, RunSender(s.next, items[1..], k + 1, fault))
  {
  }

  /**
   * The sender loop's invariant: having consumed `consumed` items and written
   * `sent` with the counter at `counter`, the loop is on course to end as `full`.
   */
  ghost predicate SenderAt(full: SenderRun, fromClient: seq<Option<Command>>, fault: Faults,
                           sent: seq<SinkItem>, consumed: nat, counter: u64, stopped: Option<HassResult<()>>)
  {
    && consumed <= |fromClient|
    && (stopped.None? ==> full == AfterSent(sent, consumed, RunSender(counter, fromClient[consumed..], |sent|, fault)))
    && (stopped.Some? ==> full == SenderRun(sent, counter, consumed, stopped))
  }

  /** How the loop's invariant advances over one item, which wrote `written` and left the counter at `next`. */
  lemma SenderAdvance(full: SenderRun, fromClient: seq<Option<Command>>, fault: Faults,
                      sent: seq<SinkItem>, consumed: nat, counter: u64,
                      written: seq<SinkItem>, next: u64, stop: Option<HassResult<()>>)
    requires consumed < |fromClient| && SenderAt(full, fromClient, fault, sent, consumed, counter, None)
    requires fromClient[consumed].None? ==> written == [] && next == counter && stop.None?
    requires fromClient[consumed].Some? ==> SendStep(counter, fromClient[consumed].value, fault(|sent|)) == Step(written, next, stop)
    ensures SenderAt(full, fromClient, fault, sent + written, consumed + 1, next, stop)
  {
    var items := fromClient[consumed..];
    assert items[1..] == fromClient[consumed + 1..];
    RunSenderStep(counter, items, |sent|, fault);
    if stop.None? {
      AfterSentTwice(sent, consumed, written, 1, RunSender(next, items[1..], |sent + written|, fault));
    }
  }

  /**
   * One arm of the loop's `match`: stamp `cmd` from the shared counter when
   * it takes an id, then write it; `fault` is the outcome of the write.
   */
  method SendOne(counter: Counter, cmd: Command, fault: Option<WsError>)
    returns (written: seq<SinkItem>, stop: Option<HassResult<()>>)
    modifies counter
    ensures SendStep(old(counter.value), cmd, fault) == Step(written, counter.value, stop)
  {
    if cmd.Close? {
      if fault.None? {
        return [CloseMessage], Some(Ok(()));
      }
      return [], Some(Err(HassError.ConnectionClosed));
    }
    var id := None;
    if Stamped(cmd) {
      id := counter.GetLastSeq();
    }
    var message := Encode(cmd, id);
    match fault {
      case Some(e) =>
        written, stop := [], Some(Err(FromOwned(e)));
      case None =>
        written, stop := [message], None;
    }
  }

  /**
   * The sender loop, step by step, against the shared counter: it stops
   * after a `Close` or a failed write, and otherwise waits for more items
   * once the queue is drained.
   */
  method SenderLoop(counter: Counter, fromClient: seq<Option<Command>>, fault: Faults)
    returns (sent: seq<SinkItem>, consumed: nat, stopped: Option<HassResult<()>>)
    modifies counter
    ensures RunSender(old(counter.value), fromClient, 0, fault) == SenderRun(sent, counter.value, consumed, stopped)
  {
    ghost var full := RunSender(counter.value, fromClient, 0, fault);
    sent, consumed, stopped := [], 0, None;
    assert fromClient[0..] == fromClient;
    while consumed < |fromClient| && stopped.None?
      invariant SenderAt(full, fromClient, fault, sent, consumed, counter.value, stopped)
      decreases |fromClient| - consumed
    {
      ghost var counter0 := counter.value;
      var written: seq<SinkItem> := [];
      match fromClient[consumed] {
        case None =>
        case Some(cmd) =>
          written, stopped := SendOne(counter, cmd, fault(|sent|));
      }
      SenderAdvance(full, fromClient, fault, sent, consumed, counter0, written, counter.value, stopped);
      sent := sent + written;
      consumed := consumed + 1;
    }
    assert sent + [] == sent;
  }

  /** The ids of the stamped frames, in the order they were written. */
  function StampedIds(sent: seq<SinkItem>): (ids: seq<Option<nat>>)
    ensures |ids| <= |sent|
  {
    if sent == [] then []
    else if sent[0].CommandMessage? && !sent[0].cmd.AuthInit? then [sent[0].cmd.Id()] + StampedIds(sent[1..])
    else StampedIds(sent[1..])
  }

  /** `ids` are `Some(from)`, `Some(from + 1)`, ... in order. */
  predicate CountsFrom(ids: seq<Option<nat>>, from: nat)
  {
    forall i :: 0 <= i < |ids| ==> ids[i] == Some(from + i)
  }

  /** One id in front of a run counting from its successor counts from it. */
  lemma CountsFromShifts(ids: seq<Option<nat>>, from: nat)
    requires CountsFrom(ids, from + 1)
    ensures CountsFrom([Some(from)] + ids, from)
  {
    forall i | 0 < i <= |ids|
      ensures ([Some(from)] + ids)[i] == Some(from + i)
    {
      assert ([Some(from)] + ids)[i] == ids[i - 1];
    }
  }

  /**
   * Away from the counter's wrap-around, the stamped ids are consecutive from
   * the counter's starting value, so strictly increasing in write order.
   */
  lemma {:induction false} StampedIdsConsecutive(counter: u64, items: seq<Option<Command>>, k: nat, fault: Faults)
    requires 1 <= counter && counter + |items| <= U64_MODULUS
    ensures CountsFrom(StampedIds(RunSender(counter, items, k, fault).sent), counter)
    decreases |items|
  {
    var r := RunSender(counter, items, k, fault);
    if items != [] {
      RunSenderStep(counter, items, k, fault);
      if items[0].None? {
        StampedIdsConsecutive(counter, items[1..], k, fault);
        assert r.sent == [] + RunSender(counter, items[1..], k, fault).sent;
        assert r.sent == RunSender(counter, items[1..], k, fault).sent;
      } else {
        var cmd := items[0].value;
        var s := SendStep(counter, cmd, fault(k));
        if s.stop.Some? {
          assert StampedIds(r.sent) == [];
        } else {
          var rest := RunSender(s.next, items[1..], k + 1, fault);
          assert r.sent == s.written + rest.sent;
          assert r.sent[1..] == rest.sent;
          if Stamped(cmd) {
            assert StampedIds(r.sent) == [Some(counter)] + StampedIds(rest.sent);
            if counter + 1 < U64_MODULUS {
              StampedIdsConsecutive(s.next, items[1..], k + 1, fault);
              CountsFromShifts(StampedIds(rest.sent), counter);
            } else {
              assert items[1..] == [];
            }
          } else {
            assert s.next == counter && s.written[0].cmd.AuthInit?;
            assert StampedIds(r.sent) == StampedIds(rest.sent);
            StampedIdsConsecutive(s.next, items[1..], k + 1, fault);
          }
        }
      }
    }
  }

  /** From a fresh counter (1), the stamped ids are 1, 2, 3, ... and never repeat. */
  lemma FreshSenderIdsCountFromOne(items: seq<Option<Command>>, fault: Faults)
    requires |items| < U64_MODULUS
    ensures var ids := StampedIds(RunSender(1, items, 0, fault).sent);
            && (forall i :: 0 <= i < |ids| ==> ids[i] == Some(i + 1))
            && (forall i, j :: 0 <= i < j < |ids| ==> ids[i].value < ids[j].value)
  {
    StampedIdsConsecutive(1, items, 0, fault);
  }

  /** A `Close` in the queue ends the loop there at the latest: nothing after it is read or written. */
  lemma {:induction false} CloseEndsTheLoop(counter: u64, items: seq<Option<Command>>, k: nat, fault: Faults, j: nat)
    requires j < |items| && items[j] == Some(Close)
    ensures RunSender(counter, items, k, fault).stopped.Some?
    ensures RunSender(counter, items, k, fault).consumed <= j + 1
    decreases |items|
  {
    if j > 0 {
      assert items[1..][j - 1] == items[j];
      if items[0].None? {
        CloseEndsTheLoop(counter, items[1..], k, fault, j - 1);
      } else {
        var s := SendStep(counter, items[0].value, fault(k));
        if s.stop.None? {
          CloseEndsTheLoop(s.next, items[1..], k + 1, fault, j - 1);
        }
      }
    }
  }

  /** A closed command channel (`recv` giving `None`) does not end the loop. */
  lemma ClosedChannelKeepsRunning(counter: u64, items: seq<Option<Command>>, k: nat, fault: Faults)
    ensures RunSender(counter, [None] + items, k, fault) == AfterSent([], 1, RunSender(counter, items, k, fault))
  {
    assert ([None] + items)[1..] == items;
  }

  /** `AuthInit` is written unchanged and leaves the counter where it was. */
  lemma AuthInitSentUnchanged(counter: u64, auth: Auth, items: seq<Option<Command>>, k: nat, fault: Faults)
    requires fault(k).None?
    ensures RunSender(counter, [Some(AuthInit(auth))] + items, k, fault)
              == AfterSent([CommandMessage(AuthInit(auth))], 1, RunSender(counter, items, k + 1, fault))
  {
    assert ([Some(AuthInit(auth))] + items)[1..] == items;
  }

  /**
   * The run ended on a failed write of the last item it consumed: a failed
   * close frame reports `ConnectionClosed`, any other failed write the owned
   * conversion of the sink's error.
   */
  predicate StoppedByFailedWrite(items: seq<Option<Command>>, k: nat, fault: Faults, r: SenderRun)
  {
    && 0 < r.consumed <= |items| && items[r.consumed - 1].Some?
    && fault(k + |r.sent|).Some?
    && r.stopped.Some? && r.stopped.value.Err?
    && r.stopped.value.error ==
         (if items[r.consumed - 1].value.Close? then HassError.ConnectionClosed
          else FromOwned(fault(k + |r.sent|).value))
  }

  /** The loop ends with an error only on a failed write, and the error is the converted failure. */
  lemma {:induction false} FailedWriteStopsTheLoop(counter: u64, items: seq<Option<Command>>, k: nat, fault: Faults)
    ensures var r := RunSender(counter, items, k, fault);
            r.stopped.Some? && r.stopped.value.Err? ==> StoppedByFailedWrite(items, k, fault, r)
    decreases |items|
  {
    if items != [] {
      var r := RunSender(counter, items, k, fault);
      RunSenderStep(counter, items, k, fault);
      if items[0].None? {
        var rest := RunSender(counter, items[1..], k, fault);
        assert r == AfterSent([], 1, rest);
        FailedWriteStopsTheLoop(counter, items[1..], k, fault);
        if rest.stopped.Some? && rest.stopped.value.Err? {
          assert |r.sent| == |rest.sent|;
          assert items[r.consumed - 1] == items[1..][rest.consumed - 1];
        }
      } else {
        var s := SendStep(counter, items[0].value, fault(k));
        if s.stop.None? {
          var rest := RunSender(s.next, items[1..], k + 1, fault);
          assert r == AfterSent(s.written, 1, rest);
          FailedWriteStopsTheLoop(s.next, items[1..], k + 1, fault);
          if rest.stopped.Some? && rest.stopped.value.Err? {
            assert |r.sent| == 1 + |rest.sent|;
            assert items[r.consumed - 1] == items[1..][rest.consumed - 1];
          }
        }
      }
    }
  }

  /** When no write fails, the loop never ends with an error. */
  lemma NoFailedWriteNoError(counter: u64, items: seq<Option<Command>>, k: nat, fault: Faults)
    requires forall j :: fault(j).None?
    ensures RunSender(counter, items, k, fault).stopped.None? || RunSender(counter, items, k, fault).stopped == Some(Ok(()))
  {
    FailedWriteStopsTheLoop(counter, items, k, fault);
    var r := RunSender(counter, items, k, fault);
    assert fault(k + |r.sent|).None?;
    if r.stopped.Some? {
      assert !StoppedByFailedWrite(items, k, fault, r);
      match r.stopped.value
      case Ok(u) => assert u == ();
    }
  }

  /** The run consumed a `Close` last and wrote the close frame last. */
  predicate EndsWithClose(items: seq<Option<Command>>, r: SenderRun)
  {
    && 0 < r.consumed <= |items| && items[r.consumed - 1] == Some(Close)
    && 0 < |r.sent| && r.sent[|r.sent| - 1] == CloseMessage
  }

  /** Putting one consumed item and its frames in front keeps a run ending with `Close`. */
  lemma EndsWithCloseShifts(items: seq<Option<Command>>, written: seq<SinkItem>, rest: SenderRun)
    requires items != [] && EndsWithClose(items[1..], rest)
    ensures EndsWithClose(items, AfterSent(written, 1, rest))
  {
    var r := AfterSent(written, 1, rest);
    assert items[r.consumed - 1] == items[1..][rest.consumed - 1];
    assert r.sent[|r.sent| - 1] == rest.sent[|rest.sent| - 1];
  }

  /** The loop ends cleanly only after writing the close frame for a queued `Close`. */
  lemma {:induction false} CleanStopWritesClose(counter: u64, items: seq<Option<Command>>, k: nat, fault: Faults)
    ensures RunSender(counter, items, k, fault).stopped == Some(Ok(())) ==> EndsWithClose(items, RunSender(counter, items, k, fault))
    decreases |items|
  {
    if items != [] {
      RunSenderStep(counter, items, k, fault);
      if items[0].None? {
        var rest := RunSender(counter, items[1..], k, fault);
        CleanStopWritesClose(counter, items[1..], k, fault);
        if rest.stopped == Some(Ok(())) {
          EndsWithCloseShifts(items, [], rest);
        }
      } else {
        var s := SendStep(counter, items[0].value, fault(k));
        if s.stop.None? {
          var rest := RunSender(s.next, items[1..], k + 1, fault);
          CleanStopWritesClose(s.next, items[1..], k + 1, fault);
          if rest.stopped == Some(Ok(())) {
            EndsWithCloseShifts(items, s.written, rest);
          }
        }
      }
    }
  }

  /** Ids erased: what a written frame says apart from its id. */
  function Erase(m: SinkItem): Command
  {
    match m
    case CloseMessage => Close
    case CommandMessage(c) => WithId(c, None)
  }

  function EraseAll(sent: seq<SinkItem>): (cmds: seq<Command>)
    ensures |cmds| == |sent|
  {
    if sent == [] then [] else [Erase(sent[0])] + EraseAll(sent[1..])
  }

  /** The queued commands, ids erased, as the loop would write them (`GetPanels` as `GetServices`). */
  function Submitted(items: seq<Option<Command>>): (cmds: seq<Command>)
    ensures |cmds| <= |items|
  {
    if items == [] then []
    else if items[0].None? then Submitted(items[1..])
    else
      var cmd := items[0].value;
      [if cmd.Close? then Close else Erase(Encode(cmd, None))] + Submitted(items[1..])
  }

  lemma EncodeThenEraseForgetsId(cmd: Command, id: Option<nat>)
    requires !cmd.Close?
    ensures Erase(Encode(cmd, id)) == Erase(Encode(cmd, None))
  {
    WithIdRestores(cmd, id);
  }

  /**
   * The loop writes the queued commands in queue order, changing nothing
   * but their ids: the frames written are a prefix of the submitted
   * commands, and all of them while the loop is still running.
   */
  lemma {:induction false} SentInQueueOrder(counter: u64, items: seq<Option<Command>>, k: nat, fault: Faults)
    ensures EraseAll(RunSender(counter, items, k, fault).sent) <= Submitted(items)
    ensures RunSender(counter, items, k, fault).stopped.None? ==>
              EraseAll(RunSender(counter, items, k, fault).sent) == Submitted(items)
    decreases |items|
  {
    if items != [] {
      var r := RunSender(counter, items, k, fault);
      if items[0].None? {
        SentInQueueOrder(counter, items[1..], k, fault);
        assert r.sent == RunSender(counter, items[1..], k, fault).sent;
      } else {
        var cmd := items[0].value;
        var s := SendStep(counter, cmd, fault(k));
        var head := if cmd.Close? then Close else Erase(Encode(cmd, None));
        assert Submitted(items) == [head] + Submitted(items[1..]);
        if s.stop.Some? {
          if s.written != [] {
            if !cmd.Close? {
              EncodeThenEraseForgetsId(cmd, if Stamped(cmd) then IdOf(counter) else None);
            }
            assert EraseAll(r.sent) == [head];
          }
        } else {
          var rest := RunSender(s.next, items[1..], k + 1, fault);
          SentInQueueOrder(s.next, items[1..], k + 1, fault);
          EncodeThenEraseForgetsId(cmd, if Stamped(cmd) then IdOf(counter) else None);
          assert r.sent[1..] == rest.sent;
          assert EraseAll(r.sent) == [head] + EraseAll(rest.sent);
        }
      }
    }
  }

  // ---------------------------------------------------------------------
  // Receiver loop

  /** An opaque name for a user closure stored in `event_listeners`. */
  type Handler = nat

  /** An item of the frame stream: a frame, a transport error, or `None` at the stream's end. */
  type StreamItem = Option<Wrappers.Result<Message, WsError>>

  /** What the receiver loop does with one stream item. */
  datatype Route =
    | Forward(reply: HassResult<Response>)  // pushed to the client queue
    | Invoke(handler: Handler, event: WSEvent)  // passed to a listener
    | Skip  // nothing happens
    | Unrouted(event: WSEvent)  // an event nobody listens to: the loop's `todo!` panics

  /**
   * The per-item step of `receiver_loop`. Parse failures become
   * `UnknownPayloadReceived`; transport errors go through the borrowed
   * conversion; non-text frames and the stream's end are ignored.
   */
  function RouteItem(item: StreamItem, listeners: map<nat, Handler>, parse: Parser): (r: Route)
    ensures r.Skip? <==> item.None? || (item.value.Ok? && !item.value.value.Text?)
    ensures item.Some? && item.value.Err? ==> r == Forward(Err(FromBorrowed(item.value.error)))
    ensures item.Some? && item.value.Ok? && item.value.value.Text? ==>
              var parsed := parse(item.value.value.data);
              && (parsed.Err? ==> r == Forward(Err(UnknownPayloadReceived)))
              && (parsed.Ok? && !parsed.value.Event? ==> r == Forward(Ok(parsed.value)))
              && (parsed.Ok? && parsed.value.Event? ==> (r.Invoke? || r.Unrouted?) && r.event == parsed.value.event)
    ensures r.Invoke? ==> r.event.id in listeners && r.handler == listeners[r.event.id]
    ensures r.Unrouted? ==> r.event.id !in listeners
    ensures r.Forward? && r.reply.Ok? ==> !r.reply.value.Event?
  {
    match item
    case None => Skip
    case Some(Err(error)) => Forward(Err(FromBorrowed(error)))
    case Some(Ok(Text(data))) =>
      (match parse(data)
       case Ok(Event(event)) =>
         if event.id in listeners then Invoke(listeners[event.id], event) else Unrouted(event)
       case Ok(value) => Forward(Ok(value))
       case Err(_) => Forward(Err(UnknownPayloadReceived)))
    case Some(Ok(_)) => Skip
  }

  /** The reply a route pushes to the client queue, if any. */
  function Forwarded(route: Route): seq<HassResult<Response>>
  {
    if route.Forward? then [route.reply] else []
  }

  /** The listener call a route makes, if any. */
  function Calls(route: Route): seq<(Handler, WSEvent)>
  {
    if route.Invoke? then [(route.handler, route.event)] else []
  }

  /** What a run of the receiver loop did: the client queue, the listener calls, items consumed, and whether it panicked. */
  datatype ReceiverRun = ReceiverRun(toClient: seq<HassResult<Response>>, invoked: seq<(Handler, WSEvent)>, consumed: nat, halted: bool)

  /** `run` preceded by `consumed` items that forwarded `toClient` and made the calls `invoked`. */
  function Then(toClient: seq<HassResult<Response>>, invoked: seq<(Handler, WSEvent)>, consumed: nat, run: ReceiverRun): (r: ReceiverRun)
    ensures r.toClient == toClient + run.toClient && r.invoked == invoked + run.invoked
    ensures r.consumed == consumed + run.consumed && r.halted == run.halted
  {
    ReceiverRun(toClient + run.toClient, invoked + run.invoked, consumed + run.consumed, run.halted)
  }

  lemma ThenTwice(t1: seq<HassResult<Response>>, i1: seq<(Handler, WSEvent)>, c1: nat,
                  t2: seq<HassResult<Response>>, i2: seq<(Handler, WSEvent)>, c2: nat, run: ReceiverRun)
    ensures Then(t1, i1, c1, Then(t2, i2, c2, run)) == Then(t1 + t2, i1 + i2, c1 + c2, run)
  {
    assert t1 + (t2 + run.toClient) == (t1 + t2) + run.toClient;
    assert i1 + (i2 + run.invoked) == (i1 + i2) + run.invoked;
  }

  /** `receiver_loop` over the stream `stream`. */
  function RunReceiver(stream: seq<StreamItem>, listeners: map<nat, Handler>, parse: Parser): (r: ReceiverRun)
    ensures r.consumed <= |stream|
    ensures !r.halted ==> r.consumed == |stream|
    ensures r.halted ==> 0 < r.consumed
    decreases |stream|
  {
    if stream == [] then ReceiverRun([], [], 0, false)
    else
      var route := RouteItem(stream[0], listeners, parse);
      if route.Unrouted? then ReceiverRun([], [], 1, true)
      else Then(Forwarded(route), Calls(route), 1, RunReceiver(stream[1..], listeners, parse))
  }

  /**
   * The receiver loop's invariant: having consumed `consumed` items, forwarded
   * `toClient` and made the calls `invoked`, the loop is on course to end as
   * `RunReceiver` says.
   */
  ghost predicate ReceiverAt(stream: seq<StreamItem>, listeners: map<nat, Handler>, parse: Parser,
                             toClient: seq<HassResult<Response>>, invoked: seq<(Handler, WSEvent)>, consumed: nat, halted: bool)
  {
    && consumed <= |stream|
    && (!halted ==>
          RunReceiver(stream, listeners, parse) == Then(toClient, invoked, consumed, RunReceiver(stream[consumed..], listeners, parse)))
    && (halted ==> RunReceiver(stream, listeners, parse) == ReceiverRun(toClient, invoked, consumed, true))
  }

  /** How the loop's invariant advances over the item at `consumed`. */
  lemma ReceiverAdvance(stream: seq<StreamItem>, listeners: map<nat, Handler>, parse: Parser,
                        toClient: seq<HassResult<Response>>, invoked: seq<(Handler, WSEvent)>, consumed: nat,
                        toClient': seq<HassResult<Response>>, invoked': seq<(Handler, WSEvent)>, halted': bool)
    requires consumed < |stream| && ReceiverAt(stream, listeners, parse, toClient, invoked, consumed, false)
    requires halted' == RouteItem(stream[consumed], listeners, parse).Unrouted?
    requires halted' ==> toClient' == toClient && invoked' == invoked
    requires !halted' ==> var route := RouteItem(stream[consumed], listeners, parse);
                          toClient' == toClient + Forwarded(route) && invoked' == invoked + Calls(route)
    ensures ReceiverAt(stream, listeners, parse, toClient', invoked', consumed + 1, halted')
  {
    var items := stream[consumed..];
    assert items[0] == stream[consumed];
    assert items[1..] == stream[consumed + 1..];
    var route := RouteItem(stream[consumed], listeners, parse);
    if halted' {
      assert toClient + [] == toClient && invoked + [] == invoked;
    } else {
      ThenTwice(toClient, invoked, consumed, Forwarded(route), Calls(route), 1, RunReceiver(items[1..], listeners, parse));
    }
  }

  /** The receiver loop, step by step; it ends only when an event has no listener, or when the stream is drained. */
  method ReceiverLoop(stream: seq<StreamItem>, listeners: map<nat, Handler>, parse: Parser)
    returns (toClient: seq<HassResult<Response>>, invoked: seq<(Handler, WSEvent)>, consumed: nat, halted: bool)
    ensures RunReceiver(stream, listeners, parse) == ReceiverRun(toClient, invoked, consumed, halted)
  {
    toClient, invoked, consumed, halted := [], [], 0, false;
    assert stream[0..] == stream;
    while consumed < |stream| && !halted
      invariant ReceiverAt(stream, listeners, parse, toClient, invoked, consumed, halted)
      decreases |stream| - consumed
    {
      ghost var toClient0, invoked0 := toClient, invoked;
      match stream[consumed] {
        case Some(Ok(Text(data))) =>
          var payload := parse(data);
          match payload {
            case Ok(Event(event)) =>
              if event.id in listeners {
                invoked := invoked + [(listeners[event.id], event)];
              } else {
                halted := true;
              }
            case Ok(value) =>
              toClient := toClient + [Ok(value)];
            case Err(_) =>
              toClient := toClient + [Err(UnknownPayloadReceived)];
          }
        case Some(Ok(_)) =>
        case Some(Err(error)) =>
          toClient := toClient + [Err(FromBorrowed(error))];
        case None =>
      }
      ReceiverAdvance(stream, listeners, parse, toClient0, invoked0, consumed, toClient, invoked, halted);
      consumed := consumed + 1;
    }
    assert toClient + [] == toClient && invoked + [] == invoked;
  }

  /** None of `replies` carries an event. */
  predicate NoEvents(replies: seq<HassResult<Response>>)
  {
    forall i :: 0 <= i < |replies| && replies[i].Ok? ==> !replies[i].value.Event?
  }

  /** Each call in `calls` goes to the listener registered under its event's id. */
  predicate CallsMatchListeners(calls: seq<(Handler, WSEvent)>, listeners: map<nat, Handler>)
  {
    forall i :: 0 <= i < |calls| ==> calls[i].1.id in listeners && calls[i].0 == listeners[calls[i].1.id]
  }

  /** No event ever reaches the client queue. */
  lemma {:induction false} NoEventReachesTheClient(stream: seq<StreamItem>, listeners: map<nat, Handler>, parse: Parser)
    ensures NoEvents(RunReceiver(stream, listeners, parse).toClient)
    decreases |stream|
  {
    if stream != [] {
      var route := RouteItem(stream[0], listeners, parse);
      if !route.Unrouted? {
        NoEventReachesTheClient(stream[1..], listeners, parse);
        var rest := RunReceiver(stream[1..], listeners, parse);
        var r := RunReceiver(stream, listeners, parse);
        var f := Forwarded(route);
        assert r == Then(f, Calls(route), 1, rest);
        forall i | 0 <= i < |r.toClient| && r.toClient[i].Ok?
          ensures !r.toClient[i].value.Event?
        {
          if i >= |f| {
            assert r.toClient[i] == rest.toClient[i - |f|];
          } else {
            assert r.toClient[i] == route.reply;
          }
        }
      }
    }
  }

  /** Every listener call goes to exactly the listener registered under the event's id. */
  lemma {:induction false} ListenersMatchEventIds(stream: seq<StreamItem>, listeners: map<nat, Handler>, parse: Parser)
    ensures CallsMatchListeners(RunReceiver(stream, listeners, parse).invoked, listeners)
    decreases |stream|
  {
    if stream != [] {
      var route := RouteItem(stream[0], listeners, parse);
      if !route.Unrouted? {
        ListenersMatchEventIds(stream[1..], listeners, parse);
        var rest := RunReceiver(stream[1..], listeners, parse);
        var r := RunReceiver(stream, listeners, parse);
        var c := Calls(route);
        assert r == Then(Forwarded(route), c, 1, rest);
        forall i | 0 <= i < |r.invoked|
          ensures r.invoked[i].1.id in listeners && r.invoked[i].0 == listeners[r.invoked[i].1.id]
        {
          if i >= |c| {
            assert r.invoked[i] == rest.invoked[i - |c|];
          } else {
            assert r.invoked[i] == (route.handler, route.event);
          }
        }
      }
    }
  }

  /** The item at `n - 1` is the first in `stream` that has no listener. */
  predicate FirstUnroutedAt(stream: seq<StreamItem>, listeners: map<nat, Handler>, parse: Parser, n: nat)
  {
    && 0 < n <= |stream| && RouteItem(stream[n - 1], listeners, parse).Unrouted?
    && forall j :: 0 <= j < n - 1 ==> !RouteItem(stream[j], listeners, parse).Unrouted?
  }

  /** Every item in `stream` is routed somewhere. */
  predicate AllRouted(stream: seq<StreamItem>, listeners: map<nat, Handler>, parse: Parser)
  {
    forall j :: 0 <= j < |stream| ==> !RouteItem(stream[j], listeners, parse).Unrouted?
  }

  /** A routed item put in front moves the first unrouted one back by one. */
  lemma FirstUnroutedShifts(stream: seq<StreamItem>, listeners: map<nat, Handler>, parse: Parser, n: nat)
    requires stream != [] && !RouteItem(stream[0], listeners, parse).Unrouted?
    requires FirstUnroutedAt(stream[1..], listeners, parse, n)
    ensures FirstUnroutedAt(stream, listeners, parse, n + 1)
  {
    assert stream[n] == stream[1..][n - 1];
    forall j | 0 < j < n
      ensures !RouteItem(stream[j], listeners, parse).Unrouted?
    {
      assert stream[j] == stream[1..][j - 1];
    }
  }

  /** A routed item put in front of a fully routed stream keeps it fully routed. */
  lemma AllRoutedShifts(stream: seq<StreamItem>, listeners: map<nat, Handler>, parse: Parser)
    requires stream != [] && !RouteItem(stream[0], listeners, parse).Unrouted?
    requires AllRouted(stream[1..], listeners, parse)
    ensures AllRouted(stream, listeners, parse)
  {
    forall j | 0 < j < |stream|
      ensures !RouteItem(stream[j], listeners, parse).Unrouted?
    {
      assert stream[j] == stream[1..][j - 1];
    }
  }

  /** When the loop halts, it is at the first item that has no listener. */
  lemma {:induction false} HaltsAtFirstUnrouted(stream: seq<StreamItem>, listeners: map<nat, Handler>, parse: Parser)
    ensures var r := RunReceiver(stream, listeners, parse);
            r.halted ==> FirstUnroutedAt(stream, listeners, parse, r.consumed)
    decreases |stream|
  {
    if stream != [] && !RouteItem(stream[0], listeners, parse).Unrouted? {
      var rest := RunReceiver(stream[1..], listeners, parse);
      HaltsAtFirstUnrouted(stream[1..], listeners, parse);
      if rest.halted {
        FirstUnroutedShifts(stream, listeners, parse, rest.consumed);
      }
    }
  }

  /** When the loop does not halt, every item was routed. */
  lemma {:induction false} RunningMeansAllRouted(stream: seq<StreamItem>, listeners: map<nat, Handler>, parse: Parser)
    ensures !RunReceiver(stream, listeners, parse).halted ==> AllRouted(stream, listeners, parse)
    decreases |stream|
  {
    if stream != [] && !RouteItem(stream[0], listeners, parse).Unrouted? {
      RunningMeansAllRouted(stream[1..], listeners, parse);
      if !RunReceiver(stream[1..], listeners, parse).halted {
        AllRoutedShifts(stream, listeners, parse);
      }
    }
  }

  /** The loop halts exactly at the first event that has no listener; nothing else stops it. */
  lemma {:induction false} HaltsOnlyOnUnroutedEvent(stream: seq<StreamItem>, listeners: map<nat, Handler>, parse: Parser)
    ensures var r := RunReceiver(stream, listeners, parse);
            r.halted <==> exists j :: 0 <= j < |stream| && RouteItem(stream[j], listeners, parse).Unrouted?
    ensures var r := RunReceiver(stream, listeners, parse);
            r.halted ==> FirstUnroutedAt(stream, listeners, parse, r.consumed)
  {
    HaltsAtFirstUnrouted(stream, listeners, parse);
    RunningMeansAllRouted(stream, listeners, parse);
    var r := RunReceiver(stream, listeners, parse);
    if r.halted {
      assert RouteItem(stream[r.consumed - 1], listeners, parse).Unrouted?;
    }
  }

  /**
   * Arrival order is kept: a stream that does not halt the loop, followed by
   * more items, yields its own forwards and listener calls first.
   */
  lemma {:induction false} ReceiverPreservesArrivalOrder(s1: seq<StreamItem>, s2: seq<StreamItem>, listeners: map<nat, Handler>, parse: Parser)
    requires !RunReceiver(s1, listeners, parse).halted
    ensures var a := RunReceiver(s1, listeners, parse);
            RunReceiver(s1 + s2, listeners, parse) == Then(a.toClient, a.invoked, |s1|, RunReceiver(s2, listeners, parse))
    decreases |s1|
  {
    if s1 == [] {
      assert s1 + s2 == s2;
    } else {
      assert (s1 + s2)[0] == s1[0];
      assert (s1 + s2)[1..] == s1[1..] + s2;
      var route := RouteItem(s1[0], listeners, parse);
      ReceiverPreservesArrivalOrder(s1[1..], s2, listeners, parse);
      var a' := RunReceiver(s1[1..], listeners, parse);
      ThenTwice(Forwarded(route), Calls(route), 1, a'.toClient, a'.invoked, |s1| - 1, RunReceiver(s2, listeners, parse));
    }
  }

  /** The end of the stream (`None`) is skipped and the loop goes on reading. */
  lemma StreamEndKeepsRunning(stream: seq<StreamItem>, listeners: map<nat, Handler>, parse: Parser)
    ensures RunReceiver([None] + stream, listeners, parse) == Then([], [], 1, RunReceiver(stream, listeners, parse))
  {
    assert ([None] + stream)[1..] == stream;
  }
}
