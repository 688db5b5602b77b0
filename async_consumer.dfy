/**
 * The asynchronous consumer of consumer/async.go: a consume loop that polls
 * ConsumeOne and forwards messages and errors, and an ack/nack loop that serves
 * ackChan and nackChan, both stopped by one stop signal; on that signal the
 * ack/nack loop drains the buffered ids first.
 *
 * Each `select` is one step method; the method requires that the case it takes is
 * ready, as `select` only ever takes a ready case. A transport call made by a step
 * gets its HTTP outcome as a parameter; during the drain the outcome of the k-th
 * transport call overall is `net(k)`, and `preferAck(k)` decides which case the
 * select takes when both ackChan and nackChan are ready.
 */
module AsyncConsumer {
  import opened Wrappers
  import opened Api
  import opened Http
  import opened Channels
  import SyncConsumer

  /** A transport call, as the server sees it. */
  datatype Call =
    | Poll(queue: string)
    | AckCall(queue: string, id: string)
    | NackCall(queue: string, id: string)

  /** Where the consume loop is. */
  datatype ConsumePc =
    | NotStarted
    | Polling                                  // at the top of the `for`
    | ForwardingError(err: ClientError)        // blocked on `errChan <- err`, raced against stop
    | Delivering(message: MessageResponse)     // blocked on `consumerChan <- msg`, raced against stop
    | Exited

  /** Where the ack/nack loop is. */
  datatype AckNackPc =
    | NotStarted
    | Selecting                                // at the top of the `for`/`select`
    | ReportingError(err: ClientError)         // blocked on `errChan <- err`, raced against stop
    | Exited

  /** Where the ack/nack loop goes after a call with outcome `out`. */
  function AfterCall(out: Outcome<ClientError>): AckNackPc {
    match out
    case Pass => AckNackPc.Selecting
    case Fail(e) => AckNackPc.ReportingError(e)
  }

  // ---------------------------------------------------------------------------
  // drainAcksAndNacks, as a function of what it reads and writes

  /** The state drainAcksAndNacks works on. */
  datatype DrainView = DrainView(acks: Chan<string>, nacks: Chan<string>, errs: Chan<ClientError>, calls: seq<Call>)

  /** The cases of the drain's select. */
  datatype DrainCase = TakeAck | TakeNack | NothingReady

  /** The case the drain's select takes; `preferAck` settles the race when both receives are ready. */
  function DrainSelect(acks: Chan<string>, nacks: Chan<string>, preferAck: bool): (d: DrainCase)
    ensures d == NothingReady <==> !acks.RecvReady() && !nacks.RecvReady()
    ensures d == TakeAck ==> acks.RecvReady()
    ensures d == TakeNack ==> nacks.RecvReady()
  {
    if acks.RecvReady() && (preferAck || !nacks.RecvReady()) then TakeAck
    else if nacks.RecvReady() then TakeNack
    else NothingReady
  }

  /** The non-blocking error report of the drain: a failure is offered to errChan, dropped when it is full. */
  function Report(errs: Chan<ClientError>, out: Outcome<ClientError>): Chan<ClientError> {
    if out.Fail? then errs.TrySend(out.error) else errs
  }

  /**
   * One iteration of the drain loop; None when the default case fires and the drain
   * returns. The receive does not look at `ok`: once a closed channel is empty it
   * keeps yielding the empty id.
   */
  function DrainStep(sc: SyncConsumer.SyncForqConsumer, queue: string, net: nat -> RoundTrip,
                     preferAck: nat -> bool, v: DrainView): (r: Option<DrainView>)
    ensures r.None? <==> !v.acks.RecvReady() && !v.nacks.RecvReady()
    ensures r.Some? ==>
              r.value.acks.closed == v.acks.closed && r.value.acks.cap == v.acks.cap &&
              r.value.nacks.closed == v.nacks.closed && r.value.nacks.cap == v.nacks.cap &&
              r.value.errs.closed == v.errs.closed && r.value.errs.cap == v.errs.cap &&
              |r.value.calls| == |v.calls| + 1 && r.value.calls[..|v.calls|] == v.calls
    ensures r.Some? ==>
              var c := r.value.calls[|v.calls|];
              r.value.errs == Report(v.errs, CallOutcome(sc, c, net(|v.calls|))) &&
              (c.AckCall? || c.NackCall?) && c.queue == queue &&
              (c.AckCall? ==> v.acks.RecvReady() && r.value.nacks == v.nacks &&
                              Receipt(c.id, v.acks.buf != [], r.value.acks) == v.acks.Recv("")) &&
              (c.NackCall? ==> v.nacks.RecvReady() && r.value.acks == v.acks &&
                               Receipt(c.id, v.nacks.buf != [], r.value.nacks) == v.nacks.Recv(""))
    ensures r.Some? && !v.acks.closed && !v.nacks.closed ==>
              |r.value.acks.buf| + |r.value.nacks.buf| + 1 == |v.acks.buf| + |v.nacks.buf|
  {
    var k := |v.calls|;
    match DrainSelect(v.acks, v.nacks, preferAck(k))
    case NothingReady => None
    case TakeAck =>
      var got := v.acks.Recv("");
      var out := SyncConsumer.Ack(sc, queue, got.value, net(k));
      Some(DrainView(got.rest, v.nacks, Report(v.errs, out), v.calls + [AckCall(queue, got.value)]))
    case TakeNack =>
      var got := v.nacks.Recv("");
      var out := SyncConsumer.Nack(sc, queue, got.value, net(k));
      Some(DrainView(v.acks, got.rest, Report(v.errs, out), v.calls + [NackCall(queue, got.value)]))
  }

  /** The state a drain that starts from `v` ends in; it ends only when neither channel is closed. */
  function Drained(sc: SyncConsumer.SyncForqConsumer, queue: string, net: nat -> RoundTrip,
                   preferAck: nat -> bool, v: DrainView): (r: DrainView)
    requires !v.acks.closed && !v.nacks.closed
    ensures r.acks == v.acks.(buf := []) && r.nacks == v.nacks.(buf := [])
    ensures r.errs.cap == v.errs.cap && r.errs.closed == v.errs.closed
    decreases |v.acks.buf| + |v.nacks.buf|
  {
    match DrainStep(sc, queue, net, preferAck, v)
    case None => v
    case Some(v') => Drained(sc, queue, net, preferAck, v')
  }

  /** At most `n` iterations of the drain from `v`; None when the drain returned before. */
  function DrainSteps(sc: SyncConsumer.SyncForqConsumer, queue: string, net: nat -> RoundTrip,
                      preferAck: nat -> bool, v: DrainView, n: nat): Option<DrainView>
    decreases n
  {
    if n == 0 then Some(v)
    else match DrainStep(sc, queue, net, preferAck, v)
      case None => None
      case Some(v') => DrainSteps(sc, queue, net, preferAck, v', n - 1)
  }

  /** The ids of the ack calls in `cs`, in order. */
  function AckIds(cs: seq<Call>): seq<string> {
    if cs == [] then [] else (if cs[0].AckCall? then [cs[0].id] else []) + AckIds(cs[1..])
  }

  /** The ids of the nack calls in `cs`, in order. */
  function NackIds(cs: seq<Call>): seq<string> {
    if cs == [] then [] else (if cs[0].NackCall? then [cs[0].id] else []) + NackIds(cs[1..])
  }

  /** Every call in `cs` is an ack or a nack on `queue`. */
  ghost predicate AcksAndNacksOn(cs: seq<Call>, queue: string) {
    forall i :: 0 <= i < |cs| ==> !cs[i].Poll? && cs[i].queue == queue
  }

  /** The error an ack or nack call answered by `rt` returns. */
  function CallOutcome(sc: SyncConsumer.SyncForqConsumer, c: Call, rt: RoundTrip): Outcome<ClientError> {
    match c
    case Poll(_) => Pass
    case AckCall(q, id) => SyncConsumer.Ack(sc, q, id, rt)
    case NackCall(q, id) => SyncConsumer.Nack(sc, q, id, rt)
  }

  /** The errors the calls `cs` fail with, the first of them answered by net(start), in order. */
  function DrainFailures(sc: SyncConsumer.SyncForqConsumer, net: nat -> RoundTrip, start: nat, cs: seq<Call>): seq<ClientError>
    decreases |cs|
  {
    if cs == [] then []
    else
      var out := CallOutcome(sc, cs[0], net(start));
      (if out.Fail? then [out.error] else []) + DrainFailures(sc, net, start + 1, cs[1..])
  }

  /**
   * On open channels an iteration of the drain takes the oldest id of one channel,
   * makes the matching call for it, and leaves the other channel alone.
   */
  lemma OpenDrainStep(sc: SyncConsumer.SyncForqConsumer, queue: string, net: nat -> RoundTrip,
                      preferAck: nat -> bool, v: DrainView)
    requires !v.acks.closed && !v.nacks.closed
    requires DrainStep(sc, queue, net, preferAck, v).Some?
    ensures var v' := DrainStep(sc, queue, net, preferAck, v).value;
            var c := v'.calls[|v.calls|];
            v'.calls == v.calls + [c] &&
            ((v.acks.buf != [] && v.acks.buf == [v.acks.buf[0]] + v'.acks.buf &&
              c == AckCall(queue, v.acks.buf[0]) && v'.nacks == v.nacks) ||
             (v.nacks.buf != [] && v.nacks.buf == [v.nacks.buf[0]] + v'.nacks.buf &&
              c == NackCall(queue, v.nacks.buf[0]) && v'.acks == v.acks))
  {
    var v' := DrainStep(sc, queue, net, preferAck, v).value;
    var c := v'.calls[|v.calls|];
    assert v'.calls == v.calls + [c] by {
      assert v'.calls == v'.calls[..|v.calls|] + [c];
    }
    if c.AckCall? {
      var r := v.acks.Recv("");
      assert r.ok && r.value == c.id && r.rest == v'.acks;
    } else {
      var r := v.nacks.Recv("");
      assert r.ok && r.value == c.id && r.rest == v'.nacks;
    }
  }

  /** A log that extends `old + [c]` extends `old`, and what it adds starts with `c`. */
  lemma SplitAfter(log: seq<Call>, old0: seq<Call>, c: Call)
    requires |log| > |old0| && log[..|old0| + 1] == old0 + [c]
    ensures log[..|old0|] == old0
    ensures log[|old0|..] == [c] + log[|old0| + 1..]
  {
    assert log[..|old0|] == log[..|old0| + 1][..|old0|];
  }

  /** One more ack (or nack) in front of a run of calls puts its id in front of their ack (or nack) ids. */
  lemma PrependCall(queue: string, id: string, c: Call, tail: seq<Call>, acks: seq<string>, nacks: seq<string>,
                    acks': seq<string>, nacks': seq<string>)
    requires (c == AckCall(queue, id) && acks == [id] + acks' && nacks == nacks') ||
             (c == NackCall(queue, id) && nacks == [id] + nacks' && acks == acks')
    requires AckIds(tail) == acks' && NackIds(tail) == nacks' && AcksAndNacksOn(tail, queue)
    ensures AckIds([c] + tail) == acks && NackIds([c] + tail) == nacks && AcksAndNacksOn([c] + tail, queue)
  {
    var added := [c] + tail;
    assert added[1..] == tail;
    forall i | 0 <= i < |added|
      ensures !added[i].Poll? && added[i].queue == queue
    {
      if i > 0 {
        assert added[i] == tail[i - 1];
      }
    }
  }

  /**
   * The drain calls Ack exactly once for every id buffered in ackChan and Nack exactly
   * once for every id buffered in nackChan, each channel's ids in FIFO order, and
   * issues no other call.
   */
  lemma {:induction false} DrainedServesEachIdOnce(sc: SyncConsumer.SyncForqConsumer, queue: string, net: nat -> RoundTrip,
                                                   preferAck: nat -> bool, v: DrainView)
    requires !v.acks.closed && !v.nacks.closed
    ensures var r := Drained(sc, queue, net, preferAck, v);
            |r.calls| == |v.calls| + |v.acks.buf| + |v.nacks.buf| &&
            r.calls[..|v.calls|] == v.calls &&
            AckIds(r.calls[|v.calls|..]) == v.acks.buf &&
            NackIds(r.calls[|v.calls|..]) == v.nacks.buf &&
            AcksAndNacksOn(r.calls[|v.calls|..], queue)
    decreases |v.acks.buf| + |v.nacks.buf|
  {
    var r := Drained(sc, queue, net, preferAck, v);
    match DrainStep(sc, queue, net, preferAck, v) {
    case None =>
      assert r == v;
      assert r.calls[|v.calls|..] == [];
    case Some(v') =>
      DrainedServesEachIdOnce(sc, queue, net, preferAck, v');
      assert r == Drained(sc, queue, net, preferAck, v');
      var n := |v.calls|;
      OpenDrainStep(sc, queue, net, preferAck, v);
      var c := v'.calls[n];
      var tail := r.calls[n + 1..];
      SplitAfter(r.calls, v.calls, c);
      PrependCall(queue, c.id, c, tail, v.acks.buf, v.nacks.buf, v'.acks.buf, v'.nacks.buf);
    }
  }

  /**
   * Every failed call of the drain is offered to errChan without blocking, in call
   * order: what fits is kept and the rest is dropped.
   */
  lemma {:induction false} DrainedReportsWhatFits(sc: SyncConsumer.SyncForqConsumer, queue: string, net: nat -> RoundTrip,
                                                  preferAck: nat -> bool, v: DrainView)
    requires !v.acks.closed && !v.nacks.closed
    ensures var r := Drained(sc, queue, net, preferAck, v);
            |r.calls| >= |v.calls| &&
            r.errs == OfferAll(v.errs, DrainFailures(sc, net, |v.calls|, r.calls[|v.calls|..]))
    decreases |v.acks.buf| + |v.nacks.buf|
  {
    var r := Drained(sc, queue, net, preferAck, v);
    DrainedServesEachIdOnce(sc, queue, net, preferAck, v);
    match DrainStep(sc, queue, net, preferAck, v) {
    case None =>
      assert r == v;
      assert r.calls[|v.calls|..] == [];
    case Some(v') =>
      DrainedReportsWhatFits(sc, queue, net, preferAck, v');
      DrainedServesEachIdOnce(sc, queue, net, preferAck, v');
      assert r == Drained(sc, queue, net, preferAck, v');
      var n := |v.calls|;
      var c := v'.calls[n];
      assert v'.calls == v.calls + [c];
      var tail := r.calls[n + 1..];
      assert r.calls[n] == c by {
        assert r.calls[..n + 1] == v'.calls;
      }
      assert r.calls[n..] == [c] + tail;
      assert ([c] + tail)[1..] == tail;
      var out := CallOutcome(sc, c, net(n));
      var rest := DrainFailures(sc, net, n + 1, tail);
      assert DrainFailures(sc, net, n, r.calls[n..]) == (if out.Fail? then [out.error] else []) + rest;
      assert v'.errs == Report(v.errs, out);
      if out.Fail? {
        assert ([out.error] + rest)[0] == out.error;
        assert ([out.error] + rest)[1..] == rest;
      } else {
        assert [] + rest == rest;
      }
    }
  }

  /** What a finished drain did, all in one place. */
  lemma DrainedSummary(sc: SyncConsumer.SyncForqConsumer, queue: string, net: nat -> RoundTrip,
                       preferAck: nat -> bool, v: DrainView)
    requires !v.acks.closed && !v.nacks.closed && v.errs.Valid()
    ensures |Drained(sc, queue, net, preferAck, v).calls| == |v.calls| + |v.acks.buf| + |v.nacks.buf|
    ensures var r := Drained(sc, queue, net, preferAck, v);
            var added := r.calls[|v.calls|..];
            var fs := DrainFailures(sc, net, |v.calls|, added);
            r.acks == v.acks.(buf := []) && r.nacks == v.nacks.(buf := []) &&
            |r.calls| == |v.calls| + |v.acks.buf| + |v.nacks.buf| &&
            r.calls[..|v.calls|] == v.calls &&
            AckIds(added) == v.acks.buf && NackIds(added) == v.nacks.buf &&
            AcksAndNacksOn(added, queue) &&
            r.errs == OfferAll(v.errs, fs) &&
            r.errs.buf == v.errs.buf + fs[..Min(|fs|, v.errs.cap - |v.errs.buf|)]
  {
    var r := Drained(sc, queue, net, preferAck, v);
    DrainedServesEachIdOnce(sc, queue, net, preferAck, v);
    DrainedReportsWhatFits(sc, queue, net, preferAck, v);
    OfferAllKeepsWhatFits(v.errs, DrainFailures(sc, net, |v.calls|, r.calls[|v.calls|..]));
  }

  /**
   * The drain never ends while ackChan or nackChan is closed: a closed channel is always
   * ready to receive, so the default case never fires, and every iteration makes a call.
   */
  lemma {:induction false} ClosedChannelDrainNeverEnds(sc: SyncConsumer.SyncForqConsumer, queue: string, net: nat -> RoundTrip,
                                                       preferAck: nat -> bool, v: DrainView, n: nat)
    requires v.acks.closed || v.nacks.closed
    ensures DrainSteps(sc, queue, net, preferAck, v, n).Some?
    ensures |DrainSteps(sc, queue, net, preferAck, v, n).value.calls| == |v.calls| + n
    decreases n
  {
    if n > 0 {
      var v' := DrainStep(sc, queue, net, preferAck, v).value;
      ClosedChannelDrainNeverEnds(sc, queue, net, preferAck, v', n - 1);
    }
  }

  /** Once a closed ackChan is empty (and nackChan is empty and open), the drain acks the empty id forever. */
  lemma {:induction false} ClosedAckChanAcksEmptyIdForever(sc: SyncConsumer.SyncForqConsumer, queue: string, net: nat -> RoundTrip,
                                                           preferAck: nat -> bool, v: DrainView, n: nat)
    requires v.acks.closed && v.acks.buf == [] && v.nacks.buf == [] && !v.nacks.closed
    ensures DrainSteps(sc, queue, net, preferAck, v, n).Some?
    ensures var r := DrainSteps(sc, queue, net, preferAck, v, n).value;
            r.acks == v.acks && r.nacks == v.nacks &&
            r.calls == v.calls + seq(n, _ => AckCall(queue, ""))
    decreases n
  {
    if n > 0 {
      var v' := DrainStep(sc, queue, net, preferAck, v).value;
      assert DrainSelect(v.acks, v.nacks, preferAck(|v.calls|)) == TakeAck;
      assert v'.calls == v.calls + [AckCall(queue, "")];
      ClosedAckChanAcksEmptyIdForever(sc, queue, net, preferAck, v', n - 1);
      assert [AckCall(queue, "")] + seq(n - 1, _ => AckCall(queue, "")) == seq(n, _ => AckCall(queue, ""));
    }
  }

  // ---------------------------------------------------------------------------
  // the consumer object

  class AsyncForqConsumer {
    const syncConsumer: SyncConsumer.SyncForqConsumer
    const queueName: string
    var consumerChan: Chan<MessageResponse>
    var ackChan: Chan<string>
    var nackChan: Chan<string>
    var errChan: Chan<ClientError>
    var stopped: bool            // stopChan is closed
    ghost var stopSignals: nat   // how many times close(stopChan) ran
    var consumeLoop: ConsumePc
    var ackNackLoop: AckNackPc
    var done: bool               // doneChan is closed
    ghost var doneSignals: nat   // how many times close(doneChan) ran
    var calls: seq<Call>         // the transport calls issued, in order

    ghost predicate Valid()
      reads this
    {
      && consumerChan.Valid() && ackChan.Valid() && nackChan.Valid() && errChan.Valid()
      && !consumerChan.closed && !errChan.closed
      && stopSignals == (if stopped then 1 else 0)
      && doneSignals == (if done then 1 else 0)
      && (consumeLoop.NotStarted? <==> ackNackLoop.NotStarted?)
      && (done ==> consumeLoop.Exited? && ackNackLoop.Exited?)
    }

    /** What the drain works on. */
    function View(): DrainView
      reads this
    {
      DrainView(ackChan, nackChan, errChan, calls)
    }

    constructor (syncConsumer: SyncConsumer.SyncForqConsumer, queueName: string,
                 consumerChan: Chan<MessageResponse>, ackChan: Chan<string>, nackChan: Chan<string>,
                 errChan: Chan<ClientError>)
      requires consumerChan.Valid() && ackChan.Valid() && nackChan.Valid() && errChan.Valid()
      requires !consumerChan.closed && !errChan.closed
      ensures Valid()
      ensures this.syncConsumer == syncConsumer && this.queueName == queueName
      ensures this.consumerChan == consumerChan && this.ackChan == ackChan
      ensures this.nackChan == nackChan && this.errChan == errChan
      ensures !stopped && !done && calls == []
      ensures consumeLoop == ConsumePc.NotStarted && ackNackLoop == AckNackPc.NotStarted
    {
      this.syncConsumer := syncConsumer;
      this.queueName := queueName;
      this.consumerChan := consumerChan;
      this.ackChan := ackChan;
      this.nackChan := nackChan;
      this.errChan := errChan;
      stopped, stopSignals := false, 0;
      consumeLoop, ackNackLoop := ConsumePc.NotStarted, AckNackPc.NotStarted;
      done, doneSignals := false, 0;
      calls := [];
    }

    /** Start launches both loops (wg.Add(2)). */
    method Start()
      requires Valid() && consumeLoop.NotStarted?
      modifies this`consumeLoop, this`ackNackLoop
      ensures Valid() && consumeLoop == ConsumePc.Polling && ackNackLoop == AckNackPc.Selecting
    {
      consumeLoop, ackNackLoop := ConsumePc.Polling, AckNackPc.Selecting;
    }

    /**
     * The top of the consume loop: with stop already signalled it exits without a poll;
     * otherwise it polls once, and then forwards the error, delivers the message, or
     * (on no message) polls again.
     */
    method PollStep(rt: RoundTrip)
      requires Valid() && consumeLoop.Polling?
      modifies this`consumeLoop, this`calls
      ensures Valid()
      ensures stopped ==> consumeLoop == ConsumePc.Exited && calls == old(calls)
      ensures !stopped ==>
                calls == old(calls) + [Poll(queueName)] &&
                match SyncConsumer.ConsumeOne(syncConsumer, queueName, rt)
                case ConsumeFailed(e) => consumeLoop == ForwardingError(e)
                case Delivered(m) => consumeLoop == Delivering(m)
                case NoMessage => consumeLoop == ConsumePc.Polling
    {
      if stopped {
        consumeLoop := ConsumePc.Exited;
        return;
      }
      var result := SyncConsumer.ConsumeOne(syncConsumer, queueName, rt);
      calls := calls + [Poll(queueName)];
      match result
      case ConsumeFailed(e) => consumeLoop := ForwardingError(e);
      case Delivered(m) => consumeLoop := Delivering(m);
      case NoMessage =>
    }

    /**
     * The blocking send of the consume loop, raced against stop: an error goes to
     * errChan only, a message to consumerChan only; when stop wins the loop exits and
     * neither channel changes.
     */
    method ForwardStep(choice: SendSelect)
      requires Valid() && (consumeLoop.ForwardingError? || consumeLoop.Delivering?)
      requires choice == SendCase && consumeLoop.ForwardingError? ==> errChan.HasRoom()
      requires choice == SendCase && consumeLoop.Delivering? ==> consumerChan.HasRoom()
      requires choice == StopCase ==> stopped
      modifies this`consumeLoop, this`errChan, this`consumerChan
      ensures Valid()
      ensures choice == StopCase ==>
                consumeLoop == ConsumePc.Exited && errChan == old(errChan) && consumerChan == old(consumerChan)
      ensures choice == SendCase && old(consumeLoop).ForwardingError? ==>
                errChan == old(errChan).Send(old(consumeLoop).err) && consumerChan == old(consumerChan) &&
                consumeLoop == ConsumePc.Polling
      ensures choice == SendCase && old(consumeLoop).Delivering? ==>
                consumerChan == old(consumerChan).Send(old(consumeLoop).message) && errChan == old(errChan) &&
                consumeLoop == ConsumePc.Polling
    {
      if choice == StopCase {
        consumeLoop := ConsumePc.Exited;
      } else if consumeLoop.ForwardingError? {
        errChan := errChan.Send(consumeLoop.err);
        consumeLoop := ConsumePc.Polling;
      } else {
        consumerChan := consumerChan.Send(consumeLoop.message);
        consumeLoop := ConsumePc.Polling;
      }
    }

    /**
     * The ackChan case of the ack/nack loop: a closed, empty ackChan ends the loop at
     * once, without a drain; otherwise the oldest id is acked once.
     */
    method AckStep(rt: RoundTrip)
      requires Valid() && ackNackLoop.Selecting? && ackChan.RecvReady()
      modifies this`ackChan, this`ackNackLoop, this`calls
      ensures Valid()
      ensures old(ackChan.buf) == [] ==>
                ackNackLoop == AckNackPc.Exited && ackChan == old(ackChan) && calls == old(calls)
      ensures old(ackChan.buf) != [] ==>
                var id := old(ackChan.buf)[0];
                ackChan == old(ackChan).(buf := old(ackChan.buf)[1..]) &&
                calls == old(calls) + [AckCall(queueName, id)] &&
                ackNackLoop == AfterCall(SyncConsumer.Ack(syncConsumer, queueName, id, rt))
    {
      var got := ackChan.Recv("");
      if !got.ok {
        ackNackLoop := AckNackPc.Exited;
        return;
      }
      ackChan := got.rest;
      var out := SyncConsumer.Ack(syncConsumer, queueName, got.value, rt);
      calls := calls + [AckCall(queueName, got.value)];
      ackNackLoop := AfterCall(out);
    }

    /**
     * The nackChan case of the ack/nack loop: a closed, empty nackChan ends the loop at
     * once, without a drain; otherwise the oldest id is nacked once.
     */
    method NackStep(rt: RoundTrip)
      requires Valid() && ackNackLoop.Selecting? && nackChan.RecvReady()
      modifies this`nackChan, this`ackNackLoop, this`calls
      ensures Valid()
      ensures old(nackChan.buf) == [] ==>
                ackNackLoop == AckNackPc.Exited && nackChan == old(nackChan) && calls == old(calls)
      ensures old(nackChan.buf) != [] ==>
                var id := old(nackChan.buf)[0];
                nackChan == old(nackChan).(buf := old(nackChan.buf)[1..]) &&
                calls == old(calls) + [NackCall(queueName, id)] &&
                ackNackLoop == AfterCall(SyncConsumer.Nack(syncConsumer, queueName, id, rt))
    {
      var got := nackChan.Recv("");
      if !got.ok {
        ackNackLoop := AckNackPc.Exited;
        return;
      }
      nackChan := got.rest;
      var out := SyncConsumer.Nack(syncConsumer, queueName, got.value, rt);
      calls := calls + [NackCall(queueName, got.value)];
      ackNackLoop := AfterCall(out);
    }

    /**
     * The blocking error report of the ack/nack loop, raced against stop: when stop
     * wins the loop exits WITHOUT draining the ids still buffered.
     */
    method ReportStep(choice: SendSelect)
      requires Valid() && ackNackLoop.ReportingError?
      requires choice == SendCase ==> errChan.HasRoom()
      requires choice == StopCase ==> stopped
      modifies this`errChan, this`ackNackLoop
      ensures Valid()
      ensures choice == SendCase ==>
                errChan == old(errChan).Send(old(ackNackLoop).err) && ackNackLoop == AckNackPc.Selecting
      ensures choice == StopCase ==> errChan == old(errChan) && ackNackLoop == AckNackPc.Exited
    {
      if choice == SendCase {
        errChan := errChan.Send(ackNackLoop.err);
        ackNackLoop := AckNackPc.Selecting;
      } else {
        ackNackLoop := AckNackPc.Exited;
      }
    }

    /**
     * The stopChan case of the ack/nack loop: drain, then exit. The drain only ends
     * when neither input channel is closed (see ClosedChannelDrainNeverEnds).
     */
    method StopStep(net: nat -> RoundTrip, preferAck: nat -> bool)
      requires Valid() && ackNackLoop.Selecting? && stopped
      requires !ackChan.closed && !nackChan.closed
      modifies this`ackChan, this`nackChan, this`errChan, this`calls, this`ackNackLoop
      ensures Valid() && ackNackLoop == AckNackPc.Exited
      ensures View() == Drained(syncConsumer, queueName, net, preferAck, old(View()))
      ensures ackChan.buf == [] && nackChan.buf == [] && |calls| >= |old(calls)|
      ensures AckIds(calls[|old(calls)|..]) == old(ackChan.buf)
      ensures NackIds(calls[|old(calls)|..]) == old(nackChan.buf)
    {
      DrainAcksAndNacks(net, preferAck);
      ackNackLoop := AckNackPc.Exited;
    }

    /**
     * drainAcksAndNacks: serve every buffered id once, in FIFO order per channel, offer
     * each failure to errChan without blocking, and return once both buffers are empty.
     */
    method DrainAcksAndNacks(net: nat -> RoundTrip, preferAck: nat -> bool)
      requires Valid() && !ackChan.closed && !nackChan.closed
      modifies this`ackChan, this`nackChan, this`errChan, this`calls
      ensures Valid()
      ensures View() == Drained(syncConsumer, queueName, net, preferAck, old(View()))
      ensures ackChan == old(ackChan).(buf := []) && nackChan == old(nackChan).(buf := [])
      ensures |calls| == |old(calls)| + |old(ackChan.buf)| + |old(nackChan.buf)|
      ensures calls[..|old(calls)|] == old(calls)
      ensures AckIds(calls[|old(calls)|..]) == old(ackChan.buf)
      ensures NackIds(calls[|old(calls)|..]) == old(nackChan.buf)
      ensures AcksAndNacksOn(calls[|old(calls)|..], queueName)
      ensures var fs := DrainFailures(syncConsumer, net, |old(calls)|, calls[|old(calls)|..]);
              errChan == OfferAll(old(errChan), fs) &&
              errChan.buf == old(errChan.buf) + fs[..Min(|fs|, old(errChan.cap) - |old(errChan.buf)|)]
    {
      ghost var v0 := View();
      var running := true;
      while running
        invariant Valid() && !ackChan.closed && !nackChan.closed
        invariant Drained(syncConsumer, queueName, net, preferAck, View()) ==
                  Drained(syncConsumer, queueName, net, preferAck, v0)
        invariant !running ==> !ackChan.RecvReady() && !nackChan.RecvReady()
        decreases |ackChan.buf| + |nackChan.buf| + (if running then 1 else 0)
      {
        running := DrainOnce(net, preferAck);
      }
      assert View() == Drained(syncConsumer, queueName, net, preferAck, v0);
      DrainedSummary(syncConsumer, queueName, net, preferAck, v0);
    }

    /**
     * One iteration of the drain loop: the select with a default case, then the ack or
     * nack call and the non-blocking report of its failure. `running` is false exactly
     * when the default case fired.
     */
    method DrainOnce(net: nat -> RoundTrip, preferAck: nat -> bool) returns (running: bool)
      requires Valid() && !ackChan.closed && !nackChan.closed
      modifies this`ackChan, this`nackChan, this`errChan, this`calls
      ensures Valid() && !ackChan.closed && !nackChan.closed
      ensures running == DrainStep(syncConsumer, queueName, net, preferAck, old(View())).Some?
      ensures View() == if running then DrainStep(syncConsumer, queueName, net, preferAck, old(View())).value
                        else old(View())
    {
      var k := |calls|;
      var branch := DrainSelect(ackChan, nackChan, preferAck(k));
      if branch == NothingReady {
        // the default case: nothing left to drain
        running := false;
      } else {
        var out;
        if branch == TakeAck {
          var got := ackChan.Recv("");
          ackChan := got.rest;
          out := SyncConsumer.Ack(syncConsumer, queueName, got.value, net(k));
          calls := calls + [AckCall(queueName, got.value)];
        } else {
          var got := nackChan.Recv("");
          nackChan := got.rest;
          out := SyncConsumer.Nack(syncConsumer, queueName, got.value, net(k));
          calls := calls + [NackCall(queueName, got.value)];
        }
        if out.Fail? {
          // the non-blocking send: dropped when errChan is full
          errChan := errChan.TrySend(out.error);
        }
        running := true;
      }
    }

    /** The goroutine that waits for both loops (wg.Wait) and then closes doneChan. */
    method FinishStep()
      requires Valid() && consumeLoop.Exited? && ackNackLoop.Exited? && !done
      modifies this`done, this`doneSignals
      ensures Valid() && done && doneSignals == 1
    {
      done, doneSignals := true, doneSignals + 1;
    }

    /** Stop closes stopChan the first time it is called and does nothing afterwards. */
    method Stop()
      requires Valid()
      modifies this`stopped, this`stopSignals
      ensures Valid() && stopped && stopSignals == 1
      ensures old(stopped) ==> stopSignals == old(stopSignals)
    {
      if !stopped {
        stopped, stopSignals := true, stopSignals + 1;
      }
    }

    /** Wait returns (`returned`) exactly when doneChan is closed, that is once both loops have exited. */
    method Wait() returns (returned: bool)
      requires Valid()
      ensures returned == done
      ensures returned ==> consumeLoop.Exited? && ackNackLoop.Exited?
    {
      returned := done;
    }

    /** Close is Stop followed by Wait, and reports no error. */
    method Close() returns (returned: bool, err: Option<ClientError>)
      requires Valid()
      modifies this`stopped, this`stopSignals
      ensures Valid() && stopped && stopSignals == 1
      ensures returned == done && (returned ==> consumeLoop.Exited? && ackNackLoop.Exited?)
      ensures err == None
    {
      Stop();
      returned := Wait();
      err := None;
    }
  }

  /** NewAsyncForqConsumer: build the sync transport (which may refuse the timeout), then the idle consumer. */
  method NewAsyncForqConsumer(timeout: Duration, forqServerUrl: string, authSecret: string, queueName: string,
                              consumerChan: Chan<MessageResponse>, ackChan: Chan<string>, nackChan: Chan<string>,
                              errChan: Chan<ClientError>)
    returns (c: AsyncForqConsumer?, err: Option<ClientError>)
    requires consumerChan.Valid() && ackChan.Valid() && nackChan.Valid() && errChan.Valid()
    requires !consumerChan.closed && !errChan.closed
    ensures var s := SyncConsumer.NewSyncForqConsumer(timeout, forqServerUrl, authSecret);
            (s.Failure? ==> c == null && err == Some(s.error)) &&
            (s.Success? ==>
               err == None && c != null && fresh(c) && c.Valid() &&
               c.syncConsumer == s.value && c.queueName == queueName &&
               c.consumerChan == consumerChan && c.ackChan == ackChan &&
               c.nackChan == nackChan && c.errChan == errChan &&
               !c.stopped && !c.done && c.calls == [] && c.consumeLoop.NotStarted?)
  {
    var s := SyncConsumer.NewSyncForqConsumer(timeout, forqServerUrl, authSecret);
    if s.Failure? {
      return null, Some(s.error);
    }
    c := new AsyncForqConsumer(s.value, queueName, consumerChan, ackChan, nackChan, errChan);
    err := None;
  }
}
