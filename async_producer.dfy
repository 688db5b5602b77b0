/**
 * The asynchronous producer of producer/async.go: one worker loop that takes
 * messages from producerChan, calls Produce for each, reports failures on errChan,
 * and on the stop signal drains what is buffered before it closes doneChan.
 *
 * Each `select` of the worker is one step method; the method requires that the
 * case it takes is ready, as `select` only ever takes a ready case. The transport
 * (SyncForqProducer.Produce) is abstract: its reply is an input of the step, and
 * during the drain the reply to the k-th Produce call overall is `net(k)`.
 */
module AsyncProducer {
  import opened Wrappers
  import opened Api
  import opened Http
  import opened Channels

  /** A message and the queue it goes to: the unit of work on producerChan. */
  datatype AsyncProducerMessage = AsyncProducerMessage(newMessage: NewMessageRequest, queueName: string)

  /** The zero value a receive from a closed, empty producerChan yields. */
  const ZeroMessage: AsyncProducerMessage := AsyncProducerMessage(NewMessageRequest("", 0), "")

  /** Where the worker goroutine is. */
  datatype WorkerPc =
    | NotStarted
    | Selecting                        // at the top of the `for`/`select`
    | ReportingError(err: ClientError) // blocked sending err, raced against stop
    | Exited

  /** The errors among the replies net(start), ..., net(start + n - 1), in order. */
  function Failures(net: nat -> Outcome<ClientError>, start: nat, n: nat): seq<ClientError> {
    if n == 0 then []
    else Failures(net, start, n - 1) + (if net(start + n - 1).Fail? then [net(start + n - 1).error] else [])
  }

  /** Offering the failures of one more reply is one more non-blocking send, when that reply failed. */
  lemma NextFailure(c: Chan<ClientError>, net: nat -> Outcome<ClientError>, start: nat, i: nat)
    ensures OfferAll(c, Failures(net, start, i + 1)) ==
            if net(start + i).Fail? then OfferAll(c, Failures(net, start, i)).TrySend(net(start + i).error)
            else OfferAll(c, Failures(net, start, i))
  {
    var out := net(start + i);
    var tail := if out.Fail? then [out.error] else [];
    OfferAllAppend(c, Failures(net, start, i), tail);
    if out.Fail? {
      assert tail[1..] == [];
    }
  }

  class AsyncForqProducer {
    var producerChan: Chan<AsyncProducerMessage>
    var errChan: Chan<ClientError>
    var stopped: bool            // stopChan is closed
    ghost var stopSignals: nat   // how many times close(stopChan) ran
    var worker: WorkerPc
    var done: bool               // doneChan is closed
    ghost var doneSignals: nat   // how many times close(doneChan) ran
    var produced: seq<AsyncProducerMessage>  // the Produce calls issued, in order

    ghost predicate Valid()
      reads this
    {
      && producerChan.Valid() && errChan.Valid() && !errChan.closed
      && stopSignals == (if stopped then 1 else 0)
      && doneSignals == (if done then 1 else 0)
      && (done <==> worker.Exited?)
    }

    /** NewAsyncForqProducer: nothing is running and nothing is signalled yet. */
    constructor (producerChan: Chan<AsyncProducerMessage>, errChan: Chan<ClientError>)
      requires producerChan.Valid() && errChan.Valid() && !errChan.closed
      ensures Valid()
      ensures this.producerChan == producerChan && this.errChan == errChan
      ensures !stopped && worker == NotStarted && !done && produced == []
    {
      this.producerChan := producerChan;
      this.errChan := errChan;
      stopped, stopSignals := false, 0;
      worker := NotStarted;
      done, doneSignals := false, 0;
      produced := [];
    }

    /** Start launches the worker. */
    method Start()
      requires Valid() && worker == NotStarted
      modifies this`worker
      ensures Valid() && worker == Selecting
    {
      worker := Selecting;
    }

    /**
     * The receive case of the worker's select. A closed, empty producerChan ends the
     * worker without a drain; otherwise the oldest message is produced once, and a
     * failure `reply` leaves the worker blocked on reporting it.
     */
    method ReceiveStep(reply: Outcome<ClientError>)
      requires Valid() && worker == Selecting && producerChan.RecvReady()
      modifies this`producerChan, this`produced, this`worker, this`done, this`doneSignals
      ensures Valid()
      ensures old(producerChan.buf) == [] ==>
                worker == Exited && done && doneSignals == 1 &&
                produced == old(produced) && producerChan == old(producerChan)
      ensures old(producerChan.buf) != [] ==>
                producerChan == old(producerChan).(buf := old(producerChan.buf)[1..]) &&
                produced == old(produced) + [old(producerChan.buf)[0]] &&
                worker == (if reply.Fail? then ReportingError(reply.error) else Selecting) && !done
    {
      var r := producerChan.Recv(ZeroMessage);
      if !r.ok {
        // the deferred close(doneChan) runs as the worker returns
        worker := Exited;
        done, doneSignals := true, doneSignals + 1;
        return;
      }
      producerChan := r.rest;
      produced := produced + [r.value];
      if reply.Fail? {
        worker := ReportingError(reply.error);
      }
    }

    /**
     * The blocking error report of the normal loop: either the error is delivered, or
     * the stop signal wins and the worker exits WITHOUT draining producerChan.
     */
    method ReportStep(choice: SendSelect)
      requires Valid() && worker.ReportingError?
      requires choice == SendCase ==> errChan.HasRoom()
      requires choice == StopCase ==> stopped
      modifies this`errChan, this`worker, this`done, this`doneSignals
      ensures Valid()
      ensures choice == SendCase ==> errChan.buf == old(errChan.buf) + [old(worker).err] &&
                                     errChan.cap == old(errChan.cap) && worker == Selecting && !done
      ensures choice == StopCase ==> errChan == old(errChan) && worker == Exited && done && doneSignals == 1
    {
      if choice == SendCase {
        errChan := errChan.Send(worker.err);
        worker := Selecting;
      } else {
        worker := Exited;
        done, doneSignals := true, doneSignals + 1;
      }
    }

    /** The stop case of the worker's select: drain producerChan, then exit. */
    method StopStep(net: nat -> Outcome<ClientError>)
      requires Valid() && worker == Selecting && stopped
      modifies this`producerChan, this`errChan, this`produced, this`worker, this`done, this`doneSignals
      ensures Valid() && worker == Exited && done && doneSignals == 1
      ensures produced == old(produced) + old(producerChan.buf)
      ensures producerChan == old(producerChan).(buf := [])
      ensures errChan == OfferAll(old(errChan), Failures(net, |old(produced)|, |old(producerChan.buf)|))
    {
      DrainMessages(net);
      worker := Exited;
      done, doneSignals := true, doneSignals + 1;
    }

    /**
     * drainMessages: every buffered message is produced exactly once, in FIFO order;
     * each failure is offered to errChan without blocking and dropped when it is full.
     * The drain returns once producerChan is empty, whether it is closed or not.
     */
    method DrainMessages(net: nat -> Outcome<ClientError>)
      requires Valid()
      modifies this`producerChan, this`errChan, this`produced
      ensures Valid()
      ensures produced == old(produced) + old(producerChan.buf)
      ensures producerChan == old(producerChan).(buf := [])
      ensures var fs := Failures(net, |old(produced)|, |old(producerChan.buf)|);
              errChan == OfferAll(old(errChan), fs) &&
              errChan.buf == old(errChan.buf) + fs[..Min(|fs|, old(errChan.cap) - |old(errChan.buf)|)]
    {
      ghost var buf0, produced0, errs0 := producerChan.buf, produced, errChan;
      ghost var start := |produced|;
      ghost var i := 0;
      var running := true;
      while running
        invariant Valid()
        invariant 0 <= i <= |buf0|
        invariant producerChan == old(producerChan).(buf := buf0[i..])
        invariant produced == produced0 + buf0[..i]
        invariant errChan == OfferAll(errs0, Failures(net, start, i))
        invariant !running ==> i == |buf0|
        decreases |buf0| - i + (if running then 1 else 0)
      {
        running := ProduceOnce(net);
        if running {
          NextFailure(errs0, net, start, i);
          assert buf0[..i + 1] == buf0[..i] + [buf0[i]];
          i := i + 1;
        }
      }
      assert buf0[..i] == buf0;
      OfferAllKeepsWhatFits(errs0, Failures(net, start, |buf0|));
    }

    /**
     * One iteration of drainMessages: the default case and a closed, empty producerChan
     * both end the drain (`running` false, nothing changes); otherwise the oldest message
     * is produced, answered by net(k) for the k-th Produce call, and a failure is offered
     * to errChan without blocking.
     */
    method ProduceOnce(net: nat -> Outcome<ClientError>) returns (running: bool)
      requires Valid()
      modifies this`producerChan, this`errChan, this`produced
      ensures Valid()
      ensures running <==> old(producerChan.buf) != []
      ensures !running ==> producerChan == old(producerChan) && produced == old(produced) && errChan == old(errChan)
      ensures running ==>
                producerChan == old(producerChan).(buf := old(producerChan.buf)[1..]) &&
                produced == old(produced) + [old(producerChan.buf)[0]] &&
                errChan == (if net(|old(produced)|).Fail? then old(errChan).TrySend(net(|old(produced)|).error)
                            else old(errChan))
    {
      if !producerChan.RecvReady() {
        // the default case: nothing is buffered
        return false;
      }
      var r := producerChan.Recv(ZeroMessage);
      if !r.ok {
        // closed and empty
        return false;
      }
      var reply := net(|produced|);
      producerChan := r.rest;
      produced := produced + [r.value];
      if reply.Fail? {
        errChan := errChan.TrySend(reply.error);
      }
      return true;
    }

    /** Stop closes stopChan the first time it is called and does nothing afterwards. */
    method Stop()
      requires Valid()
      modifies this`stopped, this`stopSignals
      ensures Valid() && stopped && stopSignals == 1
      ensures old(stopped) ==> stopSignals == old(stopSignals)
    {
      if !stopped {
        stopped, stopSignals := true, stopSignals + 1;
      }
    }

    /** Wait returns (`returned`) exactly when doneChan is closed, that is once the worker has exited. */
    method Wait() returns (returned: bool)
      requires Valid()
      ensures returned == done
      ensures returned ==> worker == Exited
    {
      returned := done;
    }

    /** Close is Stop followed by Wait, and reports no error. */
    method Close() returns (returned: bool, err: Option<ClientError>)
      requires Valid()
      modifies this`stopped, this`stopSignals
      ensures Valid() && stopped && stopSignals == 1
      ensures returned == done && (returned ==> worker == Exited)
      ensures err == None
    {
      Stop();
      returned := Wait();
      err := None;
    }
  }
}
