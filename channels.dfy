/**
 * A Go channel as a value: a FIFO buffer with a capacity and a closed flag.
 * A send is ready when the buffer has room; a receive is ready when the buffer
 * holds a value or the channel is closed.
 */
module Channels {

  datatype Chan<T> = Chan(buf: seq<T>, cap: nat, closed: bool) {

    ghost predicate Valid() {
      |buf| <= cap
    }

    /** A send would complete without blocking. */
    predicate HasRoom() {
      |buf| < cap
    }

    /** A receive would complete without blocking. */
    predicate RecvReady() {
      buf != [] || closed
    }

    /** A send that the `select` found ready: `x` joins the back of the buffer. */
    function Send(x: T): (c: Chan<T>)
      requires HasRoom()
      ensures c.buf == buf + [x] && c.cap == cap && c.closed == closed
      ensures Valid() ==> c.Valid()
    {
      this.(buf := buf + [x])
    }

    /** A send in a `select` with a `default` case: the value is dropped when there is no room. */
    function TrySend(x: T): (c: Chan<T>)
      ensures HasRoom() ==> c.buf == buf + [x]
      ensures !HasRoom() ==> c == this
      ensures c.cap == cap && c.closed == closed
      ensures Valid() ==> c.Valid()
    {
      if HasRoom() then Send(x) else this
    }

    /**
     * `v, ok := <-ch`: the oldest buffered value, or, once a closed channel is empty,
     * the zero value `zero` with `ok` false and the channel unchanged.
     */
    function Recv(zero: T): (r: Receipt<T>)
      requires RecvReady()
      ensures r.ok <==> buf != []
      ensures r.ok ==> buf == [r.value] + r.rest.buf
      ensures r.rest.cap == cap && r.rest.closed == closed
      ensures !r.ok ==> r.value == zero && r.rest == this
    {
      if buf != [] then Receipt(buf[0], true, this.(buf := buf[1..]))
      else Receipt(zero, false, this)
    }
  }

  datatype Receipt<T> = Receipt(value: T, ok: bool, rest: Chan<T>)

  /**
   * The case a `select { case ch <- v: ... case <-stopChan: return }` takes:
   * the send, or the stop signal.
   */
  datatype SendSelect = SendCase | StopCase

  /** Offer each of `xs` in turn with a non-blocking send. */
  function OfferAll<T>(c: Chan<T>, xs: seq<T>): Chan<T>
    decreases |xs|
  {
    if xs == [] then c else OfferAll(c.TrySend(xs[0]), xs[1..])
  }

  function Min(a: int, b: int): int {
    if a < b then a else b
  }

  /**
   * Offering a sequence keeps exactly the values that fit, the earliest ones, in order,
   * and drops the rest; nothing else about the channel changes.
   */
  lemma {:induction false} OfferAllKeepsWhatFits<T>(c: Chan<T>, xs: seq<T>)
    requires c.Valid()
    ensures OfferAll(c, xs) == c.(buf := c.buf + xs[..Min(|xs|, c.cap - |c.buf|)])
    decreases |xs|
  {
    if xs != [] {
      var c' := c.TrySend(xs[0]);
      OfferAllKeepsWhatFits(c', xs[1..]);
      if c.HasRoom() {
        assert c'.buf + xs[1..][..Min(|xs| - 1, c'.cap - |c'.buf|)] == c.buf + xs[..Min(|xs|, c.cap - |c.buf|)];
      } else {
        assert xs[1..][..Min(|xs| - 1, c'.cap - |c'.buf|)] == [];
        assert xs[..Min(|xs|, c.cap - |c.buf|)] == [];
      }
    }
  }

  /** Offering two sequences one after the other is offering their concatenation. */
  lemma {:induction false} OfferAllAppend<T>(c: Chan<T>, xs: seq<T>, ys: seq<T>)
    ensures OfferAll(c, xs + ys) == OfferAll(OfferAll(c, xs), ys)
    decreases |xs|
  {
    if xs != [] {
      assert (xs + ys)[0] == xs[0];
      assert (xs + ys)[1..] == xs[1..] + ys;
      OfferAllAppend(c.TrySend(xs[0]), xs[1..], ys);
    } else {
      assert xs + ys == ys;
    }
  }
}
