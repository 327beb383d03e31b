/**
 * The `$emit` guard of wwLib (wwLib/index.js): events are forwarded to a
 * shared `tiny-emitter` instance, except that a falsy event name is
 * dropped.  The emitter is modelled by the list of emissions it has
 * received; its listeners (`$on`, `$once`, `$off`) are not modelled.
 */
module EventBus {
  import opened Js

  /** One forwarded `emitter.emit(event, ...args)` call. */
  datatype Emission = Emission(event: Value, args: seq<Value>)

  class Emitter {
    var emitted: seq<Emission>

    constructor ()
      ensures emitted == []
    {
      emitted := [];
    }

    /** `$emit(event, ...args)`: forwards the call when `event` is truthy
        and does nothing otherwise. */
    method Emit(event: Value, args: seq<Value>)
      modifies this
      ensures Truthy(event) ==> emitted == old(emitted) + [Emission(event, args)]
      ensures !Truthy(event) ==> emitted == old(emitted)
    {
      if !Truthy(event) {
        return;
      }
      emitted := emitted + [Emission(event, args)];
    }
  }

  /** The emissions a sequence of `$emit` calls forwards: those whose event
      is truthy, in call order. */
  function Forwarded(calls: seq<Emission>): (log: seq<Emission>)
    ensures |log| <= |calls|
    ensures forall e :: e in log ==> e in calls && Truthy(e.event)
    ensures forall e :: e in calls && Truthy(e.event) ==> e in log
  {
    if calls == [] then []
    else Forwarded(calls[..|calls| - 1]) +
         (if Truthy(calls[|calls| - 1].event) then [calls[|calls| - 1]] else [])
  }

  /** The forwarded calls of two call sequences in turn are those of the
      first followed by those of the second: forwarding keeps call order. */
  lemma {:induction false} ForwardedAppend(a: seq<Emission>, b: seq<Emission>)
    ensures Forwarded(a + b) == Forwarded(a) + Forwarded(b)
  {
    if b == [] {
      assert a + b == a;
    } else {
      var n := |b| - 1;
      assert (a + b)[..|a + b| - 1] == a + b[..n];
      assert (a + b)[|a + b| - 1] == b[n];
      ForwardedAppend(a, b[..n]);
    }
  }

  /** Replaying calls one `Emit` at a time leaves exactly `Forwarded` in
      the log. */
  method Replay(em: Emitter, calls: seq<Emission>)
    modifies em
    ensures em.emitted == old(em.emitted) + Forwarded(calls)
  {
    var i := 0;
    while i < |calls|
      invariant 0 <= i <= |calls|
      invariant em.emitted == old(em.emitted) + Forwarded(calls[..i])
    {
      assert calls[..i + 1][..i] == calls[..i];
      em.Emit(calls[i].event, calls[i].args);
      i := i + 1;
    }
    assert calls[..i] == calls;
  }
}
