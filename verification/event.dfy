/** The observer list RinnaiSystem notifies after every successful status
    update: handlers are appended with +=, the first equal one is removed
    with -=, and a call invokes every registered handler that is not None,
    in registration order. */
module Events {
  import opened Py

  /** An opaque reference to a callable subscriber. */
  type Handler = nat

  /** The registered handlers that a call invokes, in order. */
  function Present(hs: seq<Option<Handler>>): (r: seq<Handler>)
    ensures |r| <= |hs|
    ensures forall h :: h in r <==> Some(h) in hs
  {
    if hs == [] then []
    else (if hs[0].Some? then [hs[0].value] else []) + Present(hs[1..])
  }

  lemma {:induction false} PresentAppend(hs: seq<Option<Handler>>, h: Option<Handler>)
    ensures Present(hs + [h]) == Present(hs) + (if h.Some? then [h.value] else [])
  {
    if hs == [] {
      assert hs + [h] == [h];
    } else {
      assert (hs + [h])[1..] == hs[1..] + [h];
      PresentAppend(hs[1..], h);
    }
  }

  /** The position of the first occurrence of h in hs. */
  function FirstIndex(hs: seq<Option<Handler>>, h: Option<Handler>): (i: nat)
    requires h in hs
    ensures i < |hs| && hs[i] == h
    ensures forall j :: 0 <= j < i ==> hs[j] != h
  {
    if hs[0] == h then 0 else 1 + FirstIndex(hs[1..], h)
  }

  class Event {
    var handlers: seq<Option<Handler>>

    constructor ()
      ensures handlers == []
    {
      handlers := [];
    }

    /** `event += handler`: appends, duplicates and None included. */
    method Add(handler: Option<Handler>)
      modifies this
      ensures handlers == old(handlers) + [handler]
      ensures Present(handlers) == Present(old(handlers)) + (if handler.Some? then [handler.value] else [])
    {
      PresentAppend(handlers, handler);
      handlers := handlers + [handler];
    }

    /** `event -= handler`: removes the first equal entry; ValueError when
        there is none, and then the list is unchanged. */
    method Remove(handler: Option<Handler>) returns (r: Result<()>)
      modifies this
      ensures r.Ok? <==> handler in old(handlers)
      ensures r.Ok? ==> var i := FirstIndex(old(handlers), handler);
        handlers == old(handlers)[..i] + old(handlers)[i + 1..]
      ensures r.Err? ==> handlers == old(handlers)
      ensures |handlers| == if r.Ok? then |old(handlers)| - 1 else |old(handlers)|
    {
      var i := 0;
      while i < |handlers|
        invariant 0 <= i <= |handlers|
        invariant forall j :: 0 <= j < i ==> handlers[j] != handler
      {
        if handlers[i] == handler {
          assert FirstIndex(handlers, handler) == i by {
            var k := FirstIndex(handlers, handler);
            assert !(k < i) && !(i < k);
          }
          handlers := handlers[..i] + handlers[i + 1..];
          return Ok(());
        }
        i := i + 1;
      }
      return Err;
    }

    /** `event()`: calls every handler that is not None, in order; the
        result lists the calls made. */
    method Fire() returns (called: seq<Handler>)
      ensures called == Present(handlers)
    {
      called := [];
      var i := 0;
      while i < |handlers|
        invariant 0 <= i <= |handlers|
        invariant called == Present(handlers[..i])
      {
        assert handlers[..i + 1] == handlers[..i] + [handlers[i]];
        PresentAppend(handlers[..i], handlers[i]);
        if handlers[i].Some? {
          called := called + [handlers[i].value];
        }
        i := i + 1;
      }
      assert handlers[..i] == handlers;
    }
  }

  /** Subscribing a handler that is not registered yet and unsubscribing it
      again restores the handler list: the removal finds the copy just
      appended. */
  lemma AddThenRemove(hs: seq<Option<Handler>>, h: Option<Handler>)
    requires h !in hs
    ensures var added := hs + [h];
      FirstIndex(added, h) == |hs| && added[..|hs|] + added[|hs| + 1..] == hs
  {
    var added := hs + [h];
    var k := FirstIndex(added, h);
    assert added[|hs|] == h;
    assert !(k < |hs|);
  }
}
