/** The forwarded-port list edits of `add_port` and `remove_port`, as
    functions of the list before the call. */
module PortList {

  /** No port occurs twice. */
  ghost predicate Distinct(ps: seq<int>)
  {
    forall i, j :: 0 <= i < j < |ps| ==> ps[i] != ps[j]
  }

  /** The list `add_port` leaves: unchanged when the port is already listed,
      otherwise the port appended at the end. */
  function AddedPort(ps: seq<int>, port: int): (r: seq<int>)
    ensures port in r
    ensures forall x :: x in r <==> x in ps || x == port
    ensures |r| == if port in ps then |ps| else |ps| + 1
    ensures r[..|ps|] == ps
  {
    if port in ps then ps else ps + [port]
  }

  lemma AddedPortIdempotent(ps: seq<int>, port: int)
    ensures AddedPort(AddedPort(ps, port), port) == AddedPort(ps, port)
  {
  }

  lemma AddedPortKeepsDistinct(ps: seq<int>, port: int)
    requires Distinct(ps)
    ensures Distinct(AddedPort(ps, port))
  {
  }

  /** Python's `list.remove` guarded by `port in ps`: the first occurrence of
      the port is dropped; a list without it is returned as is. */
  function RemovedPort(ps: seq<int>, port: int): (r: seq<int>)
    ensures port !in ps ==> r == ps
    ensures port in ps ==> |r| == |ps| - 1
  {
    if ps == [] then []
    else
      assert ps == [ps[0]] + ps[1..];
      if ps[0] == port then ps[1..]
      else [ps[0]] + RemovedPort(ps[1..], port)
  }

  /** Removal takes away exactly one copy of the port, when there is one. */
  lemma {:induction false} RemovedPortMultiset(ps: seq<int>, port: int)
    ensures multiset(RemovedPort(ps, port)) == multiset(ps) - multiset{port}
  {
    if ps != [] {
      assert ps == [ps[0]] + ps[1..];
      if ps[0] != port {
        RemovedPortMultiset(ps[1..], port);
      }
    }
  }

  lemma RemovedPortWithin(ps: seq<int>, port: int, x: int)
    requires x in RemovedPort(ps, port)
    ensures x in ps
  {
    RemovedPortMultiset(ps, port);
    assert x in multiset(RemovedPort(ps, port));
  }

  /** Removal cuts out exactly the first occurrence and keeps every other
      element in its order. */
  lemma {:induction false} RemovedPortCutsFirst(ps: seq<int>, port: int, i: nat)
    requires i < |ps| && ps[i] == port && port !in ps[..i]
    ensures RemovedPort(ps, port) == ps[..i] + ps[i + 1..]
  {
    if i > 0 {
      var tail := ps[1..];
      assert ps[0] != port by { assert ps[0] == ps[..i][0]; }
      assert tail[..i - 1] == ps[1..i];
      assert port !in tail[..i - 1];
      RemovedPortCutsFirst(tail, port, i - 1);
      assert ps[..i] == [ps[0]] + tail[..i - 1];
      assert ps[i + 1..] == tail[i..];
    }
  }

  /** On a list without duplicates, removal leaves the port absent and the
      list still free of duplicates. */
  lemma {:induction false} RemovedPortFromDistinct(ps: seq<int>, port: int)
    requires Distinct(ps)
    ensures port !in RemovedPort(ps, port)
    ensures Distinct(RemovedPort(ps, port))
  {
    if ps != [] {
      assert Distinct(ps[1..]);
      RemovedPortFromDistinct(ps[1..], port);
      if ps[0] == port {
        assert forall j :: 0 < j < |ps| ==> ps[j] != ps[0];
      } else {
        var rest := RemovedPort(ps[1..], port);
        assert ps[0] !in ps[1..];
        if ps[0] in rest {
          RemovedPortWithin(ps[1..], port, ps[0]);
        }
        assert RemovedPort(ps, port) == [ps[0]] + rest;
      }
    }
  }

  /** On a list with duplicates, removal drops only one copy. */
  lemma RemovedPortKeepsOtherCopies(ps: seq<int>, port: int)
    requires multiset(ps)[port] >= 2
    ensures port in RemovedPort(ps, port)
  {
    RemovedPortMultiset(ps, port);
    assert multiset(RemovedPort(ps, port))[port] == multiset(ps)[port] - 1;
  }

  /** Adding a new port and then removing it restores the list. */
  lemma {:induction false} RemoveUndoesAdd(ps: seq<int>, port: int)
    requires port !in ps
    ensures RemovedPort(AddedPort(ps, port), port) == ps
  {
    if ps != [] {
      RemoveUndoesAdd(ps[1..], port);
      assert (ps + [port])[1..] == ps[1..] + [port];
    }
  }
}
