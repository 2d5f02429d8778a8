/** Observers and what they are sent. An observer is an identity; a call of
    its `announce`/`receive` capability is recorded as one Delivery in a
    trace, so that "notified exactly once" and "in registration order" are
    statements about that trace. */
module Registry {

  type ObserverId = nat

  datatype Delivery<M> = Delivery(to: ObserverId, message: M)

  /** Who received each delivery, in trace order. */
  function Receivers<M>(d: seq<Delivery<M>>): (r: seq<ObserverId>)
    ensures |r| == |d|
    ensures forall i :: 0 <= i < |d| ==> r[i] == d[i].to
  {
    seq(|d|, i requires 0 <= i < |d| => d[i].to)
  }

  /** Every delivery in d carries message m. */
  ghost predicate AllCarry<M>(d: seq<Delivery<M>>, m: M) {
    forall i :: 0 <= i < |d| ==> d[i].message == m
  }

  /** The deliveries a list-based subject makes: one per registration, in
      list order, duplicates included. */
  function Broadcast<M>(obs: seq<ObserverId>, m: M): (d: seq<Delivery<M>>)
    ensures Receivers(d) == obs
    ensures AllCarry(d, m)
  {
    if obs == [] then [] else [Delivery(obs[0], m)] + Broadcast(obs[1..], m)
  }

  /** A trace is determined by who received it and what it carried. */
  lemma BroadcastUnique<M>(d: seq<Delivery<M>>, obs: seq<ObserverId>, m: M)
    requires Receivers(d) == obs && AllCarry(d, m)
    ensures d == Broadcast(obs, m)
  {
    var b := Broadcast(obs, m);
    assert |d| == |b|;
    forall i | 0 <= i < |d|
      ensures d[i] == b[i]
    {
      assert d[i].to == obs[i] == b[i].to;
    }
  }

  /** d delivers m to each member of the set obs exactly once, in some order,
      and to nobody else. */
  ghost predicate OnceEach<M>(d: seq<Delivery<M>>, obs: set<ObserverId>, m: M) {
    AllCarry(d, m) && multiset(Receivers(d)) == multiset(obs)
  }

  lemma OnceEachCount<M>(d: seq<Delivery<M>>, obs: set<ObserverId>, m: M, o: ObserverId)
    requires OnceEach(d, obs, m)
    ensures multiset(Receivers(d))[o] == if o in obs then 1 else 0
  {
  }

  /** A set-based notification makes as many deliveries as there are
      observers. */
  lemma OnceEachLength<M>(d: seq<Delivery<M>>, obs: set<ObserverId>, m: M)
    requires OnceEach(d, obs, m)
    ensures |d| == |obs|
  {
    SetMultisetSize(obs);
    assert |multiset(Receivers(d))| == |Receivers(d)|;
  }

  lemma {:induction false} SetMultisetSize(s: set<ObserverId>)
    ensures |multiset(s)| == |s|
  {
    if s != {} {
      var o :| o in s;
      SetMultisetSize(s - {o});
      assert multiset(s) == multiset(s - {o}) + multiset{o};
    }
  }

  lemma ReceiversAppend<M>(d: seq<Delivery<M>>, x: Delivery<M>)
    ensures Receivers(d + [x]) == Receivers(d) + [x.to]
  {
  }
}
