/**
 * Pending trades between players, keyed by ids handed out from 1 upwards.
 */
module Trade {
  import opened Wrappers

  datatype Offer = Offer(fromPlayer: string, toPlayer: string, item: string)

  /** `dict.pop(id, None)`: the entry, if any, and the table without it. */
  function Pop(pending: map<int, Offer>, id: int): (r: (Option<Offer>, map<int, Offer>))
    ensures r.0.Some? <==> id in pending
    ensures r.0.Some? ==> r.0.value == pending[id]
    ensures id !in r.1 && r.1.Keys == pending.Keys - {id}
    ensures forall k :: k in r.1 ==> r.1[k] == pending[k]
  {
    (if id in pending then Some(pending[id]) else None, pending - {id})
  }

  /** A trade can be accepted at most once. */
  lemma PopTwice(pending: map<int, Offer>, id: int)
    ensures Pop(Pop(pending, id).1, id).0 == None
  {
  }

  class TradeManager {
    var pending: map<int, Offer>
    var nextId: int

    /** Every pending id was handed out already: it lies in `[1, nextId)`. */
    ghost predicate Valid()
      reads this
    {
      nextId >= 1 && forall id :: id in pending ==> 1 <= id < nextId
    }

    constructor ()
      ensures Valid() && pending == map[] && nextId == 1
    {
      pending := map[];
      nextId := 1;
    }

    /** A fresh id, larger than any before; the other pending trades stay as they were. */
    method ProposeTrade(fromPlayer: string, toPlayer: string, item: string) returns (id: int)
      requires Valid()
      modifies this
      ensures Valid()
      ensures id == old(nextId) && nextId == id + 1 && id >= 1
      ensures id !in old(pending)
      ensures pending == old(pending)[id := Offer(fromPlayer, toPlayer, item)]
    {
      id := nextId;
      nextId := nextId + 1;
      pending := pending[id := Offer(fromPlayer, toPlayer, item)];
    }

    method AcceptTrade(id: int) returns (offer: Option<Offer>)
      requires Valid()
      modifies this`pending
      ensures Valid()
      ensures (offer, pending) == Pop(old(pending), id)
    {
      offer := if id in pending then Some(pending[id]) else None;
      pending := pending - {id};
    }
  }

  /** A proposed trade is accepted once; the second accept finds nothing. */
  method TradeScenario()
  {
    var tm := new TradeManager();
    var tid := tm.ProposeTrade("a", "b", "gem");
    assert tid == 1;
    var got := tm.AcceptTrade(tid);
    assert got == Some(Offer("a", "b", "gem"));
    got := tm.AcceptTrade(tid);
    assert got == None;
  }
}
