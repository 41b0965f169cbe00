/** The ccxt handler's tracking of protective orders for many symbols. */
module CcxtHandlerModel {
  import opened Types

  type Id = nat

  /** The exchange's open protective orders. */
  class Exchange {
    ghost var resting: set<(string, Id)>
    var nextId: Id

    constructor ()
      ensures resting == {}
    {
      resting, nextId := {}, 0;
    }

    /** `None` is a rejected order. */
    method CreateOrder(symbol: string, accepted: bool) returns (id: Option<Id>)
      modifies this
      ensures id.Some? == accepted
      ensures resting == if accepted then old(resting) + {(symbol, id.value)} else old(resting)
      ensures accepted ==> id.value == old(nextId)
      ensures nextId == old(nextId) + (if accepted then 1 else 0)
    {
      if !accepted {
        return None;
      }
      id := Some(nextId);
      resting := resting + {(symbol, nextId)};
      nextId := nextId + 1;
    }

    method CancelOrder(symbol: string, id: Id)
      modifies this`resting
      ensures resting == old(resting) - {(symbol, id)}
    {
      resting := resting - {(symbol, id)};
    }
  }

  class CcxtHandler {
    const exchange: Exchange
    var connected: bool
    var protective: map<string, seq<Id>>

    constructor ()
      ensures fresh(exchange) && AllTracked() && protective == map[] && !connected
    {
      exchange := new Exchange();
      connected := false;
      protective := map[];
    }

    method EnsureClient()
      modifies this`connected
      ensures connected
    {
      connected := true;
    }

    /** Drops the client; what is tracked, and what rests, stays. */
    method Close()
      modifies this`connected
      ensures !connected
    {
      connected := false;
    }

    /** Every order resting on the exchange is tracked under its symbol. */
    ghost predicate AllTracked()
      reads this, exchange
    {
      forall o :: o in exchange.resting ==> o.0 in protective && o.1 in protective[o.0]
    }

    /** Some order of the symbol rests on the exchange. */
    ghost predicate Rests(symbol: string)
      reads this, exchange
    {
      exists id :: (symbol, id) in exchange.resting
    }

    /** Pops the symbol's ids and cancels each; other symbols are not touched. Without a client, as after
        `Close`, it pops them and cancels nothing, so an order that rests is no longer tracked. */
    method CancelProtective(symbol: string)
      modifies this`protective, exchange`resting
      ensures protective == old(protective) - {symbol}
      ensures exchange.resting
              == if !connected then old(exchange.resting)
                 else old(exchange.resting)
                      - (set o | o in old(exchange.resting) && o.0 == symbol
                                 && symbol in old(protective) && o.1 in old(protective)[symbol])
      ensures old(AllTracked()) && connected ==> AllTracked() && !Rests(symbol)
      ensures old(AllTracked()) && !connected ==> (AllTracked() <==> !Rests(symbol))
    {
      if !connected {
        protective := protective - {symbol};
        return;
      }
      var ids := if symbol in protective then protective[symbol] else [];
      protective := protective - {symbol};
      var i := 0;
      while i < |ids|
        invariant 0 <= i <= |ids|
        invariant protective == old(protective) - {symbol}
        invariant exchange.resting
                  == old(exchange.resting) - (set o | o in old(exchange.resting) && o.0 == symbol && o.1 in ids[..i])
      {
        exchange.CancelOrder(symbol, ids[i]);
        i := i + 1;
      }
      assert ids[..i] == ids;
    }

    /** Replaces the symbol's protective orders by a stop and, when asked for, a target; either may be rejected. */
    method PlaceProtective(symbol: string, withTarget: bool, stopAccepted: bool, targetAccepted: bool)
      modifies this, exchange
      ensures connected && symbol in protective && protective - {symbol} == old(protective) - {symbol}
      ensures |protective[symbol]|
              == (if stopAccepted then 1 else 0) + (if withTarget && targetAccepted then 1 else 0)
      ensures old(AllTracked()) ==>
                && AllTracked()
                && (forall id :: (symbol, id) in exchange.resting <==> id in protective[symbol])
      ensures forall o: (string, Id) :: o.0 != symbol ==> (o in exchange.resting <==> o in old(exchange.resting))
    {
      EnsureClient();
      CancelProtective(symbol);
      var ids: seq<Id> := [];
      var stop := exchange.CreateOrder(symbol, stopAccepted);
      if stop.Some? {
        ids := ids + [stop.value];
      }
      if withTarget {
        var target := exchange.CreateOrder(symbol, targetAccepted);
        if target.Some? {
          ids := ids + [target.value];
        }
      }
      protective := protective[symbol := ids];
    }
  }
}
