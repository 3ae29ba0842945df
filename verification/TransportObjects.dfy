/** The objects behind the transport's step system: one critical section per method, each
    proved to be the corresponding step on the shared part `Core`. */
module TransportObjects {
  import opened Wrappers
  import opened Transport

  class Lifetime {
    const epoch: Epoch
    var subscribed: bool
    var failed: bool
    var closed: bool
    var woken: bool
    var ops: nat

    constructor (epoch: Epoch)
      ensures this.epoch == epoch && View() == Life(false, false, false, false) && ops == 0
    {
      this.epoch := epoch;
      subscribed, failed, closed, woken, ops := false, false, false, false, 0;
    }

    function View(): Life reads this { Life(subscribed, failed, closed, woken) }

    method MarkFailed()
      modifies this`failed
      ensures View() == old(View()).(failed := true)
    {
      failed := true;
    }

    /** beginOp and closeSocket hold the same lock, so after a close none begins. */
    method BeginOp() returns (ok: bool)
      modifies this`ops
      ensures ok <==> View().Admits()
      ensures ops == old(ops) + if ok then 1 else 0
    {
      if closed || failed { return false; }
      ops := ops + 1;
      return true;
    }

    method CloseSocket()
      modifies this`closed
      ensures View() == old(View()).(closed := true)
    {
      closed := true;
    }

    method SignalWake()
      modifies this`woken
      ensures View() == old(View()).(woken := true)
    {
      if !woken { woken := true; }
    }
  }

  class Connection {
    var current: Lifetime?
    var nextEpoch: Epoch
    var stuck: bool

    constructor ()
      ensures Shows(Begin().core)
    {
      current, nextEpoch, stuck := null, 0, false;
    }

    /** These fields are what `c` says of the current lifetime, the epochs and `stuck`. */
    ghost predicate Shows(c: Core) reads this, current {
      && nextEpoch == c.latest && stuck == c.stuck
      && c.current == (if current == null then None else Some(current.epoch))
      && (current != null ==> current.epoch in c.lives && c.lives[current.epoch] == current.View())
    }

    /** Lifetimes are compared by identity, steps by epoch: the same, as epochs are unique. */
    ghost predicate Unique(lt: Lifetime) reads this { current != null && current.epoch == lt.epoch ==> current == lt }

    method AllocEpoch() returns (e: Epoch)
      modifies this`nextEpoch
      ensures e == nextEpoch == old(nextEpoch) + 1
    {
      nextEpoch := nextEpoch + 1;
      return nextEpoch;
    }

    /** The start of connectOnce: the fresh lifetime of the step from Connect.  An epoch
        beyond the latest names no lifetime yet. */
    method OpenLifetime(ghost c: Core) returns (lt: Lifetime)
      requires Shows(c) && c.latest + 1 !in c.lives
      modifies this`nextEpoch
      ensures fresh(lt) && lt.epoch in c.Opened().lives && lt.View() == c.Opened().lives[lt.epoch] && lt.ops == 0
      ensures Shows(c.Opened()) && Unique(lt)
    {
      var e := AllocEpoch();
      lt := new Lifetime(e);
    }

    method Ready(ghost c: Core) returns (ready: bool)
      requires Shows(c)
      ensures ready <==> c.Ready()
    {
      if stuck { return false; }
      return current != null && current.subscribed && !current.failed;
    }

    /** Only a usable lifetime becomes current. */
    method InstallCurrent(lt: Lifetime, ghost c: Core) returns (ok: bool)
      requires Shows(c) && lt.epoch in c.lives && c.lives[lt.epoch] == lt.View()
      modifies this`current
      ensures ok <==> lt.View().Usable()
      ensures Shows(if ok then c.(current := Some(lt.epoch)) else c)
    {
      if !lt.subscribed || lt.failed { return false; }
      current := lt;
      return true;
    }

    method ClearCurrent(lt: Lifetime, ghost c: Core)
      requires Shows(c) && Unique(lt)
      modifies this`current
      ensures Shows(c.Cleared(lt.epoch)) && current == (if old(current) == lt then null else old(current))
    {
      if current == lt { current := null; }
    }

    method TakeCurrent(ghost c: Core) returns (lt: Lifetime?)
      requires Shows(c)
      modifies this`current
      ensures lt == old(current) && (lt != null ==> c.current == Some(lt.epoch))
      ensures current == null && Shows(c.(current := None))
    {
      lt := current;
      if lt != null { current := null; }
    }

    /** failCurrent, undisturbed: its four steps in their order. */
    method FailCurrent(lt: Lifetime, ghost c: Core)
      requires Shows(c) && Unique(lt) && lt.epoch in c.lives && c.lives[lt.epoch] == lt.View()
      modifies this`current, lt`failed, lt`closed, lt`woken
      ensures Shows(c.Failed(lt.epoch).Closed(lt.epoch).Cleared(lt.epoch).Woken(lt.epoch))
      ensures current != lt && lt.failed && lt.closed && lt.woken
    {
      lt.MarkFailed();
      lt.CloseSocket();
      ClearCurrent(lt, c.Failed(lt.epoch).Closed(lt.epoch));
      lt.SignalWake();
    }

    /** onLost, undisturbed: the same end, with the socket left to the supervisor. */
    method OnLost(lt: Lifetime, ghost c: Core)
      requires Shows(c) && Unique(lt) && lt.epoch in c.lives && c.lives[lt.epoch] == lt.View()
      modifies this`current, lt`failed, lt`woken
      ensures Shows(c.Failed(lt.epoch).Woken(lt.epoch).Cleared(lt.epoch))
      ensures current != lt && lt.failed && lt.woken && lt.closed == old(lt.closed)
    {
      lt.MarkFailed();
      lt.SignalWake();
      ClearCurrent(lt, c.Failed(lt.epoch).Woken(lt.epoch));
    }
  }
}
