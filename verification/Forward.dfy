/** The forward as an object (`forward` in `sshd/forward.go`): its visitor map and the
    methods that run under vmu, each doing what the step of `Visitors` it stands for does
    to the forward. `shutSocks` and `shutChans` record what Close has closed. */
module ForwardObject {
  import opened Visitors

  class ForwardObject {
    const owner: Sid
    var listening: bool
    var closed: bool
    var visitors: map<Hid, bool>
    var shutSocks: set<Hid>
    var shutChans: set<Hid>

    /** closeOnce runs the whole of Close, so between calls the listener and the map go together. */
    predicate Valid()
      reads this
    {
      closed == !listening && (closed ==> visitors == map[])
    }

    function Abstract(): Forward
      reads this
    {
      Forward(owner, if closed then Shut else Listening, visitors)
    }

    constructor (owner: Sid)
      ensures Valid() && Abstract() == Forward(owner, Listening, map[]) && shutSocks == {} && shutChans == {}
    {
      this.owner := owner;
      listening, closed, visitors, shutSocks, shutChans := true, false, map[], {}, {};
    }

    /** False exactly when the forward is closed; the caller then drops the socket. */
    method TrackVisitor(h: Hid) returns (ok: bool)
      requires Valid()
      modifies this`visitors
      ensures Valid() && Abstract() == TrackIn(old(Abstract()), h)
      ensures ok <==> !closed
      ensures visitors == if ok then old(visitors)[h := false] else old(visitors)
    {
      if closed {
        return false;
      }
      visitors := visitors[h := false];
      return true;
    }

    /** False when the forward was closed, or the socket untracked, in the meantime. */
    method SetVisitorChannel(h: Hid) returns (ok: bool)
      requires Valid()
      modifies this`visitors
      ensures Valid() && Abstract() == RecordIn(old(Abstract()), h)
      ensures ok <==> !closed && h in old(visitors)
      ensures visitors == if ok then old(visitors)[h := true] else old(visitors)
    {
      if closed {
        return false;
      }
      if h !in visitors {
        return false;
      }
      visitors := visitors[h := true];
      return true;
    }

    method UntrackVisitor(h: Hid)
      requires Valid()
      modifies this`visitors
      ensures Valid() && Abstract() == UntrackIn(old(Abstract()), h) && visitors == old(visitors) - {h}
    {
      visitors := visitors - {h};
      assert closed ==> visitors == map[];
    }

    /** Closes the listener, every tracked socket and every recorded channel, and nothing else;
        a second call does nothing. */
    method Close()
      requires Valid()
      modifies this
      ensures Valid() && closed && !listening && visitors == map[]
      ensures shutSocks == old(shutSocks) + old(visitors).Keys
      ensures forall h :: h in shutChans <==> h in old(shutChans) || (h in old(visitors) && old(visitors)[h])
      ensures old(closed) ==> unchanged(this)
    {
      if closed {
        assert old(visitors).Keys == {};
        return;
      }
      listening, closed := false, true;
      var todo := visitors.Keys;
      while todo != {}
        invariant todo <= visitors.Keys && visitors == old(visitors) && closed && !listening
        invariant shutSocks + todo == old(shutSocks) + visitors.Keys
        invariant forall h :: h in visitors && h !in todo ==> h in shutSocks
        invariant forall h :: h in shutChans <==> h in old(shutChans) || (h in visitors && h !in todo && visitors[h])
        decreases todo
      {
        var h :| h in todo;
        shutSocks := shutSocks + {h};
        if visitors[h] {
          shutChans := shutChans + {h};
        }
        todo := todo - {h};
      }
      visitors := map[];
    }
  }
}
