/** The connections, their channel and the manager as objects, and that whatever they do
    is a run of the protocol in ConnectionsProof. */
module ConnectionAccounts {
  import opened Addresses
  import opened MapSums
  import opened Connections
  import opened ConnectionsProof

  lemma {:induction false} ExtendRun(run: seq<System>, steps: seq<Step>, step: Step)
    requires IsRun(run, steps) && Enabled(run[|steps|], step)
    ensures IsRun(run + [Do(run[|steps|], step)], steps + [step])
  {
    var longer, all := run + [Do(run[|steps|], step)], steps + [step];
    forall i | 0 <= i < |all|
      ensures Enabled(longer[i], all[i]) && longer[i + 1] == Do(longer[i], all[i])
    {
      if i < |steps| {
        assert longer[i] == run[i] && longer[i + 1] == run[i + 1] && all[i] == steps[i];
      }
    }
  }

  class Accounts {
    const channel: Channel
    const manager: ConnectionState
    var connections: map<Uuid, Connection>    // those that live
    ghost var run: seq<System>
    ghost var steps: seq<Step>

    constructor ()
      ensures Valid() && connections == map[] && steps == []
      ensures fresh(channel) && fresh(manager)
    {
      channel := new Channel();
      manager := new ConnectionState();
      connections, run, steps := map[], [INIT], [];
    }

    ghost predicate Traced()
      reads this
    {
      IsRun(run, steps)
    }

    ghost function Now(): System
      requires Traced()
      reads this
    {
      run[|steps|]
    }

    ghost predicate Holds(u: Uuid)
      requires Traced()
      reads this, connections.Values
    {
      && u in connections && connections[u].uuid == u && connections[u].channel == channel
      && u in Now().live && connections[u].state == Now().live[u]
    }

    /** The objects are in the state that the run has come to; no connection is half way
        through its drop. */
    ghost predicate Valid()
      reads this, channel, manager, connections.Values
    {
      && Traced()
      && connections.Keys == Now().live.Keys && Now().closing == {}
      && (forall u :: u in connections ==> Holds(u))
      && channel.items == Now().queue && manager.Now() == Now().mgr
    }

    ghost method Note(step: Step)
      requires Traced() && Enabled(Now(), step)
      modifies this`run, this`steps
      ensures Traced() && Now() == Do(old(Now()), step) && steps == old(steps) + [step]
    {
      ExtendRun(run, steps, step);
      run, steps := run + [Do(run[|steps|], step)], steps + [step];
    }

    method Open(u: Uuid, protocol: Protocol, addr: Address)
      requires Valid() && u !in Now().everUp
      modifies this, channel
      ensures Valid() && steps == old(steps) + [Create(u, protocol, addr)]
    {
      RunKeepsInv(run, steps, |steps|);
      assert u !in connections;
      var c := new Connection(u, protocol, addr, channel);
      Note(Create(u, protocol, addr));
      connections := connections[u := c];
    }

    method CountFor(u: Uuid, e: EventType)
      requires Valid() && u in connections && Fits(connections[u].state, e)
      modifies this`run, this`steps, connections[u]
      ensures Valid() && steps == old(steps) + [Count(u, e)]
    {
      assert Holds(u);
      Others(u);
      connections[u].CountBytes(e);
      Note(Count(u, e));
    }

    /** A heartbeat flushes; a poll without one is no step. */
    method Poll(u: Uuid, heartbeat: bool, stopped: bool) returns (ok: bool)
      requires Valid() && u in connections
      modifies this`run, this`steps, connections[u], channel
      ensures Valid() && ok == !stopped
      ensures !heartbeat ==> steps == old(steps)
      ensures heartbeat ==>
                |steps| == |old(steps)| + 1 && old(steps) <= steps && steps[|old(steps)|].Heartbeat? && steps[|old(steps)|].u == u
    {
      assert Holds(u);
      Others(u);
      ghost var events;
      ok, events := connections[u].Poll(heartbeat, stopped);
      if heartbeat {
        Note(Heartbeat(u, events));
      }
    }

    /** Dropping a connection is two steps. */
    method Close(u: Uuid)
      requires Valid() && u in connections
      modifies this, connections[u], channel
      ensures Valid() && connections == old(connections) - {u}
      ensures |steps| == |old(steps)| + 2 && old(steps) <= steps
      ensures steps[|old(steps)|].Drop? && steps[|old(steps)|].u == u && steps[|old(steps)| + 1] == SendClose(u)
    {
      assert Holds(u);
      Others(u);
      ghost var events := connections[u].Close();
      ghost var q := Now().queue;
      Note(Drop(u, events));
      Note(SendClose(u));
      connections := connections - {u};
      TaggedTwice(q, u, events);
    }

    lemma Others(u: Uuid)
      requires Valid() && u in connections
      ensures forall v :: v in connections && v != u ==> connections[v] != connections[u]
    {
      forall v | v in connections && v != u ensures connections[v] != connections[u] {
        assert Holds(v) && Holds(u);
      }
    }

    /** The manager takes the next event. */
    method ConsumeNext()
      requires Valid() && channel.items != []
      modifies this`run, this`steps, channel, manager
      ensures Valid() && steps == old(steps) + [Consume]
    {
      var item := channel.items[0];
      channel.items := channel.items[1..];
      manager.InputOne(item.uuid, item.event);
      Note(Consume);
    }

    method StopConnection(u: Uuid) returns (ok: bool)
      requires Valid()
      modifies this`run, this`steps, manager
      ensures Valid() && steps == old(steps) + [Stop(u)]
      ensures Now().stops == old(Now().stops) + if ok then [u] else []
    {
      assert Alive(Now()) == connections.Keys;
      ok := manager.StopConnection(u, connections.Keys);
      Note(Stop(u));
    }
  }

  lemma TaggedTwice(q: seq<Item>, u: Uuid, events: seq<EventType>)
    ensures q + Tagged(u, events) + Tagged(u, [CloseConnection]) == q + Tagged(u, events + [CloseConnection])
  {
  }

  /** Whatever has been called on the objects: bytes counted are those in the manager's
      totals, in the channel, and in the connections' own counters, and once the channel
      is empty the manager lists exactly the connections there are. */
  lemma AccountsAreConserved(a: Accounts, dir: Dir)
    requires a.Valid()
    ensures CountedInAll(dir, a.steps)
            == (if dir == Up then a.manager.totalUpload else a.manager.totalDownload)
               + Queued(dir, a.channel.items) + Sum(HeldMap(dir, a.Now().live))
    ensures forall u :: u in a.connections ==>
              u in a.Now().live && a.Now().live[u] == a.connections[u].state
    ensures a.channel.items == [] ==> a.manager.connections.Keys == a.connections.Keys
  {
    var i := |a.steps|;
    assert a.steps[..i] == a.steps;
    Conservation(a.run, a.steps, i, dir);
    if a.channel.items == [] {
      DrainedMapIsLive(a.run, a.steps, i);
    }
    forall u | u in a.connections ensures u in a.Now().live && a.Now().live[u] == a.connections[u].state {
      assert a.Holds(u);
    }
  }
}
