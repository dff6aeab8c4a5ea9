/** The fields TcpServer keeps on the base loop's thread, in their own form: the connection map, the id
    counter, the pool that picks the next loop, and the functor queues the server pushes onto.  The
    methods are proved against the functions of TcpServers for any server value that shows these
    fields. */
module TcpServerObjects {
  import opened TcpServers
  import ConnNames
  import ThreadPools

  /** The end of an EventLoop that other objects use. */
  class LoopEnd {
    var queue: seq<Token>    // pendingFunctors_
    ghost var ran: seq<Token>  // functors runInLoop called at once

    constructor ()
      ensures queue == [] && ran == []
    {
      queue, ran := [], [];
    }

    method QueueInLoop(t: Token)
      modifies this`queue
      ensures queue == old(queue) + [t]
    {
      queue := queue + [t];
    }

    /** EventLoop::runInLoop; on the loop's own thread the caller goes on with the functor itself. */
    method RunInLoop(inLoopThread: bool, t: Token)
      modifies this
      ensures if inLoopThread then queue == old(queue) && ran == old(ran) + [t]
              else queue == old(queue) + [t] && ran == old(ran)
    {
      if inLoopThread {
        ran := ran + [t];
      } else {
        QueueInLoop(t);
      }
    }
  }

  /** What a new connection changes in the fields the server shows. */
  lemma NewConnectionShows(s: Server, fd: int)
    requires |s.loops| > 0
    ensures var s', r := NewConnection(s, fd), NewRec(s, fd);
            && s'.name == s.name && s'.address == s.address && s'.nextId == s.nextId + 1
            && s'.connections == s.connections[r.name := s.nextId] && |s'.loops| == |s.loops|
            && (r.loop == 0 ==> s' == Execute(Admitted(s, fd), Established(s.nextId)))
            && forall l :: 0 <= l < |s.loops| ==>
                 s'.loops[l].queue == s.loops[l].queue + if l == r.loop != 0 then [Established(s.nextId)] else []
  {
  }

  class TcpServer {
    const name: string
    const address: ConnNames.Address
    const threadPool: ThreadPools.EventLoopThreadPoll
    const loops: seq<LoopEnd>  // the base loop, then the sub-loops
    var connections: map<string, Id>
    var nextConnId: NextId

    ghost predicate Valid()
      reads this, threadPool
    {
      && threadPool.Valid() && threadPool.calls == nextConnId - 1
      && |loops| == |threadPool.loops| + 1
      && forall i, j :: 0 <= i < j < |loops| ==> loops[i] != loops[j]
    }

    /** `s` shows the fields of this object and the queues it pushes onto. */
    ghost predicate Shows(s: Server)
      reads this, loops
    {
      && s.name == name && s.address == address && |s.loops| == |loops|
      && s.connections == connections && s.nextId == nextConnId
      && forall l :: 0 <= l < |loops| ==> s.loops[l].queue == loops[l].queue
    }

    constructor (name: string, address: ConnNames.Address, threadPool: ThreadPools.EventLoopThreadPoll,
                 loops: seq<LoopEnd>)
      requires threadPool.Valid() && threadPool.calls == 0 && |loops| == |threadPool.loops| + 1
      requires forall i, j :: 0 <= i < j < |loops| ==> loops[i] != loops[j]
      requires forall l :: 0 <= l < |loops| ==> loops[l].queue == []
      ensures Valid() && this.threadPool == threadPool && this.loops == loops
      ensures Shows(Started(name, address, |threadPool.loops|))
    {
      this.name, this.address, this.threadPool, this.loops := name, address, threadPool, loops;
      connections, nextConnId := map[], 1;
    }

    /** The new connection is stored under its name, and connectEstablished is queued to its loop, or run
        at once when that is the base loop. */
    method NewConnection(sockfd: int, ghost s: Server) returns (id: Id, ioLoop: nat)
      requires Valid() && Shows(s) && nextConnId < ConnNames.INT_MAX
      modifies this`connections, this`nextConnId, threadPool, loops
      ensures Valid() && Shows(TcpServers.NewConnection(s, sockfd))
      ensures id == old(nextConnId) && ioLoop == NewRec(s, sockfd).loop < |loops|
      ensures loops[0].ran == old(loops[0].ran) + if ioLoop == 0 then [Established(id)] else []
      ensures ioLoop == 0 ==> TcpServers.NewConnection(s, sockfd) == Execute(Admitted(s, sockfd), Established(id))
    {
      hide TcpServers.NewConnection, Execute, Admitted;
      NewConnectionShows(s, sockfd);
      ioLoop := threadPool.GetNextLoop();
      var buf := ConnNames.Snprintf(ConnNames.NAME_BUFFER, ConnNames.Suffix(ConnNames.IpPort(address), nextConnId));
      id := nextConnId;
      nextConnId := nextConnId + 1;
      var connName := name + buf;
      connections := connections[connName := id];
      loops[ioLoop].RunInLoop(ioLoop == threadPool.baseLoop, Established(id));
    }

    /** Called on the thread of loop `caller` as the connection's close callback. */
    method RemoveConnection(caller: nat, conn: Id, connName: string, ioLoop: nat, ghost s: Server)
      requires Valid() && Shows(s) && Known(s, conn)
      requires s.conns[conn].name == connName && s.conns[conn].loop == ioLoop
      modifies this`connections, loops
      ensures Valid() && Shows(TcpServers.RemoveConnection(s, caller, conn))
    {
      loops[0].RunInLoop(caller == 0, RemoveInLoop(conn));
      if caller == 0 {
        RemoveConnectionInLoop(conn, connName, ioLoop, s);
      }
    }

    /** The entry of that name is erased, and connectDestroyed is queued to the connection's loop. */
    method RemoveConnectionInLoop(conn: Id, connName: string, ioLoop: nat, ghost s: Server)
      requires Valid() && Shows(s) && Known(s, conn)
      requires s.conns[conn].name == connName && s.conns[conn].loop == ioLoop
      modifies this`connections, loops
      ensures Valid() && Shows(RemoveNow(s, conn))
      ensures connections == old(connections) - {connName}
      ensures loops[ioLoop].queue == old(loops[ioLoop].queue) + [Destroyed(conn)]
    {
      connections := connections - {connName};
      loops[ioLoop].QueueInLoop(Destroyed(conn));
    }
  }
}
