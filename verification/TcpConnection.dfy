/** include/TcpConnection.h and src/TcpConnection.cpp in their own form: one object owning a channel, a
    socket and two buffers.  Every method is proved against the function of the same name in
    Connections, so what ConnectionRuns proves about runs holds of this object, and says what happens
    to the poller's tables. */
module TcpConnections {
  import opened Kernel
  import opened Registration
  import opened Buffers
  import opened Pollers
  import opened Connections
  import ConnectionRuns
  import Echo

  class TcpConnection {
    const config: Config
    const poller: EPollPoller  // of the loop this connection lives on
    const channel: Channel
    const socket: Socket
    const inputBuffer: Buffer
    const outputBuffer: Buffer
    var state: State
    var queued: seq<Callback>  // what this connection put into its loop's functor queue
    var edges: seq<Edge>       // calls of connectionCallback_
    var closes: nat            // calls of closeCallback_
    ghost var view: Conn       // the connection as a value, with its history

    ghost predicate Valid()
      reads this, inputBuffer, inputBuffer.buffer, outputBuffer, outputBuffer.buffer, socket
      reads channel, poller, poller.known
    {
      && Parts()
      && view.state == state && view.queued == queued && view.edges == edges && view.closes == closes
      && view.events == channel.events && view.stream == socket.stream
      && view.input == inputBuffer.contents && view.output == outputBuffer.contents
    }

    ghost predicate Parts()
      reads this, inputBuffer, inputBuffer.buffer, outputBuffer, outputBuffer.buffer
      reads poller, poller.known
    {
      && inputBuffer.Valid() && outputBuffer.Valid()
      && inputBuffer != outputBuffer && inputBuffer.buffer != outputBuffer.buffer
      && channel.poller == poller && channel in poller.known && poller.Valid()
    }

    constructor (config: Config, poller: EPollPoller, fd: int)
      requires poller.Valid()
      modifies poller`known, poller`table
      ensures Valid() && view == FRESH
      ensures fresh(channel) && fresh(socket) && fresh(inputBuffer) && fresh(outputBuffer)
      ensures fresh(inputBuffer.buffer) && fresh(outputBuffer.buffer)
      ensures inputBuffer.buffer.Length == outputBuffer.buffer.Length == 8 + 1024
      ensures this.config == config && this.poller == poller && channel.fd == fd
      ensures poller.known == old(poller.known) + {channel}
      ensures poller.table == Introduce(old(poller.table), channel, fd)
    {
      this.config := config;
      this.poller := poller;
      this.state := Connecting;
      this.queued, this.edges, this.closes := [], [], 0;
      this.view := FRESH;
      var ch := new Channel(poller, fd);
      this.channel := ch;
      this.socket := new Socket();
      this.inputBuffer := new Buffer(INITIAL_SIZE);
      this.outputBuffer := new Buffer(INITIAL_SIZE);
      new;
      poller.Adopt(channel);
    }

    // The channel's mutators as the connection uses them.

    method EnableReading()
      requires Valid()
      modifies this`view, channel`events, channel`index, poller
      ensures Valid() && view == old(view).(events := old(view).events + READ_EVENT)
      ensures poller.known == old(poller.known)
      ensures poller.table == SetEvents(old(poller.table), channel, view.events)
    {
      channel.EnableReading();
      view := view.(events := channel.events);
    }

    method EnableWriting()
      requires Valid()
      modifies this`view, channel`events, channel`index, poller
      ensures Valid() && view == old(view).(events := old(view).events + WRITE_EVENT)
      ensures poller.known == old(poller.known)
      ensures poller.table == SetEvents(old(poller.table), channel, view.events)
    {
      channel.EnableWriting();
      view := view.(events := channel.events);
    }

    method DisableWriting()
      requires Valid()
      modifies this`view, channel`events, channel`index, poller
      ensures Valid() && view == old(view).(events := old(view).events - WRITE_EVENT)
      ensures poller.known == old(poller.known)
      ensures poller.table == SetEvents(old(poller.table), channel, view.events)
    {
      channel.DisableWriting();
      view := view.(events := channel.events);
    }

    method DisableAll()
      requires Valid()
      modifies this`view, channel`events, channel`index, poller
      ensures Valid() && view == old(view).(events := NONE_EVENT)
      ensures poller.known == old(poller.known)
      ensures poller.table == SetEvents(old(poller.table), channel, view.events)
    {
      channel.DisableAll();
      view := view.(events := channel.events);
    }

    method ConnectEstablished()
      requires Valid()
      modifies this`state, this`edges, this`view, channel, poller
      ensures Valid() && view == Connections.ConnectEstablished(old(view))
      ensures channel.tied && channel.tie == this
      ensures poller.known == old(poller.known)
      ensures poller.table == SetEvents(old(poller.table), channel, view.events)
    {
      state, edges := Connected, edges + [Up];
      view := view.(state := state, edges := edges);
      channel.Tie(this);
      EnableReading();
    }

    method Send(data: seq<byte>, k: WriteChoice)
      requires Valid()
      modifies this, channel, poller, socket, outputBuffer, outputBuffer.buffer
      ensures Valid() && view == Connections.Send(config, old(view), data, k)
      ensures poller.known == old(poller.known)
      ensures poller.table == Follow(old(poller.table), channel, view.events)
      ensures outputBuffer.buffer == old(outputBuffer.buffer) || fresh(outputBuffer.buffer)
    {
      if state == Connected {
        view := view.(accepted := view.accepted + data);
        SendInLoop(data, k);
      }
    }

    method SendInLoop(data: seq<byte>, k: WriteChoice)
      requires Valid()
      modifies this, channel, poller, socket, outputBuffer, outputBuffer.buffer
      ensures Valid() && view == Connections.SendInLoop(config, old(view), data, k)
      ensures poller.known == old(poller.known)
      ensures poller.table == Follow(old(poller.table), channel, view.events)
      ensures outputBuffer.buffer == old(outputBuffer.buffer) || fresh(outputBuffer.buffer)
    {
      hide SetEvents, DirectWrite, BufferRest;
      var rest, faultError := data, false;
      if state == Disconnected {
        return;
      }
      if !channel.IsWriting() && outputBuffer.ReadableBytes() == 0 {
        rest, faultError := WriteNow(data, k);
      }
      if !faultError && |rest| > 0 {
        QueueRest(rest);
      } else if |rest| > 0 {
        view := view.(lost := true);
      }
    }

    /** The head of sendInLoop: with nothing queued, the socket is tried at once. */
    method WriteNow(data: seq<byte>, k: WriteChoice) returns (rest: seq<byte>, faultError: bool)
      requires Valid()
      modifies this`queued, this`view, socket
      ensures Valid() && (view, rest, faultError) == DirectWrite(config, old(view), data, k)
    {
      var r := socket.Write(data, k);
      view := view.(stream := socket.stream);
      match r
      case Wrote(nwrote) =>
        rest, faultError := data[nwrote..], false;
        if |data| - nwrote == 0 {
          QueueWriteComplete();
        }
        assert queued + [] == queued;
      case Failed(fault) =>
        rest, faultError := data, fault;
    }

    /** The tail of sendInLoop: what the socket did not take waits in the output buffer. */
    method QueueRest(rest: seq<byte>)
      requires Valid() && rest != []
      modifies this`queued, this`view, channel, poller, outputBuffer, outputBuffer.buffer
      ensures Valid() && view == BufferRest(config, old(view), rest)
      ensures poller.known == old(poller.known)
      ensures poller.table == Follow(old(poller.table), channel, view.events)
      ensures outputBuffer.buffer == old(outputBuffer.buffer) || fresh(outputBuffer.buffer)
    {
      hide SetEvents;
      QueueHighWater(outputBuffer.ReadableBytes(), |rest|);
      outputBuffer.Append(rest);
      view := view.(output := outputBuffer.contents);
      AskForRoom();
    }

    method QueueHighWater(oldLen: nat, remaining: nat)
      requires Valid()
      modifies this`queued, this`view
      ensures Valid()
      ensures view == old(view).(queued := old(view).queued +
        if oldLen + remaining >= config.highWaterMark && oldLen < config.highWaterMark && config.hasHighWater
        then [HighWater(oldLen + remaining)] else [])
    {
      if oldLen + remaining >= config.highWaterMark && oldLen < config.highWaterMark && config.hasHighWater {
        queued := queued + [HighWater(oldLen + remaining)];
        view := view.(queued := queued);
      }
    }

    /** Ask for write events, unless that is already done. */
    method AskForRoom()
      requires Valid()
      modifies this`view, channel`events, channel`index, poller
      ensures Valid() && view == old(view).(events := old(view).events + WRITE_EVENT)
      ensures poller.known == old(poller.known)
      ensures poller.table == Follow(old(poller.table), channel, view.events)
    {
      if !channel.IsWriting() {
        EnableWriting();
      } else {
        assert view.events + WRITE_EVENT == view.events;
      }
    }

    method QueueWriteComplete()
      requires Valid()
      modifies this`queued, this`view
      ensures Valid()
      ensures view == old(view).(queued := old(view).queued + if config.hasWriteComplete then [WriteComplete] else [])
    {
      if config.hasWriteComplete {
        queued := queued + [WriteComplete];
        view := view.(queued := queued);
      }
    }

    method Shutdown()
      requires Valid()
      modifies this`state, this`view, socket
      ensures Valid() && view == Connections.Shutdown(old(view))
    {
      if state == Connected {
        state := Disconnecting;
        view := view.(state := Disconnecting);
        ShutdownInLoop();
      }
    }

    method ShutdownInLoop()
      requires Valid()
      modifies this`view, socket
      ensures Valid() && view == Connections.ShutdownInLoop(old(view))
    {
      view := Connections.ShutdownInLoop(view);
      if !channel.IsWriting() {
        socket.ShutdownWrite();
      }
    }

    /** The message callback is due when some bytes were read. */
    method HandleRead(k: ReadChoice) returns (r: ReadResult)
      requires Valid()
      modifies this, channel, poller, inputBuffer, inputBuffer.buffer
      ensures Valid() && view == Connections.HandleRead(old(view), r)
      ensures r == ReadStream(k, ReadCapacity(old(inputBuffer.WritableBytes())))
      ensures poller.known == old(poller.known)
      ensures poller.table ==
        if r == Got([]) then SetEvents(old(poller.table), channel, NONE_EVENT) else old(poller.table)
      ensures inputBuffer.buffer == old(inputBuffer.buffer) || fresh(inputBuffer.buffer)
    {
      r := inputBuffer.ReadFd(k);
      match r
      case Got(bytes) =>
        if |bytes| > 0 {
          view := Connections.HandleRead(view, r);
        } else {
          HandleClose();
        }
      case ReadFailed =>
    }

    method HandleWrite(k: WriteChoice)
      requires Valid()
      modifies this`queued, this`view, channel, poller, socket, outputBuffer
      ensures Valid() && view == Connections.HandleWrite(config, old(view), k)
      ensures poller.known == old(poller.known)
      ensures poller.table == Follow(old(poller.table), channel, view.events)
      ensures outputBuffer.buffer == old(outputBuffer.buffer)
    {
      hide SetEvents;
      if channel.IsWriting() {
        var r := outputBuffer.WriteFd(socket, k);
        view := view.(stream := socket.stream);
        if r.Wrote? && r.n > 0 {
          outputBuffer.Retrieve(r.n);
          view := view.(output := outputBuffer.contents);
          if outputBuffer.ReadableBytes() == 0 {
            FinishDrain();
          }
        }
      }
    }

    /** The tail of handleWrite, when the output buffer has just become empty. */
    method FinishDrain()
      requires Valid() && channel.IsWriting()
      modifies this`queued, this`view, channel, poller, socket
      ensures Valid() && view == OutputDrained(config, old(view))
      ensures poller.known == old(poller.known)
      ensures poller.table == SetEvents(old(poller.table), channel, view.events) && !IsWriting(view)
    {
      DisableWriting();
      QueueWriteComplete();
      if state == Disconnecting {
        ShutdownInLoop();
      }
    }

    method HandleClose()
      requires Valid()
      modifies this`state, this`edges, this`closes, this`view, channel, poller
      ensures Valid() && view == Connections.HandleClose(old(view))
      ensures poller.known == old(poller.known)
      ensures poller.table == SetEvents(old(poller.table), channel, NONE_EVENT)
    {
      hide SetEvents;
      state, edges, closes := Disconnected, edges + [Down], closes + 1;
      view := view.(state := state, edges := edges, closes := closes);
      DisableAll();
    }

    method ConnectDestroyed()
      requires Valid()
      modifies this`state, this`edges, this`view, channel, poller
      ensures Valid() && view == Connections.ConnectDestroyed(old(view))
      ensures poller.known == old(poller.known)
      ensures poller.table ==
        RemoveChannel(if old(state) == Connected then SetEvents(old(poller.table), channel, NONE_EVENT)
                      else old(poller.table), channel)
    {
      if state == Connected {
        state, edges := Disconnected, edges + [Down];
        view := view.(state := state, edges := edges);
        DisableAll();
      }
      channel.Remove();
    }

    /** The application takes bytes out of the input buffer. */
    method ConsumeInput(n: nat) returns (taken: seq<byte>)
      requires Valid()
      modifies this`view, inputBuffer
      ensures Valid() && view == Consume(old(view), n)
      ensures taken + view.input == old(view).input
      ensures |taken| == if n < |old(view).input| then n else |old(view).input|
      ensures inputBuffer.buffer == old(inputBuffer.buffer)
    {
      taken := inputBuffer.RetrieveAsString(Min(n, inputBuffer.ReadableBytes()));
      view := Consume(view, n);
    }

    /** One call the application makes on this connection. */
    method AppCall(e: Event)
      requires Valid() && (e.SendCall? || e.ShutdownCall? || e.ConsumeInput?)
      modifies this, channel, poller, socket, inputBuffer, outputBuffer, outputBuffer.buffer
      ensures Valid() && view == Step(config, old(view), e)
      ensures poller.known == old(poller.known)
      ensures poller.table == Follow(old(poller.table), channel, view.events)
      ensures inputBuffer.buffer == old(inputBuffer.buffer)
      ensures outputBuffer.buffer == old(outputBuffer.buffer) || fresh(outputBuffer.buffer)
    {
      hide Connections.Send, SetEvents;
      match e {
        case SendCall(data, k) => Send(data, k);
        case ShutdownCall => Shutdown();
        case ConsumeInput(n) => var taken := ConsumeInput(n);
      }
    }

    /** A message callback, given by the calls it makes on this connection. */
    method MessageCallback(app: seq<Event>)
      requires Valid() && ConnectionRuns.AppCalls(app)
      modifies this, channel, poller, socket, inputBuffer, outputBuffer, outputBuffer.buffer
      ensures Valid() && view == Run(config, old(view), app)
      ensures poller.known == old(poller.known)
      ensures KeepsAgreement(old(poller.table), poller.table, channel)
      ensures inputBuffer.buffer == old(inputBuffer.buffer)
      ensures outputBuffer.buffer == old(outputBuffer.buffer) || fresh(outputBuffer.buffer)
    {
      hide Step, SetEvents, Follow, Agreement, FdFree;
      var i := 0;
      while i < |app|
        invariant Valid() && i <= |app| && Run(config, view, app[i..]) == Run(config, old(view), app)
        invariant poller.known == old(poller.known)
        invariant KeepsAgreement(old(poller.table), poller.table, channel)
        invariant inputBuffer.buffer == old(inputBuffer.buffer)
        invariant outputBuffer.buffer == old(outputBuffer.buffer) || fresh(outputBuffer.buffer)
      {
        assert app[i] in app && app[i..][1..] == app[i + 1..];
        ghost var table := poller.table;
        AppCall(app[i]);
        MaskChangeKeeps(table, channel, view.events);
        i := i + 1;
      }
    }

    /** The read part of an event: when bytes arrived, the message callback runs. */
    method HandleInput(revents: Mask, kr: ReadChoice, app: seq<Event>) returns (r: ReadResult)
      requires Valid() && ConnectionRuns.AppCalls(app)
      modifies this, channel, poller, socket
      modifies inputBuffer, inputBuffer.buffer, outputBuffer, outputBuffer.buffer
      ensures Valid() && view == ConnectionRuns.DispatchRead(config, old(view), revents, r, app)
      ensures poller.known == old(poller.known)
      ensures KeepsAgreement(old(poller.table), poller.table, channel)
      ensures r == if In in revents || Pri in revents
                   then ReadStream(kr, ReadCapacity(old(inputBuffer.WritableBytes()))) else ReadFailed
    {
      hide Connections.HandleRead, Run, SetEvents, Agreement, FdFree;
      r := ReadFailed;
      if In in revents || Pri in revents {
        MaskChangeKeeps(poller.table, channel, NONE_EVENT);
        r := HandleRead(kr);
        if r.Got? && r.bytes != [] {
          MessageCallback(app);
        }
      }
    }

    /** Channel::handleEvent: a tied channel runs its handlers only while its connection is held. */
    method HandleEvent(alive: set<object>, revents: Mask, k: WriteChoice, kr: ReadChoice, app: seq<Event>)
      returns (r: ReadResult)
      requires Valid() && ConnectionRuns.AppCalls(app)
      modifies this, channel, poller, socket
      modifies inputBuffer, inputBuffer.buffer, outputBuffer, outputBuffer.buffer
      ensures Valid() && poller.known == old(poller.known)
      ensures !old(channel.tied) || (old(channel.tie) != null && old(channel.tie) in alive) ==>
        && view == ConnectionRuns.Dispatch(config, old(view), revents, k, r, app)
        && r == if In in revents || Pri in revents
                then ReadStream(kr, ReadCapacity(old(inputBuffer.WritableBytes()))) else ReadFailed
      ensures old(channel.tied) && (old(channel.tie) == null || old(channel.tie) !in alive) ==>
        view == old(view) && poller.table == old(poller.table) && r == ReadFailed
      ensures KeepsAgreement(old(poller.table), poller.table, channel)
    {
      hide ConnectionRuns.Dispatch, SetEvents, Agreement, FdFree;
      r := ReadFailed;
      if channel.Guards(alive) {
        r := HandleEventWithGuard(revents, k, kr, app);
      }
    }

    /** The four callbacks the constructor binds; handleError only logs. */
    method HandleEventWithGuard(revents: Mask, k: WriteChoice, kr: ReadChoice, app: seq<Event>)
      returns (r: ReadResult)
      requires Valid() && ConnectionRuns.AppCalls(app)
      modifies this, channel, poller, socket
      modifies inputBuffer, inputBuffer.buffer, outputBuffer, outputBuffer.buffer
      ensures Valid() && view == ConnectionRuns.Dispatch(config, old(view), revents, k, r, app)
      ensures poller.known == old(poller.known)
      ensures KeepsAgreement(old(poller.table), poller.table, channel)
      ensures r == if In in revents || Pri in revents
                   then ReadStream(kr, ReadCapacity(old(inputBuffer.WritableBytes()))) else ReadFailed
    {
      hide Connections.HandleWrite, Connections.HandleClose, ConnectionRuns.DispatchRead, SetEvents, Follow;
      hide Agreement, FdFree;
      if Out in revents {
        ghost var table := poller.table;
        HandleWrite(k);
        MaskChangeKeeps(table, channel, view.events);
      }
      r := HandleInput(revents, kr, app);
      if Hup in revents && In !in revents {
        MaskChangeKeeps(poller.table, channel, NONE_EVENT);
        HandleClose();
      }
    }

    /** EchoServer::onMessage for this connection. */
    method OnMessage(k: WriteChoice)
      requires Valid()
      modifies this, channel, poller, socket, inputBuffer, outputBuffer, outputBuffer.buffer
      ensures Valid() && view == Echo.OnMessage(config, old(view), k)
      ensures poller.table == Follow(old(poller.table), channel, view.events)
    {
      var msg := inputBuffer.RetrieveAllAsString();
      view := Consume(view, |view.input|);
      Send(msg, k);
    }
  }
}
