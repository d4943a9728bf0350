/** The connection object: its methods over a `Channel` and two `Buffer`s, each proved to make the model's step. */
module TcpConnections {
  import opened Channels
  import opened Buffers
  import opened ConnectionModel

  class TcpConnection {
    var state: Phase
    const channel: Channel
    const outputBuffer: Buffer
    const inputBuffer: Buffer
    const config: Config
    var queue: seq<Functor>
    var fins: nat
    var closes: nat
    ghost var accepted: string
    ghost var taken: string
    ghost var shutdowns: nat
    ghost var ended: bool
    ghost var dropped: bool
    ghost var watched: bool
    ghost var revived: nat
    ghost var setting: multiset<Functor>
    ghost var queueing: multiset<Functor>

    /** The objects of the connection are in order, also in the middle of an operation. */
    ghost predicate Formed()
      reads this, outputBuffer, inputBuffer
    {
      && outputBuffer.Valid() && inputBuffer.Valid()
      && outputBuffer != inputBuffer && outputBuffer.data != inputBuffer.data
    }

    ghost function AsConn(): Conn
      requires Formed()
      reads this, channel, outputBuffer, inputBuffer, outputBuffer.data
    {
      Conn(state, channel.IsReading(), channel.IsWriting(), watched, outputBuffer.Contents(), queue, setting, queueing,
           accepted, taken, fins, closes, shutdowns, ended, dropped, revived)
    }

    /** The object has come where it is by operations of the model. */
    ghost predicate Valid()
      reads this, channel, outputBuffer, inputBuffer, outputBuffer.data
    {
      Formed() && Reachable(config, AsConn())
    }

    constructor (fd: nat, config: Config)
      ensures Valid() && AsConn() == INITIAL && this.config == config && channel.fd == fd
      ensures fresh(channel) && fresh(outputBuffer) && fresh(inputBuffer)
      ensures fresh(outputBuffer.data) && fresh(inputBuffer.data)
    {
      state := Connecting;
      channel := new Channel(fd);
      outputBuffer := new Buffer();
      inputBuffer := new Buffer();
      this.config := config;
      queue, fins, closes := [], 0, 0;
      accepted, taken, shutdowns, ended, dropped, watched, revived := "", "", 0, false, false, false, 0;
      setting, queueing := multiset{}, multiset{};
      InitialReachable(config);
    }

    method QueueInLoop(f: Functor)
      requires Formed()
      modifies this`queue
      ensures Formed() && AsConn() == old(AsConn()).(queue := old(queue) + [f])
    {
      queue := queue + [f];
    }

    /**
      Writes at once when nothing is waiting; what write(2) leaves goes to the backlog and the channel starts writing.
     */
    method SendInLoop(data: string, wr: WriteResult)
      requires Formed() && WriteContract(AsConn(), data, wr)
      modifies this`queue, this`watched, this`accepted, this`taken, channel`events, outputBuffer, outputBuffer.data
      ensures Formed() && (outputBuffer.data == old(outputBuffer.data) || fresh(outputBuffer.data))
      ensures AsConn() == ConnectionModel.SendInLoop(config, old(AsConn()), data, wr)
    {
      if !state.Disconnected? {
        var remaining := WriteDirectly(data, wr);
        if remaining != "" {
          AppendToBacklog(remaining);
        }
      }
    }

    method WriteDirectly(data: string, wr: WriteResult) returns (remaining: string)
      requires Formed() && WriteContract(AsConn(), data, wr)
      modifies this`queue, this`accepted, this`taken
      ensures Formed() && (AsConn(), remaining) == ConnectionModel.WriteDirectly(config, old(AsConn()), data, wr)
    {
      remaining := data;
      accepted := accepted + data;
      if !channel.IsWriting() && outputBuffer.ReadableBytes() == 0 && wr.Wrote? {
        remaining := data[wr.n..];
        taken := taken + data[..wr.n];
        if remaining == "" && config.onWriteComplete {
          QueueInLoop(WriteCompleteFn);
        }
        assert old(queue) + [] == old(queue);
      }
    }

    method AppendToBacklog(remaining: string)
      requires Formed()
      modifies this`queue, this`watched, channel`events, outputBuffer, outputBuffer.data
      ensures Formed() && (outputBuffer.data == old(outputBuffer.data) || fresh(outputBuffer.data))
      ensures AsConn() == Enqueue(config, old(AsConn()), remaining)
    {
      hide Has;
      var oldLen := outputBuffer.ReadableBytes();
      if config.highWaterMark <= oldLen + |remaining| && oldLen < config.highWaterMark && config.onHighWater {
        QueueInLoop(HighWaterFn(oldLen + |remaining|));
      }
      outputBuffer.Append(remaining);
      assert AsConn() == old(AsConn()).(queue := queue, backlog := outputBuffer.Contents());
      if !channel.IsWriting() {
        EnableWriting();
      }
    }

    method Send(data: string, wr: WriteResult)
      requires Valid() && WriteContract(AsConn(), data, wr)
      modifies this`queue, this`watched, this`accepted, this`taken, channel`events, outputBuffer, outputBuffer.data
      ensures Valid() && (outputBuffer.data == old(outputBuffer.data) || fresh(outputBuffer.data))
      ensures AsConn() == Step(config, old(AsConn()), Op.Send(data, wr))
    {
      hide Reachable;
      StepReaches(config, AsConn(), Op.Send(data, wr));
      if state.Connected? {
        SendInLoop(data, wr);
      }
    }

    /** Sends a whole buffer; the bytes leave the caller's buffer even when they only reach the backlog. */
    method SendBuffer(buf: Buffer, wr: WriteResult)
      requires Valid() && buf.Valid() && buf != outputBuffer && buf.data != outputBuffer.data
      requires WriteContract(AsConn(), buf.Contents(), wr)
      modifies this`queue, this`watched, this`accepted, this`taken, channel`events, outputBuffer, outputBuffer.data
      modifies buf`readIndex, buf`writeIndex
      ensures Valid() && buf.Valid()
      ensures AsConn() == Step(config, old(AsConn()), Op.Send(old(buf.Contents()), wr))
      ensures buf.Contents() == if old(state).Connected? then [] else old(buf.Contents())
    {
      hide Reachable;
      StepReaches(config, AsConn(), Op.Send(buf.Contents(), wr));
      if state.Connected? {
        var bytes := buf.Peek(buf.ReadableBytes());
        assert bytes == buf.Contents();
        SendInLoop(bytes, wr);
        DropAll(buf);
      }
    }

    /** From another thread, when nothing comes between its steps: the bytes are copied out and bound by value. */
    method SendBufferFromThread(buf: Buffer)
      requires Valid() && buf.Valid() && buf != outputBuffer
      modifies this`queue, this`setting, this`queueing, this`shutdowns, buf`readIndex, buf`writeIndex
      ensures Valid() && buf.Valid()
      ensures AsConn() == CrossCall(old(AsConn()), SendFn(old(buf.Contents())))
      ensures buf.Contents() == if old(state).Connected? then [] else old(buf.Contents())
    {
      hide Reachable;
      CallReaches(config, AsConn(), SendFn(buf.Contents()));
      hide PassTest, SetPhase, QueueCall;
      if state.Connected? {
        CallGoesOn(AsConn(), SendFn(buf.Contents()));
        Tested(SendFn(buf.Contents()));
        var bytes := TakeAll(buf);
        QueueFromThread(SendFn(bytes));
      }
    }

    method DropAll(buf: Buffer)
      requires Formed() && buf.Valid() && buf != outputBuffer
      modifies buf`readIndex, buf`writeIndex
      ensures Formed() && AsConn() == old(AsConn()) && buf.Valid() && buf.Contents() == []
    {
      buf.RetrieveAll();
    }

    method TakeAll(buf: Buffer) returns (bytes: string)
      requires Formed() && buf.Valid() && buf != outputBuffer
      modifies buf`readIndex, buf`writeIndex
      ensures Formed() && AsConn() == old(AsConn()) && buf.Valid()
      ensures bytes == old(buf.Contents()) && buf.Contents() == []
    {
      bytes := buf.RetrieveAsString(buf.ReadableBytes());
      assert bytes == old(buf.Contents());
    }

    method ShutdownInLoop()
      requires Formed()
      modifies this`fins
      ensures Formed() && AsConn() == ConnectionModel.ShutdownInLoop(old(AsConn()))
    {
      if !channel.IsWriting() {
        fins := fins + 1;
      }
    }

    method Shutdown()
      requires Valid()
      modifies this`state, this`shutdowns, this`fins
      ensures Valid() && AsConn() == Step(config, old(AsConn()), Op.Shutdown)
    {
      hide Reachable;
      StepReaches(config, AsConn(), Op.Shutdown);
      if state.Connected? {
        state, shutdowns := Disconnecting, shutdowns + 1;
        ShutdownInLoop();
      }
    }

    // The steps of a call from another thread: its test has passed; it sets the phase; it queues its functor.

    ghost method Tested(call: Functor)
      requires Formed() && Passes(AsConn(), call)
      modifies this`setting, this`queueing, this`shutdowns
      ensures Formed() && AsConn() == PassTest(old(AsConn()), call)
      ensures old(Valid()) ==> Valid()
    {
      var c := PassTest(AsConn(), call);
      if Valid() {
        StepReaches(config, AsConn(), CrossTest(call));
      }
      hide Reachable;
      setting, queueing, shutdowns := c.setting, c.queueing, c.shutdowns;
    }

    method SetDisconnecting(ghost call: Functor)
      requires Formed() && call in setting
      modifies this`state, this`setting, this`queueing, this`revived
      ensures Formed() && AsConn() == SetPhase(old(AsConn()), call)
      ensures old(Valid()) ==> Valid()
    {
      ghost var c := SetPhase(AsConn(), call);
      if Valid() {
        StepReaches(config, AsConn(), CrossSet(call));
      }
      MarkDisconnecting(c);
    }

    method MarkDisconnecting(ghost c: Conn)
      requires Formed()
      requires c == AsConn().(phase := Disconnecting, setting := c.setting, queueing := c.queueing,
                              revived := c.revived)
      modifies this`state, this`setting, this`queueing, this`revived
      ensures Formed() && AsConn() == c
    {
      state := Disconnecting;
      setting, queueing, revived := c.setting, c.queueing, c.revived;
    }

    method QueueFromThread(call: Functor)
      requires Formed() && call in queueing
      modifies this`queue, this`queueing
      ensures Formed() && AsConn() == QueueCall(old(AsConn()), call)
      ensures old(Valid()) ==> Valid()
    {
      if Valid() {
        StepReaches(config, AsConn(), CrossQueue(call));
      }
      hide Reachable;
      QueueInLoop(call);
      queueing := queueing - multiset{call};
    }

    /** From another thread, when nothing comes between its steps. */
    method ShutdownFromThread()
      requires Valid()
      modifies this`state, this`shutdowns, this`queue, this`setting, this`queueing, this`revived
      ensures Valid() && AsConn() == CrossCall(old(AsConn()), ShutdownFn)
    {
      hide Reachable;
      CallReaches(config, AsConn(), ShutdownFn);
      hide PassTest, SetPhase, QueueCall;
      if state.Connected? {
        CallGoesOn(AsConn(), ShutdownFn);
        Tested(ShutdownFn);
        SetDisconnecting(ShutdownFn);
        QueueFromThread(ShutdownFn);
      }
    }

    method ForceCloseFromThread()
      requires Valid()
      modifies this`state, this`shutdowns, this`queue, this`setting, this`queueing, this`revived
      ensures Valid() && AsConn() == CrossCall(old(AsConn()), ForceCloseFn)
    {
      hide Reachable;
      CallReaches(config, AsConn(), ForceCloseFn);
      hide PassTest, SetPhase, QueueCall;
      if state.Connected? || state.Disconnecting? {
        CallGoesOn(AsConn(), ForceCloseFn);
        Tested(ForceCloseFn);
        SetDisconnecting(ForceCloseFn);
        QueueFromThread(ForceCloseFn);
      }
    }

    method ForceClose()
      requires Valid()
      modifies this`state, this`queue
      ensures Valid() && AsConn() == Step(config, old(AsConn()), Op.ForceClose)
    {
      hide Reachable;
      StepReaches(config, AsConn(), Op.ForceClose);
      if state.Connected? || state.Disconnecting? {
        state := Disconnecting;
        QueueInLoop(ForceCloseFn);
      }
    }

    method ForceCloseInLoop()
      requires Formed()
      modifies this`state, this`closes, this`ended, this`watched, channel`events
      ensures Formed() && AsConn() == ConnectionModel.ForceCloseInLoop(config, old(AsConn()))
    {
      if state.Connected? || state.Disconnecting? {
        HandleClose();
      }
    }

    method ConnectEstablished()
      requires Formed()
      modifies this`state, this`watched, channel`events
      ensures Formed() && AsConn() == ConnectionModel.ConnectEstablished(old(AsConn()))
      ensures old(Valid() && Legal(AsConn(), Established)) ==> Valid()
    {
      if Valid() && Legal(AsConn(), Established) {
        StepReaches(config, AsConn(), Established);
      }
      hide Reachable;
      Establish();
    }

    method Establish()
      requires Formed()
      modifies this`state, this`watched, channel`events
      ensures Formed() && AsConn() == ConnectionModel.ConnectEstablished(old(AsConn()))
    {
      hide Has;
      state := Connected;
      channel.EnableReading();
      watched := true;
    }

    /** The removal from the poller ends what it watches. */
    method ConnectDestroyed()
      requires Valid()
      modifies this`state, this`ended, this`dropped, this`watched, channel`events
      ensures Valid() && AsConn() == Step(config, old(AsConn()), Destroyed)
    {
      hide Reachable, ConnectionModel.ConnectDestroyed;
      StepReaches(config, AsConn(), Destroyed);
      Destroy();
    }

    method Destroy()
      requires Formed()
      modifies this`state, this`ended, this`dropped, this`watched, channel`events
      ensures Formed() && AsConn() == ConnectionModel.ConnectDestroyed(config, old(AsConn()))
    {
      ghost var lost := state.Disconnecting? && !ended;
      if state.Connected? {
        Disconnect();
      }
      dropped := dropped || lost;
      watched := false;
    }

    method Disconnect()
      requires Formed()
      modifies this`state, this`ended, this`watched, channel`events
      ensures Formed()
      ensures AsConn() == ConnectionModel.DisableAll(config, old(AsConn())).(phase := Disconnected, ended := true)
    {
      DisableAll();
      state, ended := Disconnected, true;
    }

    /** Reads into the input buffer; an empty read is the peer's close. */
    method HandleRead(result: ReadResult)
      requires Formed()
      requires result.Received? ==> |result.bytes| <= inputBuffer.ReadCapacity()
      modifies this`state, this`closes, this`ended, this`watched, channel`events, inputBuffer, inputBuffer.data
      ensures Formed()
      ensures AsConn() == if result == Received("") then ConnectionModel.HandleClose(config, old(AsConn()))
                          else old(AsConn())
      ensures inputBuffer.Contents() == old(inputBuffer.Contents()) + if result.Received? then result.bytes else ""
      ensures old(Valid() && Legal(AsConn(), Readable(EndOfFile))) ==> Valid()
    {
      if Valid() && Legal(AsConn(), Readable(EndOfFile)) {
        StepReaches(config, AsConn(), Readable(EndOfFile));
      }
      hide Reachable;
      var n, savedErrno := inputBuffer.ReadFd(result);
      if n == 0 {
        HandleClose();
      }
    }

    /** Writes from the backlog; when it is drained the channel stops writing and a waiting shutdown is carried out. */
    method HandleWrite(wr: WriteResult)
      requires Formed() && WriteContract(AsConn(), outputBuffer.Contents(), wr)
      modifies this`queue, this`taken, this`fins, this`watched, channel`events
      modifies outputBuffer`readIndex, outputBuffer`writeIndex
      ensures Formed() && AsConn() == ConnectionModel.HandleWrite(config, old(AsConn()), wr)
      ensures old(Valid() && Legal(AsConn(), Writable(wr))) ==> Valid()
    {
      if Valid() && Legal(AsConn(), Writable(wr)) {
        StepReaches(config, AsConn(), Writable(wr));
      }
      hide Reachable;
      WriteBacklog(wr);
    }

    method WriteBacklog(wr: WriteResult)
      requires Formed() && WriteContract(AsConn(), outputBuffer.Contents(), wr)
      modifies this`queue, this`taken, this`fins, this`watched, channel`events
      modifies outputBuffer`readIndex, outputBuffer`writeIndex
      ensures Formed() && AsConn() == ConnectionModel.HandleWrite(config, old(AsConn()), wr)
    {
      hide Has;
      if channel.IsWriting() && wr.Wrote? && 0 < wr.n {
        taken := taken + outputBuffer.Contents()[..wr.n];
        outputBuffer.Retrieve(wr.n);
        if outputBuffer.ReadableBytes() == 0 {
          Drained();
        }
      }
    }

    method Drained()
      requires Formed()
      modifies this`queue, this`fins, this`watched, channel`events
      ensures Formed() && AsConn() == ConnectionModel.Drained(config, old(AsConn()))
    {
      DisableWriting();
      if config.onWriteComplete {
        QueueInLoop(WriteCompleteFn);
      }
      if state.Disconnecting? {
        ShutdownInLoop();
      }
    }

    method HandleClose()
      requires Formed()
      modifies this`state, this`closes, this`ended, this`watched, channel`events
      ensures Formed() && AsConn() == ConnectionModel.HandleClose(config, old(AsConn()))
      ensures old(Valid() && Legal(AsConn(), HungUp)) ==> Valid()
    {
      if Valid() && Legal(AsConn(), HungUp) {
        StepReaches(config, AsConn(), HungUp);
      }
      hide Reachable, ConnectionModel.HandleClose;
      Close();
    }

    method Close()
      requires Formed()
      modifies this`state, this`closes, this`ended, this`watched, channel`events
      ensures Formed() && AsConn() == ConnectionModel.HandleClose(config, old(AsConn()))
    {
      Disconnect();
      closes := closes + 1;
    }

    method DisableAll()
      requires Formed()
      modifies this`watched, channel`events
      ensures Formed() && AsConn() == ConnectionModel.DisableAll(config, old(AsConn()))
    {
      hide Has;
      channel.DisableAll();
      watched := Watched(config, watched, false);
    }

    method DisableWriting()
      requires Formed()
      modifies this`watched, channel`events
      ensures Formed()
      ensures AsConn() == old(AsConn()).(writing := false,
                                         watched := Watched(config, old(watched), old(channel.IsReading())))
    {
      hide Has;
      channel.DisableWriting();
      watched := Watched(config, watched, channel.IsReading());
    }

    method EnableWriting()
      requires Formed()
      modifies this`watched, channel`events
      ensures Formed() && AsConn() == old(AsConn()).(writing := true, watched := true)
    {
      hide Has;
      channel.EnableWriting();
      watched := true;
    }

    /** The loop runs this connection's oldest functor. */
    method RunFunctor(wr: WriteResult)
      requires Valid() && Legal(AsConn(), Op.RunFunctor(wr))
      modifies this, channel`events, outputBuffer, outputBuffer.data
      ensures Valid() && AsConn() == Step(config, old(AsConn()), Op.RunFunctor(wr))
    {
      hide Reachable;
      StepReaches(config, AsConn(), Op.RunFunctor(wr));
      var head := queue[0];
      queue := queue[1..];
      match head
      case SendFn(message) => SendInLoop(message, wr);
      case ShutdownFn => ShutdownInLoop();
      case ForceCloseFn => ForceCloseInLoop();
      case WriteCompleteFn =>
      case HighWaterFn(_) =>
    }
  }
}
