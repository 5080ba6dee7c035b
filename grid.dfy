/** `GrpcGrid`, the coordinating application's channel to the SuperLink's
    ServerAppIo service. The object opens its gRPC channel lazily, remembers
    the current run, and pushes and pulls batches of messages one RPC at a
    time. Every RPC is appended to `log` and answered by `peer`; each batch
    operation is proved to produce exactly the result and the log that the
    functions of grid_trace.dfy describe. */
module Grid {
  import opened Protocol
  import opened GridTrace

  /** A gRPC channel as `create_channel` opens it: insecure exactly when no
      root certificates are given. */
  datatype Channel = Channel(address: string, insecure: bool, rootCertificates: Option<Bytes>)

  /** What happens to the grid's channels: `create_channel` opens one,
      `channel.close()` closes it. */
  datatype ChannelEvent = Opened(channel: Channel) | Closed(channel: Channel)

  /** Channel events, oldest first: `Then(h, e)` is `h` followed by `e`. */
  datatype History = Start | Then(earlier: History, latest: ChannelEvent)

  /** A ServerAppIo stub on a channel, wrapped by the retry invoker. */
  datatype Stub = ServerAppIoStub(channel: Channel)

  /** The channel `_connect` opens for an address and optional certificates. */
  function NewChannel(address: string, rootCertificates: Option<Bytes>): (c: Channel)
    ensures c.address == address && c.rootCertificates == rootCertificates
    ensures c.insecure <==> rootCertificates.None?
  {
    Channel(address, rootCertificates.None?, rootCertificates)
  }

  /** Lazy connection between two states of a grid: a channel open before
      stays the same; otherwise `ch` is open, and recorded as opened, exactly
      when an RPC was sent in between. */
  ghost predicate LazilyConnected(ch: Channel,
                                  log0: seq<AppCall>, channel0: Option<Channel>, events0: History,
                                  log1: seq<AppCall>, channel1: Option<Channel>, events1: History)
  {
    && |log0| <= |log1|
    && (|log1| == |log0| ==> channel1 == channel0)
    && (|log1| > |log0| ==> channel1 == Some(ch))
    && events1 == (if channel0.None? && |log1| > |log0| then Then(events0, Opened(ch)) else events0)
  }

  /** Two lazy connections in a row are one: the channel is opened at most
      once. */
  lemma LazilyConnectedTwice(ch: Channel,
                             log0: seq<AppCall>, channel0: Option<Channel>, events0: History,
                             log1: seq<AppCall>, channel1: Option<Channel>, events1: History,
                             log2: seq<AppCall>, channel2: Option<Channel>, events2: History)
    requires LazilyConnected(ch, log0, channel0, events0, log1, channel1, events1)
    requires LazilyConnected(ch, log1, channel1, events1, log2, channel2, events2)
    ensures LazilyConnected(ch, log0, channel0, events0, log2, channel2, events2)
  {
  }

  class GrpcGrid {
    const address: string
    const rootCertificates: Option<Bytes>
    /** The node this grid speaks for: always the SuperLink's own id. */
    const nodeId: int
    const peer: AppIoPeer
    const objects: ContentAddressing

    var run: Option<Run>
    var channel: Option<Channel>
    var grpcStub: Option<Stub>
    /** Every RPC sent so far, oldest first. */
    var log: seq<AppCall>
    /** Every channel opened or closed so far. */
    var channelEvents: History

    /** The stub exists exactly while the channel is open, and sits on it. */
    ghost predicate Valid()
      reads this
    {
      && nodeId == SUPERLINK_NODE_ID
      && (channel.None? <==> grpcStub.None?)
      && (channel.Some? ==>
            channel.value == NewChannel(address, rootCertificates)
            && grpcStub.value == ServerAppIoStub(channel.value))
    }

    /** Lazy connection, as every RPC-issuing operation leaves it: a channel
        open before stays the same; otherwise one is open now exactly when
        an RPC was sent. */
    twostate predicate ConnectedOnDemand()
      reads this
    {
      LazilyConnected(NewChannel(address, rootCertificates),
                      old(log), old(channel), old(channelEvents), log, channel, channelEvents)
    }

    /** `ConnectedOnDemand` measured from a remembered log and channel. */
    ghost predicate ConnectedSince(log0: seq<AppCall>, channel0: Option<Channel>, events0: History)
      reads this
    {
      LazilyConnected(NewChannel(address, rootCertificates), log0, channel0, events0, log, channel, channelEvents)
    }

    constructor(address: string, rootCertificates: Option<Bytes>, peer: AppIoPeer, objects: ContentAddressing)
      ensures Valid()
      ensures this.address == address && this.rootCertificates == rootCertificates
      ensures this.peer == peer && this.objects == objects
      ensures run.None? && channel.None? && grpcStub.None? && log == [] && channelEvents == Start
    {
      this.address := address;
      this.rootCertificates := rootCertificates;
      this.nodeId := SUPERLINK_NODE_ID;
      this.peer := peer;
      this.objects := objects;
      run := None;
      channel := None;
      grpcStub := None;
      log := [];
      channelEvents := Start;
    }

    /** `_is_connected`: connected means a channel is open, and then the
        stub is there too. */
    function IsConnected(): (r: bool)
      reads this
      requires Valid()
      ensures r <==> grpcStub.Some?
      ensures r ==> grpcStub.value.channel == NewChannel(address, rootCertificates)
    {
      channel.Some?
    }

    /** `_connect`: a no-op while connected; otherwise opens the channel and
        the stub on it. Sends nothing. */
    method Connect()
      requires Valid()
      modifies this
      ensures Valid()
      ensures old(channel).Some? ==> channel == old(channel) && grpcStub == old(grpcStub)
      ensures channel == Some(NewChannel(address, rootCertificates))
      ensures channelEvents == (if old(channel).None? then Then(old(channelEvents), Opened(NewChannel(address, rootCertificates)))
                                else old(channelEvents))
      ensures run == old(run) && log == old(log)
    {
      if IsConnected() {
        return;
      }
      var c := NewChannel(address, rootCertificates);
      channel := Some(c);
      grpcStub := Some(ServerAppIoStub(c));
      channelEvents := Then(channelEvents, Opened(c));
    }

    /** `_disconnect`: a no-op while disconnected; otherwise drops the
        channel and the stub and closes the channel. */
    method Disconnect()
      requires Valid()
      modifies this
      ensures Valid()
      ensures channel.None? && grpcStub.None?
      ensures old(channel).None? ==> channelEvents == old(channelEvents)
      ensures old(channel).Some? ==> channelEvents == Then(old(channelEvents), Closed(old(channel).value))
      ensures run == old(run) && log == old(log)
    {
      if !IsConnected() {
        return;
      }
      var c := channel.value;
      channel := None;
      grpcStub := None;
      channelEvents := Then(channelEvents, Closed(c));
    }

    /** `close`: disconnect if connected. */
    method Close()
      requires Valid()
      modifies this
      ensures Valid()
      ensures channel.None? && grpcStub.None?
      ensures old(channel).None? ==> channelEvents == old(channelEvents)
      ensures old(channel).Some? ==> channelEvents == Then(old(channelEvents), Closed(old(channel).value))
      ensures run == old(run) && log == old(log)
    {
      if !IsConnected() {
        return;
      }
      Disconnect();
    }

    /** `_stub`: connects first if disconnected, then hands out the stub. */
    method AccessStub() returns (s: Stub)
      requires Valid()
      modifies this
      ensures Valid()
      ensures old(channel).Some? ==> channel == old(channel)
      ensures channel == Some(NewChannel(address, rootCertificates)) && grpcStub == Some(s)
      ensures channelEvents == (if old(channel).None? then Then(old(channelEvents), Opened(NewChannel(address, rootCertificates)))
                                else old(channelEvents))
      ensures run == old(run) && log == old(log)
    {
      if !IsConnected() {
        Connect();
      }
      s := grpcStub.value;
    }

    /** `set_run`: one GetRun call. A failed call propagates its RpcError,
        a response without a run raises RuntimeError, and only a run in the
        response replaces the current one. */
    method SetRun(runId: int) returns (raised: Option<Error>)
      requires Valid()
      modifies this
      ensures Valid() && ConnectedOnDemand()
      ensures log == old(log) + [GetRun(runId)]
      ensures peer.getRun(log).Failed? ==> raised == Some(RpcError(peer.getRun(log).code)) && run == old(run)
      ensures peer.getRun(log) == Answered(None) ==> raised == Some(RuntimeError) && run == old(run)
      ensures peer.getRun(log).Answered? && peer.getRun(log).value.Some? ==>
        raised.None? && run == peer.getRun(log).value
    {
      var _ := AccessStub();
      log := log + [GetRun(runId)];
      match peer.getRun(log)
      case Failed(c) =>
        raised := Some(RpcError(c));
      case Answered(None) =>
        raised := Some(RuntimeError);
      case Answered(Some(r)) =>
        run := Some(r);
        raised := None;
    }

    /** `_try_push_message` on a stamped message: exactly the step `TryPush`
        describes. */
    method TryPushMessage(runId: int, message: Message) returns (r: Result<ObjectId>)
      requires Valid()
      modifies this
      ensures Valid() && ConnectedOnDemand() && run == old(run)
      ensures Step(r, log) == TryPush(peer, objects, old(log), runId, message)
    {
      var msgId := ObjectIdOf(objects, message);
      var stub := AccessStub();
      log := log + [PushAppMessages(runId, RemoveContent(message), objects.treeOf(message))];
      var res := peer.pushMessages(log);
      if res.Failed? {
        return Err(RpcError(res.code));
      }
      log := log + [PushObjects(nodeId, runId, ObjectsToPush(res.value, msgId))];
      var pushed := peer.pushObjects(log);
      if pushed.Failed? {
        return Err(RpcError(pushed.code));
      }
      r := Ok(msgId);
    }

    /** `push_messages`. Without a run, reading its id raises AttributeError.
        Otherwise the result and the new log are those of `PushAll`, and
        `after` is the caller's batch as the in-place metadata writes leave
        it: stamped up to the message where the loop stopped. */
    method PushMessages(messages: seq<Message>) returns (r: Result<seq<ObjectId>>, after: seq<Message>)
      requires Valid()
      modifies this
      ensures Valid() && ConnectedOnDemand() && run == old(run)
      ensures old(run).None? ==> r == Err(AttributeError) && after == messages && log == old(log)
      ensures old(run).Some? ==>
        var b := PushAll(peer, objects, old(log), old(run).value.runId, messages);
        && r == PushResult(b.outcome)
        && log == b.log
        && |b.stamped| <= |messages|
        && after == b.stamped + messages[|b.stamped|..]
    {
      if run.None? {
        return Err(AttributeError), messages;
      }
      var o;
      ghost var log0 := log;
      o, after := PushLoop(run.value.runId, messages);
      r := PushResult(o);
      PushFromIsPushAll(peer, objects, log0, run.value.runId, messages, 0, [], []);
      assert messages[0..] == messages;
      PrependNothing(PushAll(peer, objects, log0, run.value.runId, messages));
    }

    /** The loop of `push_messages`: stamp, validate and push each message
        in turn; exactly the loop `PushFrom` describes. */
    method PushLoop(runId: int, messages: seq<Message>) returns (o: PushOutcome, after: seq<Message>)
      requires Valid()
      modifies this
      ensures Valid() && ConnectedOnDemand() && run == old(run)
      ensures var b := PushFrom(peer, objects, old(log), runId, messages, 0, [], []);
        && BatchPush(o, log, b.stamped) == b
        && |b.stamped| <= |messages|
        && after == b.stamped + messages[|b.stamped|..]
    {
      ghost var log0, channel0, events0 := log, channel, channelEvents;
      var ids: seq<ObjectId> := [];
      var stamped: seq<Message> := [];
      while |stamped| < |messages|
        invariant |stamped| <= |messages|
        invariant Valid() && ConnectedSince(log0, channel0, events0) && run == old(run)
        invariant PushFrom(peer, objects, log0, runId, messages, 0, [], [])
               == PushFrom(peer, objects, log, runId, messages, |stamped|, ids, stamped)
        decreases |messages| - |stamped|
      {
        var i := |stamped|;
        var m := Stamp(objects, messages[i], runId);
        ghost var log1, channel1, events1 := log, channel, channelEvents;
        var id := CheckAndPush(runId, m);
        LazilyConnectedTwice(NewChannel(address, rootCertificates), log0, channel0, events0,
                             log1, channel1, events1, log, channel, channelEvents);
        if id.Err? {
          return Aborted(id.error), stamped + [m] + messages[i + 1..];
        }
        ids := ids + [id.value];
        stamped := stamped + [m];
      }
      return Pushed(ids), stamped;
    }

    /** The body of the loop of `push_messages` after stamping: validate,
        then `_try_push_message`; exactly the step `PushOne` describes. */
    method CheckAndPush(runId: int, message: Message) returns (r: Result<ObjectId>)
      requires Valid()
      modifies this
      ensures Valid() && ConnectedOnDemand() && run == old(run)
      ensures Step(r, log) == PushOne(peer, objects, old(log), runId, message)
    {
      if CheckMessage(message).Err? {
        return Err(ValueError);
      }
      r := TryPushMessage(runId, message);
    }

    /** One turn of the loop of `pull_messages`: exactly the step `PullOne`
        describes. */
    method PullMessage(runId: int, proto: Message, tree: ObjectTree) returns (r: Result<Message>)
      requires Valid() && channel.Some?
      modifies this
      ensures Valid() && channel == old(channel) && channelEvents == old(channelEvents) && run == old(run)
      ensures Step(r, log) == PullOne(peer, objects, old(log), runId, proto, tree)
    {
      var msgId := proto.metadata.messageId;
      var stub := AccessStub();
      log := log + [PullObjects(nodeId, runId, IterateObjectTree(tree))];
      var contents := peer.pullObjects(log);
      if contents.Failed? {
        return Err(RpcError(contents.code));
      }
      log := log + [ConfirmMessageReceived(nodeId, runId, msgId)];
      var confirmed := peer.confirm(log);
      if confirmed.Failed? {
        return Err(RpcError(confirmed.code));
      }
      r := Ok(WithMessageId(objects.inflate(msgId, contents.value), msgId));
    }

    /** The loop of `pull_messages` over the response pairs: exactly the
        loop `PullFrom` describes. */
    method PullLoop(runId: int, protos: seq<Message>, trees: seq<ObjectTree>) returns (o: PullOutcome)
      requires Valid() && channel.Some?
      modifies this
      ensures Valid() && channel == old(channel) && channelEvents == old(channelEvents) && run == old(run)
      ensures BatchPull(o, log) == PullFrom(peer, objects, old(log), runId, protos, trees, 0, [])
    {
      ghost var log0 := log;
      var inflated: seq<Message> := [];
      var i := 0;
      while i < |protos| && i < |trees|
        invariant Valid() && channel == old(channel) && channelEvents == old(channelEvents) && run == old(run)
        invariant PullFrom(peer, objects, log0, runId, protos, trees, 0, [])
               == PullFrom(peer, objects, log, runId, protos, trees, i, inflated)
        decreases |protos| - i
      {
        var message := PullMessage(runId, protos[i], trees[i]);
        if message.Err? {
          return PullAborted(message.error);
        }
        inflated := inflated + [message.value];
        i := i + 1;
      }
      o := PulledAll(inflated);
    }

    /** `pull_messages`. Without a run, reading its id raises AttributeError.
        Otherwise the result and the new log are those of `PullBatch`. */
    method PullMessages(ids: set<ObjectId>) returns (r: Result<seq<Message>>)
      requires Valid()
      modifies this
      ensures Valid() && ConnectedOnDemand() && run == old(run)
      ensures old(run).None? ==> r == Err(AttributeError) && log == old(log)
      ensures old(run).Some? ==>
        var b := PullBatch(peer, objects, old(log), old(run).value.runId, ids);
        r == PullResult(b.outcome) && log == b.log
    {
      if run.None? {
        return Err(AttributeError);
      }
      var runId := run.value.runId;
      var stub := AccessStub();
      log := log + [PullAppMessages(runId, ids)];
      var res := peer.pullMessages(log);
      if res.Failed? {
        return PullResult(PullAborted(RpcError(res.code)));
      }
      ghost var log1 := log;
      var o := PullLoop(runId, res.value.messages, res.value.trees);
      PullFromIsPullEach(peer, objects, log1, runId, res.value.messages, res.value.trees, 0, []);
      assert res.value.messages[0..] == res.value.messages && res.value.trees[0..] == res.value.trees;
      PrependPulledNothing(PullEach(peer, objects, log1, runId, res.value.messages, res.value.trees));
      PullEachGrows(peer, objects, log1, runId, res.value.messages, res.value.trees);
      r := PullResult(o);
    }
 
    /** `send_and_receive`: push the batch, then poll for replies to the
        pushed ids until every one is answered or the deadline passes.
        `clock(k)` is the k-th reading of the wall clock; without a timeout
        `fuel` bounds the otherwise unbounded loop. The result and the new
        log are those of `PushAll` followed by `Poll` with the budget the
        deadline admits. */
    method SendAndReceive(messages: seq<Message>, timeout: Option<real>, clock: nat -> real, fuel: nat)
      returns (r: Result<seq<Message>>)
      requires Valid() && Paced(clock)
      modifies this
      ensures Valid() && ConnectedOnDemand() && run == old(run)
      ensures old(run).None? ==> r == Err(AttributeError) && log == old(log)
      ensures old(run).Some? ==>
        var b := PushAll(peer, objects, old(log), old(run).value.runId, messages);
        var pushed := PushResult(b.outcome);
        && (pushed.Err? ==> r == Err(pushed.error) && log == b.log)
        && (pushed.Ok? ==>
              var p := Poll(peer, objects, b.log, old(run).value.runId, (set id | id in pushed.value), [],
                            Budget(timeout, clock, fuel));
              r == p.result && log == p.log)
    {
      var pushed, _ := PushMessages(messages);
      if pushed.Err? {
        return Err(pushed.error);
      }
      var msgIds := set id | id in pushed.value;
      r := AwaitReplies(msgIds, timeout, clock, fuel);
    }

    /** The polling loop of `send_and_receive`: exactly the loop `Poll`
        describes, with the budget the deadline admits. */
    method AwaitReplies(ids: set<ObjectId>, timeout: Option<real>, clock: nat -> real, fuel: nat)
      returns (r: Result<seq<Message>>)
      requires Valid() && run.Some? && Paced(clock)
      modifies this
      ensures Valid() && ConnectedSince(old(log), old(channel), old(channelEvents)) && run == old(run)
      ensures var p := Poll(peer, objects, old(log), run.value.runId, ids, [], Budget(timeout, clock, fuel));
        r == p.result && log == p.log
    {
      var endTime := clock(0) + (if timeout.Some? then timeout.value else 0.0);
      ghost var budget := Budget(timeout, clock, fuel);
      ghost var spec := Poll(peer, objects, log, run.value.runId, ids, [], budget);
      ghost var log0 := log;
      ghost var channel0 := channel;
      ghost var events0 := channelEvents;
      ghost var batches: seq<seq<Message>> := [];
      var msgIds := ids;
      var ret: seq<Message> := [];
      var polls: nat := 0;
      var done := false;
      r := Ok([]);
      while !done && ((timeout.None? && polls < fuel) || (timeout.Some? && clock(polls + 1) < endTime))
        invariant polls == |batches| <= budget && ret == Flatten(batches)
        invariant Valid() && run == old(run)
        invariant ConnectedSince(log0, channel0, events0)
        invariant !done ==> spec == Poll(peer, objects, log, run.value.runId, msgIds, batches, budget - polls)
        invariant done ==> spec == Polling(r, log, batches)
        decreases budget - polls, !done
      {
        BudgetIsGuard(timeout, clock, fuel, polls);
        ghost var left := budget - polls;
        var got;
        got, msgIds, ret, done := PollOnce(msgIds, ret, batches, left, spec, log0, channel0, events0);
        if got.Err? {
          r := got;
        } else {
          batches := batches + [got.value];
          polls := polls + 1;
          r := Ok(ret);
          assert budget - polls == left - 1;
        }
      }
      if !done {
        BudgetIsGuard(timeout, clock, fuel, polls);
        r := Ok(ret);
      }
    }

    /** One turn of the polling loop: one `pull_messages` for the ids
        still awaited, then the bookkeeping of `send_and_receive`; this is
        how `Poll` continues. */
    method PollOnce(msgIds: set<ObjectId>, ret: seq<Message>, ghost batches: seq<seq<Message>>, ghost left: nat,
                    ghost spec: Polling,
                    ghost log0: seq<AppCall>, ghost channel0: Option<Channel>, ghost events0: History)
      returns (got: Result<seq<Message>>, awaiting: set<ObjectId>, received: seq<Message>, done: bool)
      requires Valid() && run.Some? && left > 0 && ret == Flatten(batches)
      requires spec == Poll(peer, objects, log, run.value.runId, msgIds, batches, left)
      requires ConnectedSince(log0, channel0, events0)
      modifies this
      ensures Valid() && ConnectedOnDemand() && run == old(run)
      ensures ConnectedSince(log0, channel0, events0)
      ensures got.Err? ==> received == ret
      ensures got.Ok? ==> received == Flatten(batches + [got.value])
      ensures got.Err? ==> done && spec == Polling(got, log, batches)
      ensures got.Ok? && done ==> spec == Polling(Ok(received), log, batches + [got.value])
      ensures got.Ok? && !done ==>
        spec == Poll(peer, objects, log, run.value.runId, awaiting, batches + [got.value], left - 1)
    {
      got := PullMessages(msgIds);
      LazilyConnectedTwice(NewChannel(address, rootCertificates), log0, channel0, events0,
                           old(log), old(channel), old(channelEvents), log, channel, channelEvents);
      if got.Err? {
        return got, msgIds, ret, true;
      }
      FlattenOnceMore(batches, got.value);
      received := ret + got.value;
      awaiting := msgIds - ReplyIds(got.value);
      done := awaiting == {};
    }
  }
}
