/** The participant session `grpc_request_response`: one channel to the
    SuperLink's Fleet API, the node this participant is registered as, the
    heartbeat sender, the retry budget of the invoker, and the functions
    the session hands out. Every RPC and life-cycle step is appended to
    `log`; `peer` answers the RPCs. */
module Fleet {
  import opened Protocol
  import opened FleetTrace

  class FleetSession {
    const peer: FleetPeer
    const objects: ContentAddressing

    /** The registered node, if any (`node`, rebound by `nonlocal`). */
    var node: Option<int>
    /** Whether the heartbeat sender's background loop runs. */
    var heartbeatRunning: bool
    /** `retry_invoker.max_tries`; `None` is no bound on attempts. */
    var maxTries: Option<nat>
    var channelOpen: bool
    /** Everything the session did, oldest first. */
    var log: seq<Event>

    /** The heartbeat runs only for a registered node. */
    ghost predicate Valid()
      reads this
    {
      heartbeatRunning ==> node.Some?
    }

    /** The session as it is set up, before anything is sent: channel open,
        classifier installed, no node. */
    constructor(peer: FleetPeer, objects: ContentAddressing, maxTries: Option<nat>)
      ensures Valid()
      ensures this.peer == peer && this.objects == objects && this.maxTries == maxTries
      ensures node.None? && !heartbeatRunning && channelOpen && log == []
    {
      this.peer := peer;
      this.objects := objects;
      this.maxTries := maxTries;
      node := None;
      heartbeatRunning := false;
      channelOpen := true;
      log := [];
    }

    /** `send_node_heartbeat`: no node means `false` and no RPC; otherwise
        one heartbeat call announcing the default interval, with the
        heartbeat deadline, judged by `ClassifyHeartbeat`. */
    method SendNodeHeartbeat() returns (r: Result<bool>)
      modifies this`log
      ensures node.None? ==> r == Ok(false) && log == old(log)
      ensures node.Some? ==>
        && log == old(log) + [Heartbeat(node.value, HEARTBEAT_DEFAULT_INTERVAL, HEARTBEAT_CALL_TIMEOUT)]
        && r == ClassifyHeartbeat(peer.heartbeat(log))
    {
      if node.None? {
        return Ok(false);
      }
      log := log + [Heartbeat(node.value, HEARTBEAT_DEFAULT_INTERVAL, HEARTBEAT_CALL_TIMEOUT)];
      r := ClassifyHeartbeat(peer.heartbeat(log));
    }

    /** `create_node`: registers unconditionally, even over a registered
        node; on success remembers the new node, starts the heartbeat and
        returns the node's id. A failed call changes nothing else. */
    method CreateNode() returns (r: Result<int>)
      requires Valid()
      modifies this`log, this`node, this`heartbeatRunning
      ensures Valid()
      ensures var sent := old(log) + [Register(HEARTBEAT_DEFAULT_INTERVAL)];
        && (peer.register(sent).Failed? ==>
              && r == Err(CallError(peer.register(sent).code)) && log == sent
              && node == old(node) && heartbeatRunning == old(heartbeatRunning))
        && (peer.register(sent).Answered? ==>
              && r == Ok(peer.register(sent).value) && node == Some(peer.register(sent).value)
              && heartbeatRunning && log == sent + [HeartbeatStarted])
    {
      log := log + [Register(HEARTBEAT_DEFAULT_INTERVAL)];
      var reply := peer.register(log);
      if reply.Failed? {
        return Err(CallError(reply.code));
      }
      node := Some(reply.value);
      heartbeatRunning := true;
      log := log + [HeartbeatStarted];
      r := Ok(reply.value);
    }

    /** `delete_node`: without a node, nothing happens. Otherwise the
        heartbeat is stopped first, then DeleteNode is sent under the retry
        budget in force, and the node is forgotten only if that succeeds. */
    method DeleteNode() returns (r: Result<Ack>)
      requires Valid()
      modifies this`log, this`node, this`heartbeatRunning
      ensures Valid()
      ensures old(node).None? ==>
        r == Ok(Ack) && log == old(log) && node == old(node) && heartbeatRunning == old(heartbeatRunning)
      ensures old(node).Some? ==>
        var sent := old(log) + [HeartbeatStopped, Deregister(old(node).value, maxTries)];
        && log == sent && !heartbeatRunning
        && (peer.deregister(sent).Failed? ==> r == Err(CallError(peer.deregister(sent).code)) && node == old(node))
        && (peer.deregister(sent).Answered? ==> r == Ok(Ack) && node.None?)
    {
      if node.None? {
        return Ok(Ack);
      }
      heartbeatRunning := false;
      log := log + [HeartbeatStopped, Deregister(node.value, maxTries)];
      var reply := peer.deregister(log);
      if reply.Failed? {
        return Err(CallError(reply.code));
      }
      node := None;
      r := Ok(Ack);
    }

    /** `receive`: without a node, `None` and no RPC; otherwise exactly
        what `ReceiveTrace` describes. */
    method Receive() returns (r: Result<Option<Message>>)
      modifies this`log
      ensures node.None? ==> r == Ok(None) && log == old(log)
      ensures node.Some? ==> Outcome(r, log) == ReceiveTrace(peer, objects, old(log), node.value)
    {
      if node.None? {
        return Ok(None);
      }
      var n := node.value;
      log := log + [PullRequest(n)];
      var response := peer.pullMessages(log);
      if response.Failed? {
        return Err(CallError(response.code));
      }
      var proto := Candidate(response.value, n);
      if proto.None? {
        return Ok(None);
      }
      if |response.value.trees| == 0 {
        return Err(IndexError);
      }
      var msgId := proto.value.metadata.messageId;
      var runId := proto.value.metadata.runId;
      log := log + [ObjectPull(n, runId, IterateObjectTree(response.value.trees[0]))];
      var contents := peer.pullObjects(log);
      if contents.Failed? {
        return Err(CallError(contents.code));
      }
      log := log + [Confirm(n, runId, msgId)];
      var confirmed := peer.confirm(log);
      if confirmed.Failed? {
        return Err(CallError(confirmed.code));
      }
      r := Ok(Some(WithMessageId(objects.inflate(msgId, contents.value), msgId)));
    }

    /** `send`: without a node, no RPC; otherwise exactly what `SendTrace`
        describes. */
    method Send(message: Message) returns (r: Result<Ack>)
      modifies this`log
      ensures node.None? ==> r == Ok(Ack) && log == old(log)
      ensures node.Some? ==> Outcome(r, log) == SendTrace(peer, objects, old(log), node.value, message)
    {
      if node.None? {
        return Ok(Ack);
      }
      log := log + [Push(node.value, RemoveContent(message), objects.treeOf(message))];
      var response := peer.pushMessages(log);
      if response.Failed? {
        return Err(CallError(response.code));
      }
      if response.value != map[] {
        var toPush := ObjectsToPush(response.value, ObjectIdOf(objects, message));
        log := log + [ObjectPush(node.value, message.metadata.runId, toPush)];
        var pushed := peer.pushObjects(log);
        if pushed.Failed? {
          return Err(CallError(pushed.code));
        }
      }
      r := Ok(Ack);
    }

    /** `get_run`: one GetRun call, sent even without a node. */
    method GetRun(runId: int) returns (r: Result<Run>)
      modifies this`log
      ensures log == old(log) + [RunLookup(node, runId)]
      ensures peer.getRun(log).Failed? ==> r == Err(CallError(peer.getRun(log).code))
      ensures peer.getRun(log).Answered? ==> r == Ok(peer.getRun(log).value)
    {
      log := log + [RunLookup(node, runId)];
      var reply := peer.getRun(log);
      if reply.Failed? {
        return Err(CallError(reply.code));
      }
      r := Ok(reply.value);
    }

    /** `get_fab`: one GetFab call, sent even without a node. */
    method GetFab(hash: string, runId: int) returns (r: Result<Fab>)
      modifies this`log
      ensures log == old(log) + [FabLookup(node, hash, runId)]
      ensures peer.getFab(log).Failed? ==> r == Err(CallError(peer.getFab(log).code))
      ensures peer.getFab(log).Answered? ==> r == Ok(peer.getFab(log).value)
    {
      log := log + [FabLookup(node, hash, runId)];
      var reply := peer.getFab(log);
      if reply.Failed? {
        return Err(CallError(reply.code));
      }
      r := Ok(reply.value);
    }

    /** The `except`/`finally` of the session as written. Whatever the body
        raised (`bodyError`) is taken to be an `Exception`, logged and
        dropped. A registered node is
        deregistered with a single attempt; the outcome is
        `CleanupAsWritten`: the channel is closed unless the deregistration
        raised something other than an RpcError, which then escapes. */
    method TeardownAsWritten(bodyError: Option<Error>) returns (escaped: Option<Error>)
      requires Valid()
      modifies this`log, this`node, this`heartbeatRunning, this`maxTries, this`channelOpen
      ensures Valid()
      ensures var c := CleanupAsWritten(Deregistration(peer, old(log), old(node)));
        && escaped == c.escaped
        && (old(node).Some? ==> maxTries == Some(1) && !heartbeatRunning)
        && (old(node).Some? ==>
              node == (if Deregistration(peer, old(log), old(node)).value.Answered? then None else old(node)))
        && (old(node).None? ==> maxTries == old(maxTries) && node == old(node))
        && var stopped := old(log) + (if old(node).Some? then [HeartbeatStopped, Deregister(old(node).value, Some(1))] else []);
        && (c.closed ==> !channelOpen && log == stopped + [ChannelClosed])
        && (!c.closed ==> channelOpen == old(channelOpen) && log == stopped)
    {
      if node.Some? {
        maxTries := Some(1);
        var deleted := DeleteNode();
        if deleted.Err? && !deleted.error.RpcError? {
          return Some(deleted.error);
        }
      }
      channelOpen := false;
      log := log + [ChannelClosed];
      escaped := None;
    }

    /** The teardown as intended: the same single-attempt deregistration,
        any failure of it swallowed, and the channel closed on every path;
        the outcome is `CleanupIntended`. */
    method Teardown(bodyError: Option<Error>) returns (escaped: Option<Error>)
      requires Valid()
      modifies this`log, this`node, this`heartbeatRunning, this`maxTries, this`channelOpen
      ensures Valid() && !heartbeatRunning
      ensures Cleanup(!channelOpen, escaped) == CleanupIntended(Deregistration(peer, old(log), old(node)))
      ensures old(node).Some? ==>
        && maxTries == Some(1)
        && node == (if Deregistration(peer, old(log), old(node)).value.Answered? then None else old(node))
        && log == old(log) + [HeartbeatStopped, Deregister(old(node).value, Some(1)), ChannelClosed]
      ensures old(node).None? ==>
        maxTries == old(maxTries) && node == old(node) && log == old(log) + [ChannelClosed]
    {
      if node.Some? {
        maxTries := Some(1);
        var _ := DeleteNode();
      }
      channelOpen := false;
      log := log + [ChannelClosed];
      escaped := None;
    }
  }
}
