/** The participant side of the Fleet API, as pure functions: the events a
    session records, how a failed call surfaces once it has gone through
    the retry invoker, how a heartbeat is judged, which pulled message is
    kept, and what `receive`, `send` and the teardown do to the log. */
module FleetTrace {
  import opened Protocol

  /** What a participant session does that the outside can observe: its
      Fleet RPCs (one entry per call, retries included) and the heartbeat
      sender and channel life cycle. */
  datatype Event =
    | Heartbeat(node: int, heartbeatInterval: int, deadline: int)   // SendNodeHeartbeat
    | Register(heartbeatInterval: int)                              // CreateNode
    | Deregister(node: int, maxTries: Option<nat>)                  // DeleteNode, with the retry budget in force
    | PullRequest(node: int)                                        // PullMessages
    | ObjectPull(node: int, runId: int, objectIds: seq<ObjectId>)   // pull_objects
    | Confirm(node: int, runId: int, messageId: ObjectId)           // ConfirmMessageReceived
    | Push(node: int, envelope: Message, tree: ObjectTree)          // PushMessages
    | ObjectPush(node: int, runId: int, missing: set<ObjectId>)     // push_objects
    | RunLookup(asNode: Option<int>, runId: int)                    // GetRun
    | FabLookup(asNode: Option<int>, hash: string, runId: int)      // GetFab
    | HeartbeatStarted
    | HeartbeatStopped
    | ChannelClosed

  /** A FAB as `get_fab` returns it. */
  datatype Fab = Fab(hashStr: string, content: Bytes)

  /** The SuperLink as the participant sees it, after the retry invoker:
      `Failed(code)` is the error of the last attempt. Each function
      receives the whole log, ending with the call it answers. */
  datatype FleetPeer = FleetPeer(
    heartbeat: seq<Event> -> Reply<bool>,
    register: seq<Event> -> Reply<int>,
    deregister: seq<Event> -> Reply<Ack>,
    pullMessages: seq<Event> -> Reply<Pulled>,
    pullObjects: seq<Event> -> Reply<Contents>,
    confirm: seq<Event> -> Reply<Ack>,
    pushMessages: seq<Event> -> Reply<map<ObjectId, set<ObjectId>>>,
    pushObjects: seq<Event> -> Reply<Ack>,
    getRun: seq<Event> -> Reply<Run>,
    getFab: seq<Event> -> Reply<Fab>)

  /** `_should_giveup_fn`, the classifier installed on the retry invoker:
      PERMISSION_DENIED raises RunNotRunningException, UNAVAILABLE asks for
      another attempt, every other code gives up. */
  function ShouldGiveUp(code: StatusCode): (r: Result<bool>)
    ensures r == Err(RunNotRunning) <==> code == PermissionDenied
    ensures r == Ok(false) <==> code == Unavailable
    ensures r == Ok(true) <==> code != PermissionDenied && code != Unavailable
  {
    if code == PermissionDenied then Err(RunNotRunning)
    else if code == Unavailable then Ok(false)
    else Ok(true)
  }

  /** The exception a failed call surfaces with: the classifier's own
      exception if it raises one, the gRPC error otherwise. Only
      PERMISSION_DENIED escapes an `except grpc.RpcError`. */
  function CallError(code: StatusCode): (e: Error)
    ensures e.RpcError? <==> code != PermissionDenied
    ensures e.RpcError? ==> e.code == code
    ensures !e.RpcError? ==> e == RunNotRunning
  {
    var verdict := ShouldGiveUp(code);
    if verdict.Err? then verdict.error else RpcError(code)
  }

  /** The verdict of `send_node_heartbeat` on a call that was made: a
      success flag, `false` for a transient failure, an exception
      otherwise. */
  function ClassifyHeartbeat(reply: Reply<bool>): (r: Result<bool>)
    ensures r == Ok(true) <==> reply == Answered(true)
    ensures r == Ok(false) <==> reply == Failed(Unavailable) || reply == Failed(DeadlineExceeded)
    ensures r == Err(RuntimeError) <==> reply == Answered(false)
    ensures r == Err(RunNotRunning) <==> reply == Failed(PermissionDenied)
    ensures reply.Failed? && r.Err? ==> r.error == CallError(reply.code)
  {
    match reply
    case Answered(success) => if success then Ok(true) else Err(RuntimeError)
    case Failed(code) =>
      match CallError(code)
      case RpcError(Unavailable) => Ok(false)
      case RpcError(DeadlineExceeded) => Ok(false)
      case e => Err(e)
  }

  /** The message `receive` keeps from a response: only the first one, and
      only if it is addressed to this node. */
  function Candidate(p: Pulled, node: int): (r: Option<Message>)
    ensures r.Some? <==> |p.messages| > 0 && p.messages[0].metadata.dstNodeId == node
    ensures r.Some? ==> r.value == p.messages[0]
  {
    if |p.messages| == 0 then None
    else if p.messages[0].metadata.dstNodeId != node then None
    else Some(p.messages[0])
  }

  /** A result and the log after an operation. */
  datatype Outcome<T> = Outcome(result: Result<T>, log: seq<Event>)

  /** `receive` for a registered node `node`. It always asks for messages
      once; it confirms a message only after pulling every object of its
      tree, at most once, and only when it returns that message, whose
      `message_id` is the envelope's id. Nothing else is sent. */
  function ReceiveTrace(peer: FleetPeer, ca: ContentAddressing, log: seq<Event>, node: int): (o: Outcome<Option<Message>>)
    ensures |log| < |o.log| <= |log| + 3 && o.log[..|log| + 1] == log + [PullRequest(node)]
    ensures o.result == Ok(None) ==> o.log == log + [PullRequest(node)]
    ensures o.result.Ok? && o.result.value.Some? ==>
      var reply := peer.pullMessages(log + [PullRequest(node)]);
      && reply.Answered? && |reply.value.messages| > 0 && |reply.value.trees| > 0
      && var proto := reply.value.messages[0];
      && proto.metadata.dstNodeId == node
      && o.result.value.value.metadata.messageId == proto.metadata.messageId
      && o.log == log + [PullRequest(node),
                         ObjectPull(node, proto.metadata.runId, IterateObjectTree(reply.value.trees[0])),
                         Confirm(node, proto.metadata.runId, proto.metadata.messageId)]
    ensures o.result.Err? && o.result.error == IndexError ==>
      && o.log == log + [PullRequest(node)] && peer.pullMessages(o.log).Answered?
      && Candidate(peer.pullMessages(o.log).value, node).Some?
    ensures o.result.Err? ==> o.result.error == IndexError || o.result.error.RpcError? || o.result.error == RunNotRunning
    ensures o.result.Ok? && o.result.value.Some? <==> |o.log| == |log| + 3 && peer.confirm(o.log).Answered?
  {
    var log1 := log + [PullRequest(node)];
    match peer.pullMessages(log1)
    case Failed(c) => Outcome(Err(CallError(c)), log1)
    case Answered(p) =>
      match Candidate(p, node)
      case None => Outcome(Ok(None), log1)
      case Some(proto) =>
        if |p.trees| == 0 then Outcome(Err(IndexError), log1)
        else
          var msgId := proto.metadata.messageId;
          var runId := proto.metadata.runId;
          var log2 := log1 + [ObjectPull(node, runId, IterateObjectTree(p.trees[0]))];
          match peer.pullObjects(log2)
          case Failed(c) => Outcome(Err(CallError(c)), log2)
          case Answered(contents) =>
            var log3 := log2 + [Confirm(node, runId, msgId)];
            match peer.confirm(log3)
            case Failed(c) => Outcome(Err(CallError(c)), log3)
            case Answered(_) => Outcome(Ok(Some(WithMessageId(ca.inflate(msgId, contents), msgId))), log3)
  }

  /** A message `receive` returns was preceded by one pull that asked for
      exactly the objects of its tree: every node of it, and nothing else. */
  lemma {:induction false} ReceivePullsWholeTree(peer: FleetPeer, ca: ContentAddressing, log: seq<Event>, node: int, id: ObjectId)
    requires ReceiveTrace(peer, ca, log, node).result.Ok? && ReceiveTrace(peer, ca, log, node).result.value.Some?
    ensures var o := ReceiveTrace(peer, ca, log, node);
      var tree := peer.pullMessages(log + [PullRequest(node)]).value.trees[0];
      && o.log[|log| + 1].ObjectPull?
      && (id in o.log[|log| + 1].objectIds <==> InTree(id, tree))
      && o.log[|log| + 1].objectIds[|o.log[|log| + 1].objectIds| - 1] == tree.objectId
  {
    var tree := peer.pullMessages(log + [PullRequest(node)]).value.trees[0];
    IterateObjectTreeCovers(tree, id);
  }

  /** `send` of `m` for a registered node `node`: exactly one PushMessages
      carrying the envelope without content; objects are pushed only when
      the SuperLink reports missing ones, and then exactly those it lists
      for the message's object id. */
  function SendTrace(peer: FleetPeer, ca: ContentAddressing, log: seq<Event>, node: int, m: Message): (o: Outcome<Ack>)
    ensures var push := Push(node, RemoveContent(m), ca.treeOf(m));
      var reply := peer.pushMessages(log + [push]);
      && |log| < |o.log| && o.log[..|log| + 1] == log + [push]
      && (reply.Failed? ==> o == Outcome(Err(CallError(reply.code)), log + [push]))
      && (reply == Answered(map[]) ==> o == Outcome(Ok(Ack), log + [push]))
      && (reply.Answered? && reply.value != map[] ==>
            o.log == log + [push, ObjectPush(node, m.metadata.runId, ObjectsToPush(reply.value, ObjectIdOf(ca, m)))])
    ensures o.result.Ok? <==>
      peer.pushMessages(o.log[..|log| + 1]).Answered? && (|o.log| == |log| + 1 || peer.pushObjects(o.log).Answered?)
    ensures o.result.Err? ==> o.result.error.RpcError? || o.result.error == RunNotRunning
  {
    var log1 := log + [Push(node, RemoveContent(m), ca.treeOf(m))];
    match peer.pushMessages(log1)
    case Failed(c) => Outcome(Err(CallError(c)), log1)
    case Answered(missing) =>
      if missing == map[] then Outcome(Ok(Ack), log1)
      else
        var log2 := log1 + [ObjectPush(node, m.metadata.runId, ObjectsToPush(missing, ObjectIdOf(ca, m)))];
        match peer.pushObjects(log2)
        case Failed(c) => Outcome(Err(CallError(c)), log2)
        case Answered(_) => Outcome(Ok(Ack), log2)
  }

  /** What the `finally` block of the session achieved: whether the channel
      got closed, and the exception that escaped it, if any. */
  datatype Cleanup = Cleanup(closed: bool, escaped: Option<Error>)

  /** The answer the teardown's single-attempt DeleteNode gets, if it
      sends one: `None` when no node is registered. */
  function Deregistration(peer: FleetPeer, log: seq<Event>, node: Option<int>): (d: Option<Reply<Ack>>)
    ensures d.Some? <==> node.Some?
  {
    if node.None? then None
    else Some(peer.deregister(log + [HeartbeatStopped, Deregister(node.value, Some(1))]))
  }

  /** The teardown as written. `deregistration` is the answer to the
      DeleteNode call it makes, `None` when no node was registered. An
      RpcError is swallowed, but the RunNotRunningException the classifier
      raises for PERMISSION_DENIED is not, and it skips `channel.close()`. */
  function CleanupAsWritten(deregistration: Option<Reply<Ack>>): (c: Cleanup)
    ensures !c.closed <==> deregistration == Some(Failed(PermissionDenied))
    ensures c.escaped.Some? <==> !c.closed
    ensures !c.closed ==> c.escaped == Some(RunNotRunning)
  {
    match deregistration
    case Some(Failed(code)) =>
      if CallError(code).RpcError? then Cleanup(true, None) else Cleanup(false, Some(CallError(code)))
    case _ => Cleanup(true, None)
  }

  /** The teardown as intended: a failed best-effort deregistration, for
      whatever reason, is swallowed and the channel is always closed. */
  function CleanupIntended(deregistration: Option<Reply<Ack>>): (c: Cleanup)
    ensures c.closed && c.escaped.None?
    ensures deregistration != Some(Failed(PermissionDenied)) ==> c == CleanupAsWritten(deregistration)
  {
    Cleanup(true, None)
  }

  /** A registered node whose deregistration is refused with
      PERMISSION_DENIED — a run that has already ended — leaves the
      session's channel open, and the exception escapes the cleanup. */
  lemma TeardownLeaksChannel()
    ensures CleanupAsWritten(Some(Failed(PermissionDenied))) == Cleanup(false, Some(RunNotRunning))
    ensures CleanupIntended(Some(Failed(PermissionDenied))) == Cleanup(true, None)
  {
  }
}
