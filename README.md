# Flower session objects, modelled in Dafny

This project models the two client-side session objects of the Flower
federated-learning framework that talk to the SuperLink over gRPC.

- **`GrpcGrid`** is the coordinating application's ServerAppIo client
  (`framework/py/flwr/server/grid/grpc_grid.py`). It opens its channel
  lazily. It remembers the current run. It pushes a batch of messages one
  message at a time: it stamps each one with the run, the SuperLink's node
  id and its content-derived object id, then validates it, then sends it
  and the objects the SuperLink lacks. It pulls replies, fetching each
  reply's objects and confirming each reply once. `send_and_receive` polls
  until every pushed message has been answered or the deadline passes.
- **The `grpc_request_response` participant session**
  (`framework/py/flwr/client/grpc_rere_client/connection.py`) is a
  SuperNode's Fleet API connection. It covers registering and deregistering
  the node, the heartbeat, `receive` (first message only, addressed to this
  node, confirmed after its objects are pulled), `send`, `get_run`,
  `get_fab`, and the cleanup that runs when the session ends.

How the model is built:

- The SuperLink is a parameter (`GridTrace.AppIoPeer`, `FleetTrace.FleetPeer`):
  a datatype of functions that answer each RPC. Each function sees the
  session's whole call log up to and including the call it answers. Every
  property is therefore proved for every possible server behaviour.
- Each session is a class whose fields are the Python object's state,
  plus `log`, the RPCs sent so far. `GrpcGrid` also keeps
  `channelEvents`, the history of the channels it opened and closed
  (`Grid.History`, oldest event innermost).
- Each operation is a method whose postcondition ties its result and its
  new log to a pure function of the old log (`PushAll`, `PullBatch`,
  `Poll`, `ReceiveTrace`, `SendTrace`). Lemmas about those functions state
  what the operations promise: ordering, exactly-once confirmation,
  termination of the polling loop, and so on.
- The loops of `push_messages`, `pull_messages` and `send_and_receive`
  are `while` loops. Their invariants relate the loop state to an
  accumulating form of the function that describes them (`PushFrom`, `PullFrom`, `Poll`).
  Lemmas connect that form to the recursive definition.

Files:

- `protocol.dfy`: shared vocabulary. Status codes, exceptions, the message
  envelope, object trees and the content-addressing layer.
- `grid_trace.dfy`: the grid's RPCs and batch operations as functions of
  the log, and their properties.
- `grid.dfy`: class `GrpcGrid`.
- `fleet_trace.dfy`: the participant's error classification, `receive`,
  `send` and cleanup as functions of the log.
- `fleet.dfy`: class `FleetSession`, the state the session's closures share.

## Model

| member | source | states |
|---|---|---|
| Protocol.WithMessageId | framework/py/flwr/server/grid/grpc_grid.py:330 | the injected message carries the new id and is otherwise unchanged |
| Protocol.ObjectIdIgnoresMessageId | framework/py/flwr/client/grpc_rere_client/connection.py:297-299 | the object id of a message does not depend on its `message_id`, so a message can carry its own object id |
| Protocol.RemoveContent | framework/py/flwr/server/grid/grpc_grid.py:231 | the pushed envelope keeps all metadata and carries no payload |
| Protocol.ObjectsToPush | framework/py/flwr/server/grid/grpc_grid.py:240 | the objects to push are those listed under the message's object id, or none if it is missing from the response map |
| Protocol.IterateObjectTreeCovers | framework/py/flwr/server/grid/grpc_grid.py:310-313 | the ids requested by an object pull are exactly the nodes of the message's tree, with the root last |
| Protocol.IterateChildrenCover | framework/py/flwr/server/grid/grpc_grid.py:310-313 | the traversal of a node's children lists exactly the nodes of those subtrees |
| GridTrace.CheckMessage | framework/py/flwr/server/grid/grpc_grid.py:183-190 | a message is accepted iff it has an id, is not a reply, and has a positive TTL; otherwise ValueError |
| GridTrace.StampOverwrites | framework/py/flwr/server/grid/grpc_grid.py:265-267 | stamping sets the run id, sets the SuperLink as sender and sets the message's own object id as its id; content and all other metadata are unchanged |
| GridTrace.TryPushShape | framework/py/flwr/server/grid/grpc_grid.py:221-251 | one PushMessages with the envelope and tree; the object push happens iff that call succeeds, and pushes exactly the objects the SuperLink reports missing; the result is the object id; failures are RPC errors |
| GridTrace.PushOneShape | framework/py/flwr/server/grid/grpc_grid.py:268-272 | an invalid message raises ValueError without any RPC; a valid one is pushed |
| GridTrace.PushAllShape | framework/py/flwr/server/grid/grpc_grid.py:262-272 | the log only grows; stamping covers a prefix of the batch, and all of it when the loop completes; an abort follows at least one stamped message |
| GridTrace.PushFromIsPushAll | framework/py/flwr/server/grid/grpc_grid.py:262-272 | the accumulating loop computes the same outcome, log and stamped messages as the recursive definition |
| GridTrace.PushResult | framework/py/flwr/server/grid/grpc_grid.py:274-289 | a complete loop returns its ids; RESOURCE_EXHAUSTED gives an empty list; every other exception propagates unchanged |
| GridTrace.Envelopes | framework/py/flwr/server/grid/grpc_grid.py:231 | one content-free envelope per message, position by position |
| GridTrace.TryPushEnvelopes | framework/py/flwr/server/grid/grpc_grid.py:229-250 | pushing one message puts exactly its envelope on the wire and requests no messages |
| GridTrace.PushAllIdsInOrder | framework/py/flwr/server/grid/grpc_grid.py:263-272 | on success there is one id per input message, in order; each is that message's object id and its new `message_id`, and each message passed validation |
| GridTrace.PushAllAfterFirst | framework/py/flwr/server/grid/grpc_grid.py:263-272 | after a first message that went through, the batch continues from the log it left, and its envelope is first on the wire |
| GridTrace.PushAllEnvelopesInOrder | framework/py/flwr/server/grid/grpc_grid.py:263-272 | a complete push sends exactly the stamped envelopes, in input order, and requests no messages |
| GridTrace.PushAllRejectsLast | framework/py/flwr/server/grid/grpc_grid.py:268-269 | when the batch is rejected, the last stamped message failed validation and every earlier one passed |
| GridTrace.PushAllRejectsLate | framework/py/flwr/server/grid/grpc_grid.py:262-272 | validation is not batch-atomic: when message k is rejected, exactly the envelopes of messages 0..k-1 have been sent |
| GridTrace.PullOneShape | framework/py/flwr/server/grid/grpc_grid.py:309-331 | one pull of every object in the tree; the confirmation is sent iff that pull succeeds; a returned message is the inflated one carrying the envelope's id |
| GridTrace.PullEachGrows | framework/py/flwr/server/grid/grpc_grid.py:308-331 | the pull loop only appends to the log |
| GridTrace.PullBatchShape | framework/py/flwr/server/grid/grpc_grid.py:297-305 | `pull_messages` starts with its one PullMessages request; a failed request ends it with that error |
| GridTrace.PullFromIsPullEach | framework/py/flwr/server/grid/grpc_grid.py:307-333 | the accumulating loop computes the same outcome and log as the recursive definition |
| GridTrace.PullResult | framework/py/flwr/server/grid/grpc_grid.py:333-339 | complete pulls return their messages; RESOURCE_EXHAUSTED gives an empty list; other exceptions propagate |
| GridTrace.PullEachInOrder | framework/py/flwr/server/grid/grpc_grid.py:308-331 | a complete pull returns one message per (envelope, tree) pair, truncated to the shorter list, in order; each carries its envelope's id |
| GridTrace.PullEachLog | framework/py/flwr/server/grid/grpc_grid.py:308-326 | a complete pull appends exactly one object pull and one confirmation per pair |
| GridTrace.PullCallsConfirmEach | framework/py/flwr/server/grid/grpc_grid.py:321-326 | each handled message is confirmed exactly once, in order, and no message is requested or pushed |
| GridTrace.PullBatchConfirmsReturned | framework/py/flwr/server/grid/grpc_grid.py:297-333 | a complete `pull_messages` sends one request, pushes nothing, and confirms exactly the returned messages, each once and in order |
| GridTrace.ReplyIdsNamed | framework/py/flwr/server/grid/grpc_grid.py:362-364 | an id is answered by a batch iff some reply in it names it as `reply_to_message_id` |
| GridTrace.RemainingIsAnsweredDifference | framework/py/flwr/server/grid/grpc_grid.py:361-364 | the awaited set is the pushed ids minus those answered by any reply received so far, so it only shrinks |
| GridTrace.PullEachAsksNothing | framework/py/flwr/server/grid/grpc_grid.py:308-331 | the pull loop sends no PullMessages request |
| GridTrace.PullBatchAsksOnce | framework/py/flwr/server/grid/grpc_grid.py:297-333 | whatever happens, one `pull_messages` sends exactly one PullMessages request, for the given ids |
| GridTrace.PollsAllowed | framework/py/flwr/server/grid/grpc_grid.py:357-368 | the number of polls whose guard reading comes before the deadline: every earlier guard passes and the next one fails |
| GridTrace.BudgetIsGuard | framework/py/flwr/server/grid/grpc_grid.py:357-359 | with a timeout, the loop guard `time.time() < end_time` holds iff the poll budget is not spent |
| GridTrace.PollOnceMore | framework/py/flwr/server/grid/grpc_grid.py:362-364 | one more poll removes from the awaited set exactly the ids its replies answer |
| GridTrace.FlattenOnceMore | framework/py/flwr/server/grid/grpc_grid.py:361 | one more poll appends its replies to those returned so far |
| GridTrace.Awaited | framework/py/flwr/server/grid/grpc_grid.py:359-364 | the sequence of id sets awaited before each poll |
| GridTrace.PollGrows | framework/py/flwr/server/grid/grpc_grid.py:359-368 | polling only appends batches, at most one per allowed poll, and only appends to the log |
| GridTrace.PollStops | framework/py/flwr/server/grid/grpc_grid.py:359-369 | a successful end returns every reply received, in order; it ends when nothing is awaited or when the budget is spent, and never polls again after nothing is awaited |
| GridTrace.PollAsksForAwaited | framework/py/flwr/server/grid/grpc_grid.py:359-364 | each poll requests exactly the ids still unanswered at that point, starting with all pushed ids |
| Grid.NewChannel | framework/py/flwr/server/grid/grpc_grid.py:141-145 | the channel is opened to the address, and is insecure iff no root certificates are given |
| Grid.GrpcGrid.constructor | framework/py/flwr/server/grid/grpc_grid.py:114-126 | a new grid has no run, no channel, no stub, no calls sent and no channel opened or closed yet |
| Grid.GrpcGrid.IsConnected | framework/py/flwr/server/grid/grpc_grid.py:128-131 | connected iff a channel is open, and then the stub sits on that channel |
| Grid.GrpcGrid.Connect | framework/py/flwr/server/grid/grpc_grid.py:133-149 | a no-op when connected; otherwise opens the channel and stub, and the channel's opening is recorded exactly then; sends nothing |
| Grid.GrpcGrid.Disconnect | framework/py/flwr/server/grid/grpc_grid.py:151-160 | afterwards no channel and no stub; the channel that was open is closed, and nothing is closed when none was; run and log unchanged |
| Grid.GrpcGrid.Close | framework/py/flwr/server/grid/grpc_grid.py:371-377 | afterwards disconnected, with the open channel closed exactly once; a no-op when not connected |
| Grid.GrpcGrid.AccessStub | framework/py/flwr/server/grid/grpc_grid.py:176-181 | connects only if needed, opening a channel only when none is open, and returns the stub on the grid's channel |
| Grid.LazilyConnectedTwice | framework/py/flwr/server/grid/grpc_grid.py:137-140 | however many RPCs go through the lazily connected stub, the channel is opened at most once and never replaced |
| Grid.GrpcGrid.SetRun | framework/py/flwr/server/grid/grpc_grid.py:162-169 | one GetRun call; an RPC error propagates, a response without a run raises RuntimeError, and only a returned run replaces the current one |
| Grid.GrpcGrid.TryPushMessage | framework/py/flwr/server/grid/grpc_grid.py:221-251 | result and new log are those of `TryPush`; the channel is opened on demand |
| Grid.GrpcGrid.PushMessages | framework/py/flwr/server/grid/grpc_grid.py:253-289 | without a run, AttributeError and no call; otherwise result and log of `PushAll`, and the caller's messages stamped up to where the loop stopped |
| Grid.GrpcGrid.PushLoop | framework/py/flwr/server/grid/grpc_grid.py:262-272 | the loop produces exactly the outcome, log and stamped messages of `PushFrom` |
| Grid.GrpcGrid.CheckAndPush | framework/py/flwr/server/grid/grpc_grid.py:268-272 | result and new log are those of `PushOne` |
| Grid.GrpcGrid.PullMessage | framework/py/flwr/server/grid/grpc_grid.py:308-331 | result and new log are those of `PullOne` |
| Grid.GrpcGrid.PullLoop | framework/py/flwr/server/grid/grpc_grid.py:307-333 | the loop produces exactly the outcome and log of `PullFrom` |
| Grid.GrpcGrid.PullMessages | framework/py/flwr/server/grid/grpc_grid.py:291-339 | without a run, AttributeError and no call; otherwise result and log of `PullBatch` |
| Grid.GrpcGrid.SendAndReceive | framework/py/flwr/server/grid/grpc_grid.py:341-369 | push the batch; a failed push ends the call with its error; otherwise result and log of `Poll` over the pushed ids, with the budget the deadline admits |
| Grid.GrpcGrid.AwaitReplies | framework/py/flwr/server/grid/grpc_grid.py:357-369 | the polling loop produces exactly the result and log of `Poll` |
| Grid.GrpcGrid.PollOnce | framework/py/flwr/server/grid/grpc_grid.py:360-366 | one poll: the replies are appended, the answered ids removed, and the loop stops on an error or when nothing is awaited, exactly as `Poll` continues |
| FleetTrace.ShouldGiveUp | framework/py/flwr/client/grpc_rere_client/connection.py:166-171 | PERMISSION_DENIED raises RunNotRunning, UNAVAILABLE is retried, every other code gives up |
| FleetTrace.CallError | framework/py/flwr/client/grpc_rere_client/connection.py:166-178 | a failed call surfaces as its RPC error, except PERMISSION_DENIED, which surfaces as RunNotRunning |
| FleetTrace.ClassifyHeartbeat | framework/py/flwr/client/grpc_rere_client/connection.py:195-213 | true iff the SuperLink answers success; false iff the call fails UNAVAILABLE or DEADLINE_EXCEEDED; RuntimeError iff it answers failure; RunNotRunning iff PERMISSION_DENIED |
| FleetTrace.Candidate | framework/py/flwr/client/grpc_rere_client/connection.py:260-269 | only the first pulled message is kept, and only if it is addressed to this node |
| FleetTrace.ReceiveTrace | framework/py/flwr/client/grpc_rere_client/connection.py:249-302 | always one pull request; a message is returned iff its objects were pulled and its confirmation was answered; then exactly pull, object pull of its tree, confirm were sent, and it carries its envelope's id; a missing tree raises IndexError |
| FleetTrace.ReceivePullsWholeTree | framework/py/flwr/client/grpc_rere_client/connection.py:277-285 | a returned message was preceded by one object pull asking for exactly the nodes of its tree, root last |
| FleetTrace.SendTrace | framework/py/flwr/client/grpc_rere_client/connection.py:304-340 | one push of the content-free envelope; objects are pushed only when the SuperLink reports missing ones, and exactly those under the message's object id; success iff every call made succeeded |
| FleetTrace.Deregistration | framework/py/flwr/client/grpc_rere_client/connection.py:364-368 | the cleanup's DeleteNode is sent iff a node is registered |
| FleetTrace.CleanupAsWritten | framework/py/flwr/client/grpc_rere_client/connection.py:363-371 | the channel stays open, and RunNotRunning escapes, iff deregistration fails with PERMISSION_DENIED |
| FleetTrace.CleanupIntended | framework/py/flwr/client/grpc_rere_client/connection.py:363-371 | the channel is always closed and nothing escapes; agrees with the code on every other deregistration outcome |
| FleetTrace.TeardownLeaksChannel | framework/py/flwr/client/grpc_rere_client/connection.py:364-371 | the PERMISSION_DENIED deregistration that separates the code from the intended cleanup |
| Fleet.FleetSession.constructor | framework/py/flwr/client/grpc_rere_client/connection.py:151-178 | a new session has an open channel, no node, no heartbeat and no calls sent |
| Fleet.FleetSession.SendNodeHeartbeat | framework/py/flwr/client/grpc_rere_client/connection.py:183-213 | without a node, false and no call; otherwise one heartbeat with the default interval and call deadline, judged by `ClassifyHeartbeat` |
| Fleet.FleetSession.CreateNode | framework/py/flwr/client/grpc_rere_client/connection.py:217-229 | one registration; on success the node is remembered, the heartbeat starts and the id is returned; a failure changes nothing else |
| Fleet.FleetSession.DeleteNode | framework/py/flwr/client/grpc_rere_client/connection.py:231-247 | without a node, nothing; otherwise the heartbeat stops before the deregistration is sent, and the node is forgotten only if it succeeds |
| Fleet.FleetSession.Receive | framework/py/flwr/client/grpc_rere_client/connection.py:249-302 | without a node, none and no call; otherwise result and log of `ReceiveTrace` |
| Fleet.FleetSession.Send | framework/py/flwr/client/grpc_rere_client/connection.py:304-340 | without a node, no call; otherwise result and log of `SendTrace` |
| Fleet.FleetSession.GetRun | framework/py/flwr/client/grpc_rere_client/connection.py:342-348 | one GetRun call, sent even without a node; its run or its surfaced error |
| Fleet.FleetSession.GetFab | framework/py/flwr/client/grpc_rere_client/connection.py:350-355 | one GetFab call, sent even without a node; its FAB or its surfaced error |
| Fleet.FleetSession.TeardownAsWritten | framework/py/flwr/client/grpc_rere_client/connection.py:357-371 | retries are limited to one attempt, the heartbeat stops, one deregistration is sent, and the node is forgotten iff it is answered; the channel is closed and the escaping error is exactly as `CleanupAsWritten` says |
| Fleet.FleetSession.Teardown | framework/py/flwr/client/grpc_rere_client/connection.py:357-371 | stop heartbeat, deregister once (forgetting the node iff answered), close the channel; the closed channel and the nothing-escapes result are exactly `CleanupIntended` |

## Left out

- Channel creation, TLS, the authentication interceptor and channel-state subscriptions are not modelled. A channel is a value recording its address and security; the grid records when it opens and closes one (`channelEvents`).
- The retry invoker is not modelled. A peer's answer is the outcome after retries, and `Failed(code)` is the last attempt's error. The participant's log records the retry budget in force (`Deregister(node, maxTries)`), so a peer may answer according to it.
- Classification follows the invoker's documented policy: a failed attempt is classified before the attempt bound is checked. The invoker's code is not part of this model.
- The heartbeat sender's background thread is a flag plus start and stop events. Its periodic calls are `SendNodeHeartbeat`, invoked by the environment.
- Hashing, `get_object_tree` and `inflate_object_from_contents` are parameters (`ContentAddressing`). `iterate_object_tree` is written out with children before their parent; its code is not part of this model. `get_all_nested_objects` is not modelled: the objects available to an object push are not represented, only the ids asked for. Serialisation to and from protobuf is the identity.
- Object transfer (`push_objects` / `pull_objects`, with their worker pool and per-object retries) is one abstract call each. Its internal parallelism and per-object limits are not modelled. A failed transfer is a `Failed(code)` answer, surfacing as an `RpcError` (through `CallError` on the participant). Exceptions the transfer layer raises itself, such as running out of tries for one object, are not told apart from RPC errors.
- The `msg_id is None` branch of `_try_push_message` is not modelled. Object ids are always strings, so that branch cannot be taken.
- `get_node_ids`, `create_message` (deprecated), the `run` property and all logging are not modelled.
- Grid.GrpcGrid.SendAndReceive: without a timeout the source polls until every reply has arrived, possibly forever. The model bounds that loop with a `fuel` number of polls.
- Grid.GrpcGrid.SendAndReceive: the wall clock is a sequence of readings supplied as a parameter. The 3-second sleep between polls is assumed via `Paced`.
- Grid.GrpcGrid.PullMessages: the caller's `message_ids` iterable is a set of ids. The order and duplicates of the ids sent in the PullMessages request are not modelled; `send_and_receive` passes a set anyway (grpc_grid.py:354).
- Fleet.FleetSession.TeardownAsWritten: the error the session's body raised (`bodyError`) is taken to be an `Exception` and dropped by `except Exception` (connection.py:360), `RunNotRunning` included. The class hierarchy of `RunNotRunningException` is not part of this model. If it derives from `BaseException` only, a `RunNotRunning` from the body would propagate after the cleanup; the model does not capture that.
- Grid.GrpcGrid.PushMessages: the in-place metadata writes on the caller's message objects are returned as a new sequence (`after`). Aliasing between messages in the batch is not modelled.
- A protobuf sub-message is taken to be present whenever it is read. `Answered(None)` models only the one `HasField` check the source makes (`set_run`).
- The participant's `get_fab` FAB and `get_run` run are returned as the peer gives them.
- `push_messages` warns about `None` slots in its result (grpc_grid.py:280-287), but no path fills one: the first exception ends the whole batch (grpc_grid.py:274-289). The model follows the code and has no `None` slots.
- Validation runs message by message inside the loop (grpc_grid.py:268-272), so messages 0..k-1 are already sent when message k is rejected (`PushAllRejectsLate`).

## Findings

| source | as written | input that shows it | evidently intended | confidence | as-written member | corrected member |
|---|---|---|---|---|---|---|
| framework/py/flwr/client/grpc_rere_client/connection.py:364-371 | the cleanup catches only `grpc.RpcError`. On PERMISSION_DENIED the classifier raises `RunNotRunningException` instead, so the exception escapes the `finally` block and `channel.close()` is skipped | a registered node whose cleanup DeleteNode fails with PERMISSION_DENIED (the run has already ended) | cleanup errors are swallowed after one attempt, and the channel is always closed | not executed; relies on the retry invoker consulting the classifier before its attempt bound | FleetTrace.CleanupAsWritten, FleetTrace.TeardownLeaksChannel, Fleet.FleetSession.TeardownAsWritten | FleetTrace.CleanupIntended, Fleet.FleetSession.Teardown |
