/** Vocabulary shared by Flower's two client-side session objects: the
    status codes and exceptions they distinguish, the message envelope,
    the object trees that carry a message's payload, and the
    content-addressing layer (hashing, tree building, inflation), which
    the sessions use but do not define and which is therefore a parameter. */
module Protocol {

  /** Node id the SuperLink uses for itself (flwr/common/constant.py:82). */
  const SUPERLINK_NODE_ID: int := 1
  /** Heartbeat interval, in seconds, announced to the SuperLink (constant.py:59). */
  const HEARTBEAT_DEFAULT_INTERVAL: int := 30
  /** Deadline, in seconds, of one heartbeat call (constant.py:60). */
  const HEARTBEAT_CALL_TIMEOUT: int := 5

  datatype Option<T> = None | Some(value: T)

  /** The gRPC status codes the sessions tell apart; all others are `Other`. */
  datatype StatusCode = Unavailable | DeadlineExceeded | PermissionDenied | ResourceExhausted | Other

  /** What the remote side makes of one unary call: a response, or a
      failure carrying a status code (a `grpc.RpcError`). */
  datatype Reply<T> = Answered(value: T) | Failed(code: StatusCode)

  /** The exceptions the modelled code raises or lets through. */
  datatype Error =
    | RpcError(code: StatusCode)  // grpc.RpcError
    | RunNotRunning               // RunNotRunningException, raised by the participant's classifier
    | ValueError                  // an envelope that fails validation
    | RuntimeError                // a missing run, a refused heartbeat
    | AttributeError              // reading `run_id` of a run that was never set
    | IndexError                  // a message without its object tree

  /** A value, or the exception raised instead of returning it. */
  datatype Result<T> = Ok(value: T) | Err(error: Error)

  type ObjectId = string
  type Bytes = seq<bv8>

  /** Envelope of a message. `ttl` is only ever compared with zero. */
  datatype Metadata = Metadata(
    runId: int,
    messageId: string,
    srcNodeId: int,
    dstNodeId: int,
    replyToMessageId: string,
    groupId: string,
    ttl: real,
    messageType: string)

  /** The payload is opaque to the sessions. */
  datatype Content = Content(records: seq<Bytes>)

  datatype Message = Message(metadata: Metadata, content: Content)

  /** Content-addressed decomposition of a message: a root id and its children. */
  datatype ObjectTree = ObjectTree(objectId: ObjectId, children: seq<ObjectTree>)

  /** Response of a PullMessages call: message envelopes and, position by
      position, their object trees. */
  datatype Pulled = Pulled(messages: seq<Message>, trees: seq<ObjectTree>)

  /** An empty response: the call only succeeded. */
  datatype Ack = Ack

  /** A run descriptor (`run_from_proto` is taken as the identity). */
  datatype Run = Run(runId: int, fabId: string, fabVersion: string)

  /** Bytes of pulled objects, by id. */
  type Contents = map<ObjectId, Bytes>

  /** The content-addressing layer: the content hash of a deflated message,
      `get_object_tree` and `inflate_object_from_contents`. Their code is
      not part of this model, so the sessions are verified for every choice
      of these three functions. */
  datatype ContentAddressing = ContentAddressing(
    hash: Message -> ObjectId,
    treeOf: Message -> ObjectTree,
    inflate: (ObjectId, Contents) -> Message)

  /** `message` with `message_id` replaced by `id`: the id injection of
      grpc_grid.py:267 and :330 and connection.py:299. */
  function WithMessageId(m: Message, id: string): (r: Message)
    ensures r.metadata.messageId == id
    ensures r.content == m.content && r.metadata.(messageId := m.metadata.messageId) == m.metadata
  {
    m.(metadata := m.metadata.(messageId := id))
  }

  /** `message.object_id`: the hash of the deflated message, which does not
      contain the message's own `message_id`. */
  function ObjectIdOf(ca: ContentAddressing, m: Message): ObjectId
  {
    ca.hash(WithMessageId(m, ""))
  }

  /** Injecting a message id never changes the object id, so a message can
      carry its own object id as its `message_id`. */
  lemma ObjectIdIgnoresMessageId(ca: ContentAddressing, m: Message, id: string)
    ensures ObjectIdOf(ca, WithMessageId(m, id)) == ObjectIdOf(ca, m)
  {
    assert WithMessageId(WithMessageId(m, id), "") == WithMessageId(m, "");
  }

  /** `remove_content_from_message`: the envelope that goes into a
      PushMessages request, without the bulky payload. */
  function RemoveContent(m: Message): (r: Message)
    ensures r.metadata == m.metadata && r.content.records == []
  {
    m.(content := Content([]))
  }

  /** `objects_to_push[msg_id].object_ids` of a PushMessages response: a
      protobuf map answers a missing key with an empty entry. */
  function ObjectsToPush(missing: map<ObjectId, set<ObjectId>>, id: ObjectId): (r: set<ObjectId>)
    ensures id in missing ==> r == missing[id]
    ensures id !in missing ==> r == {}
  {
    if id in missing then missing[id] else {}
  }

  /** `iterate_object_tree`: every node of the tree, children before their
      parent, the root last. */
  function IterateObjectTree(t: ObjectTree): seq<ObjectId>
    decreases t, 1
  {
    IterateChildren(t, 0) + [t.objectId]
  }

  /** The ids of the subtrees `t.children[i..]`, in order. */
  function IterateChildren(t: ObjectTree, i: nat): seq<ObjectId>
    decreases t, 0, |t.children| - i
  {
    if i < |t.children| then IterateObjectTree(t.children[i]) + IterateChildren(t, i + 1) else []
  }

  /** Independent definition of "`id` names a node of `t`". */
  ghost predicate InTree(id: ObjectId, t: ObjectTree)
    decreases t
  {
    id == t.objectId || exists i :: 0 <= i < |t.children| && InTree(id, t.children[i])
  }

  /** The traversal lists exactly the nodes of the tree, so a pull of its
      ids requests every object of the message and nothing else. */
  lemma {:induction false} IterateObjectTreeCovers(t: ObjectTree, id: ObjectId)
    ensures id in IterateObjectTree(t) <==> InTree(id, t)
    ensures IterateObjectTree(t)[|IterateObjectTree(t)| - 1] == t.objectId
    decreases t, 1
  {
    IterateChildrenCover(t, 0, id);
  }

  lemma {:induction false} IterateChildrenCover(t: ObjectTree, i: nat, id: ObjectId)
    requires i <= |t.children|
    ensures id in IterateChildren(t, i) <==> exists j :: i <= j < |t.children| && InTree(id, t.children[j])
    decreases t, 0, |t.children| - i
  {
    if i < |t.children| {
      IterateObjectTreeCovers(t.children[i], id);
      IterateChildrenCover(t, i + 1, id);
      if id in IterateChildren(t, i) && !InTree(id, t.children[i]) {
        assert id in IterateChildren(t, i + 1);
      }
    }
  }
}
