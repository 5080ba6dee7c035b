/** Calls the coordinating application's grid puts on the ServerAppIo
    service, and the per-message steps of `push_messages` and
    `pull_messages` as functions of the call log. The class in grid.dfy
    runs these steps one RPC at a time and is proved to produce exactly
    the results and logs described here; the lemmas below say what they
    mean. */
module GridTrace {
  import opened Protocol

  /** One request on the ServerAppIo stub. The object transfers
      `push_objects`/`pull_objects` are one abstract call each. */
  datatype AppCall =
    | GetRun(runId: int)
    | PushAppMessages(runId: int, message: Message, tree: ObjectTree)
    | PushObjects(node: int, runId: int, toPush: set<ObjectId>)
    | PullAppMessages(runId: int, ids: set<ObjectId>)
    | PullObjects(node: int, runId: int, objectIds: seq<ObjectId>)
    | ConfirmMessageReceived(node: int, runId: int, messageId: ObjectId)

  /** The SuperLink as the grid sees it. Each function receives the whole
      log, ending with the call it answers, so an answer may depend on
      everything sent so far. */
  datatype AppIoPeer = AppIoPeer(
    getRun: seq<AppCall> -> Reply<Option<Run>>,
    pushMessages: seq<AppCall> -> Reply<map<ObjectId, set<ObjectId>>>,
    pushObjects: seq<AppCall> -> Reply<Ack>,
    pullMessages: seq<AppCall> -> Reply<Pulled>,
    pullObjects: seq<AppCall> -> Reply<Contents>,
    confirm: seq<AppCall> -> Reply<Ack>)

  /** `_check_message`: a message may be pushed only if it has an id, is not
      a reply, and has a positive time-to-live. */
  function CheckMessage(m: Message): (r: Result<Ack>)
    ensures r.Ok? <==> m.metadata.messageId != "" && m.metadata.replyToMessageId == "" && m.metadata.ttl > 0.0
    ensures r.Err? ==> r.error == ValueError
  {
    if m.metadata.messageId != "" && m.metadata.replyToMessageId == "" && m.metadata.ttl > 0.0
    then Ok(Ack) else Err(ValueError)
  }

  /** The metadata `push_messages` writes before validating a message: the
      current run, the SuperLink as sender, and the message's object id as
      its id. */
  function Stamp(ca: ContentAddressing, m: Message, runId: int): Message
  {
    var m1 := m.(metadata := m.metadata.(runId := runId, srcNodeId := SUPERLINK_NODE_ID));
    WithMessageId(m1, ObjectIdOf(ca, m1))
  }

  /** Stamping writes the run, the sender and the id and nothing else;
      the id it writes is the object id of the stamped message itself. */
  lemma StampOverwrites(ca: ContentAddressing, m: Message, runId: int)
    ensures var s := Stamp(ca, m, runId);
      && s.metadata.runId == runId && s.metadata.srcNodeId == SUPERLINK_NODE_ID
      && s.metadata.messageId == ObjectIdOf(ca, s)
      && s.content == m.content
      && s.metadata.(runId := m.metadata.runId, srcNodeId := m.metadata.srcNodeId,
                     messageId := m.metadata.messageId) == m.metadata
  {
    var m1 := m.(metadata := m.metadata.(runId := runId, srcNodeId := SUPERLINK_NODE_ID));
    ObjectIdIgnoresMessageId(ca, m1, ObjectIdOf(ca, m1));
  }

  /** A result with the log as it stands afterwards. */
  datatype Step<T> = Step(result: Result<T>, log: seq<AppCall>)

  /** `_try_push_message` for an already stamped message: one PushMessages
      call, then the push of exactly the objects the SuperLink reports
      missing for this message. */
  function TryPush(peer: AppIoPeer, ca: ContentAddressing, log: seq<AppCall>, runId: int, m: Message): Step<ObjectId>
  {
    var msgId := ObjectIdOf(ca, m);
    var log1 := log + [PushAppMessages(runId, RemoveContent(m), ca.treeOf(m))];
    match peer.pushMessages(log1)
    case Failed(c) => Step(Err(RpcError(c)), log1)
    case Answered(missing) =>
      var log2 := log1 + [PushObjects(SUPERLINK_NODE_ID, runId, ObjectsToPush(missing, msgId))];
      match peer.pushObjects(log2)
      case Failed(c) => Step(Err(RpcError(c)), log2)
      case Answered(_) => Step(Ok(msgId), log2)
  }

  /** `_try_push_message` sends one PushMessages request with the envelope
      and the object tree, and, only if that succeeds, pushes exactly the
      objects listed as missing under the message's object id; its result
      is that object id. */
  lemma TryPushShape(peer: AppIoPeer, ca: ContentAddressing, log: seq<AppCall>, runId: int, m: Message)
    ensures var s := TryPush(peer, ca, log, runId, m);
      && |s.log| in {|log| + 1, |log| + 2} && s.log[..|log|] == log
      && s.log[|log|] == PushAppMessages(runId, RemoveContent(m), ca.treeOf(m))
      && (|s.log| == |log| + 2 <==> peer.pushMessages(s.log[..|log| + 1]).Answered?)
      && (|s.log| == |log| + 2 ==>
            s.log[|log| + 1] == PushObjects(SUPERLINK_NODE_ID, runId,
                                            ObjectsToPush(peer.pushMessages(s.log[..|log| + 1]).value, ObjectIdOf(ca, m))))
      && (s.result.Ok? ==> s.result.value == ObjectIdOf(ca, m))
      && (s.result.Err? ==> s.result.error.RpcError?)
  {
    var log1 := log + [PushAppMessages(runId, RemoveContent(m), ca.treeOf(m))];
    assert log1[..|log| + 1] == log1;
    if peer.pushMessages(log1).Answered? {
      var log2 := log1 + [PushObjects(SUPERLINK_NODE_ID, runId, ObjectsToPush(peer.pushMessages(log1).value, ObjectIdOf(ca, m)))];
      assert log2[..|log| + 1] == log1;
    }
  }

  /** One turn of the loop of `push_messages` for an already stamped
      message: validation, then `_try_push_message`. A rejected message puts
      nothing on the wire. */
  function PushOne(peer: AppIoPeer, ca: ContentAddressing, log: seq<AppCall>, runId: int, m: Message): Step<ObjectId>
  {
    if CheckMessage(m).Err? then Step(Err(ValueError), log) else TryPush(peer, ca, log, runId, m)
  }

  /** A message that fails validation raises ValueError before any call;
      one that passes is pushed. */
  lemma PushOneShape(peer: AppIoPeer, ca: ContentAddressing, log: seq<AppCall>, runId: int, m: Message)
    ensures var s := PushOne(peer, ca, log, runId, m);
      && (s.result == Err(ValueError) <==> CheckMessage(m).Err?)
      && (CheckMessage(m).Err? ==> s.log == log)
      && (CheckMessage(m).Ok? ==> s == TryPush(peer, ca, log, runId, m))
  {
    TryPushShape(peer, ca, log, runId, m);
  }

  /** How the loop of `push_messages` ends: every message pushed, or an
      exception out of message number `|stamped| - 1`. */
  datatype PushOutcome = Pushed(ids: seq<ObjectId>) | Aborted(error: Error)

  /** The loop's outcome, the log, and the messages stamped so far. */
  datatype BatchPush = BatchPush(outcome: PushOutcome, log: seq<AppCall>, stamped: seq<Message>)

  /** The loop of `push_messages`: stamp, validate, push, one message at a
      time. Stamping runs message by message: a prefix of the batch is
      stamped, all of it when the loop completes, and the log only grows. */
  function PushAll(peer: AppIoPeer, ca: ContentAddressing, log: seq<AppCall>, runId: int, msgs: seq<Message>): BatchPush
    decreases |msgs|
  {
    if msgs == [] then BatchPush(Pushed([]), log, [])
    else
      var m := Stamp(ca, msgs[0], runId);
      var s := PushOne(peer, ca, log, runId, m);
      if s.result.Err? then BatchPush(Aborted(s.result.error), s.log, [m])
      else Prepend([s.result.value], [m], PushAll(peer, ca, s.log, runId, msgs[1..]))
  }

  /** Stamping runs message by message: a prefix of the batch is stamped,
      all of it when the loop completes, and the log only grows. */
  lemma {:induction false} PushAllShape(peer: AppIoPeer, ca: ContentAddressing, log: seq<AppCall>, runId: int, msgs: seq<Message>)
    ensures var b := PushAll(peer, ca, log, runId, msgs);
      && |log| <= |b.log| && b.log[..|log|] == log
      && |b.stamped| <= |msgs|
      && (b.outcome.Pushed? ==> |b.stamped| == |msgs| == |b.outcome.ids|)
      && (b.outcome.Aborted? ==> |b.stamped| >= 1)
      && (forall i :: 0 <= i < |b.stamped| ==> b.stamped[i] == Stamp(ca, msgs[i], runId))
    decreases |msgs|
  {
    if msgs != [] {
      var m := Stamp(ca, msgs[0], runId);
      var s := PushOne(peer, ca, log, runId, m);
      PushOneShape(peer, ca, log, runId, m);
      TryPushShape(peer, ca, log, runId, m);
      if s.result.Ok? {
        var rest := PushAll(peer, ca, s.log, runId, msgs[1..]);
        PushAllShape(peer, ca, s.log, runId, msgs[1..]);
        var b := PushAll(peer, ca, log, runId, msgs);
        assert b == Prepend([s.result.value], [m], rest);
        forall i | 0 < i < |b.stamped| ensures b.stamped[i] == Stamp(ca, msgs[i], runId) {
          assert b.stamped[i] == rest.stamped[i - 1];
          assert msgs[1..][i - 1] == msgs[i];
        }
      }
    }
  }

  /** `b` preceded by pushes that produced `ids` and stamped `stamped`. */
  function Prepend(ids: seq<ObjectId>, stamped: seq<Message>, b: BatchPush): BatchPush
  {
    BatchPush(
      match b.outcome
      case Pushed(rest) => Pushed(ids + rest)
      case Aborted(e) => Aborted(e),
      b.log, stamped + b.stamped)
  }

  lemma PrependTwice(ids: seq<ObjectId>, stamped: seq<Message>, ids2: seq<ObjectId>, stamped2: seq<Message>, b: BatchPush)
    ensures Prepend(ids, stamped, Prepend(ids2, stamped2, b)) == Prepend(ids + ids2, stamped + stamped2, b)
  {
    assert stamped + (stamped2 + b.stamped) == (stamped + stamped2) + b.stamped;
    if b.outcome.Pushed? {
      assert ids + (ids2 + b.outcome.ids) == (ids + ids2) + b.outcome.ids;
    }
  }

  lemma PrependNothing(b: BatchPush)
    ensures Prepend([], [], b) == b
  {
    assert [] + b.stamped == b.stamped;
    if b.outcome.Pushed? {
      assert [] + b.outcome.ids == b.outcome.ids;
    }
  }

  /** The loop of `push_messages` as the method runs it: from message
      `from` on, with the ids and stamped messages gathered so far. */
  function PushFrom(peer: AppIoPeer, ca: ContentAddressing, log: seq<AppCall>, runId: int, msgs: seq<Message>,
                    from: nat, ids: seq<ObjectId>, stamped: seq<Message>): BatchPush
    decreases |msgs| - from
  {
    if from >= |msgs| then BatchPush(Pushed(ids), log, stamped)
    else
      var m := Stamp(ca, msgs[from], runId);
      var s := PushOne(peer, ca, log, runId, m);
      if s.result.Err? then BatchPush(Aborted(s.result.error), s.log, stamped + [m])
      else PushFrom(peer, ca, s.log, runId, msgs, from + 1, ids + [s.result.value], stamped + [m])
  }

  /** The accumulating loop and the recursive definition agree. */
  lemma {:induction false} PushFromIsPushAll(peer: AppIoPeer, ca: ContentAddressing, log: seq<AppCall>, runId: int,
                                             msgs: seq<Message>, from: nat, ids: seq<ObjectId>, stamped: seq<Message>)
    requires from <= |msgs|
    ensures PushFrom(peer, ca, log, runId, msgs, from, ids, stamped) == Prepend(ids, stamped, PushAll(peer, ca, log, runId, msgs[from..]))
    decreases |msgs| - from
  {
    if from < |msgs| {
      assert msgs[from..][0] == msgs[from] && msgs[from..][1..] == msgs[from + 1..];
      var m := Stamp(ca, msgs[from], runId);
      var s := PushOne(peer, ca, log, runId, m);
      var rest := PushAll(peer, ca, s.log, runId, msgs[from + 1..]);
      if s.result.Ok? {
        assert PushAll(peer, ca, log, runId, msgs[from..]) == Prepend([s.result.value], [m], rest);
        PushFromIsPushAll(peer, ca, s.log, runId, msgs, from + 1, ids + [s.result.value], stamped + [m]);
        PrependTwice(ids, stamped, [s.result.value], [m], rest);
      } else {
        assert PushAll(peer, ca, log, runId, msgs[from..]) == BatchPush(Aborted(s.result.error), s.log, [m]);
      }
    } else {
      assert msgs[from..] == [];
      assert ids + [] == ids && stamped + [] == stamped;
    }
  }

  /** What `push_messages` returns: the ids, or an empty list for a
      RESOURCE_EXHAUSTED error, or the exception. */
  function PushResult(o: PushOutcome): (r: Result<seq<ObjectId>>)
    ensures o.Pushed? ==> r == Ok(o.ids)
    ensures o.Aborted? ==> (r.Ok? <==> o.error == RpcError(ResourceExhausted))
    ensures r.Ok? && o.Aborted? ==> r.value == []
    ensures r.Err? ==> r.error == o.error
  {
    match o
    case Pushed(ids) => Ok(ids)
    case Aborted(RpcError(ResourceExhausted)) => Ok([])
    case Aborted(e) => Err(e)
  }

  /** The envelopes of the PushMessages calls in `calls`, in order. */
  function PushedEnvelopes(calls: seq<AppCall>): seq<Message>
  {
    if calls == [] then []
    else (if calls[0].PushAppMessages? then [calls[0].message] else []) + PushedEnvelopes(calls[1..])
  }

  /** The id sets of the PullMessages calls in `calls`, in order. */
  function PullRequests(calls: seq<AppCall>): seq<set<ObjectId>>
  {
    if calls == [] then []
    else (if calls[0].PullAppMessages? then [calls[0].ids] else []) + PullRequests(calls[1..])
  }

  /** The message ids confirmed by `calls`, in order. */
  function Confirmed(calls: seq<AppCall>): seq<ObjectId>
  {
    if calls == [] then []
    else (if calls[0].ConfirmMessageReceived? then [calls[0].messageId] else []) + Confirmed(calls[1..])
  }

  lemma {:induction false} PushedEnvelopesConcat(a: seq<AppCall>, b: seq<AppCall>)
    ensures PushedEnvelopes(a + b) == PushedEnvelopes(a) + PushedEnvelopes(b)
  {
    if a == [] {
      assert a + b == b;
    } else {
      var head := (if a[0].PushAppMessages? then [a[0].message] else []);
      assert (a + b)[0] == a[0];
      assert (a + b)[1..] == a[1..] + b;
      PushedEnvelopesConcat(a[1..], b);
      assert PushedEnvelopes(a + b) == head + (PushedEnvelopes(a[1..]) + PushedEnvelopes(b));
      assert head + (PushedEnvelopes(a[1..]) + PushedEnvelopes(b)) == (head + PushedEnvelopes(a[1..])) + PushedEnvelopes(b);
    }
  }

  lemma {:induction false} PullRequestsConcat(a: seq<AppCall>, b: seq<AppCall>)
    ensures PullRequests(a + b) == PullRequests(a) + PullRequests(b)
  {
    if a == [] {
      assert a + b == b;
    } else {
      var head := (if a[0].PullAppMessages? then [a[0].ids] else []);
      assert (a + b)[0] == a[0];
      assert (a + b)[1..] == a[1..] + b;
      PullRequestsConcat(a[1..], b);
      assert PullRequests(a + b) == head + (PullRequests(a[1..]) + PullRequests(b));
      assert head + (PullRequests(a[1..]) + PullRequests(b)) == (head + PullRequests(a[1..])) + PullRequests(b);
    }
  }

  lemma {:induction false} ConfirmedConcat(a: seq<AppCall>, b: seq<AppCall>)
    ensures Confirmed(a + b) == Confirmed(a) + Confirmed(b)
  {
    if a == [] {
      assert a + b == b;
    } else {
      var head := (if a[0].ConfirmMessageReceived? then [a[0].messageId] else []);
      assert (a + b)[0] == a[0];
      assert (a + b)[1..] == a[1..] + b;
      ConfirmedConcat(a[1..], b);
      assert Confirmed(a + b) == head + (Confirmed(a[1..]) + Confirmed(b));
      assert head + (Confirmed(a[1..]) + Confirmed(b)) == (head + Confirmed(a[1..])) + Confirmed(b);
    }
  }

  /** The calls appended to `log` in two stages: first up to `mid`, then up to `last`. */
  lemma SegmentSplit(log: seq<AppCall>, mid: seq<AppCall>, last: seq<AppCall>)
    requires |log| <= |mid| <= |last| && last[..|mid|] == mid
    ensures last[|log|..] == mid[|log|..] + last[|mid|..]
  {
  }

  /** The envelopes without their payload. */
  function Envelopes(ms: seq<Message>): (r: seq<Message>)
    ensures |r| == |ms| && forall i :: 0 <= i < |ms| ==> r[i] == RemoveContent(ms[i])
  {
    if ms == [] then [] else [RemoveContent(ms[0])] + Envelopes(ms[1..])
  }

  /** One step of `_try_push_message` puts exactly one envelope on the wire
      and never asks for messages. */
  lemma TryPushEnvelopes(peer: AppIoPeer, ca: ContentAddressing, log: seq<AppCall>, runId: int, m: Message)
    ensures var s := TryPush(peer, ca, log, runId, m);
      |log| <= |s.log| && PushedEnvelopes(s.log[|log|..]) == [RemoveContent(m)] && PullRequests(s.log[|log|..]) == []
  {
    var s := TryPush(peer, ca, log, runId, m);
    TryPushShape(peer, ca, log, runId, m);
    var seg := s.log[|log|..];
    if |s.log| == |log| + 1 {
      assert seg == [s.log[|log|]];
    } else {
      assert seg == [s.log[|log|]] + [s.log[|log| + 1]];
      PushedEnvelopesConcat([s.log[|log|]], [s.log[|log| + 1]]);
      PullRequestsConcat([s.log[|log|]], [s.log[|log| + 1]]);
    }
  }

  /** On success `push_messages` returns one id per message, in input
      order; each id is the object id of that message, which now carries it
      as its `message_id`, and every message passed validation. */
  lemma {:induction false} PushAllIdsInOrder(peer: AppIoPeer, ca: ContentAddressing, log: seq<AppCall>, runId: int, msgs: seq<Message>)
    ensures var b := PushAll(peer, ca, log, runId, msgs);
      b.outcome.Pushed? ==>
        && |b.outcome.ids| == |b.stamped| == |msgs|
        && forall i :: 0 <= i < |msgs| ==>
             && b.outcome.ids[i] == b.stamped[i].metadata.messageId == ObjectIdOf(ca, Stamp(ca, msgs[i], runId))
             && CheckMessage(b.stamped[i]).Ok?
    decreases |msgs|
  {
    var b := PushAll(peer, ca, log, runId, msgs);
    PushAllShape(peer, ca, log, runId, msgs);
    if msgs != [] && b.outcome.Pushed? {
      var m := Stamp(ca, msgs[0], runId);
      var s := PushOne(peer, ca, log, runId, m);
      PushOneShape(peer, ca, log, runId, m);
      TryPushShape(peer, ca, log, runId, m);
      StampOverwrites(ca, msgs[0], runId);
      var rest := PushAll(peer, ca, s.log, runId, msgs[1..]);
      assert b == Prepend([s.result.value], [m], rest);
      PushAllIdsInOrder(peer, ca, s.log, runId, msgs[1..]);
      forall i | 0 < i < |msgs|
        ensures b.outcome.ids[i] == b.stamped[i].metadata.messageId == ObjectIdOf(ca, Stamp(ca, msgs[i], runId))
        ensures CheckMessage(b.stamped[i]).Ok?
      {
        assert b.outcome.ids[i] == rest.outcome.ids[i - 1];
        assert b.stamped[i] == rest.stamped[i - 1];
        assert msgs[1..][i - 1] == msgs[i];
      }
    }
  }

  /** After a first message that went through, the batch continues from
      the log that message left: its envelope comes first on the wire. */
  lemma PushAllAfterFirst(peer: AppIoPeer, ca: ContentAddressing, log: seq<AppCall>, runId: int, msgs: seq<Message>)
    requires msgs != [] && PushOne(peer, ca, log, runId, Stamp(ca, msgs[0], runId)).result.Ok?
    ensures var m := Stamp(ca, msgs[0], runId);
      var s := PushOne(peer, ca, log, runId, m);
      var rest := PushAll(peer, ca, s.log, runId, msgs[1..]);
      var b := PushAll(peer, ca, log, runId, msgs);
      && |log| <= |s.log| <= |rest.log|
      && b == Prepend([s.result.value], [m], rest)
      && PushedEnvelopes(b.log[|log|..]) == [RemoveContent(m)] + PushedEnvelopes(rest.log[|s.log|..])
      && PullRequests(b.log[|log|..]) == PullRequests(rest.log[|s.log|..])
  {
    var m := Stamp(ca, msgs[0], runId);
    var s := PushOne(peer, ca, log, runId, m);
    var rest := PushAll(peer, ca, s.log, runId, msgs[1..]);
    PushOneShape(peer, ca, log, runId, m);
    TryPushShape(peer, ca, log, runId, m);
    PushAllShape(peer, ca, s.log, runId, msgs[1..]);
    TryPushEnvelopes(peer, ca, log, runId, m);
    SegmentSplit(log, s.log, rest.log);
    PushedEnvelopesConcat(s.log[|log|..], rest.log[|s.log|..]);
    PullRequestsConcat(s.log[|log|..], rest.log[|s.log|..]);
  }

  /** A complete push puts the envelopes on the wire in input order, one
      per message, and asks for no messages. */
  lemma {:induction false} PushAllEnvelopesInOrder(peer: AppIoPeer, ca: ContentAddressing, log: seq<AppCall>, runId: int, msgs: seq<Message>)
    ensures var b := PushAll(peer, ca, log, runId, msgs);
      && |log| <= |b.log|
      && (b.outcome.Pushed? ==>
            PushedEnvelopes(b.log[|log|..]) == Envelopes(b.stamped) && PullRequests(b.log[|log|..]) == [])
    decreases |msgs|
  {
    var b := PushAll(peer, ca, log, runId, msgs);
    PushAllShape(peer, ca, log, runId, msgs);
    if msgs == [] {
      assert b.log[|log|..] == [];
    } else if b.outcome.Pushed? {
      var m := Stamp(ca, msgs[0], runId);
      var s := PushOne(peer, ca, log, runId, m);
      var rest := PushAll(peer, ca, s.log, runId, msgs[1..]);
      PushAllAfterFirst(peer, ca, log, runId, msgs);
      PushAllEnvelopesInOrder(peer, ca, s.log, runId, msgs[1..]);
      assert Envelopes(b.stamped) == [RemoveContent(m)] + Envelopes(rest.stamped);
    }
  }

  /** Validation runs inside the loop: when the batch is rejected, the
      last stamped message is the one that failed and every message before
      it had passed. */
  lemma {:induction false} PushAllRejectsLast(peer: AppIoPeer, ca: ContentAddressing, log: seq<AppCall>, runId: int, msgs: seq<Message>)
    ensures var b := PushAll(peer, ca, log, runId, msgs);
      b.outcome == Aborted(ValueError) ==>
        && |b.stamped| >= 1
        && CheckMessage(b.stamped[|b.stamped| - 1]).Err?
        && (forall j :: 0 <= j < |b.stamped| - 1 ==> CheckMessage(b.stamped[j]).Ok?)
    decreases |msgs|
  {
    var b := PushAll(peer, ca, log, runId, msgs);
    PushAllShape(peer, ca, log, runId, msgs);
    if msgs != [] && b.outcome == Aborted(ValueError) {
      var m := Stamp(ca, msgs[0], runId);
      var s := PushOne(peer, ca, log, runId, m);
      PushOneShape(peer, ca, log, runId, m);
      if s.result.Ok? {
        var rest := PushAll(peer, ca, s.log, runId, msgs[1..]);
        assert b == Prepend([s.result.value], [m], rest);
        PushAllRejectsLast(peer, ca, s.log, runId, msgs[1..]);
        forall j | 0 < j < |b.stamped| - 1 ensures CheckMessage(b.stamped[j]).Ok? {
          assert b.stamped[j] == rest.stamped[j - 1];
        }
      }
    }
  }

  /** The check is not batch-atomic: when message k is rejected, the
      envelopes of messages 0..k-1 are on the wire already, and the rejected
      message never reached it. */
  lemma {:induction false} PushAllRejectsLate(peer: AppIoPeer, ca: ContentAddressing, log: seq<AppCall>, runId: int, msgs: seq<Message>)
    ensures var b := PushAll(peer, ca, log, runId, msgs);
      && |log| <= |b.log|
      && (b.outcome == Aborted(ValueError) ==>
            && |b.stamped| >= 1
            && PushedEnvelopes(b.log[|log|..]) == Envelopes(b.stamped[..|b.stamped| - 1]))
    decreases |msgs|
  {
    var b := PushAll(peer, ca, log, runId, msgs);
    PushAllShape(peer, ca, log, runId, msgs);
    if msgs != [] && b.outcome == Aborted(ValueError) {
      var m := Stamp(ca, msgs[0], runId);
      var s := PushOne(peer, ca, log, runId, m);
      PushOneShape(peer, ca, log, runId, m);
      if s.result.Err? {
        assert b.log[|log|..] == [];
        assert b.stamped[..0] == [];
      } else {
        var rest := PushAll(peer, ca, s.log, runId, msgs[1..]);
        PushAllAfterFirst(peer, ca, log, runId, msgs);
        PushAllRejectsLate(peer, ca, s.log, runId, msgs[1..]);
        var k := |rest.stamped| - 1;
        assert b.stamped[..k + 1] == [m] + rest.stamped[..k];
        assert Envelopes(b.stamped[..k + 1]) == [RemoveContent(m)] + Envelopes(rest.stamped[..k]);
      }
    }
  }

  /** How the loop of `pull_messages` ends. */
  datatype PullOutcome = PulledAll(msgs: seq<Message>) | PullAborted(error: Error)

  datatype BatchPull = BatchPull(outcome: PullOutcome, log: seq<AppCall>)

  /** One turn of the loop of `pull_messages`: pull every object of the
      message's tree, confirm the message, inflate it and inject its id. */
  function PullOne(peer: AppIoPeer, ca: ContentAddressing, log: seq<AppCall>, runId: int,
                   proto: Message, tree: ObjectTree): Step<Message>
  {
    var msgId := proto.metadata.messageId;
    var log1 := log + [PullObjects(SUPERLINK_NODE_ID, runId, IterateObjectTree(tree))];
    match peer.pullObjects(log1)
    case Failed(c) => Step(Err(RpcError(c)), log1)
    case Answered(contents) =>
      var log2 := log1 + [ConfirmMessageReceived(SUPERLINK_NODE_ID, runId, msgId)];
      match peer.confirm(log2)
      case Failed(c) => Step(Err(RpcError(c)), log2)
      case Answered(_) => Step(Ok(WithMessageId(ca.inflate(msgId, contents), msgId)), log2)
  }

  /** One turn of the pull loop requests every object of the tree, and only
      if that succeeds confirms the message once; the message it yields is
      the inflated one, carrying the envelope's id. */
  lemma PullOneShape(peer: AppIoPeer, ca: ContentAddressing, log: seq<AppCall>, runId: int,
                     proto: Message, tree: ObjectTree)
    ensures var s := PullOne(peer, ca, log, runId, proto, tree);
      && |s.log| in {|log| + 1, |log| + 2} && s.log[..|log|] == log
      && s.log[|log|] == PullObjects(SUPERLINK_NODE_ID, runId, IterateObjectTree(tree))
      && (|s.log| == |log| + 2 <==> peer.pullObjects(s.log[..|log| + 1]).Answered?)
      && (|s.log| == |log| + 2 ==>
            s.log[|log| + 1] == ConfirmMessageReceived(SUPERLINK_NODE_ID, runId, proto.metadata.messageId))
      && (s.result.Ok? ==>
            && |s.log| == |log| + 2
            && s.result.value == WithMessageId(ca.inflate(proto.metadata.messageId, peer.pullObjects(s.log[..|log| + 1]).value),
                                               proto.metadata.messageId))
      && (s.result.Err? ==> s.result.error.RpcError?)
  {
    var log1 := log + [PullObjects(SUPERLINK_NODE_ID, runId, IterateObjectTree(tree))];
    assert log1[..|log| + 1] == log1;
    if peer.pullObjects(log1).Answered? {
      var log2 := log1 + [ConfirmMessageReceived(SUPERLINK_NODE_ID, runId, proto.metadata.messageId)];
      assert log2[..|log| + 1] == log1;
    }
  }

  /** The loop of `pull_messages` over `zip(messages_list, message_object_trees)`,
      which stops at the shorter list; the log only grows. */
  function PullEach(peer: AppIoPeer, ca: ContentAddressing, log: seq<AppCall>, runId: int,
                    protos: seq<Message>, trees: seq<ObjectTree>): BatchPull
    decreases |protos|
  {
    if protos == [] || trees == [] then BatchPull(PulledAll([]), log)
    else
      var s := PullOne(peer, ca, log, runId, protos[0], trees[0]);
      if s.result.Err? then BatchPull(PullAborted(s.result.error), s.log)
      else PrependPulled([s.result.value], PullEach(peer, ca, s.log, runId, protos[1..], trees[1..]))
  }

  /** The pull loop only appends to the log. */
  lemma {:induction false} PullEachGrows(peer: AppIoPeer, ca: ContentAddressing, log: seq<AppCall>, runId: int,
                                         protos: seq<Message>, trees: seq<ObjectTree>)
    ensures var b := PullEach(peer, ca, log, runId, protos, trees);
      |log| <= |b.log| && b.log[..|log|] == log
    decreases |protos|
  {
    if protos != [] && trees != [] {
      var s := PullOne(peer, ca, log, runId, protos[0], trees[0]);
      PullOneShape(peer, ca, log, runId, protos[0], trees[0]);
      if s.result.Ok? {
        PullEachGrows(peer, ca, s.log, runId, protos[1..], trees[1..]);
        var rest := PullEach(peer, ca, s.log, runId, protos[1..], trees[1..]);
        assert rest.log[..|log|] == s.log[..|log|];
      }
    }
  }

  /** `b` preceded by the messages `ms` pulled before it. */
  function PrependPulled(ms: seq<Message>, b: BatchPull): BatchPull
  {
    BatchPull(match b.outcome case PulledAll(rest) => PulledAll(ms + rest) case PullAborted(e) => PullAborted(e), b.log)
  }

  lemma PrependPulledNothing(b: BatchPull)
    ensures PrependPulled([], b) == b
  {
    if b.outcome.PulledAll? {
      assert [] + b.outcome.msgs == b.outcome.msgs;
    }
  }

  lemma PrependPulledTwice(a: seq<Message>, c: seq<Message>, b: BatchPull)
    ensures PrependPulled(a, PrependPulled(c, b)) == PrependPulled(a + c, b)
  {
    if b.outcome.PulledAll? {
      assert a + (c + b.outcome.msgs) == (a + c) + b.outcome.msgs;
    }
  }

  /** The whole of `pull_messages` once the run is known: one PullMessages
      request for `ids`, then the loop over the response. */
  function PullBatch(peer: AppIoPeer, ca: ContentAddressing, log: seq<AppCall>, runId: int, ids: set<ObjectId>): BatchPull
  {
    var log1 := log + [PullAppMessages(runId, ids)];
    match peer.pullMessages(log1)
    case Failed(c) => BatchPull(PullAborted(RpcError(c)), log1)
    case Answered(p) => PullEach(peer, ca, log1, runId, p.messages, p.trees)
  }

  /** `pull_messages` starts with its one PullMessages request, and a
      failed request ends it with that error; the log only grows. */
  lemma PullBatchShape(peer: AppIoPeer, ca: ContentAddressing, log: seq<AppCall>, runId: int, ids: set<ObjectId>)
    ensures var b := PullBatch(peer, ca, log, runId, ids);
      && |log| < |b.log| && b.log[..|log| + 1] == log + [PullAppMessages(runId, ids)]
      && (peer.pullMessages(log + [PullAppMessages(runId, ids)]).Failed? ==>
            b.outcome == PullAborted(RpcError(peer.pullMessages(log + [PullAppMessages(runId, ids)]).code)))
  {
    var log1 := log + [PullAppMessages(runId, ids)];
    if peer.pullMessages(log1).Answered? {
      var p := peer.pullMessages(log1).value;
      PullEachGrows(peer, ca, log1, runId, p.messages, p.trees);
      var b := PullEach(peer, ca, log1, runId, p.messages, p.trees);
      assert b.log[..|log| + 1] == b.log[..|log1|];
    }
  }

  /** The loop of `pull_messages` as the method runs it: from pair `from`
      on, with the messages gathered so far. */
  function PullFrom(peer: AppIoPeer, ca: ContentAddressing, log: seq<AppCall>, runId: int,
                    protos: seq<Message>, trees: seq<ObjectTree>, from: nat, pulled: seq<Message>): BatchPull
    decreases |protos| - from
  {
    if from >= |protos| || from >= |trees| then BatchPull(PulledAll(pulled), log)
    else
      var s := PullOne(peer, ca, log, runId, protos[from], trees[from]);
      if s.result.Err? then BatchPull(PullAborted(s.result.error), s.log)
      else PullFrom(peer, ca, s.log, runId, protos, trees, from + 1, pulled + [s.result.value])
  }

  /** The accumulating loop and the recursive definition agree. */
  lemma {:induction false} PullFromIsPullEach(peer: AppIoPeer, ca: ContentAddressing, log: seq<AppCall>, runId: int,
                                              protos: seq<Message>, trees: seq<ObjectTree>, from: nat, pulled: seq<Message>)
    requires from <= |protos| && from <= |trees|
    ensures PullFrom(peer, ca, log, runId, protos, trees, from, pulled)
         == PrependPulled(pulled, PullEach(peer, ca, log, runId, protos[from..], trees[from..]))
    decreases |protos| - from
  {
    if from < |protos| && from < |trees| {
      assert protos[from..][1..] == protos[from + 1..] && trees[from..][1..] == trees[from + 1..];
      var s := PullOne(peer, ca, log, runId, protos[from], trees[from]);
      if s.result.Ok? {
        var rest := PullEach(peer, ca, s.log, runId, protos[from + 1..], trees[from + 1..]);
        PullFromIsPullEach(peer, ca, s.log, runId, protos, trees, from + 1, pulled + [s.result.value]);
        PrependPulledTwice(pulled, [s.result.value], rest);
      }
    } else {
      assert protos[from..] == [] || trees[from..] == [];
      assert pulled + [] == pulled;
    }
  }

  /** What `pull_messages` returns: the messages, or an empty list for a
      RESOURCE_EXHAUSTED error, or the exception. */
  function PullResult(o: PullOutcome): (r: Result<seq<Message>>)
    ensures o.PulledAll? ==> r == Ok(o.msgs)
    ensures o.PullAborted? ==> (r.Ok? <==> o.error == RpcError(ResourceExhausted))
    ensures r.Ok? && o.PullAborted? ==> r.value == []
    ensures r.Err? ==> r.error == o.error
  {
    match o
    case PulledAll(ms) => Ok(ms)
    case PullAborted(RpcError(ResourceExhausted)) => Ok([])
    case PullAborted(e) => Err(e)
  }

  /** The calls a complete pull makes: for each pair, in order, one
      PullObjects for every id of the tree and one confirmation. */
  function PullCalls(runId: int, protos: seq<Message>, trees: seq<ObjectTree>): seq<AppCall>
    decreases |protos|
  {
    if protos == [] || trees == [] then []
    else [PullObjects(SUPERLINK_NODE_ID, runId, IterateObjectTree(trees[0])),
          ConfirmMessageReceived(SUPERLINK_NODE_ID, runId, protos[0].metadata.messageId)]
         + PullCalls(runId, protos[1..], trees[1..])
  }

  function Min(a: nat, b: nat): nat { if a <= b then a else b }

  /** A complete pull handles the pairs in order, truncated to the shorter
      list, and each returned message carries the id of its envelope. */
  lemma {:induction false} PullEachInOrder(peer: AppIoPeer, ca: ContentAddressing, log: seq<AppCall>, runId: int,
                                           protos: seq<Message>, trees: seq<ObjectTree>)
    ensures var b := PullEach(peer, ca, log, runId, protos, trees);
      b.outcome.PulledAll? ==>
        && |b.outcome.msgs| == Min(|protos|, |trees|)
        && (forall i :: 0 <= i < |b.outcome.msgs| ==>
              b.outcome.msgs[i].metadata.messageId == protos[i].metadata.messageId)
    decreases |protos|
  {
    var b := PullEach(peer, ca, log, runId, protos, trees);
    if protos != [] && trees != [] && b.outcome.PulledAll? {
      var s := PullOne(peer, ca, log, runId, protos[0], trees[0]);
      var rest := PullEach(peer, ca, s.log, runId, protos[1..], trees[1..]);
      assert b == PrependPulled([s.result.value], rest);
      PullEachInOrder(peer, ca, s.log, runId, protos[1..], trees[1..]);
      forall i | 0 < i < |b.outcome.msgs|
        ensures b.outcome.msgs[i].metadata.messageId == protos[i].metadata.messageId
      {
        assert b.outcome.msgs[i] == rest.outcome.msgs[i - 1];
      }
    }
  }

  /** A complete pull grows the log by exactly the calls of `PullCalls`. */
  lemma {:induction false} PullEachLog(peer: AppIoPeer, ca: ContentAddressing, log: seq<AppCall>, runId: int,
                                       protos: seq<Message>, trees: seq<ObjectTree>)
    ensures var b := PullEach(peer, ca, log, runId, protos, trees);
      b.outcome.PulledAll? ==> b.log == log + PullCalls(runId, protos, trees)
    decreases |protos|
  {
    var b := PullEach(peer, ca, log, runId, protos, trees);
    if protos != [] && trees != [] && b.outcome.PulledAll? {
      var s := PullOne(peer, ca, log, runId, protos[0], trees[0]);
      var rest := PullEach(peer, ca, s.log, runId, protos[1..], trees[1..]);
      assert b == PrependPulled([s.result.value], rest);
      PullEachLog(peer, ca, s.log, runId, protos[1..], trees[1..]);
      assert s.log == log + [s.log[|log|], s.log[|log| + 1]];
    }
  }

  /** The two calls that handle one message confirm it and nothing else. */
  lemma PullPairConfirmsOne(runId: int, proto: Message, tree: ObjectTree)
    ensures var head := [PullObjects(SUPERLINK_NODE_ID, runId, IterateObjectTree(tree)),
                         ConfirmMessageReceived(SUPERLINK_NODE_ID, runId, proto.metadata.messageId)];
      && Confirmed(head) == [proto.metadata.messageId]
      && PullRequests(head) == []
      && PushedEnvelopes(head) == []
  {
    var head := [PullObjects(SUPERLINK_NODE_ID, runId, IterateObjectTree(tree)),
                 ConfirmMessageReceived(SUPERLINK_NODE_ID, runId, proto.metadata.messageId)];
    var last := head[1..];
    assert last[1..] == [];
    assert Confirmed(last) == [proto.metadata.messageId];
    assert PullRequests(last) == [] && PushedEnvelopes(last) == [];
  }

  /** Each handled message is confirmed exactly once, in order, and nothing
      else is confirmed; no message is requested again. */
  lemma {:induction false} PullCallsConfirmEach(runId: int, protos: seq<Message>, trees: seq<ObjectTree>)
    ensures var n := Min(|protos|, |trees|);
      && |Confirmed(PullCalls(runId, protos, trees))| == n
      && (forall i :: 0 <= i < n ==> Confirmed(PullCalls(runId, protos, trees))[i] == protos[i].metadata.messageId)
      && PullRequests(PullCalls(runId, protos, trees)) == []
      && PushedEnvelopes(PullCalls(runId, protos, trees)) == []
    decreases |protos|
  {
    if protos != [] && trees != [] {
      var head := [PullObjects(SUPERLINK_NODE_ID, runId, IterateObjectTree(trees[0])),
                   ConfirmMessageReceived(SUPERLINK_NODE_ID, runId, protos[0].metadata.messageId)];
      var tail := PullCalls(runId, protos[1..], trees[1..]);
      PullCallsConfirmEach(runId, protos[1..], trees[1..]);
      PullPairConfirmsOne(runId, protos[0], trees[0]);
      ConfirmedConcat(head, tail);
      PushedEnvelopesConcat(head, tail);
      PullRequestsConcat(head, tail);
      var calls := PullCalls(runId, protos, trees);
      assert calls == head + tail;
      var confirmed := Confirmed(calls);
      assert confirmed == [protos[0].metadata.messageId] + Confirmed(tail);
      forall i | 0 <= i < Min(|protos|, |trees|)
        ensures confirmed[i] == protos[i].metadata.messageId
      {
        if i > 0 {
          assert confirmed[i] == Confirmed(tail)[i - 1];
          assert protos[1..][i - 1] == protos[i];
        }
      }
    }
  }

  /** A complete `pull_messages` sends its one request, never asks again,
      pushes nothing, and confirms exactly the returned messages, each once
      and in order. */
  lemma PullBatchConfirmsReturned(peer: AppIoPeer, ca: ContentAddressing, log: seq<AppCall>, runId: int, ids: set<ObjectId>)
    ensures var b := PullBatch(peer, ca, log, runId, ids);
      && |log| <= |b.log|
      && (b.outcome.PulledAll? ==>
            && PullRequests(b.log[|log|..]) == [ids]
            && PushedEnvelopes(b.log[|log|..]) == []
            && |Confirmed(b.log[|log|..])| == |b.outcome.msgs|
            && forall i :: 0 <= i < |b.outcome.msgs| ==>
                 Confirmed(b.log[|log|..])[i] == b.outcome.msgs[i].metadata.messageId)
  {
    var b := PullBatch(peer, ca, log, runId, ids);
    var log1 := log + [PullAppMessages(runId, ids)];
    PullBatchShape(peer, ca, log, runId, ids);
    if peer.pullMessages(log1).Answered? {
      var p := peer.pullMessages(log1).value;
      var e := PullEach(peer, ca, log1, runId, p.messages, p.trees);
      assert b == e;
      if e.outcome.PulledAll? {
        PullEachInOrder(peer, ca, log1, runId, p.messages, p.trees);
        PullEachLog(peer, ca, log1, runId, p.messages, p.trees);
        var calls := PullCalls(runId, p.messages, p.trees);
        PullCallsConfirmEach(runId, p.messages, p.trees);
        assert b.log[|log|..] == [PullAppMessages(runId, ids)] + calls;
        PushedEnvelopesConcat([PullAppMessages(runId, ids)], calls);
        PullRequestsConcat([PullAppMessages(runId, ids)], calls);
        ConfirmedConcat([PullAppMessages(runId, ids)], calls);
        assert Confirmed(b.log[|log|..]) == Confirmed(calls);
      }
    }
  }

  /** The `reply_to_message_id`s of a batch of replies. */
  function ReplyIds(ms: seq<Message>): set<ObjectId>
  {
    if ms == [] then {} else {ms[0].metadata.replyToMessageId} + ReplyIds(ms[1..])
  }

  /** An id is answered by a batch exactly when one of its replies names it. */
  lemma {:induction false} ReplyIdsNamed(ms: seq<Message>, id: ObjectId)
    ensures id in ReplyIds(ms) <==> exists i :: 0 <= i < |ms| && ms[i].metadata.replyToMessageId == id
  {
    if ms != [] {
      ReplyIdsNamed(ms[1..], id);
      if id in ReplyIds(ms[1..]) {
        var i :| 0 <= i < |ms[1..]| && ms[1..][i].metadata.replyToMessageId == id;
        assert ms[i + 1].metadata.replyToMessageId == id;
      }
      if exists i :: 0 <= i < |ms| && ms[i].metadata.replyToMessageId == id {
        var i :| 0 <= i < |ms| && ms[i].metadata.replyToMessageId == id;
        if i > 0 {
          assert ms[1..][i - 1].metadata.replyToMessageId == id;
        }
      }
    }
  }

  lemma {:induction false} ReplyIdsConcat(a: seq<Message>, b: seq<Message>)
    ensures ReplyIds(a + b) == ReplyIds(a) + ReplyIds(b)
  {
    if a == [] {
      assert a + b == b;
    } else {
      assert (a + b)[1..] == a[1..] + b;
      ReplyIdsConcat(a[1..], b);
    }
  }

  /** All replies of successive polls, in arrival order (`ret.extend`). */
  function Flatten(batches: seq<seq<Message>>): seq<Message>
  {
    if batches == [] then [] else Flatten(batches[..|batches| - 1]) + batches[|batches| - 1]
  }

  /** The ids still awaited after the given polls: each poll removes the ids
      its replies answer (`msg_ids.difference_update`). */
  function Remaining(ids: set<ObjectId>, batches: seq<seq<Message>>): set<ObjectId>
  {
    if batches == [] then ids
    else Remaining(ids, batches[..|batches| - 1]) - ReplyIds(batches[|batches| - 1])
  }

  /** The awaited set only shrinks, and it loses exactly the ids answered by
      some reply received so far. */
  lemma {:induction false} RemainingIsAnsweredDifference(ids: set<ObjectId>, batches: seq<seq<Message>>)
    ensures Remaining(ids, batches) == ids - ReplyIds(Flatten(batches))
    ensures Remaining(ids, batches) <= ids
  {
    if batches != [] {
      var init := batches[..|batches| - 1];
      var last := batches[|batches| - 1];
      RemainingIsAnsweredDifference(ids, init);
      ReplyIdsConcat(Flatten(init), last);
    }
  }

  /** The pull loop asks for no messages: all its calls fetch objects or
      confirm. */
  lemma {:induction false} PullEachAsksNothing(peer: AppIoPeer, ca: ContentAddressing, log: seq<AppCall>, runId: int,
                                               protos: seq<Message>, trees: seq<ObjectTree>)
    ensures var b := PullEach(peer, ca, log, runId, protos, trees);
      |log| <= |b.log| && PullRequests(b.log[|log|..]) == []
    decreases |protos|
  {
    PullEachGrows(peer, ca, log, runId, protos, trees);
    if protos != [] && trees != [] {
      var s := PullOne(peer, ca, log, runId, protos[0], trees[0]);
      PullOneShape(peer, ca, log, runId, protos[0], trees[0]);
      var own := s.log[|log|..];
      assert PullRequests(own) == [] by {
        var fetch := PullObjects(SUPERLINK_NODE_ID, runId, IterateObjectTree(trees[0]));
        if |s.log| == |log| + 1 {
          assert own == [fetch];
          assert PullRequests([fetch]) == [] + PullRequests([]);
        } else {
          var confirm := ConfirmMessageReceived(SUPERLINK_NODE_ID, runId, protos[0].metadata.messageId);
          assert own == [fetch, confirm];
          assert [fetch, confirm][1..] == [confirm];
          assert PullRequests([confirm]) == [] + PullRequests([]);
          assert PullRequests([fetch, confirm]) == [] + PullRequests([confirm]);
        }
      }
      var b := PullEach(peer, ca, log, runId, protos, trees);
      if s.result.Ok? {
        var rest := PullEach(peer, ca, s.log, runId, protos[1..], trees[1..]);
        PullEachAsksNothing(peer, ca, s.log, runId, protos[1..], trees[1..]);
        PullEachGrows(peer, ca, s.log, runId, protos[1..], trees[1..]);
        SegmentSplit(log, s.log, rest.log);
        PullRequestsConcat(own, rest.log[|s.log|..]);
      }
    }
  }

  /** Whatever happens after it, one `pull_messages` sends exactly one
      PullMessages request, for the ids it is given. */
  lemma PullBatchAsksOnce(peer: AppIoPeer, ca: ContentAddressing, log: seq<AppCall>, runId: int, ids: set<ObjectId>)
    ensures var b := PullBatch(peer, ca, log, runId, ids);
      |log| <= |b.log| && PullRequests(b.log[|log|..]) == [ids]
  {
    var b := PullBatch(peer, ca, log, runId, ids);
    var log1 := log + [PullAppMessages(runId, ids)];
    PullBatchShape(peer, ca, log, runId, ids);
    var head := [PullAppMessages(runId, ids)];
    assert PullRequests(head) == [ids] by {
      assert head[1..] == [];
    }
    if peer.pullMessages(log1).Answered? {
      var p := peer.pullMessages(log1).value;
      PullEachAsksNothing(peer, ca, log1, runId, p.messages, p.trees);
      assert b.log[|log|..] == head + b.log[|log1|..];
      PullRequestsConcat(head, b.log[|log1|..]);
    } else {
      assert b.log[|log|..] == head;
    }
  }

  /** Readings of the wall clock, in order: reading 0 fixes the deadline,
      reading k >= 1 is taken by the guard before poll k - 1. Each poll
      ends with `time.sleep(3)`, so the guard reading before poll k - 1
      comes at least 3 * (k - 1) seconds after the first one. */
  ghost predicate Paced(clock: nat -> real)
  {
    forall k: nat :: 1 <= k ==> clock(1) + 3.0 * (k - 1) as real <= clock(k)
  }

  /** How many polls a deadline admits: the guard readings before poll
      `k`, poll `k + 1`, ... that are still early, counted from `k` on. */
  ghost function PollsAllowed(clock: nat -> real, end: real, k: nat): (n: nat)
    requires Paced(clock)
    ensures k <= n && end <= clock(n + 1)
    ensures forall j :: k < j <= n ==> clock(j) < end
    decreases (end - clock(1)).Floor - 3 * k
  {
    if end <= clock(k + 1) then k
    else PollsAllowed(clock, end, k + 1)
  }

  /** The number of polls `send_and_receive` may make: without a timeout
      the loop has no deadline and `fuel` bounds it; with one, the polls
      whose guard reading comes before the deadline. */
  ghost function Budget(timeout: Option<real>, clock: nat -> real, fuel: nat): nat
    requires Paced(clock)
  {
    if timeout.None? then fuel else PollsAllowed(clock, clock(0) + timeout.value, 0)
  }

  /** With a timeout, the guard of the polling loop admits poll number
      `polls`, within the budget, exactly when the budget is not yet
      spent. */
  lemma BudgetIsGuard(timeout: Option<real>, clock: nat -> real, fuel: nat, polls: nat)
    requires Paced(clock) && polls <= Budget(timeout, clock, fuel)
    ensures timeout.None? ==> Budget(timeout, clock, fuel) == fuel
    ensures timeout.Some? ==>
      (clock(polls + 1) < clock(0) + timeout.value <==> polls < Budget(timeout, clock, fuel))
  {
    if timeout.Some? && polls < Budget(timeout, clock, fuel) {
      assert 0 < polls + 1 <= PollsAllowed(clock, clock(0) + timeout.value, 0);
    }
  }

  /** Where the polling loop ends: its result, the log, and the replies
      of each poll. */
  datatype Polling = Polling(result: Result<seq<Message>>, log: seq<AppCall>, batches: seq<seq<Message>>)

  /** The polling loop of `send_and_receive`, resumed with `awaiting`
      still unanswered after `batches` polls and `budget` polls left. */
  function Poll(peer: AppIoPeer, ca: ContentAddressing, log: seq<AppCall>, runId: int,
                awaiting: set<ObjectId>, batches: seq<seq<Message>>, budget: nat): Polling
    decreases budget
  {
    if budget == 0 then Polling(Ok(Flatten(batches)), log, batches)
    else
      var b := PullBatch(peer, ca, log, runId, awaiting);
      var got := PullResult(b.outcome);
      if got.Err? then Polling(Err(got.error), b.log, batches)
      else
        var left := awaiting - ReplyIds(got.value);
        if left == {} then Polling(Ok(Flatten(batches + [got.value])), b.log, batches + [got.value])
        else Poll(peer, ca, b.log, runId, left, batches + [got.value], budget - 1)
  }

  /** One more poll: what it appends to the replies and removes from the
      awaited ids. */
  lemma PollOnceMore(ids: set<ObjectId>, batches: seq<seq<Message>>, got: seq<Message>)
    ensures Remaining(ids, batches + [got]) == Remaining(ids, batches) - ReplyIds(got)
  {
    assert (batches + [got])[..|batches|] == batches;
  }

  lemma FlattenOnceMore(batches: seq<seq<Message>>, got: seq<Message>)
    ensures Flatten(batches + [got]) == Flatten(batches) + got
  {
    assert (batches + [got])[..|batches|] == batches;
  }

  /** The polls made after the first `from` asked, in turn, for the ids
      awaited at that point. */
  function Awaited(ids: set<ObjectId>, batches: seq<seq<Message>>, from: nat): (r: seq<set<ObjectId>>)
    requires from <= |batches|
    ensures |r| == |batches| - from
    ensures forall i :: 0 <= i < |r| ==> r[i] == Remaining(ids, batches[..from + i])
    decreases |batches| - from
  {
    if from == |batches| then [] else [Remaining(ids, batches[..from])] + Awaited(ids, batches, from + 1)
  }

  /** Polling only adds batches, at most one per poll allowed, and only
      appends to the log. */
  lemma {:induction false} PollGrows(peer: AppIoPeer, ca: ContentAddressing, log: seq<AppCall>, runId: int,
                                     awaiting: set<ObjectId>, batches: seq<seq<Message>>, budget: nat)
    ensures var p := Poll(peer, ca, log, runId, awaiting, batches, budget);
      && |batches| <= |p.batches| <= |batches| + budget
      && p.batches[..|batches|] == batches
      && |log| <= |p.log| && p.log[..|log|] == log
    decreases budget
  {
    if budget > 0 {
      var b := PullBatch(peer, ca, log, runId, awaiting);
      PullBatchShape(peer, ca, log, runId, awaiting);
      var got := PullResult(b.outcome);
      if got.Ok? {
        var now := batches + [got.value];
        assert now[..|batches|] == batches;
        var left := awaiting - ReplyIds(got.value);
        if left != {} {
          PollGrows(peer, ca, b.log, runId, left, now, budget - 1);
          var p := Poll(peer, ca, b.log, runId, left, now, budget - 1);
          assert p.log[..|log|] == b.log[..|log|];
          assert p.batches[..|batches|] == now[..|batches|];
        }
      }
    }
  }

  /** Started with the ids the earlier polls left unanswered, a successful
      end returns every reply received, in order, and comes either when
      nothing is awaited any more or when the budget is spent; and the loop
      never went on after a poll that left nothing awaited. */
  lemma {:induction false} PollStops(peer: AppIoPeer, ca: ContentAddressing, log: seq<AppCall>, runId: int,
                                     ids: set<ObjectId>, batches: seq<seq<Message>>, budget: nat)
    ensures var p := Poll(peer, ca, log, runId, Remaining(ids, batches), batches, budget);
      && (p.result.Ok? ==> p.result.value == Flatten(p.batches))
      && (p.result.Ok? ==>
            (|batches| < |p.batches| && Remaining(ids, p.batches) == {})
            || |p.batches| == |batches| + budget)
      && (forall j :: |batches| < j < |p.batches| ==> Remaining(ids, p.batches[..j]) != {})
    decreases budget
  {
    PollGrows(peer, ca, log, runId, Remaining(ids, batches), batches, budget);
    if budget > 0 {
      var b := PullBatch(peer, ca, log, runId, Remaining(ids, batches));
      var got := PullResult(b.outcome);
      if got.Ok? {
        var now := batches + [got.value];
        PollOnceMore(ids, batches, got.value);
        if Remaining(ids, now) != {} {
          PollStops(peer, ca, b.log, runId, ids, now, budget - 1);
          PollGrows(peer, ca, b.log, runId, Remaining(ids, now), now, budget - 1);
          var p := Poll(peer, ca, b.log, runId, Remaining(ids, now), now, budget - 1);
          assert p.batches[..|now|] == now;
          forall j | |batches| < j < |p.batches|
            ensures Remaining(ids, p.batches[..j]) != {}
          {
            if j == |now| {
              assert p.batches[..j] == now;
            }
          }
        }
      }
    }
  }

  /** Poll by poll, `send_and_receive` asks exactly for the ids it still
      awaits: the first request names every pushed id, each later one
      only those no reply has answered yet. */
  lemma {:induction false} PollAsksForAwaited(peer: AppIoPeer, ca: ContentAddressing, log: seq<AppCall>, runId: int,
                                              ids: set<ObjectId>, batches: seq<seq<Message>>, budget: nat)
    ensures var p := Poll(peer, ca, log, runId, Remaining(ids, batches), batches, budget);
      && |log| <= |p.log| && |batches| <= |p.batches|
      && (p.result.Ok? ==> PullRequests(p.log[|log|..]) == Awaited(ids, p.batches, |batches|))
    decreases budget
  {
    PollGrows(peer, ca, log, runId, Remaining(ids, batches), batches, budget);
    var p := Poll(peer, ca, log, runId, Remaining(ids, batches), batches, budget);
    if budget == 0 {
      assert p.log[|log|..] == [];
    } else {
      var b := PullBatch(peer, ca, log, runId, Remaining(ids, batches));
      PullBatchAsksOnce(peer, ca, log, runId, Remaining(ids, batches));
      var got := PullResult(b.outcome);
      if got.Ok? {
        var now := batches + [got.value];
        PollOnceMore(ids, batches, got.value);
        PollGrows(peer, ca, b.log, runId, Remaining(ids, now), now, budget - 1);
        assert now[..|batches|] == batches;
        if Remaining(ids, now) == {} {
          assert p.batches == now;
          assert Awaited(ids, now, |now|) == [];
        } else {
          PollAsksForAwaited(peer, ca, b.log, runId, ids, now, budget - 1);
          assert p.batches[..|batches|] == now[..|batches|];
          SegmentSplit(log, b.log, p.log);
          PullRequestsConcat(b.log[|log|..], p.log[|b.log|..]);
        }
      }
    }
  }
}
