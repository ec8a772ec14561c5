/**
 * Durable entities: one long-lived run per key takes messages one at a time, runs the handler inside a
 * checkpointed step together with the state it leaves, and publishes that state. A pass may end at any
 * checkpoint write, by a crash, or for want of a message; the next replays from the start.
 * Models the runner `run` in packages/adonis/src/entities.ts.
 */
module Entities {
  import opened Common

  datatype Message = Message(op: string, arg: Value, reply: Option<string>)

  /** A handler's result and the state it leaves; nothing when it throws or does not exist. */
  type Handler<!S> = (S, Message) -> Option<(Value, S)>

  /**
   * The checkpoints of a run in position order; the runner takes every position exactly once. `Replied`
   * carries what its step sent, and to whom.
   */
  datatype Record<S> =
    | Received(message: Message)
    | OpDone(index: nat, result: Value, state: S)
    | OpBroken(index: nat)
    | Published(state: S)
    | Replied(index: nat, to: string, result: Value)

  datatype Ending = OutOfMessages | Crashed | RunFailed

  // ----------------------------------------------------------------- specification

  /** The state after the handlers of all the messages; nothing once one has thrown. */
  function Fold<S>(init: S, handle: Handler<S>, messages: seq<Message>): Option<S>
    decreases |messages|
  {
    if messages == [] then Some(init)
    else
      var before := Fold(init, handle, messages[..|messages| - 1]);
      if before.None? then None
      else
        var out := handle(before.value, messages[|messages| - 1]);
        if out.None? then None else Some(out.value.1)
  }

  /** What one operation records, from a known state. */
  function RecordsOf<S>(handle: Handler<S>, index: nat, state: S, message: Message): seq<Record<S>> {
    var out := handle(state, message);
    if out.None? then [Received(message), OpBroken(index)]
    else
      [Received(message), OpDone(index, out.value.0, out.value.1), Published(out.value.1)]
      + if message.reply.Some? then [Replied(index, message.reply.value, out.value.0)] else []
  }

  /** The complete record of a list of messages. */
  function FullRecord<S>(init: S, handle: Handler<S>, messages: seq<Message>): seq<Record<S>>
    decreases |messages|
  {
    if messages == [] then []
    else
      var n := |messages| - 1;
      var before := Fold(init, handle, messages[..n]);
      FullRecord(init, handle, messages[..n])
      + if before.None? then [] else RecordsOf(handle, n, before.value, messages[n])
  }

  /** The journal covers exactly these messages: all of each but, perhaps, an end of the last. */
  ghost predicate Covers<S>(init: S, handle: Handler<S>, messages: seq<Message>, journal: seq<Record<S>>) {
    && journal <= FullRecord(init, handle, messages)
    && (messages != [] ==>
          && Fold(init, handle, messages[..|messages| - 1]).Some?
          && |FullRecord(init, handle, messages[..|messages| - 1])| < |journal|)
  }

  /** What `getState` reads: the state published last. */
  function GetState<S>(journal: seq<Record<S>>): Option<S> {
    if journal == [] then None
    else if journal[|journal| - 1].Published? then Some(journal[|journal| - 1].state)
    else GetState(journal[..|journal| - 1])
  }

  function PublishedCount<S>(journal: seq<Record<S>>): nat {
    if journal == [] then 0
    else PublishedCount(journal[..|journal| - 1]) + if journal[|journal| - 1].Published? then 1 else 0
  }

  // ------------------------------------------------------------ published state is the fold

  ghost predicate StateIsFold<S>(init: S, handle: Handler<S>, messages: seq<Message>, journal: seq<Record<S>>) {
    var n := PublishedCount(journal);
    && n <= |messages|
    && GetState(journal) == if n == 0 then None else Fold(init, handle, messages[..n])
  }

  lemma AppendQuiet<S>(journal: seq<Record<S>>, r: Record<S>)
    ensures GetState(journal + [r]) == if r.Published? then Some(r.state) else GetState(journal)
    ensures PublishedCount(journal + [r]) == PublishedCount(journal) + if r.Published? then 1 else 0
  {
    assert (journal + [r])[..|journal|] == journal;
  }

  /** The whole record of messages that all succeed publishes once per message. */
  lemma {:induction false} FullRecordPublishes<S>(init: S, handle: Handler<S>, messages: seq<Message>)
    requires Fold(init, handle, messages).Some?
    ensures var full := FullRecord(init, handle, messages);
            && PublishedCount(full) == |messages|
            && GetState(full) == if messages == [] then None else Fold(init, handle, messages)
    decreases |messages|
  {
    if messages != [] {
      var n := |messages| - 1;
      FullRecordPublishes(init, handle, messages[..n]);
      var full := FullRecord(init, handle, messages[..n]);
      var records := RecordsOf(handle, n, Fold(init, handle, messages[..n]).value, messages[n]);
      PartPublishes(full, records, |records|);
      assert full + records[..|records|] == FullRecord(init, handle, messages);
    }
  }

  /** A prefix of one operation's records publishes nothing before its third. */
  lemma {:induction false} PartPublishes<S>(before: seq<Record<S>>, records: seq<Record<S>>, k: nat)
    requires k <= |records| <= 4
    requires |records| >= 1 ==> !records[0].Published?
    requires |records| >= 2 ==> !records[1].Published?
    requires |records| >= 3 ==> records[2].Published?
    requires |records| >= 4 ==> !records[3].Published?
    ensures PublishedCount(before + records[..k]) == PublishedCount(before) + if k >= 3 then 1 else 0
    ensures GetState(before + records[..k]) == if k >= 3 then Some(records[2].state) else GetState(before)
  {
    hide GetState, PublishedCount;
    if k == 0 {
      assert before + records[..0] == before;
    } else {
      PartPublishes(before, records, k - 1);
      AppendQuiet(before + records[..k - 1], records[k - 1]);
      assert before + records[..k] == (before + records[..k - 1]) + [records[k - 1]];
    }
  }

  /** Wherever the last pass stopped, the published state is the fold of the messages published so far. */
  lemma CoveredStateIsFold<S>(init: S, handle: Handler<S>, messages: seq<Message>, journal: seq<Record<S>>)
    requires Covers(init, handle, messages, journal)
    ensures StateIsFold(init, handle, messages, journal)
    ensures |messages| - 1 <= PublishedCount(journal) <= |messages|
  {
    if messages != [] {
      var n := |messages| - 1;
      var full := FullRecord(init, handle, messages[..n]);
      var records := RecordsOf(handle, n, Fold(init, handle, messages[..n]).value, messages[n]);
      RecordsShape(handle, n, Fold(init, handle, messages[..n]).value, messages[n]);
      assert FullRecord(init, handle, messages) == full + records;
      hide RecordsOf;
      var k := PartOf(journal, full, records);
      FullRecordPublishes(init, handle, messages[..n]);
      hide FullRecord;
      PartPublishes(full, records, k);
      assert messages[..n + 1] == messages;
    }
  }

  /** A journal that covers `full` and is covered by `full + records` is `full` and a part of `records`. */
  lemma PartOf<S>(journal: seq<Record<S>>, full: seq<Record<S>>, records: seq<Record<S>>) returns (k: nat)
    requires journal <= full + records && |full| <= |journal|
    ensures k == |journal| - |full| <= |records| && journal == full + records[..k]
  {
    k := |journal| - |full|;
    assert journal == (full + records)[..|journal|];
  }

  // ------------------------------------------------------------- what each record means

  /** Operation `i` met the state the messages before it leave, and had this outcome. */
  ghost predicate Ran<S>(init: S, handle: Handler<S>, messages: seq<Message>, i: nat, out: Option<(Value, S)>) {
    && i < |messages| && Fold(init, handle, messages[..i]).Some?
    && handle(Fold(init, handle, messages[..i]).value, messages[i]) == out
  }

  /** What a record says is so: of the message, of its handler's result and state, or of the reply sent for it. */
  ghost predicate Explained<S>(init: S, handle: Handler<S>, messages: seq<Message>, r: Record<S>) {
    match r
    case Received(message) => message in messages
    case OpDone(i, result, state) => Ran(init, handle, messages, i, Some((result, state)))
    case OpBroken(i) => Ran(init, handle, messages, i, None)
    case Published(state) => exists n | 0 < n <= |messages| :: Fold(init, handle, messages[..n]) == Some(state)
    case Replied(i, to, result) =>
      && i < |messages| && messages[i].reply == Some(to) && Fold(init, handle, messages[..i + 1]).Some?
      && Ran(init, handle, messages, i, Some((result, Fold(init, handle, messages[..i + 1]).value)))
  }

  lemma RanStays<S>(init: S, handle: Handler<S>, messages: seq<Message>, more: seq<Message>, i: nat,
                    out: Option<(Value, S)>)
    requires Ran(init, handle, messages, i, out)
    ensures Ran(init, handle, messages + more, i, out)
  {
    assert (messages + more)[..i] == messages[..i];
  }

  lemma ExplainedStays<S>(init: S, handle: Handler<S>, messages: seq<Message>, more: seq<Message>, r: Record<S>)
    requires Explained(init, handle, messages, r)
    ensures Explained(init, handle, messages + more, r)
  {
    hide Ran;
    match r
    case Received(_) =>
    case OpDone(i, result, state) => RanStays(init, handle, messages, more, i, Some((result, state)));
    case OpBroken(i) => RanStays(init, handle, messages, more, i, None);
    case Published(state) =>
      var n :| 0 < n <= |messages| && Fold(init, handle, messages[..n]) == Some(state);
      assert (messages + more)[..n] == messages[..n];
    case Replied(i, to, result) =>
      assert (messages + more)[..i + 1] == messages[..i + 1];
      RanStays(init, handle, messages, more, i, Some((result, Fold(init, handle, messages[..i + 1]).value)));
  }

  lemma OpExplained<S>(init: S, handle: Handler<S>, before: seq<Message>, message: Message, r: Record<S>)
    requires Fold(init, handle, before).Some?
    requires r in RecordsOf(handle, |before|, Fold(init, handle, before).value, message)
    ensures Explained(init, handle, before + [message], r)
  {
    var messages, i := before + [message], |before|;
    assert messages[..i] == before && messages[..i + 1] == messages;
    var state := Fold(init, handle, before).value;
    var out := handle(state, message);
    assert Ran(init, handle, messages, i, out);
    assert out.Some? ==> Fold(init, handle, messages) == Some(out.value.1);
    hide Fold, Ran;
    assert message in messages && messages[i] == message;
    assert r.Published? ==> 0 < i + 1 <= |messages| && Fold(init, handle, messages[..i + 1]) == Some(r.state);
  }

  /** Every record of a run is so: the results and states are its handlers', and each reply is of its own message. */
  lemma {:induction false} RecordsExplained<S>(init: S, handle: Handler<S>, messages: seq<Message>, r: Record<S>)
    requires r in FullRecord(init, handle, messages)
    ensures Explained(init, handle, messages, r)
    decreases |messages|
  {
    hide Explained, Fold, RecordsOf;
    var n := |messages| - 1;
    assert messages == messages[..n] + [messages[n]];
    if r in FullRecord(init, handle, messages[..n]) {
      RecordsExplained(init, handle, messages[..n], r);
      ExplainedStays(init, handle, messages[..n], [messages[n]], r);
    } else {
      OpExplained(init, handle, messages[..n], messages[n], r);
    }
  }

  /** The messages received, in order. */
  function ReceivedOf<S>(journal: seq<Record<S>>): seq<Message> {
    if journal == [] then []
    else
      var last := journal[|journal| - 1];
      ReceivedOf(journal[..|journal| - 1]) + if last.Received? then [last.message] else []
  }

  /** How many replies have been sent for operation `i`. */
  function RepliesTo<S>(journal: seq<Record<S>>, i: nat): nat {
    if journal == [] then 0
    else
      var last := journal[|journal| - 1];
      RepliesTo(journal[..|journal| - 1], i) + if last.Replied? && last.index == i then 1 else 0
  }

  lemma AppendCounts<S>(journal: seq<Record<S>>, r: Record<S>, i: nat)
    ensures ReceivedOf(journal + [r]) == ReceivedOf(journal) + if r.Received? then [r.message] else []
    ensures RepliesTo(journal + [r], i) == RepliesTo(journal, i) + if r.Replied? && r.index == i then 1 else 0
  {
    assert (journal + [r])[..|journal|] == journal;
  }

  /** The first `k` records of operation `n`: the message once, and the reply, if any, as the fourth. */
  lemma {:induction false} PartCounts<S>(before: seq<Record<S>>, handle: Handler<S>, n: nat, state: S, message: Message,
                                         k: nat, i: nat)
    requires k <= |RecordsOf(handle, n, state, message)|
    ensures var now := before + RecordsOf(handle, n, state, message)[..k];
            && ReceivedOf(now) == ReceivedOf(before) + (if k > 0 then [message] else [])
            && RepliesTo(now, i) == RepliesTo(before, i) + (if k == 4 && i == n then 1 else 0)
    decreases k
  {
    hide ReceivedOf, RepliesTo;
    var records := RecordsOf(handle, n, state, message);
    if k == 0 {
      assert before + records[..0] == before;
    } else {
      PartCounts(before, handle, n, state, message, k - 1, i);
      AppendCounts(before + records[..k - 1], records[k - 1], i);
      assert before + records[..k] == (before + records[..k - 1]) + [records[k - 1]];
    }
  }

  /** The whole record of messages that all succeed receives each once and replies once where it is asked to. */
  lemma {:induction false} FullCounts<S>(init: S, handle: Handler<S>, messages: seq<Message>, i: nat)
    requires Fold(init, handle, messages).Some?
    ensures var full := FullRecord(init, handle, messages);
            && ReceivedOf(full) == messages
            && RepliesTo(full, i) == if i < |messages| && messages[i].reply.Some? then 1 else 0
    decreases |messages|
  {
    if messages != [] {
      hide ReceivedOf, RepliesTo, RecordsOf;
      var n := |messages| - 1;
      FullCounts(init, handle, messages[..n], i);
      var full, state := FullRecord(init, handle, messages[..n]), Fold(init, handle, messages[..n]).value;
      var records := RecordsOf(handle, n, state, messages[n]);
      RecordsShape(handle, n, state, messages[n]);
      assert FullRecord(init, handle, messages) == full + records;
      assert handle(state, messages[n]).Some?;
      hide FullRecord, Fold;
      PartCounts(full, handle, n, state, messages[n], |records|, i);
      CountsOfWhole(full, records, messages, i);
    }
  }

  /** What the counts of the parts say of the whole. */
  lemma CountsOfWhole<S>(full: seq<Record<S>>, records: seq<Record<S>>, messages: seq<Message>, i: nat)
    requires messages != [] && |records| == if messages[|messages| - 1].reply.Some? then 4 else 3
    requires var n, now := |messages| - 1, full + records[..|records|];
             && ReceivedOf(full) == messages[..n] && ReceivedOf(now) == ReceivedOf(full) + [messages[n]]
             && RepliesTo(full, i) == (if i < n && messages[..n][i].reply.Some? then 1 else 0)
             && RepliesTo(now, i) == RepliesTo(full, i) + (if |records| == 4 && i == n then 1 else 0)
    ensures ReceivedOf(full + records) == messages
    ensures RepliesTo(full + records, i) == if i < |messages| && messages[i].reply.Some? then 1 else 0
  {
    hide ReceivedOf, RepliesTo;
    assert records[..|records|] == records;
    assert messages == messages[..|messages| - 1] + [messages[|messages| - 1]];
  }

  /**
   * Wherever the last pass stopped, every record is so, the messages received are those taken, in order,
   * and each message before the last has had exactly one reply if it asked for one, and else none.
   */
  lemma RepliedOnceWithOwnResult<S>(init: S, handle: Handler<S>, messages: seq<Message>, journal: seq<Record<S>>,
                                    r: Record<S>, i: nat)
    requires Covers(init, handle, messages, journal)
    ensures r in journal ==> Explained(init, handle, messages, r)
    ensures ReceivedOf(journal) == messages
    ensures i < |messages| - 1 ==> RepliesTo(journal, i) == if messages[i].reply.Some? then 1 else 0
  {
    if r in journal {
      RecordsExplained(init, handle, messages, r);
    }
    if messages != [] {
      var n := |messages| - 1;
      var full, state := FullRecord(init, handle, messages[..n]), Fold(init, handle, messages[..n]).value;
      var records := RecordsOf(handle, n, state, messages[n]);
      assert FullRecord(init, handle, messages) == full + records;
      hide RecordsOf, ReceivedOf, RepliesTo, Explained;
      var k := PartOf(journal, full, records);
      FullCounts(init, handle, messages[..n], i);
      PartCounts(full, handle, n, state, messages[n], k, i);
      assert messages == messages[..n] + [messages[n]];
    }
  }

  // ---------------------------------------------------------- where a replay stands

  lemma {:induction false} FullRecordGrows<S>(init: S, handle: Handler<S>, messages: seq<Message>, i: nat)
    requires i <= |messages|
    ensures FullRecord(init, handle, messages[..i]) <= FullRecord(init, handle, messages)
    decreases |messages| - i
  {
    if i == |messages| {
      assert messages[..i] == messages;
    } else {
      FullRecordGrows(init, handle, messages, i + 1);
      assert messages[..i + 1][..i] == messages[..i];
    }
  }

  lemma {:induction false} FoldEarlier<S>(init: S, handle: Handler<S>, messages: seq<Message>, i: nat)
    requires i <= |messages| && Fold(init, handle, messages).Some?
    ensures Fold(init, handle, messages[..i]).Some?
    decreases |messages| - i
  {
    if i == |messages| {
      assert messages[..i] == messages;
    } else {
      FoldEarlier(init, handle, messages, i + 1);
      assert messages[..i + 1][..i] == messages[..i];
    }
  }

  /** Where the records of operation `i` lie in the whole record. */
  lemma OpPlace<S>(init: S, handle: Handler<S>, messages: seq<Message>, i: nat, state: S)
    requires i < |messages| && Fold(init, handle, messages[..i]) == Some(state)
    ensures var n, next := |messages| - 1, FullRecord(init, handle, messages[..i + 1]);
            && next == FullRecord(init, handle, messages[..i]) + RecordsOf(handle, i, state, messages[i])
            && next <= FullRecord(init, handle, messages)
            && (i < n ==> |next| <= |FullRecord(init, handle, messages[..n])|)
  {
    var n := |messages| - 1;
    assert messages[..i + 1][..i] == messages[..i];
    hide RecordsOf, Fold;
    FullRecordGrows(init, handle, messages, i + 1);
    if i < n {
      assert messages[..n][..i + 1] == messages[..i + 1];
      FullRecordGrows(init, handle, messages[..n], i + 1);
    }
  }

  /** Every operation but the last has succeeded. */
  lemma OpSucceeded<S>(init: S, handle: Handler<S>, messages: seq<Message>, i: nat, state: S)
    requires i < |messages| - 1 && Fold(init, handle, messages[..i]) == Some(state)
    requires Fold(init, handle, messages[..|messages| - 1]).Some?
    ensures handle(state, messages[i]).Some?
  {
    var n := |messages| - 1;
    assert messages[..n][..i + 1] == messages[..i + 1];
    FoldEarlier(init, handle, messages[..n], i + 1);
    assert messages[..i + 1][..i] == messages[..i];
  }

  /** The journal at operation `i` is that operation's records, as far as it goes. */
  lemma OpView<S>(init: S, handle: Handler<S>, messages: seq<Message>, journal: seq<Record<S>>, i: nat, state: S)
    requires Covers(init, handle, messages, journal)
    requires i < |messages| && Fold(init, handle, messages[..i]) == Some(state)
    ensures var pos := |FullRecord(init, handle, messages[..i])|;
            var records := RecordsOf(handle, i, state, messages[i]);
            && pos < |journal|
            && (forall t | 0 <= t < |records| && pos + t < |journal| :: journal[pos + t] == records[t])
            && (if i + 1 < |messages| then |journal| > pos + |records| && handle(state, messages[i]).Some?
                else |journal| <= pos + |records|)
            && |FullRecord(init, handle, messages[..i + 1])| == pos + |records|
  {
    CoversMeans(init, handle, messages, journal);
    hide *;
    OpPlace(init, handle, messages, i, state);
    RecordsShape(handle, i, state, messages[i]);
    if i + 1 < |messages| {
      OpSucceeded(init, handle, messages, i, state);
    } else {
      assert messages[..i + 1] == messages && messages[..|messages| - 1] == messages[..i];
    }
    ViewAt(journal, FullRecord(init, handle, messages[..i]), RecordsOf(handle, i, state, messages[i]),
           FullRecord(init, handle, messages));
  }

  lemma CoversMeans<S>(init: S, handle: Handler<S>, messages: seq<Message>, journal: seq<Record<S>>)
    requires Covers(init, handle, messages, journal) && messages != []
    ensures journal <= FullRecord(init, handle, messages)
    ensures Fold(init, handle, messages[..|messages| - 1]).Some?
    ensures |FullRecord(init, handle, messages[..|messages| - 1])| < |journal|
  {
  }

  lemma ViewAt<S>(journal: seq<Record<S>>, full: seq<Record<S>>, records: seq<Record<S>>, whole: seq<Record<S>>)
    requires full + records <= whole && journal <= whole
    ensures forall t | 0 <= t < |records| && |full| + t < |journal| :: journal[|full| + t] == records[t]
  {
    forall t | 0 <= t < |records| && |full| + t < |journal|
      ensures journal[|full| + t] == records[t]
    {
      assert (full + records)[|full| + t] == records[t];
    }
  }

  lemma RecordsShape<S>(handle: Handler<S>, index: nat, state: S, message: Message)
    ensures var r, out := RecordsOf(handle, index, state, message), handle(state, message);
            && r[..1] == [Received(message)] && r[0] == Received(message)
            && (if out.None? then |r| == 2 && r[1] == OpBroken(index)
                else && |r| == (if message.reply.Some? then 4 else 3)
                     && r[1] == OpDone(index, out.value.0, out.value.1) && r[2] == Published(out.value.1)
                     && (message.reply.Some? ==> r[3] == Replied(index, message.reply.value, out.value.0)))
  {
  }

  /** The next record of the last operation may be written. */
  lemma ExtendOp<S>(init: S, handle: Handler<S>, messages: seq<Message>, journal: seq<Record<S>>, state: S, k: nat)
    requires Covers(init, handle, messages, journal) && messages != []
    requires Fold(init, handle, messages[..|messages| - 1]) == Some(state)
    requires k < |RecordsOf(handle, |messages| - 1, state, messages[|messages| - 1])|
    requires |journal| == |FullRecord(init, handle, messages[..|messages| - 1])| + k
    ensures Covers(init, handle, messages,
                   journal + [RecordsOf(handle, |messages| - 1, state, messages[|messages| - 1])[k]])
  {
    var full := FullRecord(init, handle, messages);
    assert full[|journal|] == RecordsOf(handle, |messages| - 1, state, messages[|messages| - 1])[k];
    assert journal + [full[|journal|]] <= full;
  }

  /** A message may be recorded once everything before it is. */
  lemma ExtendMessages<S>(init: S, handle: Handler<S>, messages: seq<Message>, journal: seq<Record<S>>,
                          message: Message)
    requires Covers(init, handle, messages, journal) && Fold(init, handle, messages).Some?
    requires |journal| == |FullRecord(init, handle, messages)|
    ensures Covers(init, handle, messages + [message], journal + [Received(message)])
  {
    assert (messages + [message])[..|messages|] == messages;
    assert journal == FullRecord(init, handle, messages);
  }

  /** The first `n` messages of the inbox have been added. */
  predicate Taken(before: seq<Message>, inbox: seq<Message>, n: nat, after: seq<Message>) {
    n <= |inbox| && after == before + inbox[..n]
  }

  // ------------------------------------------------------------------------- the run

  class EntityRun<!S(==)> {
    const init: S
    const handle: Handler<S>
    var journal: seq<Record<S>>
    ghost var messages: seq<Message>

    ghost predicate Valid()
      reads this
    {
      Covers(init, handle, messages, journal)
    }

    /** No handler has thrown: the run may still be driven. */
    predicate Live()
      reads this
    {
      journal == [] || !journal[|journal| - 1].OpBroken?
    }

    constructor (init: S, handle: Handler<S>)
      ensures Valid() && Live() && messages == [] && journal == []
      ensures this.init == init && this.handle == handle
    {
      this.init, this.handle := init, handle;
      journal, messages := [], [];
    }

    /** Operation `i` starts here from `state`: all before it is recorded. */
    ghost predicate Ready(i: nat, state: S, pos: nat)
      reads this
    {
      && Valid() && i <= |messages| && Fold(init, handle, messages[..i]) == Some(state)
      && pos == |FullRecord(init, handle, messages[..i])| <= |journal|
      && (i == |messages| <==> pos == |journal|)
    }

    /** The first `k` records of operation `i` have been read or written; `pos` is the next position. */
    ghost predicate At(i: nat, state: S, msg: Message, k: nat, pos: nat)
      reads this
    {
      && Valid() && i < |messages| && messages[i] == msg && Fold(init, handle, messages[..i]) == Some(state)
      && k <= |RecordsOf(handle, i, state, msg)|
      && pos == |FullRecord(init, handle, messages[..i])| + k <= |journal|
    }

    lemma ReadsItsRecord(i: nat, state: S, msg: Message, k: nat, pos: nat)
      requires At(i, state, msg, k, pos) && k < |RecordsOf(handle, i, state, msg)| && pos < |journal|
      ensures journal[pos] == RecordsOf(handle, i, state, msg)[k]
      ensures At(i, state, msg, k + 1, pos + 1)
      ensures Live() && k == 1 ==> handle(state, msg).Some?
    {
      hide Covers, Fold, FullRecord, RecordsOf;
      OpView(init, handle, messages, journal, i, state);
      RecordsShape(handle, i, state, msg);
    }

    lemma Finished(i: nat, state: S, msg: Message, pos: nat)
      requires At(i, state, msg, |RecordsOf(handle, i, state, msg)|, pos) && handle(state, msg).Some?
      ensures Ready(i + 1, handle(state, msg).value.1, pos)
    {
      OpView(init, handle, messages, journal, i, state);
      assert messages[..i + 1][..i] == messages[..i];
    }

    /** Reads the record at `pos` or, within the budget, writes it. */
    method Checkpoint(ghost i: nat, ghost state: S, ghost msg: Message, ghost k: nat, pos: nat,
                      record: Record<S>, left: nat)
      returns (ok: bool, left': nat)
      requires At(i, state, msg, k, pos) && Live()
      requires k < |RecordsOf(handle, i, state, msg)| && record == RecordsOf(handle, i, state, msg)[k]
      modifies this`journal
      ensures !ok ==> journal == old(journal)
      ensures ok ==> At(i, state, msg, k + 1, pos + 1) && |journal| + left' == |old(journal)| + left && left' <= left
      ensures ok ==> (Live() <==> !record.OpBroken?)
    {
      hide Covers, Fold, FullRecord, RecordsOf;
      if pos < |journal| {
        ReadsItsRecord(i, state, msg, k, pos);
        BrokenIsLast(i, state, msg, k, pos);
        return true, left;
      }
      if left == 0 { return false, left; }
      OpView(init, handle, messages, journal, i, state);
      ExtendOp(init, handle, messages, journal, state, k);
      journal := journal + [record];
      return true, left - 1;
    }

    lemma BrokenIsLast(i: nat, state: S, msg: Message, k: nat, pos: nat)
      requires At(i, state, msg, k, pos) && k < |RecordsOf(handle, i, state, msg)| && pos < |journal| && Live()
      ensures !RecordsOf(handle, i, state, msg)[k].OpBroken?
    {
      hide Covers, Fold, FullRecord, RecordsOf;
      RecordsShape(handle, i, state, msg);
      OpView(init, handle, messages, journal, i, state);
    }

    /** Returns the recorded message of operation `i`, or takes the next one and records it. */
    method AwaitMessage(ghost i: nat, ghost state: S, pos: nat, next: Message, left: nat)
      returns (ok: bool, msg: Message, fromInbox: bool, left': nat)
      requires Ready(i, state, pos) && Live()
      modifies this`journal, this`messages
      ensures Live() && Valid()
      ensures !ok ==> journal == old(journal) && messages == old(messages)
      ensures ok ==> At(i, state, msg, 1, pos + 1) && |journal| + left' == |old(journal)| + left && left' <= left
      ensures ok ==> fromInbox == (pos == |old(journal)|)
      ensures ok ==> messages == old(messages) + if fromInbox then [next] else []
    {
      if pos < |journal| {
        OpView(init, handle, messages, journal, i, state);
        RecordsShape(handle, i, state, messages[i]);
        assert journal[pos + 0] == RecordsOf(handle, i, state, messages[i])[0];
        return true, journal[pos].message, false, left;
      }
      if left == 0 { return false, next, false, left; }
      assert messages[..i] == messages && (messages + [next])[..i] == messages;
      ExtendMessages(init, handle, messages, journal, next);
      journal, messages := journal + [Received(next)], messages + [next];
      return true, next, true, left - 1;
    }

    /** The body of the runner's loop for a message already read: the handler, the event, the reply. */
    method RunOp(ghost i: nat, state: S, msg: Message, from: nat, index: nat, left: nat)
      returns (ending: Option<Ending>, next: S, pos: nat, left': nat)
      requires At(i, state, msg, 1, from) && Live() && index == i
      modifies this`journal
      ensures Valid() && |journal| >= |old(journal)|
      ensures ending.None? ==> Ready(i + 1, next, pos) && Live() && pos > from
      ensures ending.None? ==> |journal| + left' == |old(journal)| + left
      ensures ending.Some? ==> ending.value != OutOfMessages && (ending.value == RunFailed <==> !Live())
    {
      hide Covers, Fold, FullRecord, RecordsOf, Live;
      RecordsShape(handle, i, state, msg);
      AtIsValid(i, state, msg, 1, from);
      var ok: bool;
      next, pos, left' := state, from, left;
      var result := Undefined;
      // ctx.localStep(`op:${i}`): the handler runs unless its outcome is recorded
      if pos < |journal| {
        ReadsItsRecord(i, state, msg, 1, pos);
        result, next := journal[pos].result, journal[pos].state;
      } else {
        var out := handle(state, msg);
        var record := if out.Some? then OpDone(index, out.value.0, out.value.1) else OpBroken(index);
        ok, left' := Checkpoint(i, state, msg, 1, pos, record, left');
        if !ok { return Some(Crashed), next, pos, left'; }
        AtIsValid(i, state, msg, 2, pos + 1);
        if out.None? { return Some(RunFailed), next, pos, left'; }
        result, next := out.value.0, out.value.1;
      }
      hide At;
      // ctx.setEvent('state', state)
      ok, left' := Checkpoint(i, state, msg, 2, pos + 1, Published(next), left');
      if !ok { return Some(Crashed), next, pos, left'; }
      AtIsValid(i, state, msg, 3, pos + 2);
      pos := pos + 2;
      // ctx.localStep(`reply:${i}`)
      if msg.reply.Some? {
        ok, left' := Checkpoint(i, state, msg, 3, pos, Replied(index, msg.reply.value, result), left');
        if !ok { return Some(Crashed), next, pos, left'; }
        AtIsValid(i, state, msg, 4, pos + 1);
        pos := pos + 1;
      }
      Finished(i, state, msg, pos);
      ending := None;
    }

    lemma AtIsValid(i: nat, state: S, msg: Message, k: nat, pos: nat)
      requires At(i, state, msg, k, pos)
      ensures Valid() && pos <= |journal|
    {
    }

    /** One turn of the runner's loop. */
    method Turn(i: nat, state: S, from: nat, upcoming: Message, left: nat)
      returns (ending: Option<Ending>, next: S, pos: nat, left': nat, took: bool)
      requires Ready(i, state, from) && Live()
      modifies this
      ensures Valid() && |journal| >= |old(journal)|
      ensures messages == if took then old(messages) + [upcoming] else old(messages)
      ensures took ==> from == |old(journal)|
      ensures ending.None? ==> Ready(i + 1, next, pos) && Live() && from < pos <= |journal|
      ensures ending.None? ==> |journal| + left' == |old(journal)| + left
      ensures ending.Some? ==> ending.value != OutOfMessages && (ending.value == RunFailed <==> !Live())
    {
      hide Covers, Fold, FullRecord, RecordsOf, Ready, At, Live;
      var ok, msg;
      // ctx.waitForSignal
      ok, msg, took, left' := AwaitMessage(i, state, from, upcoming, left);
      if !ok { return Some(Crashed), state, from, left', false; }
      ending, next, pos, left' := RunOp(i, state, msg, from + 1, i, left');
      if ending.None? { PosWithin(i + 1, next, pos); }
    }

    method DriveLoop(inbox: seq<Message>, budget: nat) returns (recorded: nat, ending: Ending)
      requires Valid() && Live()
      modifies this
      ensures Valid() && |journal| >= |old(journal)|
      ensures Taken(old(messages), inbox, recorded, messages)
      ensures ending == RunFailed <==> !Live()
      ensures ending == OutOfMessages ==> recorded == |inbox|
    {
      assert inbox[..0] == [];
      var state := init;
      var pos: nat, left: nat, i: nat := 0, budget, 0;
      recorded := 0;
      StartsReady();
      assert Taken(old(messages), inbox, recorded, messages);
      hide Covers, Fold, FullRecord, RecordsOf, At, Ready, Live, Taken;
      while true
        invariant Ready(i, state, pos) && Live() && Valid() && |journal| >= |old(journal)| && pos <= |journal|
        invariant Taken(old(messages), inbox, recorded, messages)
        decreases |journal| + left - pos
      {
        hide Valid;
        if pos == |journal| && recorded == |inbox| { return recorded, OutOfMessages; }
        var upcoming := if recorded < |inbox| then inbox[recorded] else Message("", Undefined, None);
        var ended, took;
        ended, state, pos, left, took := Turn(i, state, pos, upcoming, left);
        if took {
          TakenOneMore(old(messages), inbox, recorded);
          recorded := recorded + 1;
        }
        if ended.Some? { return recorded, ended.value; }
        i := i + 1;
      }
    }

    /**
     * One pass: replays from the start, then goes on with messages from `inbox` until they run out, a
     * handler throws, or `budget` checkpoint writes have been made and the process dies. A message taken
     * but not yet recorded when it dies is not among `messages`.
     */
    method Drive(inbox: seq<Message>, budget: nat) returns (recorded: nat, ending: Ending)
      requires Valid() && Live()
      modifies this
      ensures Valid() && old(journal) <= journal
      ensures recorded <= |inbox| && messages == old(messages) + inbox[..recorded]
      ensures ending == RunFailed <==> !Live()
      ensures ending == OutOfMessages ==> recorded == |inbox|
      ensures StateIsFold(init, handle, messages, journal)
    {
      recorded, ending := DriveLoop(inbox, budget);
      JournalGrew(init, handle, old(messages), messages, old(journal), journal);
      CoveredStateIsFold(init, handle, messages, journal);
    }

    lemma StartsReady()
      requires Valid()
      ensures Ready(0, init, 0)
    {
      assert messages[..0] == [];
      CoversSomething(init, handle, messages, journal);
    }

    lemma PosWithin(i: nat, state: S, pos: nat)
      requires Ready(i, state, pos)
      ensures Valid() && pos <= |journal|
    {
    }
  }

  lemma TakenOneMore(before: seq<Message>, inbox: seq<Message>, n: nat)
    requires n < |inbox|
    ensures Taken(before, inbox, n + 1, (before + inbox[..n]) + [inbox[n]])
  {
    assert inbox[..n + 1] == inbox[..n] + [inbox[n]];
  }

  lemma JournalGrew<S>(init: S, handle: Handler<S>, before: seq<Message>, after: seq<Message>,
                       was: seq<Record<S>>, now: seq<Record<S>>)
    requires Covers(init, handle, before, was) && Covers(init, handle, after, now)
    requires before <= after && |was| <= |now|
    ensures was <= now
  {
    FullRecordGrows(init, handle, after, |before|);
    assert after[..|before|] == before;
    hide FullRecord, Fold;
  }

  lemma CoversSomething<S>(init: S, handle: Handler<S>, messages: seq<Message>, journal: seq<Record<S>>)
    requires Covers(init, handle, messages, journal)
    ensures messages == [] <==> journal == []
  {
  }
}
