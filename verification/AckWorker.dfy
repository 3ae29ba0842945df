/** The bounded ACK path of ack.go: the broker callback and the single worker. */
module AckWorker {
  import opened Wrappers
  import opened Commits
  import opened Outbox
  import opened Ack

  datatype Admission = Admission(topic: string, payload: Payload)

  /** Whose gateway this is and how it reads ids. */
  datatype Reader = Reader(lib: Library, gateway: string) {
    ghost predicate Valid() { lib.Lawful() && NoSlash(gateway) }
    ghost predicate Acks(a: Admission, u: MessageId) { StrictAck(lib, a.topic, a.payload, gateway, u) }
  }

  /** Those of `ids` for which some admission is a strictly valid own ACK.  Being a set,
      it ignores order and repetition. */
  ghost function AckedAmong(rd: Reader, queue: seq<Admission>, ids: set<MessageId>): set<MessageId> {
    set u | u in ids && exists i :: 0 <= i < |queue| && rd.Acks(queue[i], u)
  }

  lemma AckedNext(rd: Reader, queue: seq<Admission>, k: nat, ids: set<MessageId>)
    requires k < |queue|
    ensures AckedAmong(rd, queue[..k], ids) <= AckedAmong(rd, queue[..k + 1], ids)
    ensures AckedAmong(rd, queue[..k + 1], ids) - AckedAmong(rd, queue[..k], ids) <= set u | u in ids && rd.Acks(queue[k], u)
    ensures forall u :: u in ids && rd.Acks(queue[k], u) ==> u in AckedAmong(rd, queue[..k + 1], ids)
  {
    var p, q := queue[..k], queue[..k + 1];
    forall u | u in AckedAmong(rd, p, ids) ensures u in AckedAmong(rd, q, ids) {
      var i :| 0 <= i < |p| && rd.Acks(p[i], u);
      assert rd.Acks(q[i], u);
    }
    forall u | u in AckedAmong(rd, q, ids) && !rd.Acks(queue[k], u) ensures u in AckedAmong(rd, p, ids) {
      var i :| 0 <= i < |q| && rd.Acks(q[i], u);
      assert i < k && rd.Acks(p[i], u);
    }
    forall u | u in ids && rd.Acks(queue[k], u) ensures u in AckedAmong(rd, q, ids) { assert rd.Acks(q[k], u); }
  }

  /** Two sequences of admissions with the same members acknowledge the same rows. */
  lemma OrderIrrelevant(rd: Reader, p: seq<Admission>, q: seq<Admission>, ids: set<MessageId>)
    requires forall a :: a in p <==> a in q
    ensures AckedAmong(rd, p, ids) == AckedAmong(rd, q, ids)
  {
    forall u | u in AckedAmong(rd, p, ids) ensures u in AckedAmong(rd, q, ids) {
      var i :| 0 <= i < |p| && rd.Acks(p[i], u);
      assert p[i] in q;
      var j :| 0 <= j < |q| && q[j] == p[i];
      assert rd.Acks(q[j], u);
    }
    forall u | u in AckedAmong(rd, q, ids) ensures u in AckedAmong(rd, p, ids) {
      var i :| 0 <= i < |q| && rd.Acks(q[i], u);
      assert q[i] in p;
      var j :| 0 <= j < |p| && p[j] == q[i];
      assert rd.Acks(p[j], u);
    }
  }

  /** The store after the ACKs of `gone`: those rows left, every other row as it was. */
  ghost predicate Removed(s: Store, gone: set<MessageId>, t: Store) {
    gone <= s.PendingIds() && t == s.(rows := s.rows - gone)
  }

  lemma RemovedPending(s: Store, gone: set<MessageId>, t: Store)
    requires Removed(s, gone, t)
    ensures t.PendingIds() == s.PendingIds() - gone
    ensures forall m :: m in s.rows && !s.IsPending(m) ==> m in t.rows && t.rows[m] == s.rows[m]
  {}

  lemma RemovedMore(s: Store, gone: set<MessageId>, t: Store, u: MessageId)
    requires Removed(s, gone, t) && t.IsPending(u)
    ensures u in s.PendingIds() && u !in gone && Removed(s, gone + {u}, AfterDelete(t, u, Commits))
  {
    assert s.rows - gone - {u} == s.rows - (gone + {u});
  }

  /** What strict parsing answered: the one id this admission acknowledges, or none. */
  ghost predicate Parsed(rd: Reader, a: Admission, u: Option<MessageId>) {
    forall v: MessageId :: u == Some(v) <==> rd.Acks(a, v)
  }

  /** From `s` to `t`: exactly the pending rows acknowledged by the first `n` admissions left. */
  ghost predicate Folded(rd: Reader, queue: seq<Admission>, n: nat, s: Store, t: Store)
    requires n <= |queue|
  {
    Removed(s, AckedAmong(rd, queue[..n], s.PendingIds()), t)
  }

  /** The worker gave up at admission `n`: the rows are as after the first `n`, or as if the
      delete whose outcome it never learnt went through as well. */
  ghost predicate FoldedOrOneMore(rd: Reader, queue: seq<Admission>, n: nat, s: Store, t: Store)
    requires n < |queue|
  {
    Folded(rd, queue, n, s, t) || Folded(rd, queue, n + 1, s, t)
  }

  lemma FoldNothing(rd: Reader, queue: seq<Admission>, s: Store)
    ensures Folded(rd, queue, 0, s, s) && AckedAmong(rd, queue[..0], s.PendingIds()) == {}
  {
    assert AckedAmong(rd, queue[..0], s.PendingIds()) == {};
    assert s.rows - {} == s.rows;
  }

  /** Acknowledged rows never come back, so one more admission adds its row exactly when
      that row is still there. */
  lemma AckedStep(rd: Reader, queue: seq<Admission>, n: nat, ids: set<MessageId>, u: Option<MessageId>)
    requires n < |queue| && Parsed(rd, queue[n], u)
    ensures AckedAmong(rd, queue[..n + 1], ids) == AckedAmong(rd, queue[..n], ids) + if u.Some? && u.value in ids then {u.value} else {}
  {
    var next := AckedAmong(rd, queue[..n + 1], ids);
    AckedNext(rd, queue, n, ids);
    hide AckedAmong, StrictAck;
    assert u.Some? ==> rd.Acks(queue[n], u.value);
    forall v | v in next ensures v in AckedAmong(rd, queue[..n], ids) || u == Some(v) {
      assert v in AckedAmong(rd, queue[..n], ids) || rd.Acks(queue[n], v);
    }
  }

  /** One admission: its row leaves if it is still there, and the acknowledged set grows by
      that row exactly then. */
  lemma FoldStep(rd: Reader, queue: seq<Admission>, n: nat, s: Store, t: Store, u: Option<MessageId>)
    requires n < |queue| && Folded(rd, queue, n, s, t) && Parsed(rd, queue[n], u)
    ensures u.None? || !t.IsPending(u.value) ==> Folded(rd, queue, n + 1, s, t)
    ensures u.Some? && t.IsPending(u.value) ==> Folded(rd, queue, n + 1, s, AfterDelete(t, u.value, Commits))
    ensures |AckedAmong(rd, queue[..n + 1], s.PendingIds())|
      == |AckedAmong(rd, queue[..n], s.PendingIds())| + if u.Some? && t.IsPending(u.value) then 1 else 0
  {
    hide AckedAmong, Parsed, StrictAck, Removed, AfterDelete;
    var ids := s.PendingIds();
    var gone := AckedAmong(rd, queue[..n], ids);
    var next := AckedAmong(rd, queue[..n + 1], ids);
    AckedStep(rd, queue, n, ids, u);
    assert t.PendingIds() == ids - gone by { RemovedPending(s, gone, t); }
    if u.Some? && t.IsPending(u.value) {
      assert u.value in t.PendingIds();
      RemovedMore(s, gone, t, u.value);
      assert next == gone + {u.value};
    } else {
      assert u.Some? ==> u.value !in t.PendingIds();
      assert next == gone;
    }
  }

  class ACKProcessor {
    const reader: Reader
    const outbox: Outbox
    const capacity: nat

    var queue: seq<Admission>
    var notify: bool
    var fatal: bool

    var admitted: nat
    var acknowledged: nat
    var droppedRetained: nat
    var droppedOversize: nat
    var droppedFull: nat
    var deleteFailed: nat

    ghost predicate Valid() reads this, outbox {
      reader.Valid() && outbox.Valid() && |queue| <= capacity
    }

    constructor (reader: Reader, outbox: Outbox, capacity: nat)
      requires reader.Valid() && outbox.Valid() && 1 <= capacity <= 4096
      ensures Valid() && this.reader == reader && this.outbox == outbox && queue == [] && !notify && !fatal
      ensures acknowledged == 0 && deleteFailed == 0
    {
      this.reader, this.outbox, this.capacity := reader, outbox, capacity;
      queue, notify, fatal := [], false, false;
      admitted, acknowledged, droppedRetained, droppedOversize, droppedFull, deleteFailed := 0, 0, 0, 0, 0, 0;
    }

    function Calls(): nat reads this { admitted + droppedRetained + droppedOversize + droppedFull }

    /** Admit: never blocks, counts every call under exactly one heading, and changes no
        row; what it queues is what it was given. */
    method Admit(topic: string, payload: Payload, retained: bool)
      requires Valid()
      modifies this`queue, this`admitted, this`droppedRetained, this`droppedOversize, this`droppedFull
      ensures Valid()
      ensures Calls() == old(Calls()) + 1
      ensures admitted == old(admitted) + 1 <==> !retained && payload.size <= MAX_ACK_BYTES && |old(queue)| < capacity
      ensures queue == if admitted == old(admitted) + 1 then old(queue) + [Admission(topic, payload)] else old(queue)
    {
      if retained { droppedRetained := droppedRetained + 1; return; }
      if payload.size > MAX_ACK_BYTES { droppedOversize := droppedOversize + 1; return; }
      if |queue| < capacity {
        queue := queue + [Admission(topic, payload)];
        admitted := admitted + 1;
      } else {
        droppedFull := droppedFull + 1;
      }
    }

    /** handleAdmission: strict parse, one delete, then count and signal only a confirmed
        delete.  An error of any kind is fatal and counts as no success. */
    method HandleAdmission(a: Admission, c: Commit) returns (ok: bool, u: Option<MessageId>)
      requires Valid()
      modifies this`notify, this`acknowledged, this`deleteFailed, outbox`store
      ensures Valid()
      ensures Parsed(reader, a, u)
      ensures u.None? ==> ok && outbox.store == old(outbox.store)
      ensures u.Some? ==> outbox.store == AfterDelete(old(outbox.store), u.value, c) && (ok <==> c.Commits?)
      ensures acknowledged == old(acknowledged) + if ok && u.Some? && old(outbox.store).IsPending(u.value) then 1 else 0
      ensures notify == (old(notify) || acknowledged > old(acknowledged))
      ensures deleteFailed == old(deleteFailed) + if ok then 0 else 1
    {
      u := ParseCommitAck(reader.lib, a.topic, a.payload, reader.gateway);
      ok := true;
      if u.None? { return; }
      var deleted := outbox.DeletePending(u.value, c);
      if deleted.Err? {
        deleteFailed := deleteFailed + 1;
        ok := false;
        return;
      }
      if !deleted.value { return; }
      acknowledged := acknowledged + 1;
      notify := true;
    }

    /** run: the worker empties the queue until a delete fails; `fate` says what happens to
        each commit.  Whatever it got through, the rows gone are exactly the pending rows
        with a strictly valid own ACK among those admissions, and the counter is their
        number; quarantined and foreign rows stay as they were. */
    method Run(fate: seq<Commit>) returns (n: nat)
      requires Valid() && !fatal && |fate| == |queue|
      modifies this`queue, this`notify, this`fatal, this`acknowledged, this`deleteFailed, outbox`store
      ensures Valid() && n <= |old(queue)| && (fatal <==> n < |old(queue)|)
      ensures acknowledged == old(acknowledged) + |AckedAmong(reader, old(queue)[..n], old(outbox.store).PendingIds())|
      ensures !fatal ==> Folded(reader, old(queue), n, old(outbox.store), outbox.store)
      ensures fatal ==> !fate[n].Commits? && FoldedOrOneMore(reader, old(queue), n, old(outbox.store), outbox.store)
    {
      hide AckedAmong, Removed, StrictAck, Folded, Parsed, Library.Lawful;
      ghost var q, s := queue, outbox.store;
      n := 0;
      FoldNothing(reader, q, s);
      while queue != []
        invariant Valid() && !fatal && n <= |q| && queue == q[n..]
        invariant Folded(reader, q, n, s, outbox.store)
        invariant acknowledged == old(acknowledged) + |AckedAmong(reader, q[..n], s.PendingIds())|
        decreases |queue|
      {
        ghost var t := outbox.store;
        var a, c := queue[0], fate[n];
        queue := queue[1..];
        var ok, u := HandleAdmission(a, c);
        FoldStep(reader, q, n, s, t, u);
        if !ok { fatal := true; return; }
        n := n + 1;
      }
    }
  }
}
