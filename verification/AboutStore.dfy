/** recordAboutObservation as it runs: claim the key, allocate the sequence, then the inserts and the
    updates of one transaction. */
module AboutStore {
  import opened Prelude
  import opened AboutRegisters
  import opened AboutLog

  class ObservationStore {
    var keys: map<string, KeyRow>
    var log: seq<Entry>
    var cursors: map<string, Cursor>
    var outbox: seq<Event>
    var metrics: map<string, Registers>

    ghost function Snapshot(): State
      reads this
    {
      State(keys, log, cursors, outbox, metrics)
    }

    constructor (channels: set<string>)
      ensures Fresh(Snapshot()) && metrics.Keys == channels
    {
      var none := map[Subscribers := EMPTY, Views := EMPTY, Videos := EMPTY];
      forall m: Metric
        ensures m in none
      {
        match m case Subscribers => case Views => case Videos =>
      }
      keys, log, cursors, outbox := map[], [], map[], [];
      metrics := map c | c in channels :: none;
    }

    /** claimObservationKey: None if the key is new and now claimed. */
    method ClaimObservationKey(h: Hashes, c: Command, id: string) returns (reply: Option<Reply>)
      modifies this`keys
      ensures c.key !in old(keys) ==> reply.None? && keys == old(keys)[c.key := KeyRow(id, h.command(c.body))]
      ensures c.key in old(keys) ==>
        && keys == old(keys)
        && reply == Some(if keys[c.key].hash != h.command(c.body) then Conflict
                         else Duplicate(keys[c.key].observationId, Find(log, keys[c.key].observationId)))
    {
      if c.key !in keys {
        keys := keys[c.key := KeyRow(id, h.command(c.body))];
        return None;
      }
      var row := keys[c.key];
      if row.hash != h.command(c.body) {
        return Some(Conflict);
      }
      var found := FindObservation(row.observationId);
      return Some(Duplicate(row.observationId, found));
    }

    method FindObservation(id: string) returns (found: Option<Entry>)
      ensures found == Find(log, id)
    {
      for i := 0 to |log|
        invariant Find(log, id) == Find(log[i..], id)
      {
        assert log[i..][0] == log[i] && log[i..][1..] == log[i + 1..];
        if log[i].id == id {
          return Some(log[i]);
        }
      }
      return None;
    }

    /** allocateSequence: creates the cursor if there is none. */
    method AllocateSequence(channel: string) returns (sequence: nat)
      modifies this`cursors
      ensures sequence == CursorAt(old(Snapshot()), channel).sequence + 1
      ensures cursors == old(cursors)[channel := CursorAt(old(Snapshot()), channel)]
    {
      if channel !in cursors {
        cursors := cursors[channel := START];
      }
      sequence := cursors[channel].sequence + 1;
    }

    /** updateCurrentAbout, for the metrics: nothing on a failure or for a channel that does not exist. */
    method UpdateCurrentAbout(b: Body)
      modifies this`metrics
      ensures metrics == if b.channel in old(metrics) && b.outcome != Failed
        then old(metrics)[b.channel := UpdateMetrics(old(metrics)[b.channel], b)] else old(metrics)
    {
      if b.outcome == Failed || b.channel !in metrics {
        return;
      }
      metrics := metrics[b.channel := map m | m in metrics[b.channel] ::
        Update(metrics[b.channel][m], Timed(b.observedAt, b.readings.Of(m)))];
    }

    /** recordAboutObservation: what one call answers and stores. */
    method Record(h: Hashes, c: Command, id: string, eventId: string) returns (reply: Reply)
      modifies this
      ensures RecordRight(h, old(Snapshot()), Snapshot(), c, id, eventId, reply)
      ensures (Snapshot(), reply) == AboutLog.Record(h, old(Snapshot()), c, id, eventId)
    {
      RecordIsRight(h, Snapshot(), c, id, eventId);
      reply := Transact(h, c, id, eventId);
    }

    /** The statements of the transaction. */
    method Transact(h: Hashes, c: Command, id: string, eventId: string) returns (reply: Reply)
      modifies this
      ensures (Snapshot(), reply) == AboutLog.Record(h, old(Snapshot()), c, id, eventId)
    {
      if !Acceptable(h, c.body) {
        return Rejected;
      }
      var claimed := ClaimObservationKey(h, c, id);
      if claimed.Some? {
        return claimed.value;
      }
      var channel := c.body.channel;
      var sequence := AllocateSequence(channel);
      var e := Entry(id, c.key, sequence, c.body);
      log := log + [e];
      UpdateCurrentAbout(c.body);
      cursors := cursors[channel := Advance(cursors[channel], e)];
      assert cursors == old(cursors)[channel := Advance(CursorAt(old(Snapshot()), channel), e)];
      var event := EventOf(e, eventId);
      outbox := outbox + [event];
      reply := Recorded(e, event);
    }
  }
}
