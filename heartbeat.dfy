/**
  Heartbeat payload tiering: which beats carry the full context and which
  carry only the type, and the order in which they go out.
 */
module Heartbeat {
  import opened Wire

  /** Every how many beats the full payload is sent; fixed in the source. */
  const FullDataPacketEvery := 30

  /** The source's test on the beat count BEFORE the send:
      `count === 0 || count % fullDataPacketEvery === 0`, whose first
      disjunct adds nothing: beats 0, 30, 60, ... are full. */
  function IsFullBeat(count: nat): (full: bool)
    ensures full <==> count % FullDataPacketEvery == 0
  {
    count == 0 || count % FullDataPacketEvery == 0
  }

  /** What one call of the additional-data collector does: it returns a
      value (`undefined` is None), or it throws. */
  datatype Collection = Collected(data: Option<Value>) | CollectorThrew

  /** The collector the agent holds: the built-in `function() { return {} }`,
      or the client's `additionalDataCollector`. */
  datatype Collector = DefaultCollector | ClientCollector

  /** What calling the collector does on one tick, where `client` is what the
      client's collector does on that call; the built-in one returns `{}`. */
  function Collect(collector: Collector, client: Collection): (c: Collection)
    ensures collector.DefaultCollector? ==> c == Collected(Some(JObj(map[])))
    ensures collector.ClientCollector? ==> c == client
  {
    if collector.DefaultCollector? then Collected(Some(JObj(map[]))) else client
  }

  /** The value a collection puts in the payload; None leaves the
      `additionalData` key out. It is read only on a full beat that did not
      throw; on a light beat the collector is not called. */
  function CollectedData(c: Collection): Option<Value> {
    if c.Collected? then c.data else None
  }

  /** The message a tick builds: the full payload on a full beat, the bare
      `{type: 'heartbeat'}` otherwise. */
  function BeatPayload(count: nat, context: Telemetry, collected: Option<Value>): (m: OutMsg)
    ensures IsBeat(m)
    ensures m.FullBeat? <==> IsFullBeat(count)
    ensures m.FullBeat? ==> m.context == context && m.additionalData == collected
    ensures !m.FullBeat? ==> m == LightBeat
  {
    if IsFullBeat(count) then FullBeat(context, collected) else LightBeat
  }

  /** The heartbeats among the messages sent, in the order they were sent. */
  function Beats(sent: seq<OutMsg>): (b: seq<OutMsg>)
    ensures |b| <= |sent|
  {
    if sent == [] then []
    else
      var last := sent[|sent| - 1];
      Beats(sent[..|sent| - 1]) + (if IsBeat(last) then [last] else [])
  }

  /** Only heartbeats are kept. */
  lemma {:induction false} BeatsOnlyBeats(sent: seq<OutMsg>, k: nat)
    requires k < |Beats(sent)|
    ensures IsBeat(Beats(sent)[k])
    decreases |sent|
  {
    var init := sent[..|sent| - 1];
    if k < |Beats(init)| {
      BeatsOnlyBeats(init, k);
    }
  }

  /** Sending one more message adds it to the heartbeats exactly when it is one. */
  lemma BeatsAppend(sent: seq<OutMsg>, m: OutMsg)
    ensures Beats(sent + [m]) == Beats(sent) + (if IsBeat(m) then [m] else [])
  {
    assert (sent + [m])[..|sent|] == sent;
  }

  /** The beat that may go out as the `k`-th one: full exactly when `k` is a
      multiple of 30, light otherwise. */
  predicate BeatFits(k: nat, m: OutMsg) {
    (m.LightBeat? || m.FullBeat?) && (m.FullBeat? <==> k % FullDataPacketEvery == 0)
  }

  /** The final revision's order of heartbeats, built up one beat at a time:
      every beat fits the position it was sent in. */
  ghost predicate Tiered(beats: seq<OutMsg>)
    decreases |beats|
  {
    beats == [] || (Tiered(beats[..|beats| - 1]) && BeatFits(|beats| - 1, beats[|beats| - 1]))
  }

  /** In a tiered log, the `k`-th beat is full exactly when `k` is a multiple
      of 30 and light otherwise. */
  lemma {:induction false} TieredAt(beats: seq<OutMsg>, k: nat)
    requires Tiered(beats) && k < |beats|
    ensures BeatFits(k, beats[k])
    decreases |beats|
  {
    if k < |beats| - 1 {
      TieredAt(beats[..|beats| - 1], k);
    }
  }

  /** Conversely, a log whose every beat fits its position is tiered. */
  lemma {:induction false} TieredOfFits(beats: seq<OutMsg>)
    requires forall k :: 0 <= k < |beats| ==> BeatFits(k, beats[k])
    ensures Tiered(beats)
    decreases |beats|
  {
    if beats != [] {
      var init := beats[..|beats| - 1];
      assert forall k :: 0 <= k < |init| ==> init[k] == beats[k];
      TieredOfFits(init);
    }
  }

  /** A tick that sends the payload built from the current count keeps the order. */
  lemma TieredExtend(beats: seq<OutMsg>, context: Telemetry, collected: Option<Value>)
    requires Tiered(beats)
    ensures Tiered(beats + [BeatPayload(|beats|, context, collected)])
  {
    assert (beats + [BeatPayload(|beats|, context, collected)])[..|beats|] == beats;
  }

  /** Sending the payload built from the number of beats sent so far keeps
      the count and the order of the beats. */
  lemma BeatLogExtend(sent: seq<OutMsg>, count: nat, context: Telemetry, collected: Option<Value>)
    requires count == |Beats(sent)| && Tiered(Beats(sent))
    ensures count + 1 == |Beats(sent + [BeatPayload(count, context, collected)])|
    ensures Tiered(Beats(sent + [BeatPayload(count, context, collected)]))
  {
    BeatsAppend(sent, BeatPayload(count, context, collected));
    TieredExtend(Beats(sent), context, collected);
  }

  /** The earlier revisions' heartbeats: every one carries the context. */
  ghost predicate Untiered(beats: seq<OutMsg>) {
    forall k :: 0 <= k < |beats| ==> beats[k].BasicBeat?
  }
}
