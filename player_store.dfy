/** The process-wide playback session store (frontend/src/stores/use-player-store.ts):
    the selected track, the autoplay-intent counter and the shared analyser handle. */
module PlayerStore {
  import opened Base

  /** The descriptor of a track selected for playback. */
  datatype PlayerTrack = PlayerTrack(
    id: string,
    title: Option<string>,
    url: Option<string>,
    artwork: Option<string>,
    prompt: Option<string>,
    createdByUserName: Option<string>)

  /** An opaque handle on a frequency-analysis node; `node` tells handles apart
      and `binCount` is the node's frequencyBinCount. */
  datatype AnalyserNode = AnalyserNode(node: nat, binCount: nat)

  /** The observable content of the store. */
  datatype PlayerState = PlayerState(
    track: Option<PlayerTrack>,
    autoplayRequestId: nat,
    externalAnalyser: Option<AnalyserNode>)

  /** The store's three mutators, as values. */
  datatype StoreOp =
    | SetTrack(t: PlayerTrack)
    | RequestAutoplay
    | SetExternalAnalyser(a: Option<AnalyserNode>)

  /** The state the store is created with. */
  const Initial: PlayerState := PlayerState(None, 0, None)

  /** The effect of one mutator on the store's state. */
  function Apply(s: PlayerState, op: StoreOp): PlayerState {
    match op
    case SetTrack(t) => s.(track := Some(t))
    case RequestAutoplay => s.(autoplayRequestId := s.autoplayRequestId + 1)
    case SetExternalAnalyser(a) => s.(externalAnalyser := a)
  }

  /** The state reached by applying `ops` in order. */
  function Run(s: PlayerState, ops: seq<StoreOp>): PlayerState
    decreases |ops|
  {
    if ops == [] then s else Run(Apply(s, ops[0]), ops[1..])
  }

  /** How many of `ops` are autoplay requests. */
  function RequestCount(ops: seq<StoreOp>): nat
    decreases |ops|
  {
    if ops == [] then 0
    else (if ops[0].RequestAutoplay? then 1 else 0) + RequestCount(ops[1..])
  }

  /** Each mutator changes its own field and nothing else; `setTrack` replaces
      the whole descriptor, whatever the previous one was. */
  lemma ApplyChangesOneField(s: PlayerState, op: StoreOp)
    ensures op.SetTrack? ==>
      Apply(s, op) == PlayerState(Some(op.t), s.autoplayRequestId, s.externalAnalyser)
    ensures op.RequestAutoplay? ==>
      Apply(s, op) == PlayerState(s.track, s.autoplayRequestId + 1, s.externalAnalyser)
    ensures op.SetExternalAnalyser? ==>
      Apply(s, op) == PlayerState(s.track, s.autoplayRequestId, op.a)
  {
  }

  /** Running a sequence and then one more operation is the same as running
      the extended sequence. */
  lemma {:induction false} RunSnoc(s: PlayerState, ops: seq<StoreOp>, op: StoreOp)
    ensures Run(s, ops + [op]) == Apply(Run(s, ops), op)
    decreases |ops|
  {
    if ops == [] {
      assert ops + [op] == [op];
    } else {
      assert (ops + [op])[1..] == ops[1..] + [op];
      RunSnoc(Apply(s, ops[0]), ops[1..], op);
    }
  }

  /** Running two sequences one after the other. */
  lemma {:induction false} RunAppend(s: PlayerState, a: seq<StoreOp>, b: seq<StoreOp>)
    ensures Run(s, a + b) == Run(Run(s, a), b)
    decreases |a|
  {
    if a == [] {
      assert a + b == b;
    } else {
      assert (a + b)[1..] == a[1..] + b;
      RunAppend(Apply(s, a[0]), a[1..], b);
    }
  }

  /** The counter grows by exactly the number of autoplay requests, so from
      the initial state it equals the number of requests made. */
  lemma {:induction false} RunCountsRequests(s: PlayerState, ops: seq<StoreOp>)
    ensures Run(s, ops).autoplayRequestId == s.autoplayRequestId + RequestCount(ops)
    decreases |ops|
  {
    if ops != [] {
      RunCountsRequests(Apply(s, ops[0]), ops[1..]);
    }
  }

  /** The counter never decreases: after any prefix of a run it is at most
      its value after the whole run. */
  lemma RequestIdNeverDecreases(s: PlayerState, ops: seq<StoreOp>, k: nat)
    requires k <= |ops|
    ensures Run(s, ops[..k]).autoplayRequestId <= Run(s, ops).autoplayRequestId
  {
    assert ops == ops[..k] + ops[k..];
    RunAppend(s, ops[..k], ops[k..]);
    RunCountsRequests(Run(s, ops[..k]), ops[k..]);
  }

  /** A run without autoplay requests leaves the counter where it was. */
  lemma {:induction false} RequestIdOnlyMovedByRequests(s: PlayerState, ops: seq<StoreOp>)
    requires forall i :: 0 <= i < |ops| ==> !ops[i].RequestAutoplay?
    ensures Run(s, ops).autoplayRequestId == s.autoplayRequestId
    decreases |ops|
  {
    if ops != [] {
      RequestIdOnlyMovedByRequests(Apply(s, ops[0]), ops[1..]);
    }
  }

  /** The shared store. `history` records every mutator call made on it. */
  class Store {
    var track: Option<PlayerTrack>
    var autoplayRequestId: nat
    var externalAnalyser: Option<AnalyserNode>
    ghost var history: seq<StoreOp>

    /** The current content as a value. */
    function State(): PlayerState
      reads this
    {
      PlayerState(track, autoplayRequestId, externalAnalyser)
    }

    /** The content is what the recorded calls produce from the initial state. */
    ghost predicate Valid()
      reads this
    {
      State() == Run(Initial, history)
    }

    /** The initial state: no track, counter 0, no shared analyser. */
    constructor ()
      ensures Valid() && history == []
      ensures track == None && autoplayRequestId == 0 && externalAnalyser == None
    {
      track := None;
      autoplayRequestId := 0;
      externalAnalyser := None;
      history := [];
    }

    /** With a valid store the counter equals the number of requests recorded. */
    lemma RequestIdCountsHistory()
      requires Valid()
      ensures autoplayRequestId == RequestCount(history)
    {
      RunCountsRequests(Initial, history);
    }

    /** `setTrack`: replaces the selected track wholesale. */
    method SetTrack(t: PlayerTrack)
      requires Valid()
      modifies this
      ensures Valid() && history == old(history) + [StoreOp.SetTrack(t)]
      ensures track == Some(t)
      ensures autoplayRequestId == old(autoplayRequestId)
      ensures externalAnalyser == old(externalAnalyser)
    {
      RunSnoc(Initial, history, StoreOp.SetTrack(t));
      track := Some(t);
      history := history + [StoreOp.SetTrack(t)];
    }

    /** `requestAutoplay`: raises the intent counter by exactly one. */
    method RequestAutoplay()
      requires Valid()
      modifies this
      ensures Valid() && history == old(history) + [StoreOp.RequestAutoplay]
      ensures autoplayRequestId == old(autoplayRequestId) + 1
      ensures track == old(track) && externalAnalyser == old(externalAnalyser)
    {
      RunSnoc(Initial, history, StoreOp.RequestAutoplay);
      autoplayRequestId := autoplayRequestId + 1;
      history := history + [StoreOp.RequestAutoplay];
    }

    /** `setExternalAnalyser`: publishes (or clears, with None) the shared analyser. */
    method SetExternalAnalyser(a: Option<AnalyserNode>)
      requires Valid()
      modifies this
      ensures Valid() && history == old(history) + [StoreOp.SetExternalAnalyser(a)]
      ensures externalAnalyser == a
      ensures track == old(track) && autoplayRequestId == old(autoplayRequestId)
    {
      RunSnoc(Initial, history, StoreOp.SetExternalAnalyser(a));
      externalAnalyser := a;
      history := history + [StoreOp.SetExternalAnalyser(a)];
    }
  }
}
