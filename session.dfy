/**
 * The kiosk's run state (the shared `state` record of app.py) and the
 * handlers that change it: start, scan, stop and reset, together with the
 * scan pipeline `process_scan_request` that feeds the scan handler.
 */
module Session {

  import opened Wrappers
  import opened Decision
  import opened Actuator
  import opened Text

  datatype Status = Idle | Running | ShowResult

  /** What the kiosk shows as the last item: "Ready" before any scan. */
  datatype LastItem = Ready | Scanned(bin: Label)

  /** The result of one successful scan: the final label and the item's mass. */
  datatype ScanOutcome = ScanOutcome(bin: Label, grams: real)

  /**
   * What the capture step and the classifier deliver: the LED flash around
   * the capture raised, no frame was captured yet, the inference raised, or
   * the argmax index of the class scores.
   */
  datatype Capture = FlashFailed | NoFrame | InferenceFailed | Argmax(index: nat)

  /** The fields of the remote API's JSON answer to START, each possibly absent. */
  datatype StartReply = StartReply(transactionId: Option<string>, claimSecret: Option<string>)

  /** Transaction id used when the remote API gives none: `OFF-` and the clock in seconds. */
  function OfflineId(now: int): (id: string)
    ensures |id| > 4 && id[..4] == "OFF-"
    ensures id[4..] == IntToDecimal(now)
  {
    "OFF-" + IntToDecimal(now)
  }

  /** Offline ids taken at different seconds differ. */
  lemma {:induction false} OfflineIdInjective(m: int, n: int)
    requires OfflineId(m) == OfflineId(n)
    ensures m == n
  {
    assert OfflineId(m)[4..] == OfflineId(n)[4..];
    IntToDecimalInjective(m, n);
  }

  /**
   * What `process_scan_request` returns for the given sensor inputs: nothing
   * when the metal read raises, the LED flash raises, no frame is available
   * or inference fails;
   * otherwise the decided label and the absolute change of the scale.
   */
  function ScanResult(before: Reading, metalPin: Option<int>, capture: Capture, after: Reading): (r: Option<ScanOutcome>)
    ensures r.None? <==> metalPin.None? || !capture.Argmax?
    ensures r.Some? ==>
      var v := Decide(GetWeight(before), IsMetalDetected(metalPin.value), LabelOf(capture.index));
      r.value.bin == v.bin && r.value.grams == ItemWeight(GetWeight(before), GetWeight(after))
    ensures r.Some? ==> r.value.grams >= 0.0
    ensures r.Some? && GetWeight(before) > WeightLimit ==> r.value.bin == Other
    ensures r.Some? && r.value.bin != Other ==> r.value.bin == LabelOf(capture.index)
  {
    match (metalPin, capture)
    case (Some(pin), Argmax(index)) =>
      var wBefore := GetWeight(before);
      var bin := Decide(wBefore, IsMetalDetected(pin), LabelOf(index)).bin;
      Some(ScanOutcome(bin, ItemWeight(wBefore, GetWeight(after))))
    case _ => None
  }

  /**
   * The scan pipeline: sample the scale and the metal sensor, classify the
   * frame, decide, run the sorting servos for the decided label, re-sample
   * the scale.
   */
  method ProcessScan(kit: ServoKit?, before: Reading, metalPin: Option<int>, capture: Capture, after: Reading)
    returns (outcome: Option<ScanOutcome>)
    modifies kit
    ensures outcome == ScanResult(before, metalPin, capture, after)
    ensures kit != null ==>
      kit.log == old(kit.log) + (if outcome.Some? then SortingMoves(outcome.value.bin) else [])
  {
    var wBefore := GetWeight(before);
    if metalPin.None? {
      return None;
    }
    var metal := IsMetalDetected(metalPin.value);
    if !capture.Argmax? {
      return None;
    }
    var bin := LabelOf(capture.index);
    bin := Decide(wBefore, metal, bin).bin;
    RunMotorSequence(kit, bin);
    var wAfter := GetWeight(after);
    outcome := Some(ScanOutcome(bin, ItemWeight(wBefore, wAfter)));
  }

  /** How many outcomes in `h` went to `bin`. */
  function Count(h: seq<ScanOutcome>, bin: Label): nat
    decreases |h|
  {
    if |h| == 0 then 0
    else Count(h[..|h| - 1], bin) + (if h[|h| - 1].bin == bin then 1 else 0)
  }

  /** The summed mass of the outcomes in `h`. */
  function TotalMass(h: seq<ScanOutcome>): real
    decreases |h|
  {
    if |h| == 0 then 0.0 else TotalMass(h[..|h| - 1]) + h[|h| - 1].grams
  }

  /** Every outcome lands in exactly one of the three tallies. */
  lemma {:induction false} TalliesPartition(h: seq<ScanOutcome>)
    ensures Count(h, Plastic) + Count(h, Can) + Count(h, Other) == |h|
    decreases |h|
  {
    if h != [] {
      TalliesPartition(h[..|h| - 1]);
    }
  }

  /** Masses of successful scans are never negative, so neither is their sum. */
  lemma {:induction false} TotalMassNonNegative(h: seq<ScanOutcome>)
    requires forall k :: 0 <= k < |h| ==> h[k].grams >= 0.0
    ensures TotalMass(h) >= 0.0
    decreases |h|
  {
    if h != [] {
      TotalMassNonNegative(h[..|h| - 1]);
    }
  }

  /**
   * Transaction id after a start: the remote one, or the offline id when the
   * call failed or the answer carries none.
   */
  function StartedTransactionId(reply: Option<StartReply>, now: int): (id: string)
    ensures reply.Some? && reply.value.transactionId.Some? ==> id == reply.value.transactionId.value
    ensures reply.None? || reply.value.transactionId.None? ==> id == OfflineId(now)
  {
    match reply
    case Some(StartReply(Some(remote), _)) => remote
    case _ => OfflineId(now)
  }

  /**
   * Claim secret after a start: kept when the remote call failed, otherwise
   * the remote one or "offline" when the answer carries none.
   */
  function StartedClaimSecret(reply: Option<StartReply>, previous: Option<string>): (secret: Option<string>)
    ensures reply.None? ==> secret == previous
    ensures reply.Some? && reply.value.claimSecret.Some? ==> secret == reply.value.claimSecret
    ensures reply.Some? && reply.value.claimSecret.None? ==> secret == Some("offline")
  {
    match reply
    case None => previous
    case Some(StartReply(_, Some(remote))) => Some(remote)
    case Some(_) => Some("offline")
  }

  /** Tallies and total that are exactly those of the outcomes `h`, all of non-negative mass. */
  ghost predicate Tallied(h: seq<ScanOutcome>, plastic: nat, cans: nat, other: nat, total: real)
  {
    && plastic == Count(h, Plastic)
    && cans == Count(h, Can)
    && other == Count(h, Other)
    && total == TotalMass(h)
    && (forall k :: 0 <= k < |h| ==> h[k].grams >= 0.0)
  }

  /** The step of the `bin` tally when an item goes to `to`. */
  function Bump(to: Label, bin: Label): (n: nat)
    ensures n == 1 <==> to == bin
    ensures n <= 1
  {
    if to == bin then 1 else 0
  }

  /** Recording one more outcome of non-negative mass keeps the tallies exact. */
  lemma AppendOutcome(h: seq<ScanOutcome>, o: ScanOutcome, plastic: nat, cans: nat, other: nat, total: real)
    requires Tallied(h, plastic, cans, other, total) && o.grams >= 0.0
    ensures Tallied(h + [o], plastic + Bump(o.bin, Plastic), cans + Bump(o.bin, Can),
                    other + Bump(o.bin, Other), total + o.grams)
  {
    assert (h + [o])[..|h|] == h;
  }

  /** The shared run state of the kiosk. */
  class RunState {
    var status: Status
    var plastic: nat
    var cans: nat
    var other: nat
    var totalWeight: real
    var lastItem: LastItem
    var lastWeight: real
    var transactionId: Option<string>
    var claimSecret: Option<string>
    /** The successful scans since the run was started (or since process start). */
    ghost var history: seq<ScanOutcome>

    /** The tallies and the total are exactly those of the recorded scans. */
    ghost predicate Valid()
      reads this`history, this`plastic, this`cans, this`other, this`totalWeight
    {
      Tallied(history, plastic, cans, other, totalWeight)
    }

    /** The state at process start. */
    constructor ()
      ensures Valid() && history == []
      ensures status == Idle && plastic == 0 && cans == 0 && other == 0 && totalWeight == 0.0
      ensures lastItem == Ready && lastWeight == 0.0
      ensures transactionId == None && claimSecret == None
    {
      status := Idle;
      plastic, cans, other := 0, 0, 0;
      totalWeight := 0.0;
      lastItem, lastWeight := Ready, 0.0;
      transactionId, claimSecret := None, None;
      history := [];
    }

    /** Consequence of `Valid`: the tallies count the scans, and the total is not negative. */
    lemma Tallies()
      requires Valid()
      ensures plastic + cans + other == |history|
      ensures totalWeight >= 0.0
    {
      TalliesPartition(history);
      TotalMassNonNegative(history);
    }

    /**
     * The start handler. Without a camera, or when resetting and taring a
     * present scale raises, nothing changes. Otherwise the
     * transaction id and the claim secret follow the remote answer (see
     * `StartedTransactionId` and `StartedClaimSecret`), tallies are zeroed
     * and the run is RUNNING. The last item is kept.
     */
    method Start(cameraStarted: bool, tareOk: bool, reply: Option<StartReply>, now: int) returns (ok: bool)
      requires Valid()
      modifies this
      ensures Valid()
      ensures ok == (cameraStarted && tareOk)
      ensures !ok ==> unchanged(this)
      ensures ok ==> status == Running && history == []
      ensures ok ==> plastic == 0 && cans == 0 && other == 0 && totalWeight == 0.0
      ensures ok ==> lastItem == old(lastItem) && lastWeight == old(lastWeight)
      ensures ok ==> transactionId == Some(StartedTransactionId(reply, now))
      ensures ok ==> claimSecret == StartedClaimSecret(reply, old(claimSecret))
    {
      ok := cameraStarted && tareOk;
      if ok {
        transactionId := Some(StartedTransactionId(reply, now));
        claimSecret := StartedClaimSecret(reply, claimSecret);
        status := Running;
        plastic, cans, other := 0, 0, 0;
        totalWeight := 0.0;
        history := [];
      }
    }

    /**
     * The scan handler: run the pipeline; on success record the item as the
     * last one, add its mass to the total and count it in exactly one tally.
     * A failed scan leaves the state as it was.
     */
    method Scan(kit: ServoKit?, before: Reading, metalPin: Option<int>, capture: Capture, after: Reading)
      returns (outcome: Option<ScanOutcome>)
      requires Valid()
      modifies this, kit
      ensures Valid()
      ensures outcome == ScanResult(before, metalPin, capture, after)
      ensures kit != null ==>
        kit.log == old(kit.log) + (if outcome.Some? then SortingMoves(outcome.value.bin) else [])
      ensures status == old(status) && transactionId == old(transactionId) && claimSecret == old(claimSecret)
      ensures outcome.None? ==>
        && plastic == old(plastic) && cans == old(cans) && other == old(other)
        && totalWeight == old(totalWeight) && lastItem == old(lastItem) && lastWeight == old(lastWeight)
        && history == old(history)
      ensures outcome.Some? ==>
        var o := outcome.value;
        && history == old(history) + [o]
        && lastItem == Scanned(o.bin) && lastWeight == o.grams
        && totalWeight == old(totalWeight) + o.grams
        && plastic == old(plastic) + (if o.bin == Plastic then 1 else 0)
        && cans == old(cans) + (if o.bin == Can then 1 else 0)
        && other == old(other) + (if o.bin == Other then 1 else 0)
    {
      outcome := ProcessScan(kit, before, metalPin, capture, after);
      if outcome.Some? {
        Record(outcome.value);
      }
    }

    /** The success branch of the scan handler, for one outcome of non-negative mass. */
    method Record(o: ScanOutcome)
      requires Valid() && o.grams >= 0.0
      modifies this
      ensures Valid()
      ensures status == old(status) && transactionId == old(transactionId) && claimSecret == old(claimSecret)
      ensures history == old(history) + [o]
      ensures lastItem == Scanned(o.bin) && lastWeight == o.grams
      ensures totalWeight == old(totalWeight) + o.grams
      ensures plastic == old(plastic) + Bump(o.bin, Plastic)
      ensures cans == old(cans) + Bump(o.bin, Can)
      ensures other == old(other) + Bump(o.bin, Other)
    {
      ghost var h := history + [o];
      var p, c, n, t := plastic + Bump(o.bin, Plastic), cans + Bump(o.bin, Can),
        other + Bump(o.bin, Other), totalWeight + o.grams;
      AppendOutcome(history, o, plastic, cans, other, totalWeight);
      assert Tallied(h, p, c, n, t);
      plastic, cans, other, totalWeight, history, lastItem, lastWeight := p, c, n, t, h, Scanned(o.bin), o.grams;
      assert Valid();
    }

    /** The stop handler: the run shows its result; nothing else changes. */
    method Stop()
      requires Valid()
      modifies this
      ensures Valid()
      ensures status == ShowResult
      ensures plastic == old(plastic) && cans == old(cans) && other == old(other)
      ensures totalWeight == old(totalWeight) && lastItem == old(lastItem) && lastWeight == old(lastWeight)
      ensures transactionId == old(transactionId) && claimSecret == old(claimSecret)
      ensures history == old(history)
    {
      status := ShowResult;
    }

    /** The reset handler: back to IDLE; the tallies stay until the next start. */
    method Reset()
      requires Valid()
      modifies this
      ensures Valid()
      ensures status == Idle
      ensures plastic == old(plastic) && cans == old(cans) && other == old(other)
      ensures totalWeight == old(totalWeight) && lastItem == old(lastItem) && lastWeight == old(lastWeight)
      ensures transactionId == old(transactionId) && claimSecret == old(claimSecret)
      ensures history == old(history)
    {
      status := Idle;
    }
  }

  /** The outcomes of a few concrete scans, each sorted onto an empty scale. */
  lemma ScanExamples()
    ensures ScanResult(Raw(5.0), Some(1), Argmax(2), Raw(0.0)) == Some(ScanOutcome(Plastic, 5.0))
    ensures ScanResult(Raw(7.0), Some(0), Argmax(0), Raw(0.0)) == Some(ScanOutcome(Can, 7.0))
    ensures ScanResult(Raw(3.0), Some(1), Argmax(1), Raw(0.0)) == Some(ScanOutcome(Other, 3.0))
    ensures ScanResult(Raw(60.0), Some(0), Argmax(0), Raw(0.0)) == Some(ScanOutcome(Other, 60.0))
    ensures ScanResult(Raw(5.0), None, Argmax(2), Raw(0.0)) == None
    ensures ScanResult(Raw(5.0), Some(1), NoFrame, Raw(0.0)) == None
    ensures ScanResult(Raw(5.0), Some(1), FlashFailed, Raw(0.0)) == None
  {
  }

  /**
   * A start followed by a plastic bottle of 5 g, a can of 7 g and a rejected
   * item of 3 g leaves one item in each tally and 15 g in total (on a kiosk
   * without a servo driver, which changes nothing in the tallies).
   */
  method ThreeScanRun() returns (plastic: nat, cans: nat, other: nat, total: real)
    ensures plastic == 1 && cans == 1 && other == 1 && total == 15.0
  {
    var state := new RunState();
    var ok := state.Start(true, true, None, 1700000000);
    ScanExamples();
    var o1 := state.Scan(null, Raw(5.0), Some(1), Argmax(2), Raw(0.0));
    assert state.plastic == 1 && state.cans == 0 && state.other == 0 && state.totalWeight == 5.0;
    var o2 := state.Scan(null, Raw(7.0), Some(0), Argmax(0), Raw(0.0));
    assert state.plastic == 1 && state.cans == 1 && state.other == 0 && state.totalWeight == 12.0;
    var o3 := state.Scan(null, Raw(3.0), Some(1), Argmax(1), Raw(0.0));
    plastic, cans, other, total := state.plastic, state.cans, state.other, state.totalWeight;
  }
}
