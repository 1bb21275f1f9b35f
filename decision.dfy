/**
 * The scan decision of the kiosk (app.py): how the classifier's argmax index
 * becomes a label, how the load-cell reading is clamped, how the metal sensor
 * pin is read, and the first-match-wins rule that reconciles the three.
 */
module Decision {

  /** The three bins, replacing the strings "Can", "Plastic" and "Other". */
  datatype Label = Can | Plastic | Other

  /** Mass above which an item is always rejected, in grams. */
  const WeightLimit: real := 50.0

  /** Noise floor of the load cell: readings not above it count as empty. */
  const NoiseFloor: real := 0.5

  /** Label index convention of the classifier: 0 is a can, 2 is plastic. */
  function LabelOf(index: int): (l: Label)
    ensures l == Can <==> index == 0
    ensures l == Plastic <==> index == 2
    ensures l == Other <==> index != 0 && index != 2
  {
    if index == 0 then Can else if index == 2 then Plastic else Other
  }

  /**
   * What `get_weight` sees: the HX711 handle may be missing, the read may
   * raise, or it yields a raw mass in grams.
   */
  datatype Reading = NoSensor | ReadFailed | Raw(grams: real)

  /** `get_weight`: small readings, a missing sensor and a failed read all give 0.0. */
  function GetWeight(r: Reading): (w: real)
    ensures w == 0.0 || w > NoiseFloor
    ensures w >= 0.0
    ensures w != 0.0 <==> r.Raw? && r.grams > NoiseFloor
    ensures w != 0.0 ==> w == r.grams
  {
    match r
    case Raw(g) => if g > NoiseFloor then g else 0.0
    case _ => 0.0
  }

  /** Clamping a clamped value changes nothing. */
  lemma GetWeightIdempotent(r: Reading)
    ensures GetWeight(Raw(GetWeight(r))) == GetWeight(r)
  {
  }

  /** The metal sensor is active-low: pin level 0 means metal is present. */
  function IsMetalDetected(level: int): (metal: bool)
    ensures metal <==> level == 0
  {
    level == 0
  }

  /** Which branch of the reconciliation chain decided the final label. */
  datatype Reason = TooHeavy | CanWithoutMetal | PlasticWithMetal | Agreed

  datatype Verdict = Verdict(bin: Label, reason: Reason)

  /**
   * The material evidence agrees with the classifier and the item is light
   * enough: an order-free description of when a label is kept.
   */
  predicate Sortable(weight: real, metal: bool, predicted: Label)
  {
    && weight <= WeightLimit
    && (predicted == Can ==> metal)
    && (predicted == Plastic ==> !metal)
  }

  /**
   * The if/elif chain of `process_scan_request`: the weight limit first, then
   * the two sensor/label mismatches, otherwise the classifier label stands.
   */
  function Decide(weight: real, metal: bool, predicted: Label): (v: Verdict)
    // the weight rule dominates everything else
    ensures weight > WeightLimit ==> v == Verdict(Other, TooHeavy)
    ensures weight <= WeightLimit && predicted == Can && !metal ==> v == Verdict(Other, CanWithoutMetal)
    ensures weight <= WeightLimit && predicted == Plastic && metal ==> v == Verdict(Other, PlasticWithMetal)
    // the label is kept exactly when the evidence agrees, and is otherwise rejected
    ensures v.reason == Agreed <==> Sortable(weight, metal, predicted)
    ensures v.bin == (if Sortable(weight, metal, predicted) then predicted else Other)
    // never an upgrade: the result is the classifier label or Other
    ensures v.bin == predicted || v.bin == Other
    // an accepted bin is backed by the metal sensor
    ensures v.bin == Can ==> metal && weight <= WeightLimit
    ensures v.bin == Plastic ==> !metal && weight <= WeightLimit
  {
    if weight > WeightLimit then Verdict(Other, TooHeavy)
    else if predicted == Can && !metal then Verdict(Other, CanWithoutMetal)
    else if predicted == Plastic && metal then Verdict(Other, PlasticWithMetal)
    else Verdict(predicted, Agreed)
  }

  /** Deciding again on the decided label keeps it. */
  lemma DecideIdempotent(weight: real, metal: bool, predicted: Label)
    ensures Decide(weight, metal, Decide(weight, metal, predicted).bin).bin
         == Decide(weight, metal, predicted).bin
  {
  }

  /** An item classified Other stays Other whatever the sensors read. */
  lemma OtherStaysOther(weight: real, metal: bool)
    ensures Decide(weight, metal, Other).bin == Other
  {
  }

  /** Concrete decisions for each branch of the chain, and the 50 g boundary. */
  lemma DecideExamples()
    ensures Decide(60.0, true, Can) == Verdict(Other, TooHeavy)
    ensures Decide(10.0, false, Can) == Verdict(Other, CanWithoutMetal)
    ensures Decide(10.0, true, Plastic) == Verdict(Other, PlasticWithMetal)
    ensures Decide(10.0, true, Can) == Verdict(Can, Agreed)
    ensures Decide(10.0, false, Plastic) == Verdict(Plastic, Agreed)
    ensures Decide(10.0, false, Other) == Verdict(Other, Agreed)
    ensures Decide(50.0, true, Can) == Verdict(Can, Agreed)
  {
  }

  /** Item mass: the change of the scale across the sort, by absolute difference. */
  function ItemWeight(before: real, after: real): (m: real)
    ensures m >= 0.0
    ensures m == before - after || m == after - before
    ensures m == 0.0 <==> before == after
  {
    if before - after < 0.0 then after - before else before - after
  }

  /** The same two readings give the same mass in either order. */
  lemma ItemWeightSymmetric(before: real, after: real)
    ensures ItemWeight(before, after) == ItemWeight(after, before)
  {
  }
}
