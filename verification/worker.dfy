/**
 * The parts of the mesh worker (src/worker.ts) that compute rather than do
 * I/O: the carbon cost proxy, and the order in which the test endpoint runs
 * the pipeline stages on a message.
 */
module Worker {
  import opened Wrappers
  import opened SmartAtom
  import opened CryptoPlanning

  /** `Math.round`: the nearest integer, halves rounded towards +infinity. */
  function JsRound(x: real): (r: int)
    ensures x - 0.5 < r as real <= x + 0.5
  {
    (x + 0.5).Floor
  }

  /** Rounding never reverses order. */
  lemma JsRoundMonotone(x: real, y: real)
    requires x <= y
    ensures JsRound(x) <= JsRound(y)
  {
  }

  /** The cost proxy before rounding: half a unit per character, scaled by `0.5 + routeScore`. */
  function CarbonProduct(length: int, routeScore: real): (product: real)
  {
    (length as real) * 0.5 * (0.5 + routeScore)
  }

  /**
   * `estimateCarbonProxy`: the integer nearest to the product. For a
   * non-negative length and a score in [0, 1] it is non-negative and lies
   * between the rounded quarter and the rounded three quarters of the length.
   */
  function EstimateCarbonProxy(length: int, routeScore: real): (r: int)
    ensures (r as real) - 0.5 <= CarbonProduct(length, routeScore) < (r as real) + 0.5
    ensures length >= 0 && 0.0 <= routeScore <= 1.0 ==>
      0 <= JsRound(0.25 * length as real) <= r <= JsRound(0.75 * length as real)
  {
    var r := JsRound(CarbonProduct(length, routeScore));
    // Both branches return r; the condition only scopes the lemma calls that
    // prove the rounded bounds.
    if length >= 0 && 0.0 <= routeScore <= 1.0 then
      ProductBounds(length, routeScore);
      JsRoundMonotone(0.0, 0.25 * length as real);
      JsRoundMonotone(0.25 * length as real, CarbonProduct(length, routeScore));
      JsRoundMonotone(CarbonProduct(length, routeScore), 0.75 * length as real);
      r
    else
      r
  }

  lemma ProductBounds(length: int, routeScore: real)
    requires length >= 0 && 0.0 <= routeScore <= 1.0
    ensures 0.25 * length as real <= CarbonProduct(length, routeScore) <= 0.75 * length as real
  {
    var l := length as real;
    ScaleMonotone(l, 0.0, routeScore);
    ScaleMonotone(l, routeScore, 1.0);
    assert CarbonProduct(length, routeScore) == 0.25 * l + 0.5 * (l * routeScore);
  }

  /** A zero length costs nothing; 100 characters at score 1.0 cost 75. */
  lemma CarbonExamples(routeScore: real)
    ensures EstimateCarbonProxy(0, routeScore) == 0
    ensures EstimateCarbonProxy(100, 1.0) == 75
  {
  }

  /** The proxy is monotone non-decreasing in the length, for any score of at least -0.5. */
  lemma CarbonMonotoneInLength(len1: int, len2: int, routeScore: real)
    requires len1 <= len2 && routeScore >= -0.5
    ensures EstimateCarbonProxy(len1, routeScore) <= EstimateCarbonProxy(len2, routeScore)
  {
    var k := 0.5 * (0.5 + routeScore);
    ScaleMonotone(k, len1 as real, len2 as real);
    assert CarbonProduct(len1, routeScore) == k * len1 as real;
    assert CarbonProduct(len2, routeScore) == k * len2 as real;
    JsRoundMonotone(CarbonProduct(len1, routeScore), CarbonProduct(len2, routeScore));
  }

  /** For a non-negative length the proxy is non-negative whenever the score is at least -0.5. */
  lemma CarbonNonNegative(length: int, routeScore: real)
    requires length >= 0 && routeScore >= -0.5
    ensures EstimateCarbonProxy(length, routeScore) >= 0
  {
    CarbonMonotoneInLength(0, length, routeScore);
  }

  /** Below a score of -0.5 the proxy can be negative, though a small product still rounds to 0. */
  lemma CarbonBelowHalf()
    ensures EstimateCarbonProxy(100, -1.0) == -25
    ensures EstimateCarbonProxy(1, -0.6) == 0
  {
  }

  /** The proxy is monotone non-decreasing in the score, for any non-negative length. */
  lemma CarbonMonotoneInScore(length: int, s1: real, s2: real)
    requires length >= 0 && s1 <= s2
    ensures EstimateCarbonProxy(length, s1) <= EstimateCarbonProxy(length, s2)
  {
    var h := length as real * 0.5;
    ScaleMonotone(h, 0.5 + s1, 0.5 + s2);
    assert CarbonProduct(length, s1) == h * (0.5 + s1);
    assert CarbonProduct(length, s2) == h * (0.5 + s2);
    JsRoundMonotone(CarbonProduct(length, s1), CarbonProduct(length, s2));
  }

  /** What the test endpoint reports for one message. */
  datatype MeshReport = MeshReport(text: string, sig: SparseSig, routeScore: real, crypto: CryptoPlan, carbon: int)

  /** The text scored when the request body carries no message. */
  const DefaultMessage: string := "Hello from the Planetary Cognitive Mesh."

  /** The context the endpoint scores with: reputation 100, other fields defaulted. */
  const EndpointContext := RouteContext(Some(100.0), None, None)

  /**
   * The test endpoint's pipeline: signature, route score (reputation 100),
   * crypto plan and carbon proxy, in that order, on the message or on the
   * default text. `squash` is the logistic step with its four-decimal rounding.
   */
  function MeshTest(message: Option<string>, squash: real -> real): (r: MeshReport)
    ensures r.text == message.GetOr(DefaultMessage)
    ensures r.sig.positions == [1, 2] && |r.sig.elevations| == 2
    ensures Coherent(r.crypto)
    ensures r.crypto.alg == FullSmartAtom <==> r.routeScore > 0.7
    ensures r.crypto.alg == NoCrypto <==> r.routeScore <= 0.3
    ensures 0.0 <= r.routeScore <= 1.0 ==> r.carbon >= 0
  {
    var text := message.GetOr(DefaultMessage);
    var sig := SigFromMessage(text);
    var routeScore := RouteScore(sig, EndpointContext, squash);
    MeshReport(text, sig, routeScore, ComputeCryptoPlan(routeScore, |text|), EstimateCarbonProxy(|text|, routeScore))
  }

  /** Without a message the default text (40 characters) is scored: elevations [5, 10]. */
  lemma DefaultMessageSignature(squash: real -> real)
    ensures MeshTest(None, squash).sig.elevations == [5, 10]
  {
  }

  /** The sample message of the endpoint's usage text. */
  const SampleMessage: string := "Route this through the Planetary Cognitive Mesh."

  /**
   * The sample message (48 characters) at the endpoint: elevations [6, 12],
   * sum 18, `base` 0.426, and the logistic step sees `m * (base - tau)` = -0.74.
   */
  lemma SampleMessageScore()
    ensures |SampleMessage| == 48
    ensures SigFromMessage(SampleMessage).elevations == [6, 12]
    ensures Sum(SigFromMessage(SampleMessage).elevations) == 18
    ensures RouteBase(SigFromMessage(SampleMessage), EndpointContext) == 0.426
    ensures Resolve(EndpointContext).m * (RouteBase(SigFromMessage(SampleMessage), EndpointContext) - Resolve(EndpointContext).tau) == -0.74
  {
    SumCons(6, [12]);
    SumCons(12, []);
    assert [6, 12] == [6] + [12];
    assert [12] == [12] + [];
  }

  /**
   * Whenever the squashed score of -0.74 lands in (0.3, 0.7], the sample
   * message is signed with P-256 and not end-to-end encrypted.
   */
  lemma SampleMessagePipeline(squash: real -> real)
    requires 0.3 < squash(-0.74) <= 0.7
    ensures MeshTest(Some(SampleMessage), squash).crypto.alg == P256EcdsaOnly
    ensures MeshTest(Some(SampleMessage), squash).crypto.signed
    ensures !MeshTest(Some(SampleMessage), squash).crypto.e2eEncrypted
  {
    SampleMessageScore();
  }

  /**
   * With a monotone squashing step, a longer message never gets a weaker
   * crypto tier nor a lower route score.
   */
  lemma TierMonotoneInLength(a: string, b: string, squash: real -> real)
    requires forall x, y :: x <= y ==> squash(x) <= squash(y)
    requires |a| <= |b|
    ensures MeshTest(Some(a), squash).routeScore <= MeshTest(Some(b), squash).routeScore
    ensures MeshTest(Some(a), squash).crypto.alg.Strength() <= MeshTest(Some(b), squash).crypto.alg.Strength()
  {
    var sa, sb := SigFromMessage(a), SigFromMessage(b);
    SigMonotone(a, b);
    SumMonotone(sa.elevations, sb.elevations);
    RouteScoreMonotone(sa, sb, 100.0, 100.0, None, None, squash);
    PlanMonotone(RouteScore(sa, EndpointContext, squash), RouteScore(sb, EndpointContext, squash), |a|, |b|);
  }
}
