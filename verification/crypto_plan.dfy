/**
 * The crypto policy of the mesh (src/cryptoPlan.ts): the route score picks one
 * of three tiers by a first-match test with strict `>` against 0.7 and 0.3.
 */
module CryptoPlanning {

  /** The closed set of algorithm suites. */
  datatype CryptoAlg = FullSmartAtom | P256EcdsaOnly | NoCrypto {

    /** The identifier the plan carries on the wire. */
    function Name(): (s: string)
    {
      match this
      case FullSmartAtom => "ed25519+x25519+aes256gcm+hmac-sha256"
      case P256EcdsaOnly => "p256-ecdsa-only"
      case NoCrypto => "none"
    }

    /** Tier order: none < p256 < full. */
    function Strength(): (k: nat)
    {
      match this
      case NoCrypto => 0
      case P256EcdsaOnly => 1
      case FullSmartAtom => 2
    }
  }

  /** The decision record; `hop0` says the crypto applies from the originating node. */
  datatype CryptoPlan = CryptoPlan(alg: CryptoAlg, e2eEncrypted: bool, signed: bool, hop0: bool, notes: seq<string>)

  const HighThreshold: real := 0.7
  const LowThreshold: real := 0.3

  const HighNotes: seq<string> := [
    "High routeScore: treat as important cognitive packet.",
    "Apply full Smart Atom E2E crypto from hop 0."]
  const MediumNotes: seq<string> := [
    "Medium routeScore: still trusted but not highest priority.",
    "Sign from hop 0, encrypt at edge if needed."]
  const LowNotes: seq<string> := [
    "Low routeScore: likely noise / spam / telemetry.",
    "Mesh may drop or treat as plaintext for stats only."]

  /** The flags every plan of a tier must have: encryption implies signing, signing iff hop 0, no suite iff unsigned. */
  predicate Coherent(p: CryptoPlan)
  {
    && |p.notes| == 2
    && (p.e2eEncrypted ==> p.signed)
    && (p.signed <==> p.hop0)
    && (p.alg == NoCrypto <==> !p.signed)
    && (p.e2eEncrypted <==> p.alg == FullSmartAtom)
  }

  /**
   * The plan for a route score. The message length is accepted and not used.
   * Scores above 0.7 get the full suite, scores in (0.3, 0.7] signing only,
   * and everything else no crypto.
   */
  function ComputeCryptoPlan(routeScore: real, messageLength: int): (p: CryptoPlan)
    ensures Coherent(p)
    ensures routeScore > HighThreshold <==> p.alg == FullSmartAtom
    ensures LowThreshold < routeScore <= HighThreshold <==> p.alg == P256EcdsaOnly
    ensures routeScore <= LowThreshold <==> p.alg == NoCrypto
  {
    if routeScore > HighThreshold then
      CryptoPlan(FullSmartAtom, true, true, true, HighNotes)
    else if routeScore > LowThreshold then
      CryptoPlan(P256EcdsaOnly, false, true, true, MediumNotes)
    else
      CryptoPlan(NoCrypto, false, false, false, LowNotes)
  }

  /** The top band: the full suite, encrypted, signed, from hop 0. */
  lemma HighBand(routeScore: real, messageLength: int)
    requires routeScore > 0.7
    ensures var p := ComputeCryptoPlan(routeScore, messageLength);
      p.alg.Name() == "ed25519+x25519+aes256gcm+hmac-sha256" && p.e2eEncrypted && p.signed && p.hop0
  {
  }

  /** The middle band: ECDSA P-256 signing from hop 0, no end-to-end encryption. */
  lemma MiddleBand(routeScore: real, messageLength: int)
    requires 0.3 < routeScore <= 0.7
    ensures var p := ComputeCryptoPlan(routeScore, messageLength);
      p.alg.Name() == "p256-ecdsa-only" && !p.e2eEncrypted && p.signed && p.hop0
  {
  }

  /** The bottom band: no crypto at all. */
  lemma LowBand(routeScore: real, messageLength: int)
    requires routeScore <= 0.3
    ensures var p := ComputeCryptoPlan(routeScore, messageLength);
      p.alg.Name() == "none" && !p.e2eEncrypted && !p.signed && !p.hop0
  {
  }

  /** The thresholds themselves fall into the band below them. */
  lemma Boundaries(messageLength: int)
    ensures ComputeCryptoPlan(0.71, messageLength).alg == FullSmartAtom
    ensures ComputeCryptoPlan(0.71, messageLength).e2eEncrypted
    ensures ComputeCryptoPlan(0.7, messageLength).alg == P256EcdsaOnly
    ensures ComputeCryptoPlan(0.3, messageLength).alg == NoCrypto
  {
  }

  /** The message length never changes the plan. */
  lemma LengthIrrelevant(routeScore: real, len1: int, len2: int)
    ensures ComputeCryptoPlan(routeScore, len1) == ComputeCryptoPlan(routeScore, len2)
  {
  }

  /** The three wire identifiers are distinct, so the name identifies the tier. */
  lemma NamesDistinct(a: CryptoAlg, b: CryptoAlg)
    requires a.Name() == b.Name()
    ensures a == b
  {
  }

  /** A higher score never selects a weaker tier. */
  lemma PlanMonotone(s1: real, s2: real, len1: int, len2: int)
    requires s1 <= s2
    ensures ComputeCryptoPlan(s1, len1).alg.Strength() <= ComputeCryptoPlan(s2, len2).alg.Strength()
  {
  }

  /** A plan's flags and notes are fixed by its suite: the tier determines the whole plan. */
  lemma PlanDeterminedByAlg(s1: real, s2: real, len1: int, len2: int)
    requires ComputeCryptoPlan(s1, len1).alg == ComputeCryptoPlan(s2, len2).alg
    ensures ComputeCryptoPlan(s1, len1) == ComputeCryptoPlan(s2, len2)
  {
  }
}
