# Planetary Cognitive Mesh: scoring and crypto-policy pipeline in Dafny

This project models the decision core of the Planetary Cognitive Mesh demo
worker. The worker takes a message and runs three stages on it:

1. **Sparse signature** (`SmartAtom.SigFromMessage`). Only the message length
   is used. It is capped at 512, and two elevations are derived from it:
   `e1 = clamp(floor(len/8), 5, 30)` and `e2 = clamp(floor(len/4), 10, 40)`.
   The positions are always `[1, 2]`.
2. **Route score** (`SmartAtom.RouteBase`, `SmartAtom.RouteScore`). Absent
   context fields take their defaults: reputation 100, tau 0.5, m 10. The
   elevations are summed with a left fold, and the linear score is
   `base = 0.7 * sum * 0.01 + 0.3 * (reputation / 100)`. The logistic step
   and the four-decimal rounding come after that. They are a function
   parameter `squash`, applied to `m * (base - tau)`.
3. **Policy**. `CryptoPlanning.ComputeCryptoPlan` picks a crypto tier from
   the route score. It takes the first match, using strict `>` against 0.7
   and then 0.3. `Worker.EstimateCarbonProxy` computes
   `Math.round(length * 0.5 * (0.5 + routeScore))`, and `Worker.MeshTest`
   chains the stages the way the test endpoint does.

Every stage is stateless, so the model is made of datatypes, functions and
lemmas. Arithmetic is exact: integers are `int`, scores are `real`, and
JavaScript's `Math.round(x)` is `(x + 0.5).Floor`.

Modules:
- `Wrappers` has `Option`, which stands for a property that may be absent.
- `SmartAtom` models src/smartAtom.ts.
- `CryptoPlanning` models src/cryptoPlan.ts.
- `Worker` models the computing part of src/worker.ts.

## Model

| member | source | states |
|---|---|---|
| SmartAtom.Clamp | src/smartAtom.ts:71-72 | `max(lo, min(hi, x))` lies in [lo, hi], equals x inside the range, and equals the nearer bound outside it |
| SmartAtom.SigFromMessage | src/smartAtom.ts:69-78 | positions are `[1, 2]`, there are exactly as many elevations as positions (two), e1 is in [5, 30] and e2 is in [10, 40] |
| SmartAtom.SigPiecewise | src/smartAtom.ts:70-72 | the elevations agree with a band-by-band description: e1 is 5 below length 48, 30 from 240 and len/8 between; e2 is 10 below 40, 40 from 160 and len/4 between |
| SmartAtom.SigIgnoresLengthCap | src/smartAtom.ts:70 | capping the length at 512 never changes the signature, because both elevations saturate earlier |
| SmartAtom.SigOfEmptyMessage | src/smartAtom.ts:70-72 | the empty message gives elevations [5, 10], the lower clamps |
| SmartAtom.SigOfLength50 | src/smartAtom.ts:70-72 | every 50-character message gives elevations [6, 12] |
| SmartAtom.SigDependsOnlyOnLength | src/smartAtom.ts:69-78 | two messages of equal length get identical signatures |
| SmartAtom.SigSaturates | src/smartAtom.ts:70-72 | every message of length at least 240 gets elevations [30, 40] |
| SmartAtom.SigMonotone | src/smartAtom.ts:70-72 | e1 and e2 are each monotone non-decreasing in the message length |
| SmartAtom.Sum | src/smartAtom.ts:42 | the `reduce` of addition as a left fold; its contract says non-negative elevations sum to a non-negative value, and `SumAppend`, `SumCons`, `SumMonotone` and `SumBounds` state its other properties |
| SmartAtom.SumAppend | src/smartAtom.ts:42 | the left-fold sum of a concatenation is the sum of the parts |
| SmartAtom.SumCons | src/smartAtom.ts:42 | the left fold equals the first element plus the sum of the rest |
| SmartAtom.SumMonotone | src/smartAtom.ts:42 | raising elevations position by position never lowers their sum |
| SmartAtom.SumBounds | src/smartAtom.ts:42 | n elevations, each in [lo, hi], sum to a value in [n*lo, n*hi] |
| SmartAtom.SigSumBounds | src/smartAtom.ts:42 | the empty elevation sequence sums to 0, and any message's elevations sum to a value in [15, 70] |
| SmartAtom.Resolve | src/smartAtom.ts:40 | a given context field is used as it is, and an absent one becomes reputation 100, tau 0.5 or m 10 |
| SmartAtom.LinearScore | src/smartAtom.ts:43-46 | `0.7 * sum * 0.01 + 0.3 * (reputation / 100)`; a sum and a reputation both in [0, 100] give a value in [0, 1]; `LinearScoreMonotone` states its monotonicity |
| SmartAtom.RouteBase | src/smartAtom.ts:40-46 | `base` of a signature under a context; non-negative elevations and reputation give a non-negative `base`, and under the default reputation it is `0.007 * sum + 0.3` |
| SmartAtom.RouteScore | src/smartAtom.ts:36-50 | the returned score, with the logistic step and the four-decimal rounding as the parameter `squash`; it lies in [0, 1] whenever `squash` does; `RouteScoreMonotone` states its monotonicity |
| SmartAtom.EmptyContextDefaults | src/smartAtom.ts:38-40 | without a context the defaults are reputation 100, tau 0.5 and m 10, and `base` is `0.007 * sum + 0.3` |
| SmartAtom.LinearScoreMonotone | src/smartAtom.ts:43-46 | `base` is monotone non-decreasing in the elevation sum and in the reputation |
| SmartAtom.RouteBaseMonotoneInElevations | src/smartAtom.ts:42-46 | raising a signature's elevations position by position, in the same context, never lowers `base` |
| SmartAtom.RouteBaseMonotoneInReputation | src/smartAtom.ts:40-46 | raising the reputation, with the same signature, tau and m, never lowers `base` |
| SmartAtom.RouteScoreMonotone | src/smartAtom.ts:40-49 | if the logistic-and-rounding step is monotone and m >= 0, the route score is monotone in the elevation sum and in the reputation, for signatures of any lengths |
| SmartAtom.SquashStep | src/smartAtom.ts:47-49 | a monotone logistic-and-rounding step applied to `m * (base - tau)`, with m >= 0, is monotone in `base` |
| SmartAtom.MessageBaseBounds | src/smartAtom.ts:40-46 | for any message and a reputation in [0, 100], `base` lies in [0.105, 0.79]; with the default reputation it is at least 0.405 |
| CryptoPlanning.CryptoAlg.Name | src/cryptoPlan.ts:3-6 | no contract of its own: maps each suite to its literal identifier; `NamesDistinct` and the band lemmas state its properties |
| CryptoPlanning.NamesDistinct | src/cryptoPlan.ts:3-6 | the three identifiers are pairwise distinct, so an identifier names exactly one suite |
| CryptoPlanning.ComputeCryptoPlan | src/cryptoPlan.ts:24-63 | every plan has two notes, encryption implies signing, signing holds iff hop0 does, the suite is `none` iff the plan is unsigned, and encryption comes only with the full suite; the full suite is chosen iff score > 0.7, p256 iff 0.3 < score <= 0.7, and none iff score <= 0.3 |
| CryptoPlanning.HighBand | src/cryptoPlan.ts:30-39 | a score above 0.7 gives `ed25519+x25519+aes256gcm+hmac-sha256`, with e2eEncrypted, signed and hop0 all true |
| CryptoPlanning.MiddleBand | src/cryptoPlan.ts:42-51 | a score in (0.3, 0.7] gives `p256-ecdsa-only`, with signed and hop0 true and e2eEncrypted false |
| CryptoPlanning.LowBand | src/cryptoPlan.ts:54-62 | a score of at most 0.3 gives `none`, with all three flags false |
| CryptoPlanning.Boundaries | src/cryptoPlan.ts:30-42 | 0.71 gives the encrypted full suite, exactly 0.7 gives the middle band, and exactly 0.3 gives `none` |
| CryptoPlanning.LengthIrrelevant | src/cryptoPlan.ts:24-27 | for the same score, any two message lengths give equal plans |
| CryptoPlanning.PlanMonotone | src/cryptoPlan.ts:30-62 | a higher score never selects a weaker tier, in the order none < p256 < full |
| CryptoPlanning.PlanDeterminedByAlg | src/cryptoPlan.ts:28-62 | two plans with the same suite are equal in every field, notes included |
| Worker.JsRound | src/worker.ts:107 | `Math.round` returns the integer r with x - 0.5 < r <= x + 0.5, so halves round towards +infinity |
| Worker.JsRoundMonotone | src/worker.ts:107 | rounding preserves order |
| Worker.CarbonProduct | src/worker.ts:105-106 | no contract of its own: `length * 0.5 * (0.5 + routeScore)` before rounding; `ProductBounds` states its bounds |
| Worker.ProductBounds | src/worker.ts:105-106 | for length >= 0 and a score in [0, 1], the unrounded product lies between 0.25*length and 0.75*length |
| Worker.EstimateCarbonProxy | src/worker.ts:104-108 | the result is the integer nearest `length * 0.5 * (0.5 + routeScore)`; for length >= 0 and a score in [0, 1] it is non-negative and lies between round(0.25*length) and round(0.75*length) |
| Worker.CarbonExamples | src/worker.ts:104-108 | zero length costs 0 at any score, and length 100 at score 1.0 costs 75 |
| Worker.CarbonMonotoneInLength | src/worker.ts:105-107 | for a score of at least -0.5, which includes [0, 1], the proxy is monotone non-decreasing in length |
| Worker.CarbonNonNegative | src/worker.ts:105-107 | for length >= 0 and a score of at least -0.5, the proxy is non-negative |
| Worker.CarbonBelowHalf | src/worker.ts:105-107 | with a score below -0.5 the proxy can be negative (length 100 at score -1.0 gives -25), while a product above -0.5 still rounds to 0 (length 1 at score -0.6) |
| Worker.CarbonMonotoneInScore | src/worker.ts:105-107 | for a non-negative length, the proxy is monotone non-decreasing in the score |
| Worker.MeshTest | src/worker.ts:25-36 | the default text is scored when the message is absent; the report's signature has positions [1, 2] and two elevations; its plan is coherent and its band matches the route score; a score in [0, 1] gives a non-negative carbon proxy |
| Worker.DefaultMessageSignature | src/worker.ts:26-29 | the 40-character default text gets elevations [5, 10] |
| Worker.SampleMessageScore | src/worker.ts:29-30 | the endpoint's 48-character sample message (line 83) gets elevations [6, 12], sum 18 and `base` 0.426 at reputation 100, so the logistic step sees -0.74 |
| Worker.SampleMessagePipeline | src/worker.ts:29-33 | whenever the squashed score of -0.74 for the sample message falls in (0.3, 0.7], its plan is `p256-ecdsa-only`, signed and not end-to-end encrypted |
| Worker.TierMonotoneInLength | src/worker.ts:29-33 | if the squashing step is monotone, a longer message never gets a lower route score or a weaker crypto tier |

## Left out

- The HTTP handler `fetch` is not modelled, because it is I/O over the Workers `Request`/`Response` API. That covers path and method dispatch, the 405 usage payload, the 404 reply, the `ping` payload, the `json` helper, the response framing and the explanation text. `MeshTest` keeps only the order of the pipeline stages and the fallback to the default text. A body that fails to parse is treated like a body without a message: both are `None`.
- `Env` and `MESH_NODE_ID` are not modelled. They are configuration and are only echoed in responses.
- The logistic step `1 / (1 + Math.exp(-m * (base - tau)))` and `Number(scaled.toFixed(4))` are left out, because they are transcendental, floating-point operations. `RouteScore` takes them as the parameter `squash`, applied to `m * (base - tau)`.
- SmartAtom.RouteScore: its range [0, 1] is proved only on the assumption that `squash` maps into [0, 1], and no other lemma relies on it. Monotonicity is proved only on the assumption that `squash` is monotone and m >= 0.
- IEEE-754 rounding in `0.7 * sum * 0.01`, `reputation / 100`, `length * 0.5` and in `Math.round` is not modelled. Every product is exact, so the boundary results (0.7 and 0.3 falling into the lower band, the value 0.426) hold in exact arithmetic.
- `msg.length` counts UTF-16 code units, while the model uses the number of characters of a Dafny `string`. The two differ only for characters outside the Basic Multilingual Plane.
- Elevations are modelled as integers. `sigFromMessage` only ever produces integers, but the TypeScript signature type would also admit fractional ones.
- Destructuring defaults apply to `undefined` only. An explicit `null` context field (which becomes 0 in arithmetic) is not modelled.
- `computeCryptoPlan` accepts any number as `messageLength` and ignores it. The model takes any `int`, and `LengthIrrelevant` proves that it is ignored.
- `estimateCarbonProxy` can return a negative number. For a length of at least 0 the result is non-negative whenever the score is at least -0.5 (`CarbonNonNegative`). Below -0.5 it becomes negative once `length * 0.5 * (0.5 + score)` falls below -0.5; for example, length 100 at score -1.0 gives -25 (`CarbonBelowHalf`).
