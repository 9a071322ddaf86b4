/**
 * The VÓID AI subscription screen: the plan change with its confirmation, the API key and its
 * regeneration, the copy indicator, and the live metrics that move every three seconds.
 */
module VoidAi {
  import opened Wrappers
  import opened Types
  import opened Seqs
  import Fixtures
  import Dashboard

  // The API key.

  const KeyPrefix: string := "vd_sk_"

  /** The base-36 digit of value `d`: `0`-`9`, then `a`-`z`, as `toString(36)` prints them. */
  function DigitChar(d: int): char
  {
    if 0 <= d < 10 then ('0' as int + d) as char
    else if 10 <= d < 36 then ('a' as int + d - 10) as char
    else '?'
  }

  /** The digits of base 36, in the order `toString(36)` uses them: "0123456789abcdefghijklmnopqrstuvwxyz". */
  function Base36(): (r: string)
    ensures |r| == 36 && forall d :: 0 <= d < 36 ==> r[d] == DigitChar(d)
  {
    seq(36, d requires 0 <= d < 36 => DigitChar(d))
  }

  /** The number of random draws a key is built from. */
  const KeyDraws: nat := 20

  /**
   * `Math.random().toString(36)[2]`: the first digit after the point in base 36. A draw of exactly
   * zero prints as `"0"`, whose third character is undefined, which `join` turns into nothing.
   */
  function KeyChar(r: real): (s: string)
    requires Dashboard.Unit(r)
    ensures r == 0.0 <==> s == ""
    ensures r != 0.0 ==> |s| == 1 && s[0] == Base36()[(r * 36.0).Floor]
  {
    if r == 0.0 then "" else [Base36()[(r * 36.0).Floor]]
  }

  predicate ValidDraws(rs: seq<real>)
  {
    forall i :: 0 <= i < |rs| ==> Dashboard.Unit(rs[i])
  }

  function KeyChars(rs: seq<real>): (s: string)
    requires ValidDraws(rs)
    ensures |s| <= |rs|
    ensures forall i :: 0 <= i < |s| ==> s[i] in Base36()
    decreases |rs|
  {
    if |rs| == 0 then "" else KeyChar(rs[0]) + KeyChars(rs[1..])
  }

  /** The base-36 digit each non-zero draw contributes, in draw order. */
  function Digits(rs: seq<real>): (ds: seq<nat>)
    requires ValidDraws(rs)
    ensures forall i :: 0 <= i < |ds| ==> ds[i] < 36
    decreases |rs|
  {
    if |rs| == 0 then []
    else (if rs[0] == 0.0 then [] else [(rs[0] * 36.0).Floor as nat]) + Digits(rs[1..])
  }

  /** A key: the prefix followed by up to twenty base-36 digits. */
  predicate ValidKey(k: string)
  {
    |KeyPrefix| <= |k| <= |KeyPrefix| + KeyDraws && k[..|KeyPrefix|] == KeyPrefix
    && forall i :: |KeyPrefix| <= i < |k| ==> k[i] in Base36()
  }

  /** `generateApiKey`: the prefix and one digit per non-zero draw of twenty. */
  function GenerateApiKey(rs: seq<real>): (k: string)
    requires |rs| == KeyDraws && ValidDraws(rs)
    ensures ValidKey(k)
  {
    KeyPrefix + KeyChars(rs)
  }

  /** The position of a digit in the base-36 alphabet. */
  function DigitValue(c: char): (d: nat)
    ensures c in Base36() ==> d < 36 && Base36()[d] == c
  {
    if '0' <= c <= '9' then (c as int - '0' as int) as nat
    else if 'a' <= c <= 'z' then (c as int - 'a' as int + 10) as nat
    else 0
  }

  lemma DigitValueOfDigit(d: nat)
    requires d < 36
    ensures DigitValue(Base36()[d]) == d
  {
  }

  /** The key records its draws: reading its digits back gives the digit of every non-zero draw. */
  lemma {:induction false} KeyCharsDecode(rs: seq<real>)
    requires ValidDraws(rs)
    ensures Map(KeyChars(rs), DigitValue) == Digits(rs)
    decreases |rs|
  {
    if |rs| > 0 {
      KeyCharsDecode(rs[1..]);
      var head := KeyChar(rs[0]);
      var tail := KeyChars(rs[1..]);
      if rs[0] != 0.0 {
        DigitValueOfDigit((rs[0] * 36.0).Floor as nat);
      }
      assert Map(head + tail, DigitValue) == Map(head, DigitValue) + Map(tail, DigitValue);
    }
  }

  /** A full-length key, twenty digits, comes exactly from twenty non-zero draws. */
  lemma {:induction false} FullKeyIffNoZeroDraw(rs: seq<real>)
    requires ValidDraws(rs)
    ensures |KeyChars(rs)| == |rs| <==> forall i :: 0 <= i < |rs| ==> rs[i] != 0.0
    decreases |rs|
  {
    if |rs| > 0 {
      FullKeyIffNoZeroDraw(rs[1..]);
      assert forall i :: 1 <= i < |rs| ==> rs[i] == rs[1..][i - 1];
    }
  }

  /** The key generated from draws can be read back into the draws' digits. */
  lemma GenerateApiKeyDecodes(rs: seq<real>)
    requires |rs| == KeyDraws && ValidDraws(rs)
    ensures Map(GenerateApiKey(rs)[|KeyPrefix|..], DigitValue) == Digits(rs)
  {
    assert GenerateApiKey(rs)[|KeyPrefix|..] == KeyChars(rs);
    KeyCharsDecode(rs);
  }

  // The live metrics.

  /** The request rate never shows less than this. */
  const RequestsFloor: int := 5000

  /** `Math.floor(Math.random() * 2 * half - half)`: a whole amount in [-half, half - 1]. */
  function Swing(r: real, half: nat): (c: int)
    requires Dashboard.Unit(r) && half > 0
    ensures -(half as int) <= c < half
  {
    var h := half as real;
    var w := h + h;
    ScaleBelow(r, w);
    var x := r * w - h;
    assert -h <= x < h;
    x.Floor
  }

  /** A draw scales a non-negative width to somewhere below it. */
  lemma ScaleBelow(r: real, w: real)
    requires Dashboard.Unit(r) && w >= 0.0
    ensures 0.0 <= r * w <= w
    ensures w > 0.0 ==> r * w < w
  {
    var d := w - r * w;
    assert d == (1.0 - r) * w;
  }

  datatype LiveMetrics = LiveMetrics(activeUsers: int, requestsPerMin: int)

  const InitialMetrics: LiveMetrics := LiveMetrics(15234, 8560)

  /** Active users move by a whole amount in [-10, 9]; requests by one in [-50, 49], never below 5000. */
  function MetricsTick(m: LiveMetrics, rUsers: real, rRequests: real): (r: LiveMetrics)
    requires Dashboard.Unit(rUsers) && Dashboard.Unit(rRequests)
    ensures m.activeUsers - 10 <= r.activeUsers <= m.activeUsers + 9
    ensures r.requestsPerMin >= RequestsFloor
    ensures m.requestsPerMin >= RequestsFloor + 50 ==> m.requestsPerMin - 50 <= r.requestsPerMin <= m.requestsPerMin + 49
  {
    var next := m.requestsPerMin + Swing(rRequests, 50);
    LiveMetrics(m.activeUsers + Swing(rUsers, 10), if next >= RequestsFloor then next else RequestsFloor)
  }

  // The screen's state.

  datatype VoidAiState = VoidAiState(
    metrics: LiveMetrics,
    currentPlan: string,
    planToSelect: Option<string>,
    apiKey: string,
    regenConfirm: bool,
    copied: bool)

  /** The screen as it opens: on the Pro plan, with a fresh key. */
  function Initial(rs: seq<real>): (s: VoidAiState)
    requires |rs| == KeyDraws && ValidDraws(rs)
    ensures s.currentPlan == "Pro" && s.planToSelect.None? && ValidKey(s.apiKey)
  {
    VoidAiState(InitialMetrics, "Pro", None, GenerateApiKey(rs), false, false)
  }

  /** The plan dialog is open while a plan is waiting for confirmation (a truthy `planToSelect`). */
  predicate PlanDialogOpen(s: VoidAiState)
  {
    s.planToSelect.Some? && s.planToSelect.value != ""
  }

  /** A tier's button: the current plan's button does nothing, any other asks for confirmation. */
  function SelectPlanClicked(s: VoidAiState, tier: string): (r: VoidAiState)
    ensures tier == s.currentPlan ==> r == s
    ensures tier != s.currentPlan ==> r == s.(planToSelect := Some(tier))
  {
    if tier != s.currentPlan then s.(planToSelect := Some(tier)) else s
  }

  /** `handleSelectPlan`: with a plan waiting, it becomes the current one and the dialog closes. */
  function ConfirmPlan(s: VoidAiState): (r: VoidAiState)
    ensures PlanDialogOpen(s) ==> r == s.(currentPlan := s.planToSelect.value, planToSelect := None)
    ensures !PlanDialogOpen(s) ==> r == s
  {
    match s.planToSelect
    case Some(p) => if p != "" then s.(currentPlan := p, planToSelect := None) else s
    case None => s
  }

  /** Closing the plan dialog forgets the plan it offered. */
  function CancelPlan(s: VoidAiState): (r: VoidAiState)
    ensures r.planToSelect.None? && r.currentPlan == s.currentPlan && r.apiKey == s.apiKey
  {
    s.(planToSelect := None)
  }

  /** `handleRegenerateKey`: a fresh key replaces the old one and the dialog closes. */
  function RegenerateKey(s: VoidAiState, rs: seq<real>): (r: VoidAiState)
    requires |rs| == KeyDraws && ValidDraws(rs)
    ensures r.apiKey == GenerateApiKey(rs) && !r.regenConfirm
    ensures r.currentPlan == s.currentPlan && r.planToSelect == s.planToSelect
  {
    s.(apiKey := GenerateApiKey(rs), regenConfirm := false)
  }

  datatype VoidAiEvent =
    | SelectPlan(tier: nat)
    | ConfirmPlanChange
    | CancelPlanChange
    | RegenerateClicked
    | RegenerateConfirmed(draws: seq<real>)
    | RegenerateCancelled
    | CopyClicked
    | CopyReset
    | MetricsInterval(rUsers: real, rRequests: real)

  /** The event can happen: tier buttons exist, and random draws are draws. */
  predicate ValidEvent(e: VoidAiEvent, tiers: seq<AiTier>)
  {
    match e
    case SelectPlan(i) => i < |tiers|
    case RegenerateConfirmed(rs) => |rs| == KeyDraws && ValidDraws(rs)
    case MetricsInterval(a, b) => Dashboard.Unit(a) && Dashboard.Unit(b)
    case _ => true
  }

  function Step(s: VoidAiState, e: VoidAiEvent, tiers: seq<AiTier>): VoidAiState
    requires ValidEvent(e, tiers)
  {
    match e
    case SelectPlan(i) => SelectPlanClicked(s, tiers[i].name)
    case ConfirmPlanChange => ConfirmPlan(s)
    case CancelPlanChange => CancelPlan(s)
    case RegenerateClicked => s.(regenConfirm := true)
    case RegenerateConfirmed(rs) => RegenerateKey(s, rs)
    case RegenerateCancelled => s.(regenConfirm := false)
    case CopyClicked => s.(copied := true)
    case CopyReset => s.(copied := false)
    case MetricsInterval(a, b) => s.(metrics := MetricsTick(s.metrics, a, b))
  }

  /** The tier names are real names: none is empty. */
  predicate NamedTiers(tiers: seq<AiTier>)
  {
    forall i :: 0 <= i < |tiers| ==> tiers[i].name != ""
  }

  predicate IsTier(name: string, tiers: seq<AiTier>)
  {
    exists i :: 0 <= i < |tiers| && tiers[i].name == name
  }

  /**
   * What the screen keeps: the current plan is a tier, a plan awaiting confirmation is another
   * tier, the key is well formed and the request rate is at its floor or above.
   */
  predicate Consistent(s: VoidAiState, tiers: seq<AiTier>)
  {
    IsTier(s.currentPlan, tiers)
    && (s.planToSelect.Some? ==> IsTier(s.planToSelect.value, tiers) && s.planToSelect.value != s.currentPlan)
    && ValidKey(s.apiKey)
    && s.metrics.requestsPerMin >= RequestsFloor
  }

  lemma InitialConsistent(rs: seq<real>, tiers: seq<AiTier>)
    requires |rs| == KeyDraws && ValidDraws(rs)
    requires IsTier("Pro", tiers)
    ensures Consistent(Initial(rs), tiers)
  {
  }

  lemma StepKeepsConsistent(s: VoidAiState, e: VoidAiEvent, tiers: seq<AiTier>)
    requires Consistent(s, tiers) && NamedTiers(tiers) && ValidEvent(e, tiers)
    ensures Consistent(Step(s, e, tiers), tiers)
  {
    if e.SelectPlan? {
      assert IsTier(tiers[e.tier].name, tiers);
    }
  }

  function Run(s: VoidAiState, events: seq<VoidAiEvent>, tiers: seq<AiTier>): VoidAiState
    requires forall i :: 0 <= i < |events| ==> ValidEvent(events[i], tiers)
    decreases |events|
  {
    if |events| == 0 then s else Run(Step(s, events[0], tiers), events[1..], tiers)
  }

  lemma {:induction false} RunKeepsConsistent(s: VoidAiState, events: seq<VoidAiEvent>, tiers: seq<AiTier>)
    requires Consistent(s, tiers) && NamedTiers(tiers)
    requires forall i :: 0 <= i < |events| ==> ValidEvent(events[i], tiers)
    ensures Consistent(Run(s, events, tiers), tiers)
    decreases |events|
  {
    if |events| > 0 {
      StepKeepsConsistent(s, events[0], tiers);
      RunKeepsConsistent(Step(s, events[0], tiers), events[1..], tiers);
    }
  }

  /** Choosing another tier and confirming switches to it; cancelling instead keeps the plan. */
  lemma SelectThenConfirmOrCancel(s: VoidAiState, tiers: seq<AiTier>, i: nat)
    requires i < |tiers| && NamedTiers(tiers) && tiers[i].name != s.currentPlan
    ensures Step(Step(s, SelectPlan(i), tiers), ConfirmPlanChange, tiers).currentPlan == tiers[i].name
    ensures Step(Step(s, SelectPlan(i), tiers), CancelPlanChange, tiers).currentPlan == s.currentPlan
    ensures Step(Step(s, SelectPlan(i), tiers), CancelPlanChange, tiers).planToSelect.None?
  {
  }

  /** The shipped tiers have names, and Pro, the plan the screen opens on, is one of them. */
  lemma FixtureTiers()
    ensures NamedTiers(Fixtures.MockAiTiers) && IsTier("Pro", Fixtures.MockAiTiers)
  {
    assert Fixtures.MockAiTiers[1].name == "Pro";
  }
}
