/** The screening policy: a weighted score, and a gate in front of the one destructive answer. */
module Policy {

  /** In the order in which the detector looks for them. */
  datatype Code =
    | LowInformationOpener
    | TelegramInvite
    | LinkButton
    | ForwardedPayload
    | LinkBurst
    | MultipleLinks
    | QuotedMultipleLinks
    | QuotedPromotionalLanguage
    | ExternalAndTelegramLinks
    | PromotionalLanguage
    | PreviewPromotionalLanguage
    | ForwardedLinkButton
    | MultipleLinkButtons
    | ButtonDeniedDomain
    | PreviewDeniedDomain
    | AuthoredDeniedDomain
    | QuotedDeniedDomain
    | RepeatedCampaign

  datatype Source = Authored | Button | Preview | Quoted | Behavior | OwnerPolicy

  datatype Signal = Signal(code: Code, source: Source, weight: int)

  datatype Action = StandardChallenge | StrictChallenge | PermanentSuppression

  datatype Basis = OwnerDeniedDomain | CorroboratedRepeatedCampaign | BelowStrict | NeedsStrict

  datatype Verdict = Verdict(riskScore: int, action: Action, basis: Basis)

  const STRICT_THRESHOLD: int := 30
  const SUPPRESSION_THRESHOLD: int := 70

  function Score(signals: seq<Signal>): int {
    if signals == [] then 0 else signals[0].weight + Score(signals[1..])
  }

  predicate Has(signals: seq<Signal>, code: Code) {
    exists i :: 0 <= i < |signals| && signals[i].code == code
  }

  predicate HasFrom(signals: seq<Signal>, code: Code, source: Source) {
    exists i :: 0 <= i < |signals| && signals[i].code == code && signals[i].source == source
  }

  predicate DeniedGate(signals: seq<Signal>) {
    Has(signals, AuthoredDeniedDomain) || Has(signals, ButtonDeniedDomain) || Has(signals, PreviewDeniedDomain)
  }

  predicate CampaignGate(signals: seq<Signal>) {
    Has(signals, RepeatedCampaign) && (Has(signals, MultipleLinks) || Has(signals, QuotedMultipleLinks)) &&
    ((Has(signals, ForwardedPayload) &&
      (Has(signals, PromotionalLanguage) || Has(signals, QuotedPromotionalLanguage))) ||
     (HasFrom(signals, PreviewPromotionalLanguage, Preview) && HasFrom(signals, MultipleLinks, Preview)))
  }

  predicate Gate(signals: seq<Signal>) {
    DeniedGate(signals) || CampaignGate(signals)
  }

  function Decide(signals: seq<Signal>): (verdict: Verdict)
    ensures verdict.action.PermanentSuppression? <==> Score(signals) >= 70 && Gate(signals)
    ensures verdict.action.StandardChallenge? <==> Score(signals) < 30
  {
    var score := Score(signals);
    if score >= SUPPRESSION_THRESHOLD && Gate(signals) then
      Verdict(score, PermanentSuppression, if DeniedGate(signals) then
        OwnerDeniedDomain else CorroboratedRepeatedCampaign)
    else if score >= STRICT_THRESHOLD then Verdict(score, StrictChallenge, NeedsStrict)
    else Verdict(score, StandardChallenge, BelowStrict)
  }

  // ---------------------------------------------------------------- the score

  lemma {:induction false} ScoreConcat(a: seq<Signal>, b: seq<Signal>)
    ensures Score(a + b) == Score(a) + Score(b)
  {
    if a == [] {
      assert a + b == b;
    } else {
      assert (a + b)[1..] == a[1..] + b;
      ScoreConcat(a[1..], b);
    }
  }

  function Dropped(signals: seq<Signal>, i: nat): seq<Signal>
    requires i < |signals|
  {
    signals[..i] + signals[i + 1..]
  }

  lemma ScoreDropped(signals: seq<Signal>, i: nat)
    requires i < |signals|
    ensures Score(signals) == signals[i].weight + Score(Dropped(signals, i))
  {
    ScoreAround(signals[..i], signals[i], signals[i + 1..]);
    TakenApart(signals, i);
  }

  lemma TakenApart(signals: seq<Signal>, i: nat)
    requires i < |signals|
    ensures signals == signals[..i] + ([signals[i]] + signals[i + 1..])
  {}

  lemma ScoreAround(a: seq<Signal>, s: Signal, b: seq<Signal>)
    ensures Score(a + ([s] + b)) == s.weight + Score(a + b)
  {
    ScoreConcat(a, b);
    ScoreConcat(a, [s] + b);
    assert ([s] + b)[1..] == b;
  }

  lemma BagAround(a: seq<Signal>, s: Signal, b: seq<Signal>)
    ensures multiset(a + b) == multiset(a + ([s] + b)) - multiset{s}
  {}

  lemma BagDropped(signals: seq<Signal>, i: nat)
    requires i < |signals|
    ensures multiset(Dropped(signals, i)) == multiset(signals) - multiset{signals[i]}
  {
    TakenApart(signals, i);
    BagAround(signals[..i], signals[i], signals[i + 1..]);
  }

  ghost predicate NonNegative(signals: seq<Signal>) {
    forall i :: 0 <= i < |signals| ==> signals[i].weight >= 0
  }

  lemma {:induction false} ScoreNonNegative(signals: seq<Signal>)
    requires NonNegative(signals)
    ensures Score(signals) >= 0
  {
    if signals != [] {
      assert NonNegative(signals[1..]);
      ScoreNonNegative(signals[1..]);
    }
  }

  /** Part of the signals scores no more than all of them. */
  lemma {:induction false} PartScoresLess(part: seq<Signal>, whole: seq<Signal>)
    requires NonNegative(whole) && multiset(part) <= multiset(whole)
    ensures Score(part) <= Score(whole)
    decreases |part|
  {
    if part == [] {
      ScoreNonNegative(whole);
    } else {
      assert part[0] in multiset(part);
      assert part[0] in multiset(whole);
      var i :| 0 <= i < |whole| && whole[i] == part[0];
      ScoreDropped(part, 0);
      BagDropped(part, 0);
      ScoreDropped(whole, i);
      BagDropped(whole, i);
      PartScoresLess(Dropped(part, 0), Dropped(whole, i));
    }
  }

  // ---------------------------------------------------------------- order and growth

  lemma {:induction false} SameBagSameScore(a: seq<Signal>, b: seq<Signal>)
    requires multiset(a) == multiset(b)
    ensures Score(a) == Score(b)
    decreases |a|
  {
    if a == [] {
      assert |multiset(b)| == 0;
    } else {
      assert a[0] in multiset(b);
      var i :| 0 <= i < |b| && b[i] == a[0];
      ScoreDropped(a, 0);
      BagDropped(a, 0);
      ScoreDropped(b, i);
      BagDropped(b, i);
      SameBagSameScore(Dropped(a, 0), Dropped(b, i));
    }
  }

  lemma SameBagSameCodes(a: seq<Signal>, b: seq<Signal>, code: Code, source: Source)
    requires multiset(a) <= multiset(b)
    ensures Has(a, code) ==> Has(b, code)
    ensures HasFrom(a, code, source) ==> HasFrom(b, code, source)
  {
    if Has(a, code) {
      var i :| 0 <= i < |a| && a[i].code == code;
      assert a[i] in multiset(b);
      var j :| 0 <= j < |b| && b[j] == a[i];
    }
    if HasFrom(a, code, source) {
      var i :| 0 <= i < |a| && a[i].code == code && a[i].source == source;
      assert a[i] in multiset(b);
      var j :| 0 <= j < |b| && b[j] == a[i];
    }
  }

  lemma GateGrows(a: seq<Signal>, b: seq<Signal>)
    requires multiset(a) <= multiset(b)
    ensures DeniedGate(a) ==> DeniedGate(b)
    ensures CampaignGate(a) ==> CampaignGate(b)
  {
    forall code: Code ensures Has(a, code) ==> Has(b, code) {
      SameBagSameCodes(a, b, code, Preview);
    }
    SameBagSameCodes(a, b, PreviewPromotionalLanguage, Preview);
    SameBagSameCodes(a, b, MultipleLinks, Preview);
  }

  /** The order of the signals does not matter. */
  lemma OrderDoesNotMatter(a: seq<Signal>, b: seq<Signal>)
    requires multiset(a) == multiset(b)
    ensures Decide(a) == Decide(b)
  {
    SameBagSameScore(a, b);
    GateGrows(a, b);
    GateGrows(b, a);
  }

  function Severity(action: Action): nat {
    match action
    case StandardChallenge => 0
    case StrictChallenge => 1
    case PermanentSuppression => 2
  }

  /** More evidence, wherever it turns up, never leads to a milder answer. */
  lemma MoreEvidenceIsNeverMilder(a: seq<Signal>, more: seq<Signal>, b: seq<Signal>)
    requires NonNegative(more) && multiset(b) == multiset(a + more)
    ensures Severity(Decide(a).action) <= Severity(Decide(b).action)
    ensures Decide(a).riskScore <= Decide(b).riskScore
  {
    OrderDoesNotMatter(a + more, b);
    ScoreConcat(a, more);
    ScoreNonNegative(more);
    GateGrows(a, a + more);
  }
}
