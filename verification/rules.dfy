/** The detector: which signals a message gives off, and what the policy then makes of them. */
module Rules {
  import opened Base
  import opened Policy

  type Url = string
  type Domain = string

  datatype LinkKind = Invite | ExternalWeb | OtherLink

  /** What text normalisation, the word lists, the patterns and the URL parser say; any answers are allowed. */
  datatype Reader = Reader(
    normalize: string -> string,
    opener: string -> bool,              // LOW_INFORMATION_OPENERS
    promotional: string -> bool,         // one of PROMOTION_TERMS
    cryptoAsset: string -> bool,
    cryptoServices: string -> nat,
    commercial: string -> bool,
    kind: Url -> LinkKind,
    key: Url -> Option<string>,
    domain: Url -> Option<Domain>)

  datatype Facts = Facts(
    text: string, previewText: string, quoteText: string,
    urls: seq<Url>, domains: seq<Domain>,
    buttonUrls: seq<Url>, previewUrls: seq<Url>,
    quoteUrls: seq<Url>, quoteDomains: seq<Domain>,
    hasLinkButton: bool, linkButtonCount: int, forwarded: bool)

  // Everything the detector looks at.
  datatype Case = Case(reader: Reader, facts: Facts, previousLinks: int, denylist: set<Domain>)

  // ---------------------------------------------------------------- the denylist

  predicate EndsWith(s: string, suffix: string) {
    |suffix| <= |s| && s[|s| - |suffix|..] == suffix
  }

  predicate DomainDenied(domain: Domain, denylist: set<Domain>) {
    exists denied :: denied in denylist && (domain == denied || EndsWith(domain, "." + denied))
  }

  /** Cut at a label: the name itself, or what follows one of its dots. */
  predicate LabelCut(domain: Domain, i: nat) {
    i == 0 || (i <= |domain| && domain[i - 1] == '.')
  }

  /** A name is denied exactly when one of its parent names, itself included, is listed. */
  lemma DeniedByParent(domain: Domain, denylist: set<Domain>)
    ensures DomainDenied(domain, denylist) <==>
      exists i: nat :: i <= |domain| && LabelCut(domain, i) && domain[i..] in denylist
  {
    if DomainDenied(domain, denylist) {
      var denied :| denied in denylist && (domain == denied || EndsWith(domain, "." + denied));
      var i := |domain| - |denied|;
      assert domain[i..] == denied by {
        if domain != denied {
          assert domain[i - 1..] == "." + denied;
          assert domain[i..] == domain[i - 1..][1..];
        }
      }
      assert LabelCut(domain, i) by {
        if domain != denied { assert domain[i - 1..][0] == '.'; }
      }
    }
    if i: nat :| i <= |domain| && LabelCut(domain, i) && domain[i..] in denylist {
      if i > 0 {
        assert domain[i - 1..] == "." + domain[i..];
        assert EndsWith(domain, "." + domain[i..]);
      }
    }
  }

  /** Every subdomain of a denied name is denied. */
  lemma SubdomainsAreDenied(prefix: string, domain: Domain, denylist: set<Domain>)
    requires DomainDenied(domain, denylist)
    ensures DomainDenied(prefix + "." + domain, denylist)
  {
    var denied :| denied in denylist && (domain == denied || EndsWith(domain, "." + denied));
    var sub := prefix + "." + domain;
    var tail := "." + denied;
    if domain == denied {
      assert sub == prefix + tail;
    } else {
      assert sub[|sub| - |domain|..] == domain;
      assert sub[|sub| - |tail|..] == domain[|domain| - |tail|..];
    }
    assert EndsWith(sub, tail);
  }

  // ---------------------------------------------------------------- what each signal means

  predicate AnyDenied(domains: seq<Domain>, denylist: set<Domain>) {
    exists i :: 0 <= i < |domains| && DomainDenied(domains[i], denylist)
  }

  predicate AnyUrlDenied(c: Case, urls: seq<Url>) {
    exists i :: 0 <= i < |urls| && c.reader.domain(urls[i]).Some? &&
                DomainDenied(c.reader.domain(urls[i]).value, c.denylist)
  }

  predicate AnyKind(c: Case, urls: seq<Url>, kind: LinkKind) {
    exists i :: 0 <= i < |urls| && c.reader.kind(urls[i]) == kind
  }

  function Keys(c: Case, urls: seq<Url>): set<string> {
    set u | u in urls && c.reader.key(u).Some? :: c.reader.key(u).value
  }

  function Distinct(items: seq<string>): set<string> {
    set x | x in items
  }

  function ButtonCount(f: Facts): int {
    Max(f.linkButtonCount, if f.hasLinkButton then 1 else 0)
  }

  predicate HasLink(f: Facts) {
    f.urls != [] || f.hasLinkButton
  }

  predicate AuthoredPromotion(c: Case) {
    c.reader.promotional(c.reader.normalize(c.facts.text))
  }

  predicate PreviewPromotion(c: Case) {
    c.reader.promotional(c.reader.normalize(c.facts.previewText))
  }

  predicate QuotedPromotion(c: Case) {
    var quote := c.reader.normalize(c.facts.quoteText);
    c.reader.promotional(quote) ||
    (c.reader.cryptoAsset(quote) && c.reader.cryptoServices(quote) >= 2 && c.reader.commercial(quote))
  }

  predicate ManyLinks(c: Case) {
    |Keys(c, c.facts.urls)| >= 2 || |Distinct(c.facts.domains)| >= 2
  }

  predicate ManyQuotedLinks(c: Case) {
    |Keys(c, c.facts.quoteUrls)| >= 2 || |Distinct(c.facts.quoteDomains)| >= 2
  }

  predicate ManyPreviewLinks(c: Case) {
    |Keys(c, c.facts.previewUrls)| >= 2
  }

  /** Two links that are not the same address. */
  ghost predicate TwoApart(c: Case, urls: seq<Url>) {
    exists i, j :: 0 <= i < |urls| && 0 <= j < |urls| && c.reader.key(urls[i]).Some? && c.reader.key(urls[j]).Some? &&
                   c.reader.key(urls[i]) != c.reader.key(urls[j])
  }

  ghost predicate TwoNames(domains: seq<Domain>) {
    exists i, j :: 0 <= i < |domains| && 0 <= j < |domains| && domains[i] != domains[j]
  }

  lemma TwoInSet<T>(items: set<T>)
    ensures |items| >= 2 <==> exists a, b :: a in items && b in items && a != b
  {
    if |items| >= 2 {
      var a :| a in items;
      var rest := items - {a};
      assert |rest| >= 1;
      var b :| b in rest;
    }
    if a, b :| a in items && b in items && a != b {
      SubsetIsSmaller({a, b}, items);
    }
  }

  lemma TwoKeys(c: Case, urls: seq<Url>)
    ensures |Keys(c, urls)| >= 2 <==> TwoApart(c, urls)
  {
    TwoInSet(Keys(c, urls));
    if a, b :| a in Keys(c, urls) && b in Keys(c, urls) && a != b {
      var i :| 0 <= i < |urls| && c.reader.key(urls[i]) == Some(a);
      var j :| 0 <= j < |urls| && c.reader.key(urls[j]) == Some(b);
    }
    if i, j :| 0 <= i < |urls| && 0 <= j < |urls| && c.reader.key(urls[i]).Some? && c.reader.key(urls[j]).Some? &&
               c.reader.key(urls[i]) != c.reader.key(urls[j]) {
      assert urls[i] in urls && urls[j] in urls;
      assert c.reader.key(urls[i]).value in Keys(c, urls) && c.reader.key(urls[j]).value in Keys(c, urls);
    }
  }

  lemma TwoDomains(domains: seq<Domain>)
    ensures |Distinct(domains)| >= 2 <==> TwoNames(domains)
  {
    TwoInSet(Distinct(domains));
    if a, b :| a in Distinct(domains) && b in Distinct(domains) && a != b {
      var i :| 0 <= i < |domains| && domains[i] == a;
      var j :| 0 <= j < |domains| && domains[j] == b;
    }
    if i, j :| 0 <= i < |domains| && 0 <= j < |domains| && domains[i] != domains[j] {
      assert domains[i] in Distinct(domains) && domains[j] in Distinct(domains);
    }
  }

  /** Several links are two that differ, however often each is repeated; the same for quotes and previews. */
  lemma SeveralLinksMeans(c: Case)
    ensures ManyLinks(c) <==> TwoApart(c, c.facts.urls) || TwoNames(c.facts.domains)
    ensures ManyQuotedLinks(c) <==> TwoApart(c, c.facts.quoteUrls) || TwoNames(c.facts.quoteDomains)
    ensures ManyPreviewLinks(c) <==> TwoApart(c, c.facts.previewUrls)
  {
    TwoKeys(c, c.facts.urls);
    TwoKeys(c, c.facts.quoteUrls);
    TwoKeys(c, c.facts.previewUrls);
    TwoDomains(c.facts.domains);
    TwoDomains(c.facts.quoteDomains);
  }

  /** A link of the message itself, not of what it quotes, is on the owner's list. */
  predicate DeniedUnquoted(c: Case) {
    AnyDenied(c.facts.domains, c.denylist)
  }

  /** When the detector reports a code. */
  predicate Holds(c: Case, code: Code) {
    var f := c.facts;
    match code
    case LowInformationOpener => c.reader.opener(c.reader.normalize(f.text))
    case TelegramInvite => AnyKind(c, f.urls, Invite) || AnyKind(c, f.quoteUrls, Invite)
    case LinkButton => ButtonCount(f) == 1 && !AnyKind(c, f.buttonUrls, Invite)
    case ForwardedPayload => f.forwarded
    case LinkBurst => c.previousLinks >= 1 && HasLink(f)
    case MultipleLinks => ManyLinks(c)
    case QuotedMultipleLinks => ManyQuotedLinks(c)
    case QuotedPromotionalLanguage => QuotedPromotion(c)
    case ExternalAndTelegramLinks =>
      (AnyKind(c, f.urls, ExternalWeb) || AnyKind(c, f.quoteUrls, ExternalWeb)) &&
      (AnyKind(c, f.urls, Invite) || AnyKind(c, f.quoteUrls, Invite))
    case PromotionalLanguage => AuthoredPromotion(c)
    case PreviewPromotionalLanguage => !AuthoredPromotion(c) && PreviewPromotion(c)
    case ForwardedLinkButton => f.forwarded && f.hasLinkButton
    case MultipleLinkButtons => !(f.forwarded && f.hasLinkButton) && ButtonCount(f) >= 2
    case ButtonDeniedDomain => DeniedUnquoted(c) && AnyUrlDenied(c, f.buttonUrls)
    case PreviewDeniedDomain => DeniedUnquoted(c) && !AnyUrlDenied(c, f.buttonUrls) && AnyUrlDenied(c, f.previewUrls)
    case AuthoredDeniedDomain => DeniedUnquoted(c) && !AnyUrlDenied(c, f.buttonUrls) && !AnyUrlDenied(c, f.previewUrls)
    case QuotedDeniedDomain => !DeniedUnquoted(c) && AnyDenied(f.quoteDomains, c.denylist)
    case RepeatedCampaign => false
  }

  function Weight(code: Code): nat {
    match code
    case LowInformationOpener => 5
    case TelegramInvite => 10
    case LinkButton => 10
    case ForwardedPayload => 10
    case LinkBurst => 10
    case MultipleLinks => 15
    case QuotedMultipleLinks => 15
    case QuotedPromotionalLanguage => 15
    case ExternalAndTelegramLinks => 15
    case PromotionalLanguage => 20
    case PreviewPromotionalLanguage => 20
    case ForwardedLinkButton => 25
    case MultipleLinkButtons => 25
    case ButtonDeniedDomain => 100
    case PreviewDeniedDomain => 100
    case AuthoredDeniedDomain => 100
    case QuotedDeniedDomain => 30
    case RepeatedCampaign => 40
  }

  predicate AuthoredInvite(c: Case) {
    exists i :: 0 <= i < |c.facts.urls| && c.reader.kind(c.facts.urls[i]) == Invite &&
      c.facts.urls[i] !in c.facts.previewUrls
  }

  function InviteSource(c: Case): Source {
    if AuthoredInvite(c) then Authored else if AnyKind(c, c.facts.previewUrls, Invite) then Preview else Quoted
  }

  function SourceOf(c: Case, code: Code): Source {
    match code
    case LowInformationOpener => Authored
    case TelegramInvite => InviteSource(c)
    case LinkButton => Button
    case ForwardedPayload => Behavior
    case LinkBurst => Behavior
    case MultipleLinks => if ManyPreviewLinks(c) then Preview else Authored
    case QuotedMultipleLinks => Quoted
    case QuotedPromotionalLanguage => Quoted
    case ExternalAndTelegramLinks => Behavior
    case PromotionalLanguage => Authored
    case PreviewPromotionalLanguage => Preview
    case ForwardedLinkButton => Button
    case MultipleLinkButtons => Button
    case ButtonDeniedDomain => OwnerPolicy
    case PreviewDeniedDomain => OwnerPolicy
    case AuthoredDeniedDomain => OwnerPolicy
    case QuotedDeniedDomain => OwnerPolicy
    case RepeatedCampaign => Behavior
  }

  function Of(c: Case, code: Code): Signal {
    Signal(code, SourceOf(c, code), Weight(code))
  }

  // ---------------------------------------------------------------- the detector

  const CODES: seq<Code> := [
    LowInformationOpener, TelegramInvite, LinkButton, ForwardedPayload, LinkBurst, MultipleLinks,
    QuotedMultipleLinks, QuotedPromotionalLanguage, ExternalAndTelegramLinks, PromotionalLanguage,
    PreviewPromotionalLanguage, ForwardedLinkButton, MultipleLinkButtons, ButtonDeniedDomain,
    PreviewDeniedDomain, AuthoredDeniedDomain, QuotedDeniedDomain]

  function Noted(c: Case, signals: seq<Signal>, code: Code): seq<Signal> {
    if Holds(c, code) then signals + [Of(c, code)] else signals
  }

  /** The signals among the first `n` codes. */
  function Detected(c: Case, n: nat): seq<Signal>
    requires n <= |CODES|
  {
    if n == 0 then [] else Noted(c, Detected(c, n - 1), CODES[n - 1])
  }

  method DetectEvidenceSignals(c: Case) returns (signals: seq<Signal>)
    ensures signals == Detected(c, |CODES|)
  {
    signals := DetectOpenerAndButton(c);
    signals := DetectBehavior(c, signals);
    signals := DetectManyLinks(c, signals);
    signals := DetectQuotedPromotion(c, signals);
    signals := DetectPromotion(c, signals);
    signals := DetectLinkButtons(c, signals);
    signals := DetectDeniedDomains(c, signals);
  }

  /** An opener without content, an invitation, a single link button. */
  method DetectOpenerAndButton(c: Case) returns (signals: seq<Signal>)
    ensures signals == Detected(c, 3)
  {
    var f := c.facts;
    signals := [];
    if c.reader.opener(c.reader.normalize(f.text)) {
      signals := signals + [Signal(LowInformationOpener, Authored, 5)];
    }
    assert signals == Detected(c, 1);
    KindOfAll(c, Invite);
    if AnyKind(c, f.urls + f.quoteUrls, Invite) {
      signals := signals + [Signal(TelegramInvite, InviteSource(c), 10)];
    }
    assert signals == Detected(c, 2);
    if Max(f.linkButtonCount, if f.hasLinkButton then 1 else 0) == 1 && !AnyKind(c, f.buttonUrls, Invite) {
      signals := signals + [Signal(LinkButton, Button, 10)];
    }
  }

  method DetectBehavior(c: Case, before: seq<Signal>) returns (signals: seq<Signal>)
    requires before == Detected(c, 3)
    ensures signals == Detected(c, 5)
  {
    signals := before;
    if c.facts.forwarded {
      signals := signals + [Signal(ForwardedPayload, Behavior, 10)];
    }
    assert signals == Detected(c, 4);
    if c.previousLinks >= 1 && HasLink(c.facts) {
      signals := signals + [Signal(LinkBurst, Behavior, 10)];
    }
  }

  method DetectManyLinks(c: Case, before: seq<Signal>) returns (signals: seq<Signal>)
    requires before == Detected(c, 5)
    ensures signals == Detected(c, 7)
  {
    signals := before;
    if ManyLinks(c) {
      signals := signals + [Signal(MultipleLinks, if ManyPreviewLinks(c) then Preview else Authored, 15)];
    }
    assert signals == Detected(c, 6);
    if ManyQuotedLinks(c) {
      signals := signals + [Signal(QuotedMultipleLinks, Quoted, 15)];
    }
  }

  method DetectQuotedPromotion(c: Case, before: seq<Signal>) returns (signals: seq<Signal>)
    requires before == Detected(c, 7)
    ensures signals == Detected(c, 9)
  {
    signals := before;
    if QuotedPromotion(c) {
      signals := signals + [Signal(QuotedPromotionalLanguage, Quoted, 15)];
    }
    assert signals == Detected(c, 8);
    var allUrls := c.facts.urls + c.facts.quoteUrls;
    KindOfAll(c, Invite);
    KindOfAll(c, ExternalWeb);
    if AnyKind(c, allUrls, ExternalWeb) && AnyKind(c, allUrls, Invite) {
      signals := signals + [Signal(ExternalAndTelegramLinks, Behavior, 15)];
    }
  }

  method DetectPromotion(c: Case, before: seq<Signal>) returns (signals: seq<Signal>)
    requires before == Detected(c, 9)
    ensures signals == Detected(c, 11)
  {
    signals := before;
    assert Detected(c, 10) == Noted(c, signals, PromotionalLanguage);
    if AuthoredPromotion(c) {
      signals := signals + [Signal(PromotionalLanguage, Authored, 20)];
    } else if PreviewPromotion(c) {
      signals := signals + [Signal(PreviewPromotionalLanguage, Preview, 20)];
    }
  }

  method DetectLinkButtons(c: Case, before: seq<Signal>) returns (signals: seq<Signal>)
    requires before == Detected(c, 11)
    ensures signals == Detected(c, 13)
  {
    signals := before;
    assert Detected(c, 12) == Noted(c, signals, ForwardedLinkButton);
    if c.facts.forwarded && c.facts.hasLinkButton {
      signals := signals + [Signal(ForwardedLinkButton, Button, 25)];
    } else if Max(c.facts.linkButtonCount, if c.facts.hasLinkButton then 1 else 0) >= 2 {
      signals := signals + [Signal(MultipleLinkButtons, Button, 25)];
    }
  }

  /** The denylist: one code for the message's own links, else one for the quoted ones. */
  method DetectDeniedDomains(c: Case, before: seq<Signal>) returns (signals: seq<Signal>)
    requires before == Detected(c, 13)
    ensures signals == Detected(c, 17)
  {
    signals := before;
    assert Detected(c, 14) == Noted(c, before, ButtonDeniedDomain);
    assert Detected(c, 15) == Noted(c, Detected(c, 14), PreviewDeniedDomain);
    assert Detected(c, 16) == Noted(c, Detected(c, 15), AuthoredDeniedDomain);
    var deniedCode := AuthoredDeniedCode(c);
    if deniedCode.Some? {
      signals := signals + [Signal(deniedCode.value, OwnerPolicy, 100)];
    } else if c.denylist != {} && AnyDenied(c.facts.quoteDomains, c.denylist) {
      signals := signals + [Signal(QuotedDeniedDomain, OwnerPolicy, 30)];
    }
  }

  method AuthoredDeniedCode(c: Case) returns (code: Option<Code>)
    ensures Holds(c, ButtonDeniedDomain) <==> code == Some(ButtonDeniedDomain)
    ensures Holds(c, PreviewDeniedDomain) <==> code == Some(PreviewDeniedDomain)
    ensures Holds(c, AuthoredDeniedDomain) <==> code == Some(AuthoredDeniedDomain)
    ensures code.None? <==> !DeniedUnquoted(c)
  {
    code := None;
    if c.denylist != {} && AnyDenied(c.facts.domains, c.denylist) {
      code := Some(if AnyUrlDenied(c, c.facts.buttonUrls) then ButtonDeniedDomain
                   else if AnyUrlDenied(c, c.facts.previewUrls) then PreviewDeniedDomain
                   else AuthoredDeniedDomain);
    }
  }

  lemma KindOfAll(c: Case, kind: LinkKind)
    ensures AnyKind(c, c.facts.urls + c.facts.quoteUrls, kind) <==>
            AnyKind(c, c.facts.urls, kind) || AnyKind(c, c.facts.quoteUrls, kind)
  {
    var all := c.facts.urls + c.facts.quoteUrls;
    if i :| 0 <= i < |c.facts.urls| && c.reader.kind(c.facts.urls[i]) == kind {
      assert all[i] == c.facts.urls[i];
    }
    if i :| 0 <= i < |c.facts.quoteUrls| && c.reader.kind(c.facts.quoteUrls[i]) == kind {
      assert all[|c.facts.urls| + i] == c.facts.quoteUrls[i];
    }
  }

  // ---------------------------------------------------------------- what the detector reports

  function Rank(code: Code): (n: nat)
    ensures n < |CODES| ==> CODES[n] == code
  {
    match code
    case LowInformationOpener => 0
    case TelegramInvite => 1
    case LinkButton => 2
    case ForwardedPayload => 3
    case LinkBurst => 4
    case MultipleLinks => 5
    case QuotedMultipleLinks => 6
    case QuotedPromotionalLanguage => 7
    case ExternalAndTelegramLinks => 8
    case PromotionalLanguage => 9
    case PreviewPromotionalLanguage => 10
    case ForwardedLinkButton => 11
    case MultipleLinkButtons => 12
    case ButtonDeniedDomain => 13
    case PreviewDeniedDomain => 14
    case AuthoredDeniedDomain => 15
    case QuotedDeniedDomain => 16
    case RepeatedCampaign => 17
  }

  lemma RankOf(n: nat)
    requires n < |CODES|
    ensures Rank(CODES[n]) == n
  {}

  ghost predicate InOrder(signals: seq<Signal>) {
    forall i, j :: 0 <= i < j < |signals| ==> Rank(signals[i].code) < Rank(signals[j].code)
  }

  /** Exactly the signals that hold, each once, with its own source and weight. */
  lemma {:induction false} DetectedExactly(c: Case, n: nat)
    requires n <= |CODES|
    ensures forall s: Signal :: s in Detected(c, n) <==> Rank(s.code) < n && Holds(c, s.code) && s == Of(c, s.code)
    ensures InOrder(Detected(c, n))
  {
    if n > 0 {
      DetectedExactly(c, n - 1);
      RankOf(n - 1);
      forall s: Signal
        ensures s in Detected(c, n) <==> Rank(s.code) < n && Holds(c, s.code) && s == Of(c, s.code)
      {
        if Rank(s.code) == n - 1 { assert s.code == CODES[n - 1]; }
      }
      var before := Detected(c, n - 1);
      forall i | 0 <= i < |before| ensures Rank(before[i].code) < n - 1 {
        assert before[i] in before;
      }
    }
  }

  // ---------------------------------------------------------------- detector and policy together

  /** What reaches the policy: the detector's signals, and the repeat when another sender showed the template. */
  function Evidence(c: Case, repeated: bool): seq<Signal> {
    Detected(c, |CODES|) + (if repeated then [Of(c, RepeatedCampaign)] else [])
  }

  /** Promotion in the preview of a message that promotes nothing itself, with several previewed links. */
  predicate PreviewCampaign(c: Case) {
    !AuthoredPromotion(c) && PreviewPromotion(c) && ManyLinks(c) && ManyPreviewLinks(c)
  }

  predicate ForwardedCampaign(c: Case) {
    c.facts.forwarded && (AuthoredPromotion(c) || QuotedPromotion(c)) && (ManyLinks(c) || ManyQuotedLinks(c))
  }

  lemma EvidenceMember(c: Case, repeated: bool, s: Signal)
    ensures s in Evidence(c, repeated) <==>
            s == Of(c, s.code) && (if s.code.RepeatedCampaign? then repeated else Holds(c, s.code))
  {
    DetectedExactly(c, |CODES|);
    if s in Evidence(c, repeated) && s !in Detected(c, |CODES|) {
      assert s == Of(c, RepeatedCampaign);
    }
  }

  lemma EvidenceHas(c: Case, repeated: bool, code: Code)
    ensures Has(Evidence(c, repeated), code) <==> (if code.RepeatedCampaign? then repeated else Holds(c, code))
    ensures Has(Evidence(c, repeated), code) <==> Of(c, code) in Evidence(c, repeated)
    ensures HasFrom(Evidence(c, repeated), code, SourceOf(c, code)) <==> Has(Evidence(c, repeated), code)
    ensures forall source :: HasFrom(Evidence(c, repeated), code, source) ==> source == SourceOf(c, code)
  {
    var signals := Evidence(c, repeated);
    EvidenceMember(c, repeated, Of(c, code));
    forall i | 0 <= i < |signals| && signals[i].code == code
      ensures signals[i] == Of(c, code)
    {
      EvidenceMember(c, repeated, signals[i]);
      assert signals[i] in signals;
    }
    if Of(c, code) in signals {
      var i :| 0 <= i < |signals| && signals[i] == Of(c, code);
      assert signals[i].code == code && signals[i].source == SourceOf(c, code);
    }
  }

  /** No code is reported twice. */
  lemma CodesAreDistinct(c: Case, repeated: bool, i: nat, j: nat)
    requires i < j < |Evidence(c, repeated)|
    ensures Evidence(c, repeated)[i].code != Evidence(c, repeated)[j].code
  {
    DetectedExactly(c, |CODES|);
    var before := Detected(c, |CODES|);
    assert before[i] in before;
  }

  /** A listed link that is not quoted is reported under one of the three codes the gate looks for. */
  lemma DeniedGateMeans(c: Case, repeated: bool)
    ensures DeniedGate(Evidence(c, repeated)) <==> DeniedUnquoted(c)
  {
    EvidenceHas(c, repeated, AuthoredDeniedDomain);
    EvidenceHas(c, repeated, ButtonDeniedDomain);
    EvidenceHas(c, repeated, PreviewDeniedDomain);
  }

  /** The campaign gate in terms of the message. */
  lemma CampaignGateMeans(c: Case, repeated: bool)
    ensures CampaignGate(Evidence(c, repeated)) <==> repeated && (ForwardedCampaign(c) || PreviewCampaign(c))
  {
    EvidenceHas(c, repeated, RepeatedCampaign);
    EvidenceHas(c, repeated, MultipleLinks);
    EvidenceHas(c, repeated, QuotedMultipleLinks);
    EvidenceHas(c, repeated, ForwardedPayload);
    EvidenceHas(c, repeated, PromotionalLanguage);
    EvidenceHas(c, repeated, QuotedPromotionalLanguage);
    EvidenceHas(c, repeated, PreviewPromotionalLanguage);
  }

  lemma EvidenceNonNegative(c: Case, repeated: bool)
    ensures NonNegative(Evidence(c, repeated))
  {
    var signals := Evidence(c, repeated);
    forall i | 0 <= i < |signals| ensures signals[i].weight >= 0 {
      EvidenceMember(c, repeated, signals[i]);
      assert signals[i] in signals;
    }
  }

  /** Different codes of the evidence add up. */
  lemma CodesScore(c: Case, repeated: bool, codes: seq<Code>)
    requires forall i, j :: 0 <= i < j < |codes| ==> codes[i] != codes[j]
    requires forall i :: 0 <= i < |codes| ==> Has(Evidence(c, repeated), codes[i])
    ensures Score(Evidence(c, repeated)) >= Score(Picked(c, codes))
  {
    PickedFrom(c, repeated, codes);
    EvidenceNonNegative(c, repeated);
    PartScoresLess(Picked(c, codes), Evidence(c, repeated));
  }

  function Picked(c: Case, codes: seq<Code>): seq<Signal> {
    if codes == [] then [] else [Of(c, codes[0])] + Picked(c, codes[1..])
  }

  lemma {:induction false} PickedFrom(c: Case, repeated: bool, codes: seq<Code>)
    requires forall i, j :: 0 <= i < j < |codes| ==> codes[i] != codes[j]
    requires forall i :: 0 <= i < |codes| ==> Has(Evidence(c, repeated), codes[i])
    ensures multiset(Picked(c, codes)) <= multiset(Evidence(c, repeated))
    ensures forall s :: s in Picked(c, codes) ==> s.code in codes && s == Of(c, s.code)
  {
    if codes != [] {
      PickedFrom(c, repeated, codes[1..]);
      EvidenceHas(c, repeated, codes[0]);
      assert Of(c, codes[0]) !in Picked(c, codes[1..]);
      assert Of(c, codes[0]) in multiset(Evidence(c, repeated));
    }
  }

  /** The gate alone already makes the score reach the suppression threshold. */
  lemma GateForcesScore(c: Case, repeated: bool)
    requires Gate(Evidence(c, repeated))
    ensures Score(Evidence(c, repeated)) >= SUPPRESSION_THRESHOLD
  {
    var signals := Evidence(c, repeated);
    if DeniedGate(signals) {
      var code := if Has(signals, AuthoredDeniedDomain) then AuthoredDeniedDomain
                  else if Has(signals, ButtonDeniedDomain) then ButtonDeniedDomain else PreviewDeniedDomain;
      CodesScore(c, repeated, [code]);
      assert Picked(c, [code]) == [Of(c, code)];
    } else {
      CampaignScore(c, repeated);
    }
  }

  lemma CampaignScore(c: Case, repeated: bool)
    requires CampaignGate(Evidence(c, repeated))
    ensures Score(Evidence(c, repeated)) >= SUPPRESSION_THRESHOLD
  {
    var signals := Evidence(c, repeated);
    var links := if Has(signals, MultipleLinks) then MultipleLinks else QuotedMultipleLinks;
    if Has(signals, ForwardedPayload) && (Has(signals, PromotionalLanguage) || Has(signals,
      QuotedPromotionalLanguage)) {
      var words := if Has(signals, PromotionalLanguage) then PromotionalLanguage else QuotedPromotionalLanguage;
      CodesScore(c, repeated, [RepeatedCampaign, links, words]);
      PickedThree(c, RepeatedCampaign, links, words);
    } else {
      EvidenceHas(c, repeated, PreviewPromotionalLanguage);
      CodesScore(c, repeated, [RepeatedCampaign, links, PreviewPromotionalLanguage]);
      PickedThree(c, RepeatedCampaign, links, PreviewPromotionalLanguage);
    }
  }

  lemma PickedThree(c: Case, a: Code, b: Code, d: Code)
    ensures Score(Picked(c, [a, b, d])) == Weight(a) + Weight(b) + Weight(d)
  {
    assert [a, b, d][1..] == [b, d] && [b, d][1..] == [d] && [d][1..] == [];
    ScoreConcat([Of(c, a)], Picked(c, [b, d]));
    ScoreConcat([Of(c, b)], Picked(c, [d]));
    assert Picked(c, [d]) == [Of(c, d)];
  }

  // ---------------------------------------------------------------- the score in points

  /** The weights of everything reported, written out. */
  function Points(c: Case, repeated: bool): int {
    OwnPoints(c) + LinkPoints(c) + QuotePoints(c) + WordPoints(c) + ButtonPoints(c) + DeniedPoints(c) +
    (if Holds(c, QuotedDeniedDomain) then 30 else 0) + (if repeated then 40 else 0)
  }

  function OwnPoints(c: Case): int {
    (if Holds(c, LowInformationOpener) then 5 else 0) +
    (if Holds(c, TelegramInvite) then 10 else 0) +
    (if Holds(c, LinkButton) then 10 else 0) +
    (if Holds(c, ForwardedPayload) then 10 else 0) +
    (if Holds(c, LinkBurst) then 10 else 0)
  }

  function LinkPoints(c: Case): int {
    (if Holds(c, MultipleLinks) then 15 else 0) +
    (if Holds(c, QuotedMultipleLinks) then 15 else 0)
  }

  function QuotePoints(c: Case): int {
    (if Holds(c, QuotedPromotionalLanguage) then 15 else 0) +
    (if Holds(c, ExternalAndTelegramLinks) then 15 else 0)
  }

  function WordPoints(c: Case): int {
    (if Holds(c, PromotionalLanguage) then 20 else 0) +
    (if Holds(c, PreviewPromotionalLanguage) then 20 else 0)
  }

  function ButtonPoints(c: Case): int {
    (if Holds(c, ForwardedLinkButton) then 25 else 0) +
    (if Holds(c, MultipleLinkButtons) then 25 else 0)
  }

  function DeniedPoints(c: Case): int {
    (if Holds(c, ButtonDeniedDomain) then 100 else 0) +
    (if Holds(c, PreviewDeniedDomain) then 100 else 0) +
    (if Holds(c, AuthoredDeniedDomain) then 100 else 0)
  }

  lemma OneMorePoint(c: Case, n: nat)
    requires n < |CODES|
    ensures Score(Detected(c, n + 1)) ==
            Score(Detected(c, n)) + (if Holds(c, CODES[n]) then Weight(CODES[n]) else 0)
  {
    ScoreConcat(Detected(c, n), [Of(c, CODES[n])]);
  }

  lemma OwnScore(c: Case)
    ensures Score(Detected(c, 5)) == OwnPoints(c)
  {
    OneMorePoint(c, 0);
    OneMorePoint(c, 1);
    OneMorePoint(c, 2);
    OneMorePoint(c, 3);
    OneMorePoint(c, 4);
  }

  lemma LinkScore(c: Case)
    ensures Score(Detected(c, 7)) == Score(Detected(c, 5)) + LinkPoints(c)
  {
    OneMorePoint(c, 5);
    OneMorePoint(c, 6);
  }

  lemma QuoteScore(c: Case)
    ensures Score(Detected(c, 9)) == Score(Detected(c, 7)) + QuotePoints(c)
  {
    OneMorePoint(c, 7);
    OneMorePoint(c, 8);
  }

  lemma WordScore(c: Case)
    ensures Score(Detected(c, 11)) == Score(Detected(c, 9)) + WordPoints(c)
  {
    OneMorePoint(c, 9);
    OneMorePoint(c, 10);
  }

  lemma ButtonScore(c: Case)
    ensures Score(Detected(c, 13)) == Score(Detected(c, 11)) + ButtonPoints(c)
  {
    OneMorePoint(c, 11);
    OneMorePoint(c, 12);
  }

  lemma DeniedScore(c: Case)
    ensures Score(Detected(c, 16)) == Score(Detected(c, 13)) + DeniedPoints(c)
  {
    OneMorePoint(c, 13);
    OneMorePoint(c, 14);
    OneMorePoint(c, 15);
  }

  lemma ScoredFirst(c: Case)
    ensures Score(Detected(c, 11)) == OwnPoints(c) + LinkPoints(c) + QuotePoints(c) + WordPoints(c)
  {
    OwnScore(c);
    LinkScore(c);
    QuoteScore(c);
    WordScore(c);
  }

  lemma ScoredLast(c: Case)
    ensures Score(Detected(c, 17)) == Score(Detected(c, 11)) + ButtonPoints(c) + DeniedPoints(c) +
      (if Holds(c, QuotedDeniedDomain) then 30 else 0)
  {
    ButtonScore(c);
    DeniedScore(c);
    OneMorePoint(c, 16);
  }

  /** The score of the evidence is that sum. */
  lemma ScoreIsPoints(c: Case, repeated: bool)
    ensures Score(Evidence(c, repeated)) == Points(c, repeated)
  {
    ScoredFirst(c);
    ScoredLast(c);
    var last := if repeated then [Of(c, RepeatedCampaign)] else [];
    ScoreConcat(Detected(c, 17), last);
    assert Score(last) == if repeated then 40 else 0;
  }

  /** A link that is only quoted, on the owner's list, is enough for the strict question, but not for more. */
  lemma QuotedDenialIsStrict(c: Case, repeated: bool)
    requires AnyDenied(c.facts.quoteDomains, c.denylist) && !AnyDenied(c.facts.domains, c.denylist)
    ensures Points(c, repeated) >= 30
    ensures !repeated ==> Decide(Evidence(c, repeated)).action.StrictChallenge?
  {
    ScoreIsPoints(c, repeated);
    SuppressedExactlyWhen(c, repeated);
  }

  /** A message without links, buttons, promotion, quotes or forwarding. */
  predicate Plain(c: Case) {
    c.facts.urls == [] && c.facts.quoteUrls == [] && c.facts.domains == [] && c.facts.quoteDomains == [] &&
    !c.facts.hasLinkButton && c.facts.linkButtonCount <= 0 && !c.facts.forwarded &&
    !AuthoredPromotion(c) && !PreviewPromotion(c) && !QuotedPromotion(c)
  }

  /** An opener without content scores five and gets the standard question, and so does anything plain. */
  lemma PlainIsStandard(c: Case)
    requires Plain(c)
    ensures Points(c, false) == (if c.reader.opener(c.reader.normalize(c.facts.text)) then 5 else 0)
    ensures Decide(Evidence(c, false)).action.StandardChallenge?
  {
    ScoreIsPoints(c, false);
    assert Keys(c, []) == {} && Distinct([]) == {};
  }

  /** The destructive answer, for every message: a link of its own on the owner's list, or a repeated campaign
      that is forwarded promotion or a promoting preview, with several links. Nothing else, whatever it scores. */
  lemma SuppressedExactlyWhen(c: Case, repeated: bool)
    ensures Decide(Evidence(c, repeated)).action.PermanentSuppression? <==>
            DeniedUnquoted(c) || (repeated && (ForwardedCampaign(c) || PreviewCampaign(c)))
    ensures Decide(Evidence(c, repeated)).action.PermanentSuppression? <==> Gate(Evidence(c, repeated))
  {
    DeniedGateMeans(c, repeated);
    CampaignGateMeans(c, repeated);
    if Gate(Evidence(c, repeated)) {
      GateForcesScore(c, repeated);
    }
  }
}
