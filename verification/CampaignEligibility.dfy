// src/services/campaign-eligibility.service.js: which recipients of a campaign may be sent to, and the phone
// states that forbid campaigns altogether.

module PhoneSafety {
  datatype AccountStatus = Unknown | Active | Restricted | Disabled | Banned

  datatype PhoneState = PhoneState(campaignsEnabled: bool, account: AccountStatus)

  predicate Blocked(account: AccountStatus) {
    account.Restricted? || account.Disabled? || account.Banned?
  }

  predicate Safe(phone: PhoneState) {
    phone.campaignsEnabled && !Blocked(phone.account)
  }

  // The row that `ensureWhatsappPhoneNumber` creates for a phone it does not know.
  const NEW_PHONE := PhoneState(true, Unknown)

  /** A phone is safe exactly if it is enabled and its account is unknown or active, as it is when it is new. */
  lemma SafePhones(phone: PhoneState)
    ensures Safe(phone) <==> phone == PhoneState(true, Unknown) || phone == PhoneState(true, Active)
    ensures Safe(NEW_PHONE)
  {}
}

module CampaignEligibility {
  import opened Collections
  import opened Options
  import opened PhoneSafety

  datatype Reason =
    | Base(text: string)
    | InvalidPhone | OptInRequired | CustomerOptedOut | CustomerSuppressed
    | TemplateNotApprovedOrActive | DuplicateRecipient | GlobalSuppression
    | PhoneCampaignsDisabled | PhoneAccount(status: AccountStatus)
    | FrequencyCap | TemplateCooldown | CustomerCooldown

  /** Everything the evaluation reads about one customer, one debt and one campaign. */
  datatype Facts = Facts(
    baseReasons: seq<string>,
    phoneLength: Option<nat>,          // of the normalized phone, if there is one
    requireOptIn: bool, optedIn: bool, optedOut: bool, suppressed: bool,
    templateUsable: bool,              // approved and active
    globallySuppressed: bool,
    phone: PhoneState,
    recentMessages: nat, maximumRecent: nat,
    recentTemplateMessage: bool,
    lastMessageAt: Option<int>, cooldownStart: int)

  const MINIMUM_PHONE_LENGTH := 6

  predicate PhoneInvalid(f: Facts) {
    f.phoneLength.None? || f.phoneLength.value < MINIMUM_PHONE_LENGTH
  }

  // An empty phone string is falsy, so the suppression table is not asked about it.
  predicate SuppressedGlobally(f: Facts) {
    f.phoneLength.Some? && f.phoneLength.value > 0 && f.globallySuppressed
  }

  predicate CoolingDown(f: Facts) {
    f.lastMessageAt.Some? && f.lastMessageAt.value >= f.cooldownStart
  }

  /** The recipient may be sent to: no rule speaks against it. */
  predicate Eligible(f: Facts, duplicate: bool) {
    && (forall text :: text in f.baseReasons ==> text == "")
    && !PhoneInvalid(f)
    && (f.requireOptIn ==> f.optedIn) && !f.optedOut && !f.suppressed
    && f.templateUsable && !duplicate && !SuppressedGlobally(f)
    && Safe(f.phone)
    && f.recentMessages < f.maximumRecent && !f.recentTemplateMessage && !CoolingDown(f)
  }

  // Each rule gives its reason exactly when it speaks against the recipient.
  predicate Applies(reason: Reason, f: Facts, duplicate: bool) {
    match reason
    case Base(text) => text != "" && text in f.baseReasons
    case InvalidPhone => PhoneInvalid(f)
    case OptInRequired => f.requireOptIn && !f.optedIn
    case CustomerOptedOut => f.optedOut
    case CustomerSuppressed => f.suppressed
    case TemplateNotApprovedOrActive => !f.templateUsable
    case DuplicateRecipient => duplicate
    case GlobalSuppression => SuppressedGlobally(f)
    case PhoneCampaignsDisabled => !f.phone.campaignsEnabled
    case PhoneAccount(status) => f.phone.account == status && Blocked(status)
    case FrequencyCap => f.recentMessages >= f.maximumRecent
    case TemplateCooldown => f.recentTemplateMessage
    case CustomerCooldown => CoolingDown(f)
  }

  /** What the tests say that eligibility and reasons share: a phone number has at least six digits, the suppression
      list is asked about every number that is not empty, and a message exactly at the start of the cooldown still
      counts. */
  lemma SharedTests(f: Facts)
    ensures !PhoneInvalid(f) <==> exists n :: f.phoneLength == Some(n) && n >= 6
    ensures SuppressedGlobally(f) <==> f.globallySuppressed && f.phoneLength != None && f.phoneLength != Some(0)
    ensures !CoolingDown(f) <==> forall at :: f.lastMessageAt == Some(at) ==> at < f.cooldownStart
  {
    if !PhoneInvalid(f) {
      assert f.phoneLength == Some(f.phoneLength.value);
    }
    if CoolingDown(f) {
      assert f.lastMessageAt == Some(f.lastMessageAt.value);
    }
  }

  // The rules in the order in which the service pushes their reasons.
  function Rank(reason: Reason): nat {
    match reason
    case Base(_) => 0
    case InvalidPhone => 1
    case OptInRequired => 2
    case CustomerOptedOut => 3
    case CustomerSuppressed => 4
    case TemplateNotApprovedOrActive => 5
    case DuplicateRecipient => 6
    case GlobalSuppression => 7
    case PhoneCampaignsDisabled => 8
    case PhoneAccount(_) => 9
    case FrequencyCap => 10
    case TemplateCooldown => 11
    case CustomerCooldown => 12
  }

  /** The order of the rules: base evaluation, number, consent, template, duplicates, suppression, phone, frequency. */
  lemma RulesInOrder(text: string, account: AccountStatus)
    ensures var rules := [Base(text), InvalidPhone, OptInRequired, CustomerOptedOut, CustomerSuppressed,
                          TemplateNotApprovedOrActive, DuplicateRecipient, GlobalSuppression, PhoneCampaignsDisabled,
                          PhoneAccount(account), FrequencyCap, TemplateCooldown, CustomerCooldown];
            forall i, j :: 0 <= i < j < |rules| ==> Rank(rules[i]) < Rank(rules[j])
  {}

  ghost predicate Ordered(reasons: seq<Reason>) {
    forall i, j :: 0 <= i < j < |reasons| ==> Rank(reasons[i]) <= Rank(reasons[j])
  }

  /** Invariant of the pushes: exactly the reasons of the rules up to `rank` were pushed, in rule order. */
  ghost predicate PushedUpTo(reasons: seq<Reason>, f: Facts, duplicate: bool, rank: nat) {
    && Ordered(reasons)
    && (forall reason :: reason in reasons ==>
        Rank(reason) <= rank && (reason == Base("") || Applies(reason, f, duplicate)))
    && (forall reason :: Rank(reason) <= rank && Applies(reason, f, duplicate) ==> reason in reasons)
  }

  lemma PushKeeps(reasons: seq<Reason>, condition: bool, reason: Reason, f: Facts, duplicate: bool)
    requires Rank(reason) > 0 && PushedUpTo(reasons, f, duplicate, Rank(reason) - 1)
    requires condition == Applies(reason, f, duplicate)
    requires reason.PhoneAccount? ==> reason.status == f.phone.account
    ensures PushedUpTo(if condition then reasons + [reason] else reasons, f, duplicate, Rank(reason))
  {}

  method PushIf(reasons: seq<Reason>, condition: bool, reason: Reason, ghost f: Facts, ghost duplicate: bool)
    returns (pushed: seq<Reason>)
    requires Rank(reason) > 0 && PushedUpTo(reasons, f, duplicate, Rank(reason) - 1)
    requires condition == Applies(reason, f, duplicate)
    requires reason.PhoneAccount? ==> reason.status == f.phone.account
    ensures PushedUpTo(pushed, f, duplicate, Rank(reason))
  {
    PushKeeps(reasons, condition, reason, f, duplicate);
    pushed := reasons;
    if condition {
      pushed := pushed + [reason];
    }
  }

  // `[...(baseEvaluation.reasons)]`
  method CopyBaseReasons(f: Facts, ghost duplicate: bool) returns (pushed: seq<Reason>)
    ensures PushedUpTo(pushed, f, duplicate, 0)
  {
    pushed := [];
    for i := 0 to |f.baseReasons|
      invariant |pushed| == i && forall j :: 0 <= j < i ==> pushed[j] == Base(f.baseReasons[j])
    {
      pushed := pushed + [Base(f.baseReasons[i])];
    }
    forall reason | Rank(reason) <= 0 && Applies(reason, f, duplicate) ensures reason in pushed {
      var k :| 0 <= k < |f.baseReasons| && f.baseReasons[k] == reason.text;
      assert pushed[k] == reason;
    }
  }

  // Lines 22 to 27.
  method PushConsentRules(reasons: seq<Reason>, f: Facts, duplicate: bool) returns (pushed: seq<Reason>)
    requires PushedUpTo(reasons, f, duplicate, 0)
    ensures PushedUpTo(pushed, f, duplicate, 6)
  {
    hide PushedUpTo;
    pushed := PushIf(reasons, PhoneInvalid(f), InvalidPhone, f, duplicate);
    pushed := PushIf(pushed, f.requireOptIn && !f.optedIn, OptInRequired, f, duplicate);
    pushed := PushIf(pushed, f.optedOut, CustomerOptedOut, f, duplicate);
    pushed := PushIf(pushed, f.suppressed, CustomerSuppressed, f, duplicate);
    pushed := PushIf(pushed, !f.templateUsable, TemplateNotApprovedOrActive, f, duplicate);
    pushed := PushIf(pushed, duplicate, DuplicateRecipient, f, duplicate);
  }

  // Lines 29 to 40.
  method PushPhoneRules(reasons: seq<Reason>, f: Facts, duplicate: bool) returns (pushed: seq<Reason>)
    requires PushedUpTo(reasons, f, duplicate, 6)
    ensures PushedUpTo(pushed, f, duplicate, 9)
  {
    hide PushedUpTo;
    pushed := PushIf(reasons, SuppressedGlobally(f), GlobalSuppression, f, duplicate);
    pushed := PushIf(pushed, !f.phone.campaignsEnabled, PhoneCampaignsDisabled, f, duplicate);
    pushed := PushIf(pushed, Blocked(f.phone.account), PhoneAccount(f.phone.account), f, duplicate);
  }

  // `frequencyReasons`
  method PushFrequencyRules(reasons: seq<Reason>, f: Facts, duplicate: bool) returns (pushed: seq<Reason>)
    requires PushedUpTo(reasons, f, duplicate, 9)
    ensures PushedUpTo(pushed, f, duplicate, 12)
  {
    hide PushedUpTo;
    pushed := PushIf(reasons, f.recentMessages >= f.maximumRecent, FrequencyCap, f, duplicate);
    pushed := PushIf(pushed, f.recentTemplateMessage, TemplateCooldown, f, duplicate);
    pushed := PushIf(pushed, CoolingDown(f), CustomerCooldown, f, duplicate);
  }

  datatype Evaluation = Evaluation(eligible: bool, reasons: seq<Reason>)

  /** `evaluateCampaignEligibility`: the reasons are those of the rules that speak against the recipient, each
      once and in rule order, and the recipient is eligible exactly when no rule does. Without a template the service
      throws when it reads the template's name, and there is no evaluation. */
  method EvaluateCampaignEligibility(f: Facts, templateFound: bool, duplicate: bool)
    returns (evaluation: Option<Evaluation>)
    ensures evaluation.Some? <==> templateFound
    ensures templateFound ==>
              && evaluation.value.eligible == Eligible(f, duplicate) == (evaluation.value.reasons == [])
              && (forall reason :: reason in evaluation.value.reasons <==> Applies(reason, f, duplicate))
              && Distinct(evaluation.value.reasons) && Ordered(evaluation.value.reasons)
  {
    var pushed := CopyBaseReasons(f, duplicate);
    pushed := PushConsentRules(pushed, f, duplicate);
    pushed := PushPhoneRules(pushed, f, duplicate);
    if !templateFound {
      return None;
    }
    pushed := PushFrequencyRules(pushed, f, duplicate);
    var reasons := UniqueReasons(pushed);
    forall reason ensures reason in reasons <==> Applies(reason, f, duplicate) {
      assert Rank(reason) <= 12;
    }
    EligibleExactly(f, duplicate);
    if reasons != [] {
      assert reasons[0] in reasons;
    }
    evaluation := Some(Evaluation(|reasons| == 0, reasons));
  }

  // `[...new Set(reasons.filter(Boolean))]`
  method UniqueReasons(pushed: seq<Reason>) returns (unique: seq<Reason>)
    requires Ordered(pushed)
    ensures Distinct(unique) && Ordered(unique)
    ensures forall reason :: reason in unique <==> reason in pushed && reason != Base("")
  {
    unique := [];
    for i := 0 to |pushed|
      invariant Distinct(unique) && Ordered(unique)
      invariant forall reason :: reason in unique <==> reason in pushed[..i] && reason != Base("")
    {
      if pushed[i] != Base("") && pushed[i] !in unique {
        forall k | 0 <= k < |unique| ensures Rank(unique[k]) <= Rank(pushed[i]) {
          assert unique[k] in unique;
          var j :| 0 <= j < i && pushed[j] == unique[k];
        }
        unique := unique + [pushed[i]];
      }
      assert pushed[..i + 1] == pushed[..i] + [pushed[i]];
    }
    assert pushed[..|pushed|] == pushed;
  }

  /** A recipient is eligible exactly when no rule has a reason against it. */
  lemma EligibleExactly(f: Facts, duplicate: bool)
    ensures Eligible(f, duplicate) <==> forall reason :: !Applies(reason, f, duplicate)
  {
    if forall reason :: !Applies(reason, f, duplicate) {
      forall text | text in f.baseReasons ensures text == "" {
        assert !Applies(Base(text), f, duplicate);
      }
      assert !Applies(InvalidPhone, f, duplicate) && !Applies(OptInRequired, f, duplicate);
      assert !Applies(CustomerOptedOut, f, duplicate) && !Applies(CustomerSuppressed, f, duplicate);
      assert !Applies(TemplateNotApprovedOrActive, f, duplicate) && !Applies(DuplicateRecipient, f, duplicate);
      assert !Applies(GlobalSuppression, f, duplicate) && !Applies(PhoneCampaignsDisabled, f, duplicate);
      assert !Applies(PhoneAccount(f.phone.account), f, duplicate) && !Applies(FrequencyCap, f, duplicate);
      assert !Applies(TemplateCooldown, f, duplicate) && !Applies(CustomerCooldown, f, duplicate);
    }
  }
}
