// src/services/campaign-error.service.js: how a failed provider call is classified and how long a retry waits.

module CampaignErrors {
  import opened Options

  datatype Category =
    | RetryableError | RateLimit | Authentication | PermanentAccount | PermanentTemplate | PermanentRecipient

  predicate Retryable(category: Category) {
    category.RetryableError? || category.RateLimit?
  }

  const RATE_CODES: set<int> := {4, 17, 32, 613, 80007}
  const AUTH_CODES: set<int> := {190}
  const ACCOUNT_CODES: set<int> := {131031, 131042, 131045, 131047}
  const TEMPLATE_CODES: set<int> := {132001, 132005, 132007, 132015, 132016}
  const RECIPIENT_CODES: set<int> := {131026, 131030, 131053, 132000}

  /** What the classification reads of an error: the HTTP status and the provider's code, None where they are not
      numbers, and the message in lower case. */
  datatype Details = Details(httpStatus: Option<int>, code: Option<int>, message: string)

  predicate Includes(text: string, term: string) {
    exists i :: 0 <= i <= |text| && term <= text[i..]
  }

  /** The term stands somewhere in the text. */
  lemma IncludesMeans(text: string, term: string)
    ensures Includes(text, term) <==> exists front: string, back: string :: text == front + term + back
  {
    if i :| 0 <= i <= |text| && term <= text[i..] {
      assert text == text[..i] + term + text[i + |term|..];
    }
    if front: string, back: string :| text == front + term + back {
      assert text[|front|..] == term + back;
    }
  }

  predicate CodeIn(d: Details, codes: set<int>) {
    d.code.Some? && d.code.value in codes
  }

  predicate SaysRate(d: Details) {
    d.httpStatus == Some(429) || CodeIn(d, RATE_CODES)
  }

  predicate SaysAuthentication(d: Details) {
    || d.httpStatus == Some(401) || CodeIn(d, AUTH_CODES)
    || Includes(d.message, "access token") || Includes(d.message, "oauth")
  }

  predicate SaysAccount(d: Details) {
    || CodeIn(d, ACCOUNT_CODES)
    || Includes(d.message, "disabled") || Includes(d.message, "banned")
    || Includes(d.message, "restricted") || Includes(d.message, "permission")
  }

  predicate SaysTemplate(d: Details) {
    || CodeIn(d, TEMPLATE_CODES)
    || (Includes(d.message, "template")
        && (Includes(d.message, "paused") || Includes(d.message, "disabled")
            || Includes(d.message, "rejected") || Includes(d.message, "not found")))
  }

  predicate SaysRecipient(d: Details) {
    CodeIn(d, RECIPIENT_CODES) || (d.httpStatus.Some? && 400 <= d.httpStatus.value < 500)
  }

  /** `classifyCampaignError` */
  function Classify(d: Details): Category {
    if SaysRate(d) then RateLimit
    else if SaysAuthentication(d) then Authentication
    else if SaysAccount(d) then PermanentAccount
    else if SaysTemplate(d) then PermanentTemplate
    else if SaysRecipient(d) then PermanentRecipient
    else RetryableError
  }

  /** A disabled template is reported as an account failure: the word alone stops every campaign of the phone, and
      the template test for the same word never decides. */
  lemma DisabledAlwaysBlamesTheAccount(d: Details)
    requires Includes(d.message, "disabled") && !SaysRate(d) && !SaysAuthentication(d)
    ensures Classify(d).PermanentAccount?
  {}

  // None of the words that the classification looks for.
  predicate Wordless(message: string) {
    && !Includes(message, "access token") && !Includes(message, "oauth") && !Includes(message, "disabled")
    && !Includes(message, "banned") && !Includes(message, "restricted") && !Includes(message, "permission")
    && !(Includes(message, "template")
         && (Includes(message, "paused") || Includes(message, "rejected") || Includes(message, "not found")))
  }

  /** What a provider code alone decides: without words and without a client error status, these codes and no others
      have these categories, whatever the order of the tests. */
  lemma CodesDecide(d: Details)
    requires Wordless(d.message) && (d.httpStatus.Some? ==> !(400 <= d.httpStatus.value < 500))
    ensures Classify(d).RateLimit? <==> d.code.Some? && d.code.value in [4, 17, 32, 613, 80007]
    ensures Classify(d).Authentication? <==> d.code == Some(190)
    ensures Classify(d).PermanentAccount? <==> d.code.Some? && d.code.value in [131031, 131042, 131045, 131047]
    ensures Classify(d).PermanentTemplate? <==> d.code.Some? && d.code.value in [132001, 132005, 132007, 132015, 132016]
    ensures Classify(d).PermanentRecipient? <==> d.code.Some? && d.code.value in [131026, 131030, 131053, 132000]
  {}

  /** What the words alone decide: an authentication failure before the account, the account before the template. */
  lemma WordsDecide(d: Details)
    requires d.code.None? && (d.httpStatus.Some? ==> !(400 <= d.httpStatus.value < 500))
    ensures Classify(d).Authentication? <==> Includes(d.message, "access token") || Includes(d.message, "oauth")
    ensures Classify(d).PermanentAccount? <==>
              && !Includes(d.message, "access token") && !Includes(d.message, "oauth")
              && (Includes(d.message, "disabled") || Includes(d.message, "banned")
                  || Includes(d.message, "restricted") || Includes(d.message, "permission"))
    ensures Retryable(Classify(d)) <==> Wordless(d.message)
    ensures !Classify(d).RateLimit? && !Classify(d).PermanentRecipient?
  {}

  /** What the status decides: 429 always waits and tries again, 401 is an authentication failure unless the code speaks
      of rate, and no other client error is tried again unless the code speaks of rate. */
  lemma StatusDecides(d: Details)
    requires d.httpStatus.Some? && 400 <= d.httpStatus.value < 500
    ensures Retryable(Classify(d)) <==> d.httpStatus.value == 429 || CodeIn(d, RATE_CODES)
    ensures d.httpStatus.value == 401 ==> Classify(d).Authentication? || CodeIn(d, RATE_CODES)
    ensures Wordless(d.message) && d.code.None? && d.httpStatus.value != 401 && d.httpStatus.value != 429 ==>
              Classify(d).PermanentRecipient?
  {}

  // ---------------------------------------------------------------------------------------------
  // retryDelayMs
  // ---------------------------------------------------------------------------------------------

  const FIRST_DELAY := 10000
  const LONGEST_DELAY := 1800000

  function Power2(n: nat): nat {
    if n == 0 then 1 else 2 * Power2(n - 1)
  }

  // The delay before the random part is added.
  function Backoff(attempt: int): nat {
    var doubled := FIRST_DELAY * Power2(if attempt > 1 then attempt - 1 else 0);
    if doubled < LONGEST_DELAY then doubled else LONGEST_DELAY
  }

  /** The random part is a whole number below this bound. */
  function JitterBound(attempt: int): nat {
    if Backoff(attempt) / 5 > 1000 then Backoff(attempt) / 5 else 1000
  }

  /** `retryDelayMs` with its random part as a parameter */
  function RetryDelay(attempt: int, retryAfterMs: int, jitter: nat): nat
    requires jitter < JitterBound(attempt)
  {
    if retryAfterMs > 0 then retryAfterMs else Backoff(attempt) + jitter
  }

  lemma {:induction false} PowerGrows(m: nat, n: nat)
    requires m <= n
    ensures Power2(m) <= Power2(n)
  {
    if m < n {
      PowerGrows(m, n - 1);
    }
  }

  /** The cap decides from the ninth attempt on. */
  lemma CappedFromNine(attempt: int)
    ensures Backoff(attempt) == LONGEST_DELAY <==> attempt >= 9
  {
    assert Power2(8) == 256 && Power2(7) == 128;
    if attempt >= 9 {
      PowerGrows(8, attempt - 1);
    } else {
      PowerGrows(if attempt > 1 then attempt - 1 else 0, 7);
    }
  }

  /** Without an instruction from the provider, each of the first nine attempts waits longer than the one before,
      whatever the random parts. */
  lemma EarlyDelaysGrow(attempt: int, jitter: nat, jitter': nat)
    requires 1 <= attempt < 9
    requires jitter < JitterBound(attempt) && jitter' < JitterBound(attempt + 1)
    ensures RetryDelay(attempt, 0, jitter) < RetryDelay(attempt + 1, 0, jitter')
  {
    CappedFromNine(attempt);
    CappedFromNine(attempt + 1);
    PowerGrows(0, attempt - 1);
    assert Power2(attempt) == 2 * Power2(attempt - 1);
    PowerGrows(attempt - 1, 7);
    assert Power2(7) == 128;
  }

  /** The delay before the random part is ten seconds at first and doubles up to half an hour; the random part is below
      a fifth of it, for its lower bound of one second never decides. */
  lemma Doubles(attempt: int)
    ensures attempt <= 1 ==> Backoff(attempt) == 10000
    ensures attempt >= 1 ==>
              Backoff(attempt + 1) == if 2 * Backoff(attempt) < 1800000 then 2 * Backoff(attempt) else 1800000
    ensures JitterBound(attempt) == Backoff(attempt) / 5 >= 2000
  {
    PowerGrows(0, if attempt > 1 then attempt - 1 else 0);
    if attempt >= 1 {
      assert Power2(attempt) == 2 * Power2(attempt - 1);
    }
  }

  /** Every delay is the provider's own, or at least ten seconds and less than thirty-six minutes. */
  lemma DelayBounds(attempt: int, retryAfterMs: int, jitter: nat)
    requires jitter < JitterBound(attempt)
    ensures var delay := RetryDelay(attempt, retryAfterMs, jitter);
            if retryAfterMs > 0 then delay == retryAfterMs
            else 10000 <= delay < 2160000 && Backoff(attempt) <= delay < Backoff(attempt) + JitterBound(attempt)
  {
    PowerGrows(0, if attempt > 1 then attempt - 1 else 0);
  }
}
