/** Vocabulary shared by every module: optional values, keys, times, and the status enums. */
module Base {

  datatype Option<+T> = None | Some(value: T)

  /** SQL's COALESCE of two columns. */
  function Coalesce<T>(first: Option<T>, second: Option<T>): Option<T> {
    if first.Some? then first else second
  }

  // A sender key is a 64-digit lower-case hexadecimal digest. Text order on such keys is
  // numeric order, so the number stands for the key.
  type Key = nat

  type Time = int

  newtype Byte = b: int | 0 <= b < 256

  // An encrypted reference or envelope; the empty blob marks an erased one.
  type Blob = seq<Byte>

  datatype Mode = Monitor | Protect

  datatype Profile = Standard | Strict

  datatype SenderStatus =
    | Unknown
    | ChallengeIssuing
    | ChallengeArchiving
    | Challenged
    | Provisional
    | Allowed
    | Quarantined
    | Suppressed

  datatype ReviewStatus = ReviewPending | Legitimate | Spam | Dismissed

  datatype ActionStatus = ActionPending | Cancelled | Completed | Failed

  predicate ChallengeStarting(s: SenderStatus) {
    s.ChallengeIssuing? || s.ChallengeArchiving?
  }

  predicate InChallenge(s: SenderStatus) {
    ChallengeStarting(s) || s.Challenged?
  }

  predicate Restricted(s: SenderStatus) {
    s.Quarantined? || s.Suppressed?
  }

  predicate GatekeeperArchived(s: SenderStatus) {
    s.Challenged? || Restricted(s)
  }

  /** Statuses the command line refuses to touch, because it cannot restore Telegram state. */
  predicate DashboardOnly(s: SenderStatus) {
    ChallengeStarting(s) || GatekeeperArchived(s)
  }

  predicate Open(s: ActionStatus) {
    s.ActionPending? || s.Failed?
  }

  const HOUR: int := 3600
  const DAY: int := 86400
  const CAMPAIGN_WINDOW: int := 7 * DAY

  function Min(a: int, b: int): int {
    if a <= b then a else b
  }

  function Max(a: int, b: int): int {
    if a <= b then b else a
  }

  lemma SubsetIsSmaller<T>(a: set<T>, b: set<T>)
    requires a <= b
    ensures |a| <= |b|
  {
    assert b == a + (b - a);
  }
}
