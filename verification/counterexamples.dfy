/** Properties one would expect and that fail: for each, a database that a run of the protocol reaches, and the
    service at work on it. The lemmas named in the comments say exactly when each property holds. */
module Counterexamples {
  import opened Base
  import opened Tables
  import opened StoreSpec
  import opened StateStore
  import opened Telegram
  import opened ServiceSpec
  import opened Service
  import opened Protocol
  import opened ProtocolChallenge
  import Outbound
  import Policy
  import Rules

  // ---------------------------------------------------------------- the databases

  /** A strict challenge delivered at 101 and not activated; the program stopped. */
  const HALF_DELIVERED: Db := EMPTY.(rows := map[7 :=
    BEGUN_ROW.(status := ChallengeArchiving, messageId := Some(5), updatedAt := 101)])

  /** The same challenge running, until 160. */
  const ASKED: Db := EMPTY.(rows := map[7 :=
    BEGUN_ROW.(status := Challenged, messageId := Some(5), prompt := None, revision := 1, updatedAt := 102)])

  /** Protect mode, and nobody known. */
  const QUIET: Db := EMPTY.(mode := Protect)

  /** Another sender was just asked, and the hour allows one message. */
  const BUSY: Db := QUIET.(events := NO_EVENTS.(outbound := [OutboundRow(Some(8), ChallengeSent, 100)]))

  lemma HalfDeliveredIsReachable(cfg: Config) returns (states: seq<System>, acts: seq<Act>)
    ensures Run(cfg, states, acts) && states[|acts|].db == HALF_DELIVERED && states[|acts|].sections == map[]
  {
    var row;
    states, acts, row := StrictHalfDelivered(cfg);
    states, acts := Extend(cfg, states, acts, Crash);
  }

  lemma AskedIsReachable(cfg: Config) returns (states: seq<System>, acts: seq<Act>)
    ensures Run(cfg, states, acts) && states[|acts|].db == ASKED && states[|acts|].sections == map[]
  {
    var row;
    states, acts, row := StrictChallenge(cfg);
    states, acts := Extend(cfg, states, acts, Crash);
  }

  lemma QuietIsReachable(cfg: Config) returns (states: seq<System>, acts: seq<Act>)
    ensures Run(cfg, states, acts) && states[|acts|].db == QUIET && states[|acts|].sections == map[]
  {
    states, acts := [INITIAL], [];
    states, acts := Extend(cfg, states, acts, CommandMode(Protect, 90, 7));
  }

  lemma BusyIsReachable(cfg: Config) returns (states: seq<System>, acts: seq<Act>)
    ensures Run(cfg, states, acts) && states[|acts|].db == BUSY && states[|acts|].sections == map[]
  {
    states, acts := QuietIsReachable(cfg);
    states, acts := Extend(cfg, states, acts, Unrelated(map[], map[], BUSY.events));
  }

  // ---------------------------------------------------------------- the service

  const READER: Rules.Reader := Rules.Reader(s => s, s => false, s => false, s => false, s => 0, s => false,
    u => Rules.OtherLink, u => None, u => None)

  const GREETING: Rules.Facts := Rules.Facts("hello", "", "", [], [], [], [], [], [], false, 0, false)

  /** A greeting sent at the given time, from an account that can be found again. */
  function Greeting(id: int, at: Time): Incoming {
    Incoming(id, at, None, Some([1]), false, false, None, GREETING)
  }

  const QUESTION: Challenge := Challenge("c", "d", "p")

  function Calm(): Weather {
    Weather(Nobody, true, Delivered(5, 110), Nobody, Done, Nobody, true, i => true, Nobody)
  }

  method Installed(db: Db) returns (service: GatekeeperService, actions: Actions)
    ensures fresh(service) && fresh(service.store) && fresh(actions)
    ensures service.store.Contents() == db
    ensures service.testKey.None? && service.denylist == {} && service.quota == Outbound.Quota(1, 0, 1)
    ensures forall facts, signals :: service.fingerprint(facts, signals) == None
    ensures service.ttl == 60
  {
    var store := new Store(7);
    store.Load(db);
    service := new GatekeeperService(store, Outbound.Quota(1, 0, 1), 60, 3, None, 7, 30, blob => Some(blob), READER,
      {}, (facts, signals) => None);
    actions := new Actions();
  }

  /** A greeting gives no ground for the destructive answer. */
  lemma GreetingIsHarmless(service: GatekeeperService, db: Db, k: Key, now: Time)
    requires service.testKey.None? && service.denylist == {}
    requires forall facts, signals :: service.fingerprint(facts, signals) == None
    ensures service.DecisionFor(k, service.SignalsOf(db, k, GREETING, now)).Ask?
  {
    service.DeniedOrRepeated(db, k, GREETING, now);
  }

  /** An unknown sender's greeting is answered with a question, as far as there is a slot. */
  lemma GreetingIsAnswered(service: GatekeeperService, db: Db, db': Db, deletions: map<nat, Time>,
                           deletions': map<nat, Time>, message: Incoming, w: Weather, notice: Sending, now: Time,
                           outcome: Outcome)
    requires service.testKey.None? && service.denylist == {} && db.mode.Protect? && StatusOf(db, 7).Unknown?
    requires forall facts, signals :: service.fingerprint(facts, signals) == None
    requires message.facts == GREETING && !message.trusted && !message.trustedHistory
    requires w.screens
    requires service.HandledNew(db, db', deletions, deletions', 7, message, w, notice, now, outcome)
    ensures outcome == IssueOutcome(service.SlotFree(db, 7, true, now), w)
    ensures service.Issued(Landed(db, 7, w.afterRead), db', 7, message.reference, w, now)
  {
    var seen := service.Seen(db, 7, message, w, now);
    GreetingIsHarmless(service, db, 7, now);
    service.LeftToScreening(db, seen, db', deletions, deletions', 7, message, w, notice, now, outcome);
    assert seen == Landed(db, 7, w.afterRead);
  }

  lemma BusyHasNoSlot(service: GatekeeperService, db: Db)
    requires service.quota == Outbound.Quota(1, 0, 1) && service.testKey.None?
    requires db.events.outbound == BUSY.events.outbound
    ensures !service.SlotFree(db, 7, true, 100)
  {
    var log := BUSY.events.outbound;
    assert log[..0] == [];
    assert OutboundSince(log, 100 - HOUR) == log;
    assert Outbound.Tally(log, Outbound.Accepted, 100 - HOUR, None) == 1;
  }

  // ---------------------------------------------------------------- the failing properties

  /** Recovery does not always end challenged, cleared or after failed restores: an exception of the activating
      statement escapes, and the row stays archiving although a restore would have been confirmed.
      Exactly when: ServiceSpec.RecoveryStaysArchivingExactlyWhen. */
  method RecoveryStaysArchiving() returns (recovery: Recovery, status: SenderStatus, restores: bool)
    ensures recovery.Escaped? && status.ChallengeArchiving? && restores
  {
    var service, actions := Installed(HALF_DELIVERED);
    var w := Calm().(activationRuns := false);
    recovery := service.RecoverIncompleteChallenge(7, None, actions, w, 120);
    var row := service.store.Sender(7);
    status, restores := row.status, w.restores(0);
  }

  /** The answer `suppressed` does not always go with the suppressed status: a late reply whose notice fails.
      Exactly when: Service.GatekeeperService.SuppressedExactlyWhenTold. */
  method LateReplyIsQuarantined() returns (outcome: Outcome, status: SenderStatus)
    ensures outcome.Suppressing? && status.Quarantined?
  {
    var service, actions := Installed(ASKED);
    GreetingIsHarmless(service, ASKED.(events := NO_EVENTS.(processed := map[(7, 9) := 500])), 7, 500);
    outcome := service.HandleLocked(7, Greeting(9, 500), None, QUESTION, actions, Calm(), NotSent, 500);
    var row := service.store.Sender(7);
    status := row.status;
  }

  /** A delivery does not always end running, abandoned or gone: the owner allows the sender meanwhile.
      Exactly when: ServiceSpec.OwnerHasTheLastWord. */
  method DeliveryIsOvertaken() returns (outcome: Outcome, status: SenderStatus)
    ensures outcome.FailSafe? && status.Allowed?
  {
    var service, actions := Installed(QUIET);
    var w := Calm().(afterSend := OwnerAllows(105));
    ghost var deletions, taken := actions.deletions, QUIET.(events := NO_EVENTS.(processed := map[(7, 9) := 100]));
    outcome := service.HandleLocked(7, Greeting(9, 100), None, QUESTION, actions, w, NotSent, 100);
    GreetingIsAnswered(service, taken, service.store.Contents(), deletions, actions.deletions, Greeting(9, 100), w,
      NotSent, 100, outcome);
    OwnerHasTheLastWord(service.store.Contents(), 7, w, 60);
    var row := service.store.Sender(7);
    status := row.status;
  }

  /** The owner's word does not always stand: an `allow` that lands after the sender's row was read, and before the
      challenge is begun, is overwritten by it.
      Exactly when: Service.GatekeeperService.AllowedExactlyWhen, and over whole runs
      ProtocolDecisions.AllowIsLostExactlyToAnOldView. */
  method AllowIsLostToAChallenge() returns (outcome: Outcome, status: SenderStatus)
    ensures outcome.Started? && status.Challenged?
  {
    var service, actions := Installed(QUIET);
    var w := Calm().(afterRead := OwnerAllows(99));
    ghost var deletions, taken := actions.deletions, QUIET.(events := NO_EVENTS.(processed := map[(7, 9) := 100]));
    outcome := service.HandleLocked(7, Greeting(9, 100), None, QUESTION, actions, w, NotSent, 100);
    QuietHasASlot(service, taken);
    GreetingIsAnswered(service, taken, service.store.Contents(), deletions, actions.deletions, Greeting(9, 100), w,
      NotSent, 100, outcome);
    var row := service.store.Sender(7);
    status := row.status;
  }

  lemma QuietHasASlot(service: GatekeeperService, db: Db)
    requires service.quota == Outbound.Quota(1, 0, 1) && db.events.outbound == []
    ensures service.SlotFree(db, 7, true, 100)
  {}

  /** The same in the protocol: the row is allowed at the third state and challenged at the sixth. */
  lemma AllowIsLostToAChallengeInARun(cfg: Config) returns (states: seq<System>, acts: seq<Act>)
    ensures Run(cfg, states, acts) && |acts| == 6
    ensures acts[2].CommandAllow? && acts[3].Do? && acts[3].op.DoBegin?
    ensures HasStatus(states[3].db, 7, Allowed) && HasStatus(states[6].db, 7, Challenged)
  {
    states, acts := [INITIAL], [];
    states, acts := Extend(cfg, states, acts, Acquire(7));
    states, acts := Extend(cfg, states, acts, Do(7, Read));
    states, acts := Extend(cfg, states, acts, CommandAllow(7, 99));
    var allowed := states;
    assert HasStatus(allowed[3].db, 7, Allowed);
    states, acts := Extend(cfg, states, acts, Do(7, DoBegin("c", "d", 160, "p", None, Standard, 100)));
    states, acts := DeliverAfter(cfg, states, acts);
    assert states[3] == allowed[3];
  }

  lemma DeliverAfter(cfg: Config, states: seq<System>, acts: seq<Act>) returns (states': seq<System>, acts': seq<Act>)
    requires Run(cfg, states, acts) && 7 in states[|acts|].sections && states[|acts|].sections[7].Begun?
    requires HasStatus(states[|acts|].db, 7, ChallengeIssuing)
    ensures Run(cfg, states', acts') && |acts'| == |acts| + 2
    ensures HasStatus(states'[|acts'|].db, 7, Challenged)
    ensures states'[..|states|] == states && acts'[..|acts|] == acts
  {
    states', acts' := Extend(cfg, states, acts, Do(7, DoBind(5, 101)));
    var bound := states';
    states', acts' := Extend(cfg, states', acts', Do(7, DoActivate(102)));
    assert states'[..|states|] == bound[..|states|];
  }

  /** Nor does it without a slot: an `allow` that lands while the archive is awaited is overwritten by the quarantine
      behind it. */
  method AllowIsOverwritten() returns (outcome: Outcome, row: Row)
    ensures outcome.QuarantinedRateLimited? && row.status.Quarantined? && row.revision == 2
  {
    var service, actions := Installed(BUSY);
    var w := Calm().(afterArchive := OwnerAllows(105));
    ghost var deletions, taken := actions.deletions, BUSY.(events := BUSY.events.(processed := map[(7, 9) := 100]));
    BusyHasNoSlot(service, taken);
    outcome := service.HandleLocked(7, Greeting(9, 100), None, QUESTION, actions, w, NotSent, 100);
    GreetingIsAnswered(service, taken, service.store.Contents(), deletions, actions.deletions, Greeting(9, 100), w,
      NotSent, 100, outcome);
    DecisionSurvivesUnasked(taken, 7, Some([1]), w, 100);
    row := service.store.Sender(7);
  }

  /** The same in the protocol: the command finds the sender unknown, as it demands, and the holder of the lock
      overwrites what it wrote. */
  lemma AllowIsOverwrittenInARun(cfg: Config) returns (states: seq<System>, acts: seq<Act>)
    ensures Run(cfg, states, acts) && |acts| == 4
    ensures acts[2].CommandAllow? && acts[3].Do? && acts[3].op.DoQuarantine?
    ensures HasStatus(states[3].db, 7, Allowed) && HasStatus(states[4].db, 7, Quarantined)
  {
    states, acts := [INITIAL], [];
    states, acts := Extend(cfg, states, acts, Acquire(7));
    states, acts := Extend(cfg, states, acts, Do(7, Read));
    states, acts := Extend(cfg, states, acts, CommandAllow(7, 105));
    var allowed := states;
    assert HasStatus(allowed[3].db, 7, Allowed);
    states, acts := Extend(cfg, states, acts, Do(7, DoQuarantine(None, 106)));
    assert states[3] == allowed[3];
  }
}
