/** The phase tables of the four journals, and why their logs stay short. */
module Phases {
  import opened Ordering
  import EventLog

  // ---------------------------------------------------------------- verified migration

  datatype Phase =
    | Planned | BackupStarted | BackupVerified | HoldAcquired | Revalidated
    | Started | CommandCompleted | TargetHeadsVerified | Stabilized | StateCommitted
    | Committed | Failed | RequiresRecovery

  predicate Legal(from: Phase, to: Phase) {
    match from
    case Planned => to == BackupStarted || to == Failed
    case BackupStarted => to == BackupVerified || to == Failed
    case BackupVerified => to == HoldAcquired || to == Failed
    case HoldAcquired => to == Revalidated || to == Failed
    case Revalidated => to == Started || to == Failed
    case Started => to == CommandCompleted || to == RequiresRecovery
    case CommandCompleted => to == TargetHeadsVerified || to == RequiresRecovery
    case TargetHeadsVerified => to == Stabilized || to == RequiresRecovery
    case Stabilized => to == StateCommitted || to == RequiresRecovery
    case StateCommitted => to == Committed
    case Committed => false
    case Failed => false
    case RequiresRecovery => false
  }

  predicate PreMutation(phase: Phase) {
    phase in {Planned, BackupStarted, BackupVerified, HoldAcquired, Revalidated}
  }

  function Rank(phase: Phase): nat {
    match phase
    case Planned => 0
    case BackupStarted => 1
    case BackupVerified => 2
    case HoldAcquired => 3
    case Revalidated => 4
    case Started => 5
    case CommandCompleted => 6
    case TargetHeadsVerified => 7
    case Stabilized => 8
    case StateCommitted => 9
    case Committed => 10
    case Failed => 5
    case RequiresRecovery => 9
  }

  predicate MayAppend(log: seq<Phase>, phase: Phase) {
    EventLog.MayAppend(log, phase, Planned, Legal)
  }

  ghost predicate IsPath(log: seq<Phase>) {
    EventLog.IsPathOf(log, Planned, Legal)
  }

  // ---------------------------------------------------------------- initial database bootstrap

  datatype BootPhase =
    | BootPlanned | PostgresStarted | FreshnessVerified | SchemaStarted | SchemaCompleted
    | BootHeadsVerified | BootCommitted | BootFailed | BootRequiresRecovery

  predicate BootLegal(from: BootPhase, to: BootPhase) {
    match from
    case BootPlanned => to == PostgresStarted || to == FreshnessVerified || to == BootFailed
    case PostgresStarted => to == FreshnessVerified || to == BootFailed || to == BootRequiresRecovery
    case FreshnessVerified => to == SchemaStarted || to == BootCommitted || to == BootFailed
    case SchemaStarted => to == SchemaCompleted || to == BootRequiresRecovery
    case SchemaCompleted => to == BootHeadsVerified || to == BootRequiresRecovery
    case BootHeadsVerified => to == BootCommitted || to == BootRequiresRecovery
    case BootCommitted => false
    case BootFailed => false
    case BootRequiresRecovery => false
  }

  // What follows the number in the name of an event's file.
  function BootSuffix(phase: BootPhase): string {
    match phase
    case BootPlanned => "_planned.json"
    case PostgresStarted => "_postgres_started.json"
    case FreshnessVerified => "_freshness_verified.json"
    case SchemaStarted => "_schema_started.json"
    case SchemaCompleted => "_schema_completed.json"
    case BootHeadsVerified => "_target_heads_verified.json"
    case BootCommitted => "_committed.json"
    case BootFailed => "_failed.json"
    case BootRequiresRecovery => "_requires_recovery.json"
  }

  lemma BootSuffixBegins(phase: BootPhase)
    ensures BootSuffix(phase) != [] && BootSuffix(phase)[0] == '_'
  {
  }

  // The first letters tell the statuses apart, but for one pair.
  function SecondLetters(phase: BootPhase): (letters: (char, char)) {
    match phase
    case BootPlanned => ('p', 'l')
    case PostgresStarted => ('p', 'o')
    case FreshnessVerified => ('f', 'r')
    case SchemaStarted => ('s', 'c')
    case SchemaCompleted => ('s', 'c')
    case BootHeadsVerified => ('t', 'a')
    case BootCommitted => ('c', 'o')
    case BootFailed => ('f', 'a')
    case BootRequiresRecovery => ('r', 'e')
  }

  lemma BootSuffixLetters(phase: BootPhase)
    ensures |BootSuffix(phase)| > 8
    ensures BootSuffix(phase)[0] == '_' && BootSuffix(phase)[1] == SecondLetters(phase).0
    ensures BootSuffix(phase)[2] == SecondLetters(phase).1
    ensures phase.SchemaStarted? ==> BootSuffix(phase)[8] == 's'
    ensures phase.SchemaCompleted? ==> BootSuffix(phase)[8] == 'c'
  {
  }

  lemma BootSuffixIsInjective(a: BootPhase, b: BootPhase)
    requires BootSuffix(a) == BootSuffix(b)
    ensures a == b
  {
    BootSuffixLetters(a);
    BootSuffixLetters(b);
    hide BootSuffix;
  }

  /** Of two statuses that may both follow a third, the one whose name sorts second never follows the other. It is
      the alphabet alone that makes it so: some of them do follow in the opposite order. */
  lemma SiblingsNeverFollow(from: BootPhase, a: BootPhase, b: BootPhase)
    requires BootLegal(from, a) && BootLegal(from, b) && Less(BootSuffix(a), BootSuffix(b))
    ensures !BootLegal(a, b)
  {
    BootSuffixLetters(a);
    BootSuffixLetters(b);
    hide BootSuffix;
    LessLetters(BootSuffix(a), BootSuffix(b));
  }

  lemma LessLetters(x: string, y: string)
    requires |x| > 2 && |y| > 2 && x[0] == y[0] && Less(x, y)
    ensures x[1] < y[1] || (x[1] == y[1] && x[2] <= y[2])
  {
    assert Less(x[1..], y[1..]);
    assert x[1..][0] == x[1] && y[1..][0] == y[1];
    if x[1] == y[1] {
      assert Less(x[1..][1..], y[1..][1..]);
      assert x[1..][1..][0] == x[2] && y[1..][1..][0] == y[2];
    }
  }

  function BootRank(phase: BootPhase): nat {
    match phase
    case BootPlanned => 0
    case PostgresStarted => 1
    case FreshnessVerified => 2
    case SchemaStarted => 3
    case SchemaCompleted => 4
    case BootHeadsVerified => 5
    case BootCommitted => 6
    case BootFailed => 6
    case BootRequiresRecovery => 6
  }

  // ---------------------------------------------------------------- config-only rollout

  datatype ConfigPhase =
    | ConfigPlanned | Activating | Stabilizing | ConfigCommitted
    | RollbackStarted | RolledBack | RollbackFailed | ConfigFailed

  predicate ConfigLegal(from: ConfigPhase, to: ConfigPhase) {
    match from
    case ConfigPlanned => to == Activating || to == ConfigFailed
    case Activating => to == Stabilizing || to == RollbackStarted
    case Stabilizing => to == ConfigCommitted || to == RollbackStarted
    case RollbackStarted => to == RolledBack || to == RollbackFailed
    case ConfigCommitted => false
    case RolledBack => false
    case RollbackFailed => false
    case ConfigFailed => false
  }

  function ConfigRank(phase: ConfigPhase): nat {
    match phase
    case ConfigPlanned => 0
    case Activating => 1
    case Stabilizing => 2
    case RollbackStarted => 3
    case ConfigCommitted => 4
    case RolledBack => 4
    case RollbackFailed => 4
    case ConfigFailed => 4
  }

  // ---------------------------------------------------------------- application deployment
  // One log may use the main table and, on a failed first deployment, the cleanup table.

  datatype DeployPhase =
    | DeployPlanned | InitializingStorage | ActivatingApp | AppHealthy | ActivatingGateway
    | DeployStabilizing | DeployCommitted | DeployFailed | DeployRollbackStarted
    | DeployRolledBack | DeployRollbackFailed | CleanupStarted | Cleaned

  predicate DeployLegal(from: DeployPhase, to: DeployPhase) {
    match from
    case DeployPlanned => to == InitializingStorage || to == ActivatingApp || to == DeployFailed
    case InitializingStorage => to == ActivatingApp || to == DeployFailed
    case ActivatingApp => to == AppHealthy || to == DeployRollbackStarted || to == CleanupStarted
    case AppHealthy => to == ActivatingGateway || to == DeployRollbackStarted || to == CleanupStarted
    case ActivatingGateway => to == DeployStabilizing || to == DeployRollbackStarted || to == CleanupStarted
    case DeployStabilizing => to == DeployCommitted || to == DeployRollbackStarted || to == CleanupStarted
    case DeployRollbackStarted => to == DeployRolledBack || to == DeployRollbackFailed
    case CleanupStarted => to == Cleaned
    case Cleaned => to == DeployFailed
    case DeployCommitted => false
    case DeployFailed => false
    case DeployRolledBack => false
    case DeployRollbackFailed => false
  }

  function DeployRank(phase: DeployPhase): nat {
    match phase
    case DeployPlanned => 0
    case InitializingStorage => 1
    case ActivatingApp => 2
    case AppHealthy => 3
    case ActivatingGateway => 4
    case DeployStabilizing => 5
    case DeployRollbackStarted => 6
    case CleanupStarted => 6
    case Cleaned => 7
    case DeployCommitted => 8
    case DeployFailed => 8
    case DeployRolledBack => 8
    case DeployRollbackFailed => 8
  }

  /** No journal can hold ten thousand events: every table is acyclic, and its logs are at most this long. */
  lemma LogsAreShort(m: seq<Phase>, b: seq<BootPhase>, c: seq<ConfigPhase>, d: seq<DeployPhase>)
    requires IsPath(m) && EventLog.IsPathOf(b, BootPlanned, BootLegal)
    requires EventLog.IsPathOf(c, ConfigPlanned, ConfigLegal) && EventLog.IsPathOf(d, DeployPlanned, DeployLegal)
    ensures |m| <= 11 && |b| <= 7 && |c| <= 5 && |d| <= 9
  {
    EventLog.PathIsShort(m, Planned, Legal, Rank, 10);
    EventLog.PathIsShort(b, BootPlanned, BootLegal, BootRank, 6);
    EventLog.PathIsShort(c, ConfigPlanned, ConfigLegal, ConfigRank, 4);
    EventLog.PathIsShort(d, DeployPlanned, DeployLegal, DeployRank, 8);
  }

  // A phase that occurred ranks below the last one, or is it.
  lemma {:induction false} RankBelowLast(log: seq<Phase>, phase: Phase)
    requires IsPath(log) && phase in log
    ensures phase == log[|log| - 1] || Rank(phase) < Rank(log[|log| - 1])
  {
    var n := |log| - 1;
    assert log == log[..n] + [log[n]];
    if phase != log[n] { RankBelowLast(log[..n], phase); }
  }

  /** Ranks only rise along a migration log, so a phase once left is never entered again. */
  lemma {:induction false} NeverEnteredAgain(log: seq<Phase>, i: nat, k: nat)
    requires IsPath(log) && i < k < |log|
    ensures Rank(log[i]) < Rank(log[k]) && log[i] != log[k]
  {
    var n := |log| - 1;
    if k < n {
      NeverEnteredAgain(log[..n], i, k);
    } else {
      assert Legal(log[..n][n - 1], log[n]);
      if i < n - 1 { NeverEnteredAgain(log[..n], i, n - 1); }
    }
  }
}
