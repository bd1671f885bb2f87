/**
 The abstract protocol: capability exchange, one-time tickets and file ordering as guarded
 updates of sets, over identity sets of any finite size.
 */
module SetProtocol {
  import opened Capabilities

  /** The file and ticket identities a run may use. */
  datatype Domain = Domain(files: set<nat>, tickets: set<nat>)

  datatype SetState = SetState(
    phase: TunnelStatus,
    pairingAvailable: bool,
    phoneIssued: bool,
    issued: set<nat>,
    active: set<nat>,
    declared: set<nat>,
    available: set<nat>,
    downloaded: set<nat>)

  datatype Action =
    | ClaimTunnel
    | MintForDesktop(ticket: nat)
    | MintForPhone(ticket: nat)
    | Redeem(ticket: nat)
    | Declare(file: nat)
    | FinishUpload(file: nat)
    | DownloadPartial(file: nat)
    | DownloadLast(file: nat)
    | CancelTunnel
    | Expire
    | Idle

  function Initial(): SetState {
    SetState(Waiting, true, false, {}, {}, {}, {}, {})
  }

  predicate IsTerminal(phase: TunnelStatus) {
    phase.Complete? || phase.Cancelled? || phase.Expired?
  }

  predicate Enabled(d: Domain, s: SetState, a: Action) {
    match a
    case ClaimTunnel => s.phase.Waiting? && s.pairingAvailable && !s.phoneIssued
    case MintForDesktop(t) => !IsTerminal(s.phase) && t in d.tickets && t !in s.issued
    case MintForPhone(t) => s.phoneIssued && !IsTerminal(s.phase) && t in d.tickets && t !in s.issued
    case Redeem(t) => !IsTerminal(s.phase) && t in s.active
    case Declare(f) => IsOpen(s.phase) && s.phoneIssued && f in d.files && f !in s.declared
    case FinishUpload(f) => IsOpen(s.phase) && s.phoneIssued && f in s.declared && f !in s.available
    case DownloadPartial(f) =>
      IsOpen(s.phase) && f in s.available && f !in s.downloaded && s.downloaded + {f} != s.declared
    case DownloadLast(f) =>
      IsOpen(s.phase) && f in s.available && f !in s.downloaded && s.downloaded + {f} == s.declared
    case CancelTunnel => !IsTerminal(s.phase)
    case Expire => !IsTerminal(s.phase)
    case Idle => true
  }

  function Next(s: SetState, a: Action): SetState {
    match a
    case ClaimTunnel => s.(phase := Connected, pairingAvailable := false, phoneIssued := true)
    case MintForDesktop(t) => s.(issued := s.issued + {t}, active := s.active + {t})
    case MintForPhone(t) => s.(issued := s.issued + {t}, active := s.active + {t})
    case Redeem(t) => s.(active := s.active - {t})
    case Declare(f) => s.(declared := s.declared + {f})
    case FinishUpload(f) => s.(phase := Transferring, available := s.available + {f})
    case DownloadPartial(f) => s.(phase := Transferring, downloaded := s.downloaded + {f})
    case DownloadLast(f) => s.(phase := Complete, downloaded := s.downloaded + {f}, active := {})
    case CancelTunnel => s.(phase := Cancelled, active := {})
    case Expire => s.(phase := Expired, active := {})
    case Idle => s
  }

  /** `actions` lead from `s` to `t`, each enabled when it is taken. */
  ghost predicate Path(d: Domain, s: SetState, actions: seq<Action>, t: SetState)
    decreases |actions|
  {
    if actions == [] then s == t
    else Enabled(d, s, actions[0]) && Path(d, Next(s, actions[0]), actions[1..], t)
  }

  // --------------------------------------------------------------------- safety

  predicate CapabilityExchangeIsAtomic(s: SetState) {
    s.pairingAvailable != s.phoneIssued
  }

  predicate TicketsAreOrdered(d: Domain, s: SetState) {
    s.active <= s.issued <= d.tickets
  }

  predicate FilesAreOrdered(d: Domain, s: SetState) {
    s.downloaded <= s.available <= s.declared <= d.files
  }

  predicate PhaseIsConsistent(s: SetState) {
    && (s.phase.Waiting? ==> !s.phoneIssued)
    && (IsOpen(s.phase) || s.phase.Complete? ==> s.phoneIssued)
    && (s.phase.Complete? ==> s.declared != {} && s.downloaded == s.declared)
    && (IsTerminal(s.phase) ==> s.active == {})
  }

  predicate Safe(d: Domain, s: SetState) {
    && CapabilityExchangeIsAtomic(s)
    && TicketsAreOrdered(d, s)
    && FilesAreOrdered(d, s)
    && PhaseIsConsistent(s)
  }

  lemma StepKeepsSafe(d: Domain, s: SetState, a: Action)
    requires Safe(d, s) && Enabled(d, s, a)
    ensures Safe(d, Next(s, a))
  {
  }

  lemma {:induction false} PathKeepsSafe(d: Domain, s: SetState, actions: seq<Action>, t: SetState)
    requires Safe(d, s) && Path(d, s, actions, t)
    ensures Safe(d, t)
    decreases |actions|
  {
    if actions != [] {
      StepKeepsSafe(d, s, actions[0]);
      PathKeepsSafe(d, Next(s, actions[0]), actions[1..], t);
    }
  }

  /** However many identities there are, every reachable state is safe. */
  lemma SafetyForEveryDomain(d: Domain, actions: seq<Action>, t: SetState)
    requires Path(d, Initial(), actions, t)
    ensures Safe(d, t)
  {
    PathKeepsSafe(d, Initial(), actions, t);
  }

  // ------------------------------------------------------- facts about whole runs

  lemma {:induction false} PathConcat(d: Domain, s: SetState, one: seq<Action>, t: SetState,
                                      two: seq<Action>, u: SetState)
    requires Path(d, s, one, t) && Path(d, t, two, u)
    ensures Path(d, s, one + two, u)
    decreases |one|
  {
    if one == [] {
      assert one + two == two;
    } else {
      PathConcat(d, Next(s, one[0]), one[1..], t, two, u);
      assert (one + two)[1..] == one[1..] + two;
    }
  }

  lemma {:induction false} PathKeepsDownloads(d: Domain, s: SetState, actions: seq<Action>, t: SetState)
    requires Path(d, s, actions, t)
    ensures s.downloaded <= t.downloaded && s.available <= t.available && s.declared <= t.declared
    ensures s.issued <= t.issued
    ensures s.phase == t.phase || !IsTerminal(s.phase)
    decreases |actions|
  {
    if actions != [] {
      PathKeepsDownloads(d, Next(s, actions[0]), actions[1..], t);
    }
  }

  /** The exchanges that must happen at most once in a run. */
  datatype Exchange = Claiming | Issuing(ticket: nat) | Redeeming(ticket: nat)

  predicate Performs(a: Action, e: Exchange) {
    match e
    case Claiming => a.ClaimTunnel?
    case Issuing(ticket) => a == MintForDesktop(ticket) || a == MintForPhone(ticket)
    case Redeeming(ticket) => a == Redeem(ticket)
  }

  function Count(actions: seq<Action>, e: Exchange): nat {
    if actions == [] then 0 else (if Performs(actions[0], e) then 1 else 0) + Count(actions[1..], e)
  }

  /** Whether an exchange can still happen. */
  predicate Outstanding(s: SetState, e: Exchange) {
    match e
    case Claiming => s.pairingAvailable
    case Issuing(ticket) => ticket !in s.issued
    case Redeeming(ticket) => ticket in s.active || ticket !in s.issued
  }

  /**
   Over a whole run the pairing secret is exchanged at most once, and each ticket identity is
   issued at most once and redeemed at most once.
   */
  lemma {:induction false} OneTimeOverRuns(d: Domain, s: SetState, actions: seq<Action>, t: SetState, e: Exchange)
    requires Safe(d, s) && Path(d, s, actions, t)
    ensures Count(actions, e) <= if Outstanding(s, e) then 1 else 0
    decreases |actions|
  {
    if actions != [] {
      StepKeepsSafe(d, s, actions[0]);
      OneTimeOverRuns(d, Next(s, actions[0]), actions[1..], t, e);
    }
  }

  // ---------------------------------------------------------------- reachability

  lemma StepThen(d: Domain, s: SetState, a: Action, path: seq<Action>, t: SetState)
    requires Enabled(d, s, a) && Path(d, Next(s, a), path, t)
    ensures Path(d, s, [a] + path, t)
  {
    assert ([a] + path)[1..] == path;
  }

  lemma {:induction false} DeclareAll(d: Domain, s: SetState, todo: set<nat>) returns (path: seq<Action>)
    requires IsOpen(s.phase) && s.phoneIssued && todo <= d.files && todo !! s.declared
    ensures Path(d, s, path, s.(declared := s.declared + todo))
    decreases todo
  {
    if todo == {} {
      assert s.declared + todo == s.declared;
      path := [];
    } else {
      var f :| f in todo;
      var next := Next(s, Declare(f));
      path := DeclareAll(d, next, todo - {f});
      assert next.declared + (todo - {f}) == s.declared + todo;
      StepThen(d, s, Declare(f), path, s.(declared := s.declared + todo));
      path := [Declare(f)] + path;
    }
  }

  lemma {:induction false} FinishAll(d: Domain, s: SetState, todo: set<nat>) returns (path: seq<Action>)
    requires s.phase.Transferring? && s.phoneIssued && todo <= s.declared - s.available
    ensures Path(d, s, path, s.(available := s.available + todo))
    decreases todo
  {
    if todo == {} {
      assert s.available + todo == s.available;
      path := [];
    } else {
      var f :| f in todo;
      var next := Next(s, FinishUpload(f));
      path := FinishAll(d, next, todo - {f});
      assert next.available + (todo - {f}) == s.available + todo;
      StepThen(d, s, FinishUpload(f), path, s.(available := s.available + todo));
      path := [FinishUpload(f)] + path;
    }
  }

  lemma {:induction false} DownloadAll(d: Domain, s: SetState, todo: set<nat>) returns (path: seq<Action>, t: SetState)
    requires s.phase.Transferring? && s.available == s.declared && s.downloaded + todo == s.declared
    requires todo !! s.downloaded && todo != {}
    ensures Path(d, s, path, t) && t.phase.Complete? && t.downloaded == s.declared == t.declared
    decreases todo
  {
    var f :| f in todo;
    if todo == {f} {
      t := Next(s, DownloadLast(f));
      StepThen(d, s, DownloadLast(f), [], t);
      path := [DownloadLast(f)];
    } else {
      var next := Next(s, DownloadPartial(f));
      assert todo - {f} != {};
      var g :| g in todo - {f};
      assert g in s.declared && g !in next.downloaded;
      path, t := DownloadAll(d, next, todo - {f});
      StepThen(d, s, DownloadPartial(f), path, t);
      path := [DownloadPartial(f)] + path;
    }
  }

  /** Safety is not bought by getting stuck: any nonempty set of files can be carried to completion. */
  lemma CompletionIsReachable(d: Domain, files: set<nat>) returns (path: seq<Action>, t: SetState)
    requires files != {} && files <= d.files
    ensures Path(d, Initial(), path, t) && t.phase.Complete? && t.downloaded == t.declared == files
  {
    var claimed := Next(Initial(), ClaimTunnel);
    var declaring := DeclareAll(d, claimed, files);
    var declared := claimed.(declared := files);
    assert claimed.declared + files == files;
    var first :| first in files;
    var started := Next(declared, FinishUpload(first));
    var finishing := FinishAll(d, started, files - {first});
    var finished := started.(available := files);
    assert started.available + (files - {first}) == files;
    var downloading;
    downloading, t := DownloadAll(d, finished, files);
    PathConcat(d, started, finishing, finished, downloading, t);
    StepThen(d, declared, FinishUpload(first), finishing + downloading, t);
    PathConcat(d, claimed, declaring, declared, [FinishUpload(first)] + (finishing + downloading), t);
    path := declaring + ([FinishUpload(first)] + (finishing + downloading));
    StepThen(d, Initial(), ClaimTunnel, path, t);
    path := [ClaimTunnel] + path;
  }
}
