/**
 The executable protocol state with 8-bit masks for its sets, for any identity counts the
 masks can hold, and its agreement with the set-valued protocol.
 */
module BitProtocol {
  import opened Wrappers
  import opened Capabilities
  import S = SetProtocol

  type u8 = n: int | 0 <= n < 256

  /** How many file and ticket identities there are; a mask of that many ones must fit 8 bits. */
  datatype Sizes = Sizes(files: nat, tickets: nat) {
    predicate Fit() { files < 8 && tickets < 8 }
  }

  datatype ProtocolAction =
    | ClaimBy(principal: Principal)
    | MintTicket(principal: Principal, ticket: u8)
    | RedeemTicket(principal: Principal, ticket: u8)
    | Declare(principal: Principal, file: u8)
    | FinishUpload(principal: Principal, file: u8)
    | Download(principal: Principal, file: u8)
    | CancelBy(principal: Principal)
    | Expire

  datatype TransitionError = Unauthorized | Conflict | OutsideFiniteDomain

  datatype ProtocolState = ProtocolState(
    status: TunnelStatus,
    pairingAvailable: bool,
    phoneIssued: bool,
    issued: bv8,
    active: bv8,
    declared: bv8,
    available: bv8,
    downloaded: bv8)

  function Initial(): ProtocolState {
    ProtocolState(Waiting, true, false, 0, 0, 0, 0, 0)
  }

  function ShiftOne(index: nat): bv8
    requires index < 8
  {
    (1 as bv8) << index
  }

  function DomainMask(count: nat): bv8
    requires count < 8
  {
    ShiftOne(count) - 1
  }

  function DomainBit(index: u8, count: nat): Result<bv8, TransitionError>
    requires count < 8
  {
    if index >= count then Failure(OutsideFiniteDomain) else Success(ShiftOne(index))
  }

  predicate Bounded(mask: bv8, count: nat)
    requires count < 8
  {
    mask & !DomainMask(count) == 0
  }

  predicate SetsAreBounded(n: Sizes, s: ProtocolState)
    requires n.Fit()
  {
    && Bounded(s.declared, n.files) && Bounded(s.available, n.files) && Bounded(s.downloaded, n.files)
    && Bounded(s.issued, n.tickets) && Bounded(s.active, n.tickets)
  }

  predicate Within(mask: bv8, other: bv8) {
    mask & !other == 0
  }

  predicate InvariantsHold(n: Sizes, s: ProtocolState)
    requires n.Fit()
  {
    && SetsAreBounded(n, s)
    && Within(s.available, s.declared) && Within(s.downloaded, s.available)
    && Within(s.active, s.issued)
    && s.pairingAvailable != s.phoneIssued
    && match s.status
       case Waiting => !s.phoneIssued
       case Connected => s.phoneIssued
       case Transferring => s.phoneIssued
       case Complete =>
         s.phoneIssued && s.declared != 0 && s.downloaded == s.declared && s.active == 0
       case Cancelled => true
       case Expired => true
  }

  function Authorize(s: ProtocolState, principal: Principal, operation: Operation): Result<(), TransitionError> {
    var capabilityExists :=
      match principal
      case PairingSecret => s.pairingAvailable
      case Desktop => true
      case Phone => s.phoneIssued
      case EventTicket => true;
    if capabilityExists && Permits(s.status, principal, operation) then Success(()) else Failure(Unauthorized)
  }

  predicate Has(mask: bv8, bit: bv8) { mask & bit != 0 }

  function With(mask: bv8, bit: bv8): bv8 { mask | bit }

  function Without(mask: bv8, bit: bv8): bv8 { mask & !bit }

  function Require(condition: bool): Result<(), TransitionError> {
    if condition then Success(()) else Failure(Conflict)
  }

  type Verdict = Result<ProtocolState, TransitionError>

  function Exchange(s: ProtocolState, principal: Principal): Verdict {
    var _ :- Authorize(s, principal, Claim);
    var _ :- Require(s.pairingAvailable && !s.phoneIssued);
    Success(s.(pairingAvailable := false, phoneIssued := true, status := Connected))
  }

  function Mint(n: Sizes, s: ProtocolState, principal: Principal, ticket: u8): Verdict
    requires n.Fit()
  {
    var _ :- Authorize(s, principal, MintEventTicket);
    var bit :- DomainBit(ticket, n.tickets);
    var _ :- Require(!Has(s.issued, bit));
    Success(s.(issued := With(s.issued, bit), active := With(s.active, bit)))
  }

  function Redeem(n: Sizes, s: ProtocolState, principal: Principal, ticket: u8): Verdict
    requires n.Fit()
  {
    var _ :- Authorize(s, principal, RedeemEventTicket);
    var bit :- DomainBit(ticket, n.tickets);
    var _ :- Require(Has(s.active, bit));
    Success(s.(active := Without(s.active, bit)))
  }

  function AddFile(n: Sizes, s: ProtocolState, principal: Principal, file: u8): Verdict
    requires n.Fit()
  {
    var _ :- Authorize(s, principal, DeclareFile);
    var bit :- DomainBit(file, n.files);
    var _ :- Require(!Has(s.declared, bit));
    Success(s.(declared := With(s.declared, bit)))
  }

  function Finish(n: Sizes, s: ProtocolState, principal: Principal, file: u8): Verdict
    requires n.Fit()
  {
    var _ :- Authorize(s, principal, UploadFile);
    var bit :- DomainBit(file, n.files);
    var _ :- Require(Has(s.declared, bit) && !Has(s.available, bit));
    Success(s.(available := With(s.available, bit), status := Transferring))
  }

  function Fetch(n: Sizes, s: ProtocolState, principal: Principal, file: u8): Verdict
    requires n.Fit()
  {
    var _ :- Authorize(s, principal, DownloadFile);
    var bit :- DomainBit(file, n.files);
    var _ :- Require(Has(s.available, bit) && !Has(s.downloaded, bit));
    var downloaded := With(s.downloaded, bit);
    if downloaded == s.declared then
      Success(s.(downloaded := downloaded, status := Complete, active := 0))
    else
      Success(s.(downloaded := downloaded))
  }

  function Close(s: ProtocolState, principal: Principal): Verdict {
    var _ :- Authorize(s, principal, Cancel);
    Success(s.(status := Cancelled, active := 0))
  }

  function TimeOut(s: ProtocolState): Verdict {
    var _ :- Require(!S.IsTerminal(s.status));
    Success(s.(status := Expired, active := 0))
  }

  /** The next state, or the reason there is none. */
  function Transition(n: Sizes, s: ProtocolState, action: ProtocolAction): Verdict
    requires n.Fit()
  {
    match action
    case ClaimBy(principal) => Exchange(s, principal)
    case MintTicket(principal, ticket) => Mint(n, s, principal, ticket)
    case RedeemTicket(principal, ticket) => Redeem(n, s, principal, ticket)
    case Declare(principal, file) => AddFile(n, s, principal, file)
    case FinishUpload(principal, file) => Finish(n, s, principal, file)
    case Download(principal, file) => Fetch(n, s, principal, file)
    case CancelBy(principal) => Close(s, principal)
    case Expire => TimeOut(s)
  }

  /** The state as callers hold it, updated in place. */
  class ProtocolCell {
    var status: TunnelStatus
    var pairingAvailable: bool
    var phoneIssued: bool
    var issued: bv8
    var active: bv8
    var declared: bv8
    var available: bv8
    var downloaded: bv8

    ghost function Value(): ProtocolState
      reads this
    {
      ProtocolState(status, pairingAvailable, phoneIssued, issued, active, declared, available, downloaded)
    }

    constructor ()
      ensures Value() == Initial()
    {
      status, pairingAvailable, phoneIssued := Waiting, true, false;
      issued, active, declared, available, downloaded := 0, 0, 0, 0, 0;
    }

    function AuthorizeHere(principal: Principal, operation: Operation): (r: Result<(), TransitionError>)
      reads this
      ensures r == Authorize(Value(), principal, operation)
    {
      Authorize(ProtocolState(status, pairingAvailable, phoneIssued, issued, active, declared, available, downloaded),
                principal, operation)
    }

    /** In place as by value: a success stores the next state, a rejection changes nothing. */
    static ghost predicate Applied(before: ProtocolState, verdict: Verdict,
                                   r: Result<(), TransitionError>, after: ProtocolState)
    {
      match verdict
      case Success(next) => r == Success(()) && after == next
      case Failure(e) => r == Failure(e) && after == before
    }

    method Apply(n: Sizes, action: ProtocolAction) returns (r: Result<(), TransitionError>)
      requires n.Fit()
      modifies this
      ensures Applied(old(Value()), Transition(n, old(Value()), action), r, Value())
    {
      match action
      case ClaimBy(principal) => r := ApplyClaim(n, principal);
      case MintTicket(principal, ticket) => r := ApplyMint(n, principal, ticket);
      case RedeemTicket(principal, ticket) => r := ApplyRedeem(n, principal, ticket);
      case Declare(principal, file) => r := ApplyDeclare(n, principal, file);
      case FinishUpload(principal, file) => r := ApplyFinish(n, principal, file);
      case Download(principal, file) => r := ApplyDownload(n, principal, file);
      case CancelBy(principal) => r := ApplyCancel(n, principal);
      case Expire => r := ApplyExpire(n);
    }

    /** Exchanges the pairing secret. */
    method ApplyClaim(n: Sizes, principal: Principal) returns (r: Result<(), TransitionError>)
      requires n.Fit()
      modifies this
      ensures Applied(old(Value()), Exchange(old(Value()), principal), r, Value())
    {
      var _ :- AuthorizeHere(principal, Claim);
      if !pairingAvailable || phoneIssued {
        return Failure(Conflict);
      }
      pairingAvailable := false;
      phoneIssued := true;
      status := Connected;
      return Success(());
    }

    /** Issues a ticket identity. */
    method ApplyMint(n: Sizes, principal: Principal, ticket: u8) returns (r: Result<(), TransitionError>)
      requires n.Fit()
      modifies this
      ensures Applied(old(Value()), Mint(n, old(Value()), principal, ticket), r, Value())
    {
      var _ :- AuthorizeHere(principal, MintEventTicket);
      var bit :- DomainBit(ticket, n.tickets);
      if Has(issued, bit) {
        return Failure(Conflict);
      }
      issued := With(issued, bit);
      active := With(active, bit);
      return Success(());
    }

    /** Spends a ticket. */
    method ApplyRedeem(n: Sizes, principal: Principal, ticket: u8) returns (r: Result<(), TransitionError>)
      requires n.Fit()
      modifies this
      ensures Applied(old(Value()), Redeem(n, old(Value()), principal, ticket), r, Value())
    {
      var _ :- AuthorizeHere(principal, RedeemEventTicket);
      var bit :- DomainBit(ticket, n.tickets);
      if !Has(active, bit) {
        return Failure(Conflict);
      }
      active := Without(active, bit);
      return Success(());
    }

    /** Declares a file identity. */
    method ApplyDeclare(n: Sizes, principal: Principal, file: u8) returns (r: Result<(), TransitionError>)
      requires n.Fit()
      modifies this
      ensures Applied(old(Value()), AddFile(n, old(Value()), principal, file), r, Value())
    {
      var _ :- AuthorizeHere(principal, DeclareFile);
      var bit :- DomainBit(file, n.files);
      if Has(declared, bit) {
        return Failure(Conflict);
      }
      declared := With(declared, bit);
      return Success(());
    }

    /** Makes a declared file available. */
    method ApplyFinish(n: Sizes, principal: Principal, file: u8) returns (r: Result<(), TransitionError>)
      requires n.Fit()
      modifies this
      ensures Applied(old(Value()), Finish(n, old(Value()), principal, file), r, Value())
    {
      var _ :- AuthorizeHere(principal, UploadFile);
      var bit :- DomainBit(file, n.files);
      if !Has(declared, bit) || Has(available, bit) {
        return Failure(Conflict);
      }
      available := With(available, bit);
      status := Transferring;
      return Success(());
    }

    /** Downloads an available file, completing the tunnel with the last one. */
    method ApplyDownload(n: Sizes, principal: Principal, file: u8) returns (r: Result<(), TransitionError>)
      requires n.Fit()
      modifies this
      ensures Applied(old(Value()), Fetch(n, old(Value()), principal, file), r, Value())
    {
      var _ :- AuthorizeHere(principal, DownloadFile);
      var bit :- DomainBit(file, n.files);
      if !Has(available, bit) || Has(downloaded, bit) {
        return Failure(Conflict);
      }
      downloaded := With(downloaded, bit);
      if downloaded == declared {
        status := Complete;
        active := 0;
      }
      return Success(());
    }

    /** Cancels the tunnel. */
    method ApplyCancel(n: Sizes, principal: Principal) returns (r: Result<(), TransitionError>)
      requires n.Fit()
      modifies this
      ensures Applied(old(Value()), Close(old(Value()), principal), r, Value())
    {
      var _ :- AuthorizeHere(principal, Cancel);
      status := Cancelled;
      active := 0;
      return Success(());
    }

    /** Ends a tunnel whose time is over. */
    method ApplyExpire(n: Sizes) returns (r: Result<(), TransitionError>)
      requires n.Fit()
      modifies this
      ensures Applied(old(Value()), TimeOut(old(Value())), r, Value())
    {
      if S.IsTerminal(status) {
        return Failure(Conflict);
      }
      status := Expired;
      active := 0;
      return Success(());
    }
  }

  // --------------------------------------------------------------- bits and sets

  predicate OneHot(b: bv8) {
    b == 1 || b == 2 || b == 4 || b == 8 || b == 16 || b == 32 || b == 64 || b == 128
  }

  lemma ShiftTable()
    ensures ShiftOne(0) == 1 && ShiftOne(1) == 2 && ShiftOne(2) == 4 && ShiftOne(3) == 8
    ensures ShiftOne(4) == 16 && ShiftOne(5) == 32 && ShiftOne(6) == 64 && ShiftOne(7) == 128
  {
  }

  lemma ShiftIsOneHot(i: nat, j: nat)
    requires i < 8 && j < 8
    ensures OneHot(ShiftOne(i)) && OneHot(ShiftOne(j))
    ensures ShiftOne(i) == ShiftOne(j) <==> i == j
    ensures ShiftOne(i) <= ShiftOne(j) <==> i <= j
  {
    ShiftTable();
  }

  lemma OneHotUpdates(m: bv8, a: bv8, b: bv8)
    requires OneHot(a) && OneHot(b)
    ensures Has(With(m, a), b) <==> Has(m, b) || a == b
    ensures Has(Without(m, a), b) <==> Has(m, b) && a != b
  {
  }

  lemma OneHotBounds(m: bv8, a: bv8, b: bv8)
    requires OneHot(a) && OneHot(b) && m & !(a - 1) == 0
    ensures a <= b ==> !Has(m, b)
    ensures b < a ==> With(m, b) & !(a - 1) == 0
    ensures Without(m, b) & !(a - 1) == 0
  {
  }

  function Decode(mask: bv8, count: nat): set<nat>
    requires count < 8
  {
    set i: nat | i < count && Has(mask, ShiftOne(i))
  }

  lemma SubsetByBits(m: bv8, n: bv8)
    ensures m & !n == 0 <==>
      && (m & 1 != 0 ==> n & 1 != 0) && (m & 2 != 0 ==> n & 2 != 0)
      && (m & 4 != 0 ==> n & 4 != 0) && (m & 8 != 0 ==> n & 8 != 0)
      && (m & 16 != 0 ==> n & 16 != 0) && (m & 32 != 0 ==> n & 32 != 0)
      && (m & 64 != 0 ==> n & 64 != 0) && (m & 128 != 0 ==> n & 128 != 0)
    ensures m & !n == 0 && n & !m == 0 ==> m == n
    ensures m & !0 == 0 <==> m == 0
  {
  }

  lemma BitIsMembership(m: bv8, count: nat, i: nat)
    requires count < 8 && i < 8 && Bounded(m, count)
    ensures Has(m, ShiftOne(i)) <==> i in Decode(m, count)
  {
    ShiftIsOneHot(count, i);
    OneHotBounds(m, ShiftOne(count), ShiftOne(i));
  }

  lemma SubsetIsFaithful(m: bv8, n: bv8, count: nat)
    requires count < 8 && Bounded(m, count) && Bounded(n, count)
    ensures Within(m, n) <==> Decode(m, count) <= Decode(n, count)
  {
    ShiftTable();
    SubsetByBits(m, n);
    forall i: nat | i < 8
      ensures Has(m, ShiftOne(i)) <==> i in Decode(m, count)
      ensures Has(n, ShiftOne(i)) <==> i in Decode(n, count)
    {
      BitIsMembership(m, count, i);
      BitIsMembership(n, count, i);
    }
  }

  lemma NothingDecodes(count: nat)
    requires count < 8
    ensures Bounded(0, count) && Decode(0, count) == {}
  {
  }

  /** Bounded masks are faithful pictures of their sets. */
  lemma DecodeIsFaithful(m: bv8, n: bv8, count: nat)
    requires count < 8 && Bounded(m, count) && Bounded(n, count)
    ensures Within(m, n) <==> Decode(m, count) <= Decode(n, count)
    ensures m == n <==> Decode(m, count) == Decode(n, count)
    ensures m == 0 <==> Decode(m, count) == {}
  {
    SubsetIsFaithful(m, n, count);
    SubsetIsFaithful(n, m, count);
    SubsetByBits(m, n);
    NothingDecodes(count);
    SubsetIsFaithful(m, 0, count);
    SubsetByBits(m, 0);
  }

  lemma UpdatesStayBounded(m: bv8, count: nat, i: nat)
    requires i < count < 8 && Bounded(m, count)
    ensures Bounded(With(m, ShiftOne(i)), count) && Bounded(Without(m, ShiftOne(i)), count)
  {
    ShiftIsOneHot(i, count);
    OneHotBounds(m, ShiftOne(count), ShiftOne(i));
  }

  /** Reading, setting and clearing one bit of a mask is membership, insertion and removal. */
  lemma BitOperations(m: bv8, count: nat, i: nat)
    requires i < count < 8
    ensures Has(m, ShiftOne(i)) <==> i in Decode(m, count)
    ensures Decode(With(m, ShiftOne(i)), count) == Decode(m, count) + {i}
    ensures Decode(Without(m, ShiftOne(i)), count) == Decode(m, count) - {i}
  {
    hide Has, With, Without, ShiftOne;
    forall j: nat | j < count
      ensures Has(With(m, ShiftOne(i)), ShiftOne(j)) <==> Has(m, ShiftOne(j)) || i == j
      ensures Has(Without(m, ShiftOne(i)), ShiftOne(j)) <==> Has(m, ShiftOne(j)) && i != j
    {
      ShiftIsOneHot(i, j);
      OneHotUpdates(m, ShiftOne(i), ShiftOne(j));
    }
  }

  // ------------------------------------------------- agreement with the set protocol

  function Below(count: nat): (r: set<nat>)
    ensures forall i: nat :: i in r <==> i < count
  {
    if count == 0 then {} else Below(count - 1) + {count - 1}
  }

  function DomainOf(n: Sizes): S.Domain {
    S.Domain(Below(n.files), Below(n.tickets))
  }

  function DecodeState(n: Sizes, s: ProtocolState): S.SetState
    requires n.Fit()
  {
    S.SetState(s.status, s.pairingAvailable, s.phoneIssued,
               Decode(s.issued, n.tickets), Decode(s.active, n.tickets),
               Decode(s.declared, n.files), Decode(s.available, n.files), Decode(s.downloaded, n.files))
  }

  /** Nothing is available before the first finished upload, which sets Transferring. */
  predicate QuietBeforeTransfer(s: ProtocolState) {
    s.status.Waiting? || s.status.Connected? ==> s.available == 0
  }

  predicate Good(n: Sizes, s: ProtocolState)
    requires n.Fit()
  {
    InvariantsHold(n, s) && QuietBeforeTransfer(s)
  }

  function MintAction(principal: Principal, ticket: nat): S.Action {
    if principal.Desktop? then S.MintForDesktop(ticket) else S.MintForPhone(ticket)
  }

  function FetchAction(n: Sizes, s: ProtocolState, file: nat): S.Action
    requires n.Fit()
  {
    if Decode(s.downloaded, n.files) + {file} == Decode(s.declared, n.files)
    then S.DownloadLast(file) else S.DownloadPartial(file)
  }

  /** The set-valued action that an executable action stands for in a state. */
  function ActionOf(n: Sizes, s: ProtocolState, action: ProtocolAction): S.Action
    requires n.Fit()
  {
    match action
    case ClaimBy(_) => S.ClaimTunnel
    case MintTicket(principal, t) => MintAction(principal, t)
    case RedeemTicket(_, t) => S.Redeem(t)
    case Declare(_, f) => S.Declare(f)
    case FinishUpload(_, f) => S.FinishUpload(f)
    case Download(_, f) => FetchAction(n, s, f)
    case CancelBy(_) => S.CancelTunnel
    case Expire => S.Expire
  }

  /** The only capability scopes each action is meant for. */
  predicate MeantFor(action: ProtocolAction) {
    match action
    case ClaimBy(p) => p.PairingSecret?
    case MintTicket(p, _) => p.Desktop? || p.Phone?
    case RedeemTicket(p, _) => p.EventTicket?
    case Declare(p, _) => p.Phone?
    case FinishUpload(p, _) => p.Phone?
    case Download(p, _) => p.Desktop?
    case CancelBy(p) => p.Desktop?
    case Expire => true
  }

  lemma NothingOutside(m: bv8, count: nat, i: nat)
    requires count <= i && count < 8
    ensures i !in Decode(m, count)
  {
  }

  /**
   A verdict on masks against a set-valued action: success exactly when the action is enabled
   and asked for by the right principal, with the same next state and bounded masks.
   */
  ghost predicate Mirrors(n: Sizes, s: ProtocolState, verdict: Verdict, meant: bool, a: S.Action)
    requires n.Fit()
  {
    && (verdict.Success? <==> meant && S.Enabled(DomainOf(n), DecodeState(n, s), a))
    && (verdict.Success? ==> DecodeState(n, verdict.value) == S.Next(DecodeState(n, s), a)
                             && SetsAreBounded(n, verdict.value))
  }

  lemma MintAgrees(n: Sizes, s: ProtocolState, principal: Principal, ticket: u8)
    requires n.Fit() && SetsAreBounded(n, s)
    ensures Mirrors(n, s, Mint(n, s, principal, ticket), principal.Desktop? || principal.Phone?,
                    MintAction(principal, ticket))
  {
    hide Decode, Has, With, Without, ShiftOne, Bounded;
    if ticket < n.tickets {
      BitOperations(s.issued, n.tickets, ticket);
      BitOperations(s.active, n.tickets, ticket);
      UpdatesStayBounded(s.issued, n.tickets, ticket);
      UpdatesStayBounded(s.active, n.tickets, ticket);
    }
  }

  lemma RedeemAgrees(n: Sizes, s: ProtocolState, principal: Principal, ticket: u8)
    requires n.Fit() && SetsAreBounded(n, s)
    ensures Mirrors(n, s, Redeem(n, s, principal, ticket), principal.EventTicket?, S.Redeem(ticket))
  {
    hide Decode, Has, With, Without, ShiftOne, Bounded;
    if ticket < n.tickets {
      BitOperations(s.active, n.tickets, ticket);
      UpdatesStayBounded(s.active, n.tickets, ticket);
    } else {
      NothingOutside(s.active, n.tickets, ticket);
    }
  }

  lemma DeclareAgrees(n: Sizes, s: ProtocolState, principal: Principal, file: u8)
    requires n.Fit() && SetsAreBounded(n, s)
    ensures Mirrors(n, s, AddFile(n, s, principal, file), principal.Phone?, S.Declare(file))
  {
    hide Decode, Has, With, Without, ShiftOne, Bounded;
    if file < n.files {
      BitOperations(s.declared, n.files, file);
      UpdatesStayBounded(s.declared, n.files, file);
    }
  }

  lemma FinishAgrees(n: Sizes, s: ProtocolState, principal: Principal, file: u8)
    requires n.Fit() && SetsAreBounded(n, s)
    ensures Mirrors(n, s, Finish(n, s, principal, file), principal.Phone?, S.FinishUpload(file))
  {
    hide Decode, Has, With, Without, ShiftOne, Bounded;
    if file < n.files {
      BitOperations(s.declared, n.files, file);
      BitOperations(s.available, n.files, file);
      UpdatesStayBounded(s.available, n.files, file);
    } else {
      NothingOutside(s.declared, n.files, file);
    }
  }

  /** One more downloaded bit, in sets. */
  lemma DownloadedBits(n: Sizes, s: ProtocolState, file: u8)
    requires n.Fit() && SetsAreBounded(n, s) && file < n.files
    ensures var downloaded := With(s.downloaded, ShiftOne(file));
            && Bounded(downloaded, n.files)
            && Decode(downloaded, n.files) == Decode(s.downloaded, n.files) + {file as nat}
            && (downloaded == s.declared <==> Decode(downloaded, n.files) == Decode(s.declared, n.files))
    ensures Has(s.downloaded, ShiftOne(file)) <==> file as nat in Decode(s.downloaded, n.files)
    ensures Has(s.available, ShiftOne(file)) <==> file as nat in Decode(s.available, n.files)
  {
    hide Decode, Has, With, Without, ShiftOne, Bounded, Within;
    BitOperations(s.available, n.files, file);
    BitOperations(s.downloaded, n.files, file);
    UpdatesStayBounded(s.downloaded, n.files, file);
    DecodeIsFaithful(With(s.downloaded, ShiftOne(file)), s.declared, n.files);
  }

  lemma DownloadSucceeds(n: Sizes, s: ProtocolState, principal: Principal, file: u8)
    requires n.Fit() && SetsAreBounded(n, s)
    ensures Fetch(n, s, principal, file).Success? <==>
            principal.Desktop? && IsOpen(s.status) && file as nat in Decode(s.available, n.files)
            && file as nat !in Decode(s.downloaded, n.files)
    ensures Fetch(n, s, principal, file).Success? ==>
              file < n.files
              && Fetch(n, s, principal, file).value ==
                 var downloaded := With(s.downloaded, ShiftOne(file));
                 if downloaded == s.declared then s.(downloaded := downloaded, status := Complete, active := 0)
                 else s.(downloaded := downloaded)
  {
    hide Decode, Has, With, ShiftOne, SetsAreBounded;
    if file < n.files {
      DownloadedBits(n, s, file);
    } else {
      NothingOutside(s.available, n.files, file);
    }
  }

  /**
   A download that succeeds, is not the last one, and starts in Connected: it stays there, where
   the set protocol moves on to Transferring.
   */
  predicate PhasesPart(n: Sizes, s: ProtocolState, principal: Principal, file: u8)
    requires n.Fit()
  {
    && principal.Desktop? && s.status.Connected?
    && file as nat in Decode(s.available, n.files) && file as nat !in Decode(s.downloaded, n.files)
    && Decode(s.downloaded, n.files) + {file as nat} != Decode(s.declared, n.files)
  }

  /** Exactly those downloads are the ones that differ from their set-valued action. */
  lemma DownloadAgrees(n: Sizes, s: ProtocolState, principal: Principal, file: u8)
    requires n.Fit() && SetsAreBounded(n, s)
    ensures Mirrors(n, s, Fetch(n, s, principal, file), principal.Desktop?, FetchAction(n, s, file))
            <==> !PhasesPart(n, s, principal, file)
  {
    hide Fetch, Decode, Has, With, Without, ShiftOne, Bounded, Within;
    NothingDecodes(n.tickets);
    NothingDecodes(n.files);
    DownloadSucceeds(n, s, principal, file);
    if file < n.files {
      DownloadedBits(n, s, file);
    }
  }

  /** While nothing is available before Transferring, no download differs. */
  lemma QuietNeverParts(n: Sizes, s: ProtocolState, principal: Principal, file: u8)
    requires n.Fit() && SetsAreBounded(n, s) && QuietBeforeTransfer(s)
    ensures !PhasesPart(n, s, principal, file)
  {
    hide Bounded;
    NothingDecodes(n.files);
  }

  lemma PhaseChangesAgree(n: Sizes, s: ProtocolState, principal: Principal)
    requires n.Fit() && SetsAreBounded(n, s)
    ensures Mirrors(n, s, Exchange(s, principal), principal.PairingSecret?, S.ClaimTunnel)
    ensures Mirrors(n, s, Close(s, principal), principal.Desktop?, S.CancelTunnel)
    ensures Mirrors(n, s, TimeOut(s), true, S.Expire)
  {
    hide Decode, Bounded;
    NothingDecodes(n.tickets);
  }

  /** The scope is the one meant for the action, its capability was issued, and the phase allows it. */
  predicate MayAct(s: ProtocolState, action: ProtocolAction) {
    match action
    case ClaimBy(p) => p.PairingSecret? && s.pairingAvailable && s.status.Waiting?
    case MintTicket(p, _) => (p.Desktop? || (p.Phone? && s.phoneIssued)) && !S.IsTerminal(s.status)
    case RedeemTicket(p, _) => p.EventTicket? && !S.IsTerminal(s.status)
    case Declare(p, _) => p.Phone? && s.phoneIssued && IsOpen(s.status)
    case FinishUpload(p, _) => p.Phone? && s.phoneIssued && IsOpen(s.status)
    case Download(p, _) => p.Desktop? && IsOpen(s.status)
    case CancelBy(p) => p.Desktop? && !S.IsTerminal(s.status)
    case Expire => true
  }

  predicate IsOutside(n: Sizes, action: ProtocolAction) {
    match action
    case MintTicket(_, ticket) => ticket >= n.tickets
    case RedeemTicket(_, ticket) => ticket >= n.tickets
    case Declare(_, file) => file >= n.files
    case FinishUpload(_, file) => file >= n.files
    case Download(_, file) => file >= n.files
    case _ => false
  }

  /** A rejection tells of the capability first, then of the identity, and else of a conflict. */
  lemma RejectionsAreExact(n: Sizes, s: ProtocolState, action: ProtocolAction)
    requires n.Fit()
    ensures var verdict := Transition(n, s, action);
            && (verdict == Failure(Unauthorized) <==> !MayAct(s, action))
            && (verdict == Failure(OutsideFiniteDomain) <==> MayAct(s, action) && IsOutside(n, action))
            && (verdict.Failure? && MayAct(s, action) && !IsOutside(n, action) ==> verdict == Failure(Conflict))
  {
    hide Has, With, Without, ShiftOne;
  }

  /** The transition leaves a phase that its set-valued action does not. */
  predicate Parts(n: Sizes, s: ProtocolState, action: ProtocolAction)
    requires n.Fit()
  {
    action.Download? && PhasesPart(n, s, action.principal, action.file)
  }

  /**
   Decoding commutes with a transition, accepted or rejected, if and only if it is not a partial
   download in Connected.
   */
  lemma MasksAgreeWithSets(n: Sizes, s: ProtocolState, action: ProtocolAction)
    requires n.Fit() && SetsAreBounded(n, s)
    ensures Mirrors(n, s, Transition(n, s, action), MeantFor(action), ActionOf(n, s, action)) <==> !Parts(n, s, action)
  {
    hide Mirrors, SetsAreBounded, PhasesPart, Exchange, Mint, Redeem, AddFile, Finish, Fetch, Close, TimeOut;
    match action
    case MintTicket(principal, ticket) => MintAgrees(n, s, principal, ticket);
    case RedeemTicket(principal, ticket) => RedeemAgrees(n, s, principal, ticket);
    case Declare(principal, file) => DeclareAgrees(n, s, principal, file);
    case FinishUpload(principal, file) => FinishAgrees(n, s, principal, file);
    case Download(principal, file) => DownloadAgrees(n, s, principal, file);
    case ClaimBy(principal) => PhaseChangesAgree(n, s, principal);
    case CancelBy(principal) => PhaseChangesAgree(n, s, principal);
    case Expire => PhaseChangesAgree(n, s, Desktop);
  }

  /** Before the first finished upload nothing is available, and then every transition agrees. */
  lemma QuietStatesAgree(n: Sizes, s: ProtocolState, action: ProtocolAction)
    requires n.Fit() && SetsAreBounded(n, s) && QuietBeforeTransfer(s)
    ensures Mirrors(n, s, Transition(n, s, action), MeantFor(action), ActionOf(n, s, action))
  {
    hide Mirrors, SetsAreBounded, QuietBeforeTransfer, PhasesPart, Transition, ActionOf, MeantFor;
    MasksAgreeWithSets(n, s, action);
    if action.Download? {
      QuietNeverParts(n, s, action.principal, action.file);
    }
  }

  /** The invariants alone do not exclude such a download; no script reaches a state that has one. */
  lemma QuietIsNeeded()
    ensures var n, s := Sizes(2, 2), ProtocolState(Connected, false, true, 0, 0, 3, 1, 0);
            && InvariantsHold(n, s) && Parts(n, s, Download(Desktop, 0))
            && Transition(n, s, Download(Desktop, 0)).Success?
            && DecodeState(n, Transition(n, s, Download(Desktop, 0)).value) !=
               S.Next(DecodeState(n, s), FetchAction(n, s, 0))
  {
    ShiftTable();
    assert 0 in Decode(1, 2) && 1 in Decode(3, 2) && 1 !in Decode(0, 2);
  }

  /** The executable action that offers a set-valued one. */
  function OfferOf(a: S.Action): ProtocolAction
    requires a != S.Idle
    requires match a
             case MintForDesktop(t) => t < 256
             case MintForPhone(t) => t < 256
             case Redeem(t) => t < 256
             case Declare(f) => f < 256
             case FinishUpload(f) => f < 256
             case DownloadPartial(f) => f < 256
             case DownloadLast(f) => f < 256
             case _ => true
  {
    match a
    case ClaimTunnel => ClaimBy(PairingSecret)
    case MintForDesktop(t) => MintTicket(Desktop, t)
    case MintForPhone(t) => MintTicket(Phone, t)
    case Redeem(t) => RedeemTicket(EventTicket, t)
    case Declare(f) => Declare(Phone, f)
    case FinishUpload(f) => FinishUpload(Phone, f)
    case DownloadPartial(f) => Download(Desktop, f)
    case DownloadLast(f) => Download(Desktop, f)
    case CancelTunnel => CancelBy(Desktop)
    case Expire => Expire
  }

  /** Conversely, whatever else the sets allow, some executable action does. */
  lemma SetsAreOffered(n: Sizes, s: ProtocolState, a: S.Action)
    returns (action: ProtocolAction)
    requires n.Fit() && SetsAreBounded(n, s) && !(a.DownloadPartial? && s.status.Connected?)
    requires a != S.Idle && S.Enabled(DomainOf(n), DecodeState(n, s), a)
    ensures MeantFor(action) && Transition(n, s, action).Success?
    ensures DecodeState(n, Transition(n, s, action).value) == S.Next(DecodeState(n, s), a)
  {
    hide Transition, Decode, SetsAreBounded;
    DecodedIdsAreSmall(n, s);
    action := OfferOf(a);
    MasksAgreeWithSets(n, s, action);
  }

  /** A partial download in Connected is the one thing the sets do and no executable action does. */
  lemma PartialDownloadsAreNotOffered(n: Sizes, s: ProtocolState, a: S.Action, action: ProtocolAction)
    requires n.Fit() && SetsAreBounded(n, s) && a.DownloadPartial? && s.status.Connected?
    requires S.Enabled(DomainOf(n), DecodeState(n, s), a)
    ensures Transition(n, s, action).Success? ==>
              DecodeState(n, Transition(n, s, action).value) != S.Next(DecodeState(n, s), a)
  {
    hide Decode, Bounded, Has, With, Without, ShiftOne;
    assert a.file in S.Next(DecodeState(n, s), a).downloaded && a.file !in Decode(s.downloaded, n.files);
  }

  lemma DecodedIdsAreSmall(n: Sizes, s: ProtocolState)
    requires n.Fit()
    ensures forall i | i in Decode(s.declared, n.files) || i in Decode(s.available, n.files) :: i < 8
    ensures forall i | i in Decode(s.active, n.tickets) :: i < 8
  {
  }

  /** What the mask invariants say about the sets. */
  predicate SetForm(s: S.SetState) {
    && s.downloaded <= s.available <= s.declared && s.active <= s.issued
    && S.CapabilityExchangeIsAtomic(s)
    && (s.phase.Waiting? ==> !s.phoneIssued)
    && (IsOpen(s.phase) || s.phase.Complete? ==> s.phoneIssued)
    && (s.phase.Complete? ==> s.declared != {} && s.downloaded == s.declared && s.active == {})
  }

  predicate QuietForm(s: S.SetState) {
    s.phase.Waiting? || s.phase.Connected? ==> s.available == {}
  }

  lemma ActionsKeepForm(d: S.Domain, s: S.SetState, a: S.Action)
    requires SetForm(s) && S.Enabled(d, s, a)
    ensures SetForm(S.Next(s, a)) && (QuietForm(s) ==> QuietForm(S.Next(s, a)))
  {
  }

  lemma InvariantsAreSetFacts(n: Sizes, s: ProtocolState)
    requires n.Fit() && SetsAreBounded(n, s)
    ensures InvariantsHold(n, s) <==> SetForm(DecodeState(n, s))
    ensures QuietBeforeTransfer(s) <==> QuietForm(DecodeState(n, s))
  {
    hide Decode, Bounded;
    DecodeIsFaithful(s.available, s.declared, n.files);
    DecodeIsFaithful(s.downloaded, s.available, n.files);
    DecodeIsFaithful(s.downloaded, s.declared, n.files);
    DecodeIsFaithful(s.declared, s.declared, n.files);
    DecodeIsFaithful(s.active, s.issued, n.tickets);
  }

  /** A download that the set protocol follows keeps the invariants. */
  lemma QuietTransitionKeepsInvariants(n: Sizes, s: ProtocolState, action: ProtocolAction)
    requires n.Fit() && InvariantsHold(n, s) && Transition(n, s, action).Success?
    requires !Parts(n, s, action)
    ensures InvariantsHold(n, Transition(n, s, action).value)
    ensures QuietBeforeTransfer(s) ==> QuietBeforeTransfer(Transition(n, s, action).value)
  {
    var next := Transition(n, s, action).value;
    assert SetsAreBounded(n, s);
    hide InvariantsHold, Transition, DecodeState, ActionOf, MeantFor, SetsAreBounded, QuietBeforeTransfer;
    hide SetForm, QuietForm, S.Enabled, S.Next;
    MasksAgreeWithSets(n, s, action);
    InvariantsAreSetFacts(n, s);
    InvariantsAreSetFacts(n, next);
    ActionsKeepForm(DomainOf(n), DecodeState(n, s), ActionOf(n, s, action));
  }

  /** Downloads do not look at which of the two open phases they run in. */
  lemma DownloadIgnoresPhase(n: Sizes, s: ProtocolState, principal: Principal, file: u8)
    requires n.Fit() && Fetch(n, s, principal, file).Success?
    ensures var moving := s.(status := Transferring);
            && IsOpen(s.status)
            && Fetch(n, moving, principal, file).Success?
            && var next, other := Fetch(n, s, principal, file).value, Fetch(n, moving, principal, file).value;
            next == (if other.status.Complete? then other else other.(status := s.status))
  {
    hide Has, With, ShiftOne;
  }

  /** The invariants survive every accepted transition from any state that has them. */
  lemma TransitionKeepsInvariants(n: Sizes, s: ProtocolState, action: ProtocolAction)
    requires n.Fit() && InvariantsHold(n, s) && Transition(n, s, action).Success?
    ensures InvariantsHold(n, Transition(n, s, action).value)
    ensures QuietBeforeTransfer(s) ==> QuietBeforeTransfer(Transition(n, s, action).value)
  {
    if action.Download? && !QuietBeforeTransfer(s) {
      var moving := s.(status := Transferring);
      DownloadIgnoresPhase(n, s, action.principal, action.file);
      assert InvariantsHold(n, moving);
      QuietTransitionKeepsInvariants(n, moving, action);
      var other := Transition(n, moving, action).value;
      hide Fetch, Bounded;
      assert other.status.Transferring? || other.status.Complete?;
    } else {
      QuietTransitionKeepsInvariants(n, s, action);
    }
  }

  lemma GoodIsBounded(n: Sizes, s: ProtocolState)
    requires n.Fit() && Good(n, s)
    ensures SetsAreBounded(n, s)
  {
  }

  /** The state after a script of actions, in which rejected ones change nothing. */
  function RunScript(n: Sizes, script: seq<ProtocolAction>): ProtocolState
    requires n.Fit()
  {
    if script == [] then Initial()
    else
      var s := RunScript(n, script[..|script| - 1]);
      match Transition(n, s, script[|script| - 1])
      case Success(next) => next
      case Failure(_) => s
  }

  /** Every script of actions, by anyone, about any identity, follows a path of the set protocol. */
  lemma {:induction false} EveryScriptRefines(n: Sizes, script: seq<ProtocolAction>)
    returns (path: seq<S.Action>)
    requires n.Fit()
    ensures Good(n, RunScript(n, script))
    ensures S.Path(DomainOf(n), S.Initial(), path, DecodeState(n, RunScript(n, script)))
    ensures S.Safe(DomainOf(n), DecodeState(n, RunScript(n, script)))
  {
    if script == [] {
      NothingDecodes(n.files);
      NothingDecodes(n.tickets);
      path := [];
    } else {
      path := EveryScriptRefines(n, script[..|script| - 1]);
      var s, action := RunScript(n, script[..|script| - 1]), script[|script| - 1];
      if Transition(n, s, action).Success? {
        GoodIsBounded(n, s);
        QuietStatesAgree(n, s, action);
        TransitionKeepsInvariants(n, s, action);
        var a, t := ActionOf(n, s, action), DecodeState(n, RunScript(n, script));
        assert S.Path(DomainOf(n), DecodeState(n, s), [a], t);
        S.PathConcat(DomainOf(n), S.Initial(), path, DecodeState(n, s), [a], t);
        path := path + [a];
      }
    }
    S.SafetyForEveryDomain(DomainOf(n), path, DecodeState(n, RunScript(n, script)));
  }
}
