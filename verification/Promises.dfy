/** What the service promises for each request, without regard to how it works: in terms of the request's own fields and of
    one ledger state, with the numbers of the wire format written out. */
module Promises {
  import opened Wrappers
  import opened TigerBeetle
  import opened AccountModel
  import opened Ledger
  import opened Timeouts
  import opened Requests

  // ----- Settings -----

  predicate Permitted(settings: Settings) {
    && 1 <= settings.ledgerID <= 4_294_967_295
    && 1_000_000_000 <= settings.authorizationTimeout <= 4_294_967_295_000_000_000
    && 1 <= settings.riskLimit <= 18_446_744_073_709_551_615
    && 0 <= settings.cacheSize <= 10_000_000
  }

  // ----- Which requests are invalid -----

  predicate Usable(id: Id) {
    1 <= id <= 0xffff_ffff_ffff_ffff_ffff_ffff_ffff_fffe
  }

  /** Accounts 1 and 2 belong to the service. */
  predicate Ordinary(id: Id) {
    Usable(id) && id != 1 && id != 2
  }

  predicate Malformed(request: Request) {
    match request
    case Provision => false
    case OpenAccount(account, kind, parent) =>
      || !Ordinary(account)
      || !(|| (kind == CorporateWallet && parent == None)
           || (kind == CardWallet && parent.Some? && Ordinary(parent.value) && parent.value != account))
    case ReadBalance(account) => !Usable(account)
    case TopUp(id, account, amount) => !Usable(id) || !Ordinary(account) || amount == 0
    case Withdraw(id, account, amount) => !Usable(id) || !Ordinary(account) || amount == 0
    case MoveFunds(id, account, card, amount, _) =>
      !Usable(id) || !Ordinary(account) || !Ordinary(card) || amount == 0
    case Authorize(id, card, _, _, amount) => !Usable(id) || !Ordinary(card) || amount == 0
    case IncrementAuthorization(id, authorization, amount) =>
      !Usable(id) || !Usable(authorization) || id == authorization || amount == 0
  }

  // ----- Which requests are refused -----

  predicate Corporate(s: State, id: Id) {
    id in s.accounts && s.accounts[id].code == 2001
  }

  predicate Card(s: State, id: Id) {
    id in s.accounts && s.accounts[id].code == 2002
  }

  function RefusalOf(settings: Settings, request: Request, s: State): Option<Error> {
    if Malformed(request) then Some(InvalidRequest)
    else match request
      case Provision => if 1 in s.accounts && s.accounts[1].ledger != settings.ledgerID then Some(ProvisioningFailed) else None
      case OpenAccount(_, _, parent) =>
        if parent.Some? && !Corporate(s, parent.value) then Some(AccountNotFound) else None
      case ReadBalance(account) => if account !in s.accounts then Some(AccountNotFound) else None
      case TopUp(_, account, _) => if !Corporate(s, account) then Some(AccountNotFound) else None
      case Withdraw(_, account, _) => if !Corporate(s, account) then Some(AccountNotFound) else None
      case MoveFunds(_, account, card, _, _) =>
        if !Corporate(s, account) || !Card(s, card) then Some(AccountNotFound)
        else if s.accounts[card].userData128 != account then Some(InvalidRequest)
        else None
      case Authorize(_, card, _, _, _) => if !Card(s, card) then Some(AccountNotFound) else None
      case IncrementAuthorization(_, authorization, _) =>
        if authorization !in s.transfers then Some(AuthorizationNotFound) else None
  }

  // ----- The transfer that a request stands for -----

  /** Field by field, all but the ledger number, the timeout and the timestamp. */
  predicate Spells(request: Request, s: State, t: Transfer) {
    && request.MovesMoney()
    && t.id == request.id && t.amount == request.amount && t.pendingID == 0 && t.flags.rest == 0
    && (match request
        case TopUp(_, account, _) => t.code == 1001 && t.debit == 1 && t.credit == account && Bare(t)
        case Withdraw(_, account, _) => t.code == 1002 && t.debit == account && t.credit == 1 && Bare(t)
        case MoveFunds(_, account, card, _, back) =>
          && t.code == (if back then 1202 else 1201)
          && t.debit == (if back then card else account) && t.credit == (if back then account else card) && Bare(t)
        case Authorize(id, card, merchant64, merchant32, _) =>
          && t.code == 1101 && t.debit == card && t.credit == 2 && t.flags.pending
          && t.userData128 == id && t.userData64 == merchant64 && t.userData32 == merchant32
        case IncrementAuthorization(_, authorization, _) =>
          && authorization in s.transfers
          && var original := s.transfers[authorization];
             && t.code == 1102 && t.debit == original.debit && t.credit == 2 && t.flags.pending
             && t.userData128 == authorization
             && t.userData64 == original.userData64 && t.userData32 == original.userData32)
  }

  /** A posted transfer carries no group, no fingerprint and no timeout. */
  predicate Bare(t: Transfer) {
    !t.flags.pending && t.userData128 == 0 && t.userData64 == 0 && t.userData32 == 0 && t.timeout == 0
  }

  /** The least whole number of seconds that covers the configured timeout. */
  function HoldSeconds(settings: Settings): int {
    (settings.authorizationTimeout + 999_999_999) / 1_000_000_000
  }

  /** The transfer of the request on a service with these settings; an increment's timeout is left open. */
  predicate Matches(settings: Settings, request: Request, s: State, t: Transfer) {
    && Spells(request, s, t) && t.ledger == settings.ledgerID
    && (request.Authorize? ==> t.timeout == HoldSeconds(settings))
  }

  // ----- The answers -----

  const TOO_MUCH := Reply(Declined, None, 0, None, RiskLimitExceeded, 200)
  const CLOSED := Reply(Declined, None, 0, None, AuthorizationNotOpen, 409)
  const BURNT := Reply(Rejected, Some(TransferIDAlreadyFailed), 0, None, PreviousAttemptFailed, 409)

  function Success(settings: Settings, request: Request, status: TransferStatus, timestamp: nat): Response {
    if request.Authorize? then
      Reply(Approved, Some(status), timestamp, Some(timestamp + HoldSeconds(settings) * 1_000_000_000), NoCode, 200)
    else
      Reply(if request.IncrementAuthorization? then Approved else Posted, Some(status), timestamp, None, NoCode, 200)
  }

  function Poor(request: Request): Response {
    if request.Authorize? || request.IncrementAuthorization?
    then Reply(Declined, Some(TransferExceedsCredits), 0, None, InsufficientFunds, 200)
    else Reply(Rejected, Some(TransferExceedsCredits), 0, None, InsufficientFunds, 422)
  }

  /** What is available on the wallet that the request draws on falls short of its amount. */
  predicate Short(request: Request, s: State) {
    match request
    case Withdraw(_, account, amount) => Lacks(s, account, amount)
    case MoveFunds(_, account, card, amount, back) => Lacks(s, if back then card else account, amount)
    case Authorize(_, card, _, _, amount) => Lacks(s, card, amount)
    case IncrementAuthorization(_, authorization, amount) =>
      authorization in s.transfers && Lacks(s, s.transfers[authorization].debit, amount)
    case _ => false
  }

  predicate Lacks(s: State, wallet: Id, amount: nat) {
    && wallet in s.accounts
    && amount > s.accounts[wallet].creditsPosted - s.accounts[wallet].debitsPosted - s.accounts[wallet].debitsPending
  }

  /** An earlier attempt decides, if there was one. */
  function Recalled(settings: Settings, request: Request, s: State, otherwise: Response): Response
    requires request.MovesMoney()
  {
    if request.id !in s.transfers then otherwise
    else if Matches(settings, request, s, s.transfers[request.id])
    then Success(settings, request, TransferExists, s.transfers[request.id].timestamp)
    else Refused(IdempotencyConflict)
  }

  function Verdict(settings: Settings, request: Request, s: State): Response
    requires request.MovesMoney()
  {
    if request.id in s.failed then BURNT
    else Recalled(settings, request, s,
                  if Short(request, s) then Poor(request) else Success(settings, request, TransferCreated, s.clock + 1))
  }

  /** Cash is a debit balance; every other account is a credit balance less what is held on it. */
  function StatementOf(row: Account): Response {
    if row.code == 1001 then
      var posted := row.debitsPosted - row.creditsPosted;
      Balance(Metadata(SafeguardedCash, row.userData128), posted, posted - row.creditsPending, row)
    else
      var posted := row.creditsPosted - row.debitsPosted;
      var kind := if row.code == 2001 then CorporateWallet else if row.code == 2002 then CardWallet else CardSettlementPayable;
      Balance(Metadata(kind, row.userData128), posted, posted - row.debitsPending, row)
  }

  /** The answer to a request, on one ledger state and one clock reading. */
  function Expected(settings: Settings, request: Request, s: State, now: int): Response {
    var refusal := RefusalOf(settings, request, s);
    if refusal.Some? then Refused(refusal.value)
    else match request
      case Provision => Provisioned
      case OpenAccount(account, kind, parent) =>
        if account !in s.accounts then AccountReady(true, s.clock + 1)
        else if && s.accounts[account].code == (if kind == CardWallet then 2002 else 2001)
                && s.accounts[account].userData128 == (if parent.Some? then parent.value else 0)
        then AccountReady(false, s.accounts[account].timestamp)
        else Refused(IdempotencyConflict)
      case ReadBalance(account) => StatementOf(s.accounts[account])
      case Authorize(_, _, _, _, amount) =>
        if amount > settings.riskLimit then Recalled(settings, request, s, TOO_MUCH) else Verdict(settings, request, s)
      case IncrementAuthorization(_, authorization, amount) =>
        if s.transfers[authorization].code != 1101 then CLOSED
        else if amount > settings.riskLimit then Recalled(settings, request, s, TOO_MUCH)
        else if now >= ExpiryAt(s.transfers[authorization]) then Recalled(settings, request, s, CLOSED)
        else Verdict(settings, request, s)
      case _ => Verdict(settings, request, s)
  }

  function ExpiryAt(t: Transfer): int {
    t.timestamp + t.timeout * 1_000_000_000
  }

  // ----- The effects -----

  /** The timeout of the transfer that the request stores. */
  function TimeoutOf(settings: Settings, request: Request, s: State, now: int): int {
    match request
    case Authorize(_, _, _, _, _) => HoldSeconds(settings)
    case IncrementAuthorization(_, authorization, _) =>
      if authorization in s.transfers && now < ExpiryAt(s.transfers[authorization]) then
        var left := ReadSeconds(ExpiryAt(s.transfers[authorization]), now);
        if left < s.transfers[authorization].timeout then left else s.transfers[authorization].timeout
      else 0
    case _ => 0
  }

  /** What a request that gets the answer `r` does to the ledger: a new success commits its transfer, lack of funds burns
      its ID, a new account is stored, and everything else changes nothing. */
  predicate Effect(settings: Settings, request: Request, s: State, s': State, r: Response, now: int) {
    match r
    case AccountReady(created, _) =>
      request.OpenAccount? && s' == if created then Opened(settings, request, s) else s
    case Reply(_, status, _, _, _, _) =>
      && request.MovesMoney()
      && (if status == Some(TransferCreated) then
            && request.id !in s.transfers && request.id in s'.transfers
            && var t := s'.transfers[request.id];
               && Matches(settings, request, s, t) && t.timeout == TimeoutOf(settings, request, s, now)
               && t.timestamp == s.clock + 1
               && t.debit in s.accounts && t.credit in s.accounts && s' == Commit(s, t)
          else if status == Some(TransferExceedsCredits) then s' == s.(failed := s.failed + {request.id})
          else s' == s)
    case _ => s' == s
  }

  function Opened(settings: Settings, request: Request, s: State): State
    requires request.OpenAccount?
  {
    var row := Account(request.account, 0, 0, 0, 0, if request.parent.Some? then request.parent.value else 0, 0, 0,
                       settings.ledgerID, if request.kind == CardWallet then 2002 else 2001,
                       AccountFlags(true, false, 0), s.clock + 1);
    s.(accounts := s.accounts[request.account := row], clock := s.clock + 1)
  }

  // ----- Provisioning -----

  function WithRow(s: State, row: Account): State {
    if row.id in s.accounts then s
    else s.(accounts := s.accounts[row.id := row.(timestamp := s.clock + 1)], clock := s.clock + 1)
  }

  /** The ledger after both system accounts have been provisioned, cash first. */
  function ProvisionedState(settings: Settings, s: State): State {
    var cash := Account(1, 0, 0, 0, 0, 0, 0, 0, settings.ledgerID, 1001, AccountFlags(false, true, 0), 0);
    var settlement := Account(2, 0, 0, 0, 0, 0, 0, 0, settings.ledgerID, 2003, AccountFlags(true, false, 0), 0);
    WithRow(WithRow(s, cash), settlement)
  }

  // ----- The cache -----

  /** The account that a request checks or reads last. */
  function LastAccount(request: Request, s: State): Id {
    match request
    case Provision => 2
    case OpenAccount(account, _, _) => account
    case ReadBalance(account) => account
    case TopUp(_, account, _) => account
    case Withdraw(_, account, _) => account
    case MoveFunds(_, _, card, _, _) => card
    case Authorize(_, card, _, _, _) => card
    case IncrementAuthorization(_, authorization, _) =>
      if authorization in s.transfers then s.transfers[authorization].debit else 0
  }
}
