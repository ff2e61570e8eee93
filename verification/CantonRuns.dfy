/** Transactions and runs of the Canton ledger. */
module CantonRuns {
  import opened Outcomes
  import opened CantonLedger
  import G = CantonGateway

  datatype TokenChoice =
    | DoIssue(issuer: Cid, owner: Party, amount: int)
    | DoBurn(cid: Cid)
    | DoSplit(registry: Registry, cid: Cid, amount: int)
    | DoMerge(registry: Registry, cid: Cid, other: Cid)
    | DoAllocate(rules: Cid, args: AllocateArgs)
    | DoExecute(cid: Cid)
    | DoCancel(cid: Cid)
    | DoWithdraw(cid: Cid)

  datatype TradeChoice =
    | DoAccept(cid: Cid, approver: Party)
    | DoReject(cid: Cid, rejector: Party)
    | DoInitiate(cid: Cid)
    | DoSettle(cid: Cid, supplied: seq<Supplied>)
    | DoRejectRequest(cid: Cid, actor: Party)
    | DoWithdrawRequest(cid: Cid)

  datatype BridgeChoice =
    | DoMint(cid: Cid, first: Cid, second: Cid)
    | DoRedeem(cid: Cid, args: G.RedeemArgs)
    | DoBind(cid: Cid, seller: Party, venue: Party, trade: string)
    | DoRecordTreasury(cid: Cid, treasury: string)
    | DoRecordPayment(cid: Cid, payment: Cid)

  /** One submitted transaction and the parties it is submitted for, or the passing of time. */
  datatype Event =
    | Passing(elapsed: nat)
    | Token(token: TokenChoice, authority: set<Party>)
    | Dvp(dvp: TradeChoice, authority: set<Party>)
    | Bridge(bridge: BridgeChoice, authority: set<Party>)
    | Publishing(contract: Contract, authority: set<Party>)
    | Revoking(cid: Cid, authority: set<Party>)

  function TokenStep(s: State, c: TokenChoice, authority: set<Party>): Result<State, Error> {
    match c
    case DoIssue(issuer, owner, amount) => Issue(s, issuer, owner, amount, authority)
    case DoBurn(cid) => Burn(s, cid, authority)
    case DoSplit(registry, cid, amount) => Split(s, registry, cid, amount, authority)
    case DoMerge(registry, cid, other) => Merge(s, registry, cid, other, authority)
    case DoAllocate(rules, args) => Allocate(s, rules, args, authority)
    case DoExecute(cid) => Execute(s, cid, authority)
    case DoCancel(cid) => Cancel(s, cid, authority)
    case DoWithdraw(cid) => Withdraw(s, cid, authority)
  }

  function TradeStep(s: State, c: TradeChoice, authority: set<Party>): Result<State, Error> {
    match c
    case DoAccept(cid, approver) => Accept(s, cid, approver, authority)
    case DoReject(cid, rejector) => Reject(s, cid, rejector, authority)
    case DoInitiate(cid) => Initiate(s, cid, authority)
    case DoSettle(cid, supplied) => Settle(s, cid, supplied, authority)
    case DoRejectRequest(cid, actor) => RejectRequest(s, cid, actor, authority)
    case DoWithdrawRequest(cid) => WithdrawRequest(s, cid, authority)
  }

  function BridgeStep(s: State, c: BridgeChoice, authority: set<Party>): Result<State, Error> {
    match c
    case DoMint(cid, first, second) => G.Mint(s, cid, first, second, authority)
    case DoRedeem(cid, args) => G.Redeem(s, cid, args, authority)
    case DoBind(cid, seller, venue, trade) => G.Bind(s, cid, seller, venue, trade, authority)
    case DoRecordTreasury(cid, treasury) => G.RecordTreasury(s, cid, treasury, authority)
    case DoRecordPayment(cid, payment) => G.RecordPayment(s, cid, payment, authority)
  }

  function Step(s: State, e: Event): Result<State, Error> {
    match e
    case Passing(elapsed) => Ok(s.(now := s.now + elapsed))
    case Token(c, authority) => TokenStep(s, c, authority)
    case Dvp(c, authority) => TradeStep(s, c, authority)
    case Bridge(c, authority) => BridgeStep(s, c, authority)
    case Publishing(contract, authority) => Publish(s, contract, authority)
    case Revoking(cid, authority) => Revoke(s, cid, authority)
  }

  /** A transaction that fails leaves the ledger as it was. */
  function After(s: State, e: Event): State {
    match Step(s, e)
    case Ok(t) => t
    case Err(_) => s
  }

  function Run(s: State, events: seq<Event>): State
    decreases |events|
  {
    if events == [] then s else After(Run(s, events[..|events| - 1]), events[|events| - 1])
  }
}
