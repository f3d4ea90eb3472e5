/** Accounts and what an account diff does to one: in a ledger, in the stored best ledger,
    and when a block is unapplied there. */
module Accounts {

  datatype Option<+T> = None | Some(value: T)

  type PublicKey = string
  type TokenAddress = string
  type Username = string

  const MINA_TOKEN: TokenAddress := "wSHV2S4qX9jFsLjQo8r1BsMLH2ZRKsZx6EJd1sbozGPieEC4Jf"
  const NO_APP_STATE := "0x0000000000000000000000000000000000000000000000000000000000000000"
  const NO_ACTION_STATE := "0x3772BC5435B957F81F86F752E93F2E29E886AC24580B3D1EC879C1DAD26965F9"
  const MAX_NONCE: nat := 0xFFFF_FFFF

  /** `other` stands for the fields that no diff writes. */
  datatype Zkapp = Zkapp(
    appState: seq<string>,
    actionState: seq<string>,
    verificationKey: string,
    proved: bool,
    uri: string,
    other: string)

  /** No diff writes the username; `other` stands for the other fields that none writes. */
  datatype Account = Account(
    publicKey: PublicKey,
    balance: nat,
    delegate: PublicKey,
    nonce: Option<nat>,
    token: Option<TokenAddress>,
    permissions: Option<string>,
    timing: Option<string>,
    tokenSymbol: Option<string>,
    votingFor: Option<string>,
    zkapp: Option<Zkapp>,
    username: Option<Username>,
    other: string)

  function EmptyAccount(pk: PublicKey, token: TokenAddress): Account {
    Account(pk, 0, pk, None, Some(token), None, None, None, None, None, None, "")
  }

  datatype UpdateType = Credit | Debit(nonce: Option<nat>)

  datatype AccountDiff =
    | Payment(publicKey: PublicKey, token: TokenAddress, amount: nat, update: UpdateType)
    | FeeTransfer(publicKey: PublicKey, amount: nat, update: UpdateType)
    | FeeTransferViaCoinbase(publicKey: PublicKey, amount: nat, update: UpdateType)
    | Coinbase(publicKey: PublicKey, amount: nat)
    | Delegation(publicKey: PublicKey, delegate: PublicKey, newNonce: nat)
    | FailedTransactionNonce(publicKey: PublicKey, newNonce: nat)
    | ZkappState(publicKey: PublicKey, proved: bool, states: seq<Option<string>>)
    | ZkappVerificationKey(publicKey: PublicKey, proved: bool, key: string)
    | ZkappUri(publicKey: PublicKey, proved: bool, uri: string)
    | ZkappPermissions(publicKey: PublicKey, permissions: string)
    | ZkappTokenSymbol(publicKey: PublicKey, symbol: string)
    | ZkappTiming(publicKey: PublicKey, timing: string)
    | ZkappVotingFor(publicKey: PublicKey, votingFor: string)
    | ZkappActions(publicKey: PublicKey, proved: bool, actions: seq<string>)
    | ZkappEvents(publicKey: PublicKey, events: seq<string>)
    | ZkappIncrementNonce(publicKey: PublicKey)
    | ZkappAccountCreationFee(publicKey: PublicKey, amount: nat)

  /** Only a payment names its token; every other diff is filed under the default one. */
  function TokenOf(d: AccountDiff): TokenAddress {
    if d.Payment? then d.token else MINA_TOKEN
  }

  // ------------------------------------------------------------- the account steps

  function SaturatingSub(a: nat, b: nat): nat {
    if b <= a then a - b else 0
  }

  function Paid(a: Account, amount: nat, update: UpdateType): Account {
    match update
    case Credit => a.(balance := a.balance + amount)
    case Debit(nonce) => a.(balance := SaturatingSub(a.balance, amount),
                            nonce := if nonce.Some? then nonce else a.nonce)
  }

  /** The zkapp part of an account, made up where it has none. */
  function ZkappOf(a: Account): Zkapp {
    if a.zkapp.Some? then a.zkapp.value
    else Zkapp(seq(8, _ => NO_APP_STATE), seq(5, _ => NO_ACTION_STATE), "", false, "", "")
  }

  function ProvedToo(z: Zkapp, proved: bool): Zkapp {
    z.(proved := z.proved || proved)
  }

  function WriteStates(states: seq<string>, updates: seq<Option<string>>): seq<string> {
    seq(|states|, i requires 0 <= i < |states| =>
          if i < |updates| && updates[i].Some? then updates[i].value else states[i])
  }

  /** Action `i` goes to slot `i` modulo the number of slots. */
  function WriteActions(slots: seq<string>, actions: seq<string>): (r: seq<string>)
    ensures |r| == |slots|
  {
    if slots == [] || actions == [] then slots
    else
      var last := |actions| - 1;
      WriteActions(slots, actions[..last])[last % |slots| := actions[last]]
  }

  /** What a diff writes to the zkapp part of an account: its state, verification key, URI or
      action slots. */
  function ZkappWritten(z: Zkapp, d: AccountDiff): Zkapp {
    match d
    case ZkappState(_, proved, states) => ProvedToo(z.(appState := WriteStates(z.appState, states)), proved)
    case ZkappVerificationKey(_, proved, key) => ProvedToo(z.(verificationKey := key), proved)
    case ZkappUri(_, proved, uri) => ProvedToo(z.(uri := uri), proved)
    case ZkappActions(_, proved, actions) => ProvedToo(z.(actionState := WriteActions(z.actionState, actions)), proved)
    case _ => z
  }

  predicate WritesZkapp(d: AccountDiff) {
    d.ZkappState? || d.ZkappVerificationKey? || d.ZkappUri?
  }

  /** What a diff does to the rest of the account. */
  function RestApplied(a: Account, d: AccountDiff): Account {
    match d
    case Payment(_, _, amount, update) => Paid(a, amount, update)
    case FeeTransfer(_, amount, update) => Paid(a, amount, update)
    case FeeTransferViaCoinbase(_, amount, update) => Paid(a, amount, update)
    case Coinbase(_, amount) => a.(balance := a.balance + amount)
    case Delegation(_, delegate, nonce) => a.(delegate := delegate, nonce := Some(nonce))
    case FailedTransactionNonce(_, nonce) => a.(nonce := Some(nonce))
    case ZkappPermissions(_, permissions) => a.(permissions := Some(permissions))
    case ZkappTokenSymbol(_, symbol) => a.(tokenSymbol := Some(symbol))
    case ZkappTiming(_, timing) => a.(timing := Some(timing))
    case ZkappVotingFor(_, votingFor) => a.(votingFor := Some(votingFor))
    case ZkappIncrementNonce(_) =>
      var nonce := if a.nonce.Some? then a.nonce.value else 0;
      a.(nonce := Some(if nonce < MAX_NONCE then nonce + 1 else MAX_NONCE))
    case ZkappAccountCreationFee(_, amount) => a.(balance := a.balance + amount)
    case _ => a
  }

  /** In a ledger: an actions diff writes the action slots, an events diff nothing. */
  function Applied(a: Account, d: AccountDiff): Account {
    if WritesZkapp(d) || d.ZkappActions? then a.(zkapp := Some(ZkappWritten(ZkappOf(a), d))) else RestApplied(a, d)
  }

  /** In the stored best ledger: an actions diff leaves the account as it is. */
  function BestApplied(a: Account, d: AccountDiff): Account {
    if d.ZkappActions? then a else Applied(a, d)
  }

  function NonceBefore(nonce: nat): nat {
    SaturatingSub(nonce, 1)
  }

  function Unpaid(a: Account, amount: nat, update: UpdateType): Account {
    match update
    case Credit => a.(balance := SaturatingSub(a.balance, amount))
    case Debit(nonce) =>
      a.(balance := a.balance + amount,
         nonce := if nonce.None? then a.nonce else if a.nonce == Some(0) then None else Some(NonceBefore(nonce.value)))
  }

  /** When a block is unapplied: payments, coinbases, delegations and failed transactions are
      taken back, and the zkapp diffs are left. */
  function Unapplied(a: Account, d: AccountDiff): Account {
    match d
    case Payment(_, _, amount, update) => Unpaid(a, amount, update)
    case FeeTransfer(_, amount, update) => Unpaid(a, amount, update)
    case FeeTransferViaCoinbase(_, amount, update) => Unpaid(a, amount, update)
    case Coinbase(_, amount) => a.(balance := SaturatingSub(a.balance, amount))
    case Delegation(_, _, nonce) =>
      a.(delegate := a.publicKey, nonce := if a.nonce == Some(0) then None else Some(NonceBefore(nonce)))
    case FailedTransactionNonce(_, nonce) => a.(nonce := if nonce > 0 then Some(NonceBefore(nonce)) else None)
    case _ => a
  }

  /** What a diff does to an account. */
  type Step = (Account, AccountDiff) -> Account

  /** Every account step of the indexer rebuilds the account around its public key. */
  ghost predicate KeepsKey(step: Step) {
    forall a, d :: step(a, d).publicKey == a.publicKey
  }

  lemma {:induction false} StepsKeepKey()
    ensures KeepsKey(Applied) && KeepsKey(BestApplied) && KeepsKey(Unapplied)
  {}

  // ------------------------------------------------------------ diffs of one account

  /** An account stepped through diffs of its own. */
  function FoldAccount(step: Step, a: Account, ds: seq<AccountDiff>): Account {
    if ds == [] then a else step(FoldAccount(step, a, ds[..|ds| - 1]), ds[|ds| - 1])
  }

  lemma {:induction false} FoldAccountSnoc(step: Step, a: Account, ds: seq<AccountDiff>, d: AccountDiff)
    ensures FoldAccount(step, a, ds + [d]) == step(FoldAccount(step, a, ds), d)
  {
    assert (ds + [d])[..|ds|] == ds;
  }
}
