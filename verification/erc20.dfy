/** The ERC-20 ledger contract (EIP-20 token semantics: transfer, approve, transferFrom,
    allowance). Storage is immutable data; every message is a function from the storage
    before the call to an `Exec` describing what the call leaves behind. The runtime's
    event sink is the `log` field, to which each message appends the events it emits. */
module Erc20Token {
  import opened Runtime
  import opened Store

  datatype Event =
    | TransferEvent(from: Option<AccountId>, to: Option<AccountId>, value: U128)
    | ApprovalEvent(owner: AccountId, spender: AccountId, value: U128)

  datatype Error = InsufficientBalance | InsufficientAllowance

  datatype Erc20 = Erc20(
    totalSupply: U128,
    balances: map<AccountId, U128>,
    allowances: map<(AccountId, AccountId), U128>,
    name: Option<string>,
    symbol: Option<string>,
    log: seq<Event>)

  /** What a message returns: the ledger's `Result<()>`, or a trap. */
  type Reply = Exec<Erc20, Result<(), Error>>

  /** Conservation: the balances add up to the total supply. */
  ghost predicate Conserved(s: Erc20) {
    Sum(s.balances) == s.totalSupply
  }

  /** The balance effect of a successful move of `value` from `from` to `to`: the two
      accounts are debited and credited (a self-move changes nothing), every other
      balance keeps its reading, and one `TransferEvent` is appended. */
  ghost predicate BalancesMoved(s: Erc20, t: Erc20, from: AccountId, to: AccountId, value: U128) {
    && t.totalSupply == s.totalSupply
    && t.name == s.name && t.symbol == s.symbol
    && (from != to ==>
          BalanceOf(t, from) == BalanceOf(s, from) - value && BalanceOf(t, to) == BalanceOf(s, to) + value)
    && (from == to ==> BalanceOf(t, from) == BalanceOf(s, from))
    && (forall a :: a != from && a != to ==> BalanceOf(t, a) == BalanceOf(s, a))
    && t.log == s.log + [TransferEvent(Some(from), Some(to), value)]
  }

  /** Constructor `new`: the whole supply is credited to the deploying caller and a
      mint event with no source is emitted. */
  function New(caller: AccountId, totalSupply: U128, name: Option<string>, symbol: Option<string>): (r: Erc20)
    ensures r.totalSupply == totalSupply
    ensures BalanceOf(r, caller) == totalSupply
    ensures forall a :: a != caller ==> BalanceOf(r, a) == 0
    ensures forall o, sp :: Allowance(r, o, sp) == 0
    ensures r.name == name && r.symbol == symbol
    ensures r.log == [TransferEvent(None, Some(caller), totalSupply)]
    ensures Conserved(r)
  {
    SumSingleton(caller, totalSupply);
    Erc20(totalSupply, map[caller := totalSupply], map[], name, symbol,
          [TransferEvent(None, Some(caller), totalSupply)])
  }

  /** Constructor `new_nameless`: `new` without name and symbol. */
  function NewNameless(caller: AccountId, totalSupply: U128): (r: Erc20)
    ensures r.name == None && r.symbol == None
    ensures r.totalSupply == totalSupply
    ensures BalanceOf(r, caller) == totalSupply
    ensures forall a :: a != caller ==> BalanceOf(r, a) == 0
    ensures forall o, sp :: Allowance(r, o, sp) == 0
    ensures r.log == [TransferEvent(None, Some(caller), totalSupply)]
    ensures Conserved(r)
  {
    New(caller, totalSupply, None, None)
  }

  /** Message `total_supply`. */
  function TotalSupply(s: Erc20): U128 {
    s.totalSupply
  }

  /** Message `balance_of`: an account never seen reads zero, and on a conserving
      ledger no balance exceeds the total supply. */
  function BalanceOf(s: Erc20, owner: AccountId): (r: U128)
    ensures owner !in s.balances ==> r == 0
    ensures owner in s.balances ==> r == s.balances[owner]
    ensures Conserved(s) ==> r <= TotalSupply(s)
  {
    SumGet(s.balances, owner);
    Get(s.balances, owner)
  }

  /** Message `allowance`: a pair never approved reads zero. */
  function Allowance(s: Erc20, owner: AccountId, spender: AccountId): (r: U128)
    ensures (owner, spender) !in s.allowances ==> r == 0
    ensures (owner, spender) in s.allowances ==> r == s.allowances[(owner, spender)]
  {
    Get(s.allowances, (owner, spender))
  }

  /** Internal `transfer_from_to`. Fails with `InsufficientBalance`, before writing
      anything, exactly when the source balance is short; otherwise it moves the value
      and emits `TransferEvent`. It traps only when the credit overflows `u128`, which needs a
      second account holding more than the rest of the supply (see `MoveNeverTraps`). */
  function TransferFromTo(s: Erc20, from: AccountId, to: AccountId, value: U128): (r: Reply)
    ensures BalanceOf(s, from) < value <==> r == Done(s, Err(InsufficientBalance))
    ensures r.Done? ==> r.post.allowances == s.allowances
    ensures r.Done? && r.ret.Ok? ==> BalancesMoved(s, r.post, from, to, value)
    ensures r.Done? ==> r.ret.Ok? || r.post == s
    ensures r.Done? && r.ret.Err? ==> r.ret.error == InsufficientBalance
    ensures r.Trapped? <==>
      value <= BalanceOf(s, from) && from != to && BalanceOf(s, to) + value > U128_MAX
  {
    var fromBalance := BalanceOf(s, from);
    if fromBalance < value then
      Done(s, Err(InsufficientBalance))
    else
      match CheckedSub(fromBalance, value)
      case None => Trapped
      case Some(debited) =>
        var s1 := s.(balances := s.balances[from := debited]);
        var toBalance := BalanceOf(s1, to);
        match CheckedAdd(toBalance, value)
        case None => Trapped
        case Some(credited) =>
          Done(s1.(balances := s1.balances[to := credited],
                   log := s1.log + [TransferEvent(Some(from), Some(to), value)]),
               Ok(()))
  }

  /** Message `transfer`: `transfer_from_to` with the caller as source. It fails with
      `InsufficientBalance`, changing nothing, exactly when the caller is short; it traps
      exactly when the credit would overflow; otherwise it returns `Ok` having moved the
      value. */
  function Transfer(s: Erc20, caller: AccountId, to: AccountId, value: U128): (r: Reply)
    ensures BalanceOf(s, caller) < value <==> r == Done(s, Err(InsufficientBalance))
    ensures r.Done? && r.ret.Err? ==> r == Done(s, Err(InsufficientBalance))
    ensures r.Trapped? <==>
      value <= BalanceOf(s, caller) && caller != to && BalanceOf(s, to) + value > U128_MAX
    ensures r.Done? && r.ret.Ok? ==>
      r.post.allowances == s.allowances && BalancesMoved(s, r.post, caller, to, value)
  {
    TransferFromTo(s, caller, to, value)
  }

  /** Message `approve`: always succeeds, overwrites the caller's allowance for
      `spender` with `value`, touches nothing else, and emits `ApprovalEvent`. */
  function Approve(s: Erc20, caller: AccountId, spender: AccountId, value: U128): (r: Reply)
    ensures r.Done? && r.ret.Ok?
    ensures Allowance(r.post, caller, spender) == value
    ensures forall o, sp :: (o, sp) != (caller, spender) ==>
      Allowance(r.post, o, sp) == Allowance(s, o, sp)
    ensures r.post.balances == s.balances && r.post.totalSupply == s.totalSupply
    ensures r.post.name == s.name && r.post.symbol == s.symbol
    ensures r.post.log == s.log + [ApprovalEvent(caller, spender, value)]
  {
    Done(s.(allowances := s.allowances[(caller, spender) := value],
            log := s.log + [ApprovalEvent(caller, spender, value)]),
         Ok(()))
  }

  /** Message `transfer_from`: the allowance is checked first, then the balance; a
      failure of either writes nothing. On success the allowance `from` granted to the
      caller goes down by exactly `value` and no other allowance changes. */
  function TransferFrom(s: Erc20, caller: AccountId, from: AccountId, to: AccountId, value: U128): (r: Reply)
    ensures Allowance(s, from, caller) < value <==> r == Done(s, Err(InsufficientAllowance))
    ensures value <= Allowance(s, from, caller) && BalanceOf(s, from) < value <==>
      r == Done(s, Err(InsufficientBalance))
    ensures r.Done? ==> r.ret.Ok? || r.post == s
    ensures r.Done? && r.ret.Ok? ==>
      && value <= Allowance(s, from, caller)
      && BalancesMoved(s, r.post, from, to, value)
      && Allowance(r.post, from, caller) == Allowance(s, from, caller) - value
      && (forall o, sp :: (o, sp) != (from, caller) ==> Allowance(r.post, o, sp) == Allowance(s, o, sp))
    ensures r.Trapped? <==> TransferFromTo(s, from, to, value).Trapped? && value <= Allowance(s, from, caller)
  {
    var allowance := Allowance(s, from, caller);
    if allowance < value then
      Done(s, Err(InsufficientAllowance))
    else
      match TransferFromTo(s, from, to, value)
      case Trapped => Trapped
      case Done(s1, Err(e)) => Done(s1, Err(e))
      case Done(s1, Ok(_)) =>
        match CheckedSub(allowance, value)
        case None => Trapped
        case Some(left) =>
          Done(s1.(allowances := s1.allowances[(from, caller) := left]), Ok(()))
  }

  /** The overflow argument behind the `checked_add(..).unwrap()` of `transfer_from_to`:
      on a conserving ledger the source and destination balances together are at most
      the total supply, which is a `u128`, so the credit fits and the call never traps.
      No bound of half the `u128` range is needed. */
  lemma MoveNeverTraps(s: Erc20, from: AccountId, to: AccountId, value: U128)
    requires Conserved(s)
    ensures TransferFromTo(s, from, to, value).Done?
    ensures value <= BalanceOf(s, from) ==> TransferFromTo(s, from, to, value).ret.Ok?
  {
    if from != to {
      SumPair(s.balances, from, to);
    }
  }

  /** A successful move keeps the balances summing to the total supply. */
  lemma MoveConserves(s: Erc20, from: AccountId, to: AccountId, value: U128)
    requires Conserved(s)
    ensures TransferFromTo(s, from, to, value).Done?
    ensures Conserved(TransferFromTo(s, from, to, value).post)
  {
    MoveNeverTraps(s, from, to, value);
    var r := TransferFromTo(s, from, to, value);
    if r.ret.Ok? {
      var fromBalance := BalanceOf(s, from);
      var m1 := s.balances[from := fromBalance - value];
      SumUpdate(s.balances, from, fromBalance - value);
      SumUpdate(m1, to, Get(m1, to) + value);
      assert r.post.balances == m1[to := Get(m1, to) + value];
    }
  }

  /** `transfer_from` on a conserving ledger never traps and keeps it conserving. */
  lemma TransferFromConserves(s: Erc20, caller: AccountId, from: AccountId, to: AccountId, value: U128)
    requires Conserved(s)
    ensures TransferFrom(s, caller, from, to, value).Done?
    ensures Conserved(TransferFrom(s, caller, from, to, value).post)
  {
    MoveConserves(s, from, to, value);
  }

  /** Two approvals for the same pair leave the second value, not the sum. */
  lemma ApproveOverwrites(s: Erc20, caller: AccountId, spender: AccountId, v1: U128, v2: U128)
    ensures var t := Approve(Approve(s, caller, spender, v1).post, caller, spender, v2).post;
      Allowance(t, caller, spender) == v2 && t.allowances == Approve(s, caller, spender, v2).post.allowances
  {
  }
}
