/** Sequences of ERC-20 messages. The runtime executes one message at a time; a message
    that traps is rolled back, so the ledger it leaves is the one it started from. */
module Erc20Runs {
  import opened Runtime
  import opened Store
  import opened Erc20Token

  /** One external call to the ledger, with the account the runtime reports as caller. */
  datatype Msg =
    | TransferMsg(caller: AccountId, to: AccountId, value: U128)
    | ApproveMsg(caller: AccountId, spender: AccountId, value: U128)
    | TransferFromMsg(caller: AccountId, from: AccountId, to: AccountId, value: U128)

  function Apply(s: Erc20, m: Msg): Reply {
    match m
    case TransferMsg(c, to, v) => Transfer(s, c, to, v)
    case ApproveMsg(c, sp, v) => Approve(s, c, sp, v)
    case TransferFromMsg(c, from, to, v) => TransferFrom(s, c, from, to, v)
  }

  /** The ledger after the messages `msgs`, in order. */
  function Run(s: Erc20, msgs: seq<Msg>): Erc20
    decreases |msgs|
  {
    if msgs == [] then s
    else
      var r := Apply(s, msgs[0]);
      Run(if r.Done? then r.post else s, msgs[1..])
  }

  /** No message traps on a conserving ledger, and each keeps it conserving and leaves
      the total supply as it was. */
  lemma ApplyConserves(s: Erc20, m: Msg)
    requires Conserved(s)
    ensures Apply(s, m).Done?
    ensures Conserved(Apply(s, m).post)
    ensures Apply(s, m).post.totalSupply == s.totalSupply
  {
    match m
    case TransferMsg(c, to, v) => MoveConserves(s, c, to, v);
    case ApproveMsg(c, sp, v) =>
    case TransferFromMsg(c, from, to, v) => TransferFromConserves(s, c, from, to, v);
  }

  /** Conservation and the fixed total supply hold after any sequence of messages
      applied to a freshly constructed ledger, or to any conserving one. */
  lemma {:induction false} RunConserves(s: Erc20, msgs: seq<Msg>)
    requires Conserved(s)
    ensures Conserved(Run(s, msgs))
    ensures Run(s, msgs).totalSupply == s.totalSupply
    decreases |msgs|
  {
    if msgs != [] {
      ApplyConserves(s, msgs[0]);
      RunConserves(Apply(s, msgs[0]).post, msgs[1..]);
    }
  }

  /** Every ledger reachable from the constructor conserves its initial supply. */
  lemma ReachableConserves(caller: AccountId, supply: U128, name: Option<string>, symbol: Option<string>, msgs: seq<Msg>)
    ensures Conserved(Run(New(caller, supply, name, symbol), msgs))
    ensures TotalSupply(Run(New(caller, supply, name, symbol), msgs)) == supply
  {
    RunConserves(New(caller, supply, name, symbol), msgs);
  }

  /** A failing message is all-or-nothing: it returns an error with the storage it was
      given, so balances, allowances and the event log are all unchanged. */
  lemma ErrorChangesNothing(s: Erc20, m: Msg)
    ensures Apply(s, m).Done? && Apply(s, m).ret.Err? ==> Apply(s, m).post == s
  {
  }

  const Alice: AccountId := seq(32, _ => 1)
  const Bob: AccountId := seq(32, _ => 2)
  const Carol: AccountId := seq(32, _ => 3)

  /** A delegated-transfer scenario: Alice mints 1000 and approves Bob for 400; Bob moves
      300 from Alice to Carol, leaving 700/300 and an allowance of 100; Bob's further
      attempt to move 200 fails with `InsufficientAllowance` and balances stay put. */
  lemma DelegationScenario()
    ensures var s0 := NewNameless(Alice, 1000);
      var s1 := Approve(s0, Alice, Bob, 400).post;
      var r2 := TransferFrom(s1, Bob, Alice, Carol, 300);
      var r3 := TransferFrom(r2.post, Bob, Alice, Carol, 200);
      && BalanceOf(s0, Alice) == 1000
      && r2.Done? && r2.ret.Ok?
      && BalanceOf(r2.post, Alice) == 700 && BalanceOf(r2.post, Carol) == 300
      && Allowance(r2.post, Alice, Bob) == 100
      && r3 == Done(r2.post, Err(InsufficientAllowance))
  {
    assert Alice[0] != Bob[0] && Alice[0] != Carol[0] && Bob[0] != Carol[0];
    var s0 := NewNameless(Alice, 1000);
    var s1 := Approve(s0, Alice, Bob, 400).post;
    assert BalanceOf(s1, Alice) == 1000 && BalanceOf(s1, Carol) == 0;
    assert Allowance(s1, Alice, Bob) == 400;
  }
}
