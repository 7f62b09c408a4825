/** The ledger's test suite as verified client code. `NewToken` is the
    deployment made before every test case. Every other method except
    `ApproveTwiceOverwrites` deploys a fresh ZYM ledger, makes the calls of
    one test case and states in its postcondition what that test case
    asserts. `ApproveTwiceOverwrites` is not a test case of the suite: it
    states the overwrite property of `approve` that the revocation test
    rests on. */
module TokenTests {
  import opened Uint256
  import opened EIP20

  const INITIAL_SUPPLY: Amount := 1000 * 1000 * 1000
  /** INITIAL_SUPPLY display units in base units: 10^9 * 10^18. */
  const INITIAL_SUPPLY_LONG: Amount := 1_000_000_000_000_000_000_000_000_000

  /** A fresh ZYM ledger deployed by `creator`, as before every test case. */
  method NewToken(creator: Address) returns (token: Token)
    ensures fresh(token) && token.Valid()
    ensures token.totalSupply == INITIAL_SUPPLY_LONG
    ensures token.balances == map[creator := INITIAL_SUPPLY_LONG]
    ensures token.allowed == map[]
    ensures token.log == [Event.Transfer(ZERO_ADDRESS, creator, INITIAL_SUPPLY_LONG)]
    ensures token.name == "ZYM" && token.symbol == "ZYM" && token.decimals == 18
  {
    Pow10Eighteen();
    token := new Token(creator, INITIAL_SUPPLY, "ZYM", "ZYM");
  }

  /** The creator starts with the whole supply, and nobody else holds anything. */
  method CreationBalance(a0: Address, other: Address) returns (balance: Amount, otherBalance: Amount, supply: Amount)
    requires other != a0
    ensures balance == INITIAL_SUPPLY_LONG && supply == INITIAL_SUPPLY_LONG
    ensures otherBalance == 0
  {
    var token := NewToken(a0);
    balance := token.BalanceOf(a0);
    otherBalance := token.BalanceOf(other);
    supply := token.TotalSupply();
  }

  /** Name, decimals and symbol read back as set at creation. */
  method CreationVanityInformation(a0: Address) returns (name: string, decimals: Uint8, symbol: string)
    ensures name == "ZYM" && decimals == 18 && symbol == "ZYM"
  {
    var token := NewToken(a0);
    name, decimals, symbol := token.name, token.decimals, token.symbol;
  }

  /** Sending native currency reverts and leaves the creator's balance as it was. */
  method EtherTransferReverted(a0: Address) returns (before: Amount, r: Outcome, after: Amount)
    ensures before == INITIAL_SUPPLY_LONG
    ensures r == Revert(NoPayableEntry)
    ensures after == before
  {
    var token := NewToken(a0);
    before := token.BalanceOf(a0);
    r := token.ReceiveNative(a0, 10 * Pow10(18));
    after := token.BalanceOf(a0);
  }

  /** The creator can transfer its entire balance, which the recipient then holds. */
  method TransferWholeSupply(a0: Address, a1: Address) returns (r: Outcome, balance: Amount)
    ensures r == Success
    ensures balance == INITIAL_SUPPLY_LONG
  {
    var token := NewToken(a0);
    r := token.Transfer(a0, a1, INITIAL_SUPPLY_LONG);
    balance := token.BalanceOf(a1);
  }

  /** A transfer of one base unit more than the creator holds reverts,
      changing no balance and logging nothing. */
  method TransferOverdraftReverts(a0: Address, a1: Address) returns (r: Outcome, balance0: Amount, balance1: Amount, events: nat)
    requires a1 != a0
    ensures r == Revert(InsufficientBalance)
    ensures balance0 == INITIAL_SUPPLY_LONG && balance1 == 0
    ensures events == 1
  {
    var token := NewToken(a0);
    r := token.Transfer(a0, a1, INITIAL_SUPPLY_LONG + 1);
    balance0, balance1, events := token.BalanceOf(a0), token.BalanceOf(a1), |token.log|;
  }

  /** A zero-value transfer succeeds. */
  method ZeroTransferSucceeds(a0: Address, a1: Address) returns (r: Outcome)
    ensures r == Success
  {
    var token := NewToken(a0);
    r := token.Transfer(a0, a1, 0);
  }

  /** An approval of 100 reads back as 100. */
  method ApproveHundred(a0: Address, a1: Address) returns (allowance: Amount)
    ensures allowance == 100
  {
    var token := NewToken(a0);
    var _ := token.Approve(a0, a1, 100);
    allowance := token.Allowance(a0, a1);
  }

  /** Approve 100, then one draw of 20 by the spender to a third account. */
  method ApproveWithdrawOnce(a0: Address, a1: Address, a2: Address)
    returns (balance0Before: Amount, balance2Before: Amount, r: Outcome, allowance: Amount, balance2: Amount, balance0: Amount)
    requires a2 != a0
    ensures balance0Before == INITIAL_SUPPLY_LONG
    ensures balance2Before == 0
    ensures r == Success
    ensures allowance == 80 && balance2 == 20 && balance0 == INITIAL_SUPPLY_LONG - 20
  {
    var token := NewToken(a0);
    balance0Before := token.BalanceOf(a0);
    var _ := token.Approve(a0, a1, 100);
    balance2Before := token.BalanceOf(a2);
    r := token.TransferFrom(a1, a0, a2, 20);
    allowance := token.Allowance(a0, a1);
    balance2, balance0 := token.BalanceOf(a2), token.BalanceOf(a0);
  }

  /** Approve 100, then two draws of 20: the allowance goes 100, 80, 60 while
      the recipient goes 20, 40 and the owner keeps the rest of the supply.
      The log holds the mint, the approval and both transfers, in order. */
  method ApproveWithdrawTwice(a0: Address, a1: Address, a2: Address)
    returns (allowances: seq<Amount>, recipient: seq<Amount>, owner: seq<Amount>, log: seq<Event>)
    requires a2 != a0
    ensures allowances == [100, 80, 60]
    ensures recipient == [20, 40]
    ensures owner == [INITIAL_SUPPLY_LONG - 20, INITIAL_SUPPLY_LONG - 40]
    ensures log == [Event.Transfer(ZERO_ADDRESS, a0, INITIAL_SUPPLY_LONG), Event.Approval(a0, a1, 100),
                    Event.Transfer(a0, a2, 20), Event.Transfer(a0, a2, 20)]
  {
    var token := NewToken(a0);
    var _ := token.Approve(a0, a1, 100);
    allowances := [token.Allowance(a0, a1)];
    var _ := token.TransferFrom(a1, a0, a2, 20);
    allowances := allowances + [token.Allowance(a0, a1)];
    recipient, owner := [token.BalanceOf(a2)], [token.BalanceOf(a0)];
    var _ := token.TransferFrom(a1, a0, a2, 20);
    allowances := allowances + [token.Allowance(a0, a1)];
    recipient, owner := recipient + [token.BalanceOf(a2)], owner + [token.BalanceOf(a0)];
    log := token.log;
  }

  /** Approve 100, draw 50, then a draw of 60 reverts on the allowance and
      leaves 50 of it. */
  method ApproveWithdrawThenExceed(a0: Address, a1: Address, a2: Address)
    returns (approved: Amount, first: Outcome, allowance: Amount, balance2: Amount, balance0: Amount, second: Outcome, remaining: Amount)
    requires a2 != a0
    ensures approved == 100
    ensures first == Success
    ensures allowance == 50 && balance2 == 50 && balance0 == INITIAL_SUPPLY_LONG - 50
    ensures second == Revert(InsufficientAllowance)
    ensures remaining == 50
  {
    var token := NewToken(a0);
    var _ := token.Approve(a0, a1, 100);
    approved := token.Allowance(a0, a1);
    first := token.TransferFrom(a1, a0, a2, 50);
    allowance := token.Allowance(a0, a1);
    balance2, balance0 := token.BalanceOf(a2), token.BalanceOf(a0);
    second := token.TransferFrom(a1, a0, a2, 60);
    remaining := token.Allowance(a0, a1);
  }

  /** A draw without any approval reverts, though the owner's balance suffices. */
  method WithdrawWithoutAllowance(a0: Address, a1: Address, a2: Address) returns (r: Outcome)
    ensures r == Revert(InsufficientAllowance)
  {
    var token := NewToken(a0);
    r := token.TransferFrom(a1, a0, a2, 60);
  }

  /** Approve 100, draw 60, approve 0: a further draw of 10 reverts. */
  method ApproveZeroRevokes(a0: Address, a1: Address, a2: Address) returns (drawn: Outcome, r: Outcome)
    ensures drawn == Success
    ensures r == Revert(InsufficientAllowance)
  {
    var token := NewToken(a0);
    var _ := token.Approve(a0, a1, 100);
    drawn := token.TransferFrom(a1, a0, a2, 60);
    var _ := token.Approve(a0, a1, 0);
    r := token.TransferFrom(a1, a0, a2, 10);
  }

  /** The largest amount, 2^256 - 1, can be approved and reads back unchanged. */
  method ApproveMax(a0: Address, a1: Address) returns (allowance: Amount)
    ensures allowance == 115792089237316195423570985008687907853269984665640564039457584007913129639935
  {
    var token := NewToken(a0);
    var _ := token.Approve(a0, a1, MAX_UINT256);
    allowance := token.Allowance(a0, a1);
  }

  /** Approving the same value twice leaves that value, not twice it: an
      approval replaces the allowance rather than adding to it. */
  method ApproveTwiceOverwrites(a0: Address, a1: Address, v: Amount) returns (allowance: Amount)
    ensures allowance == v
  {
    var token := NewToken(a0);
    var _ := token.Approve(a0, a1, v);
    var _ := token.Approve(a0, a1, v);
    allowance := token.Allowance(a0, a1);
  }

  /** A transfer of 2666 logs Transfer(a0, a1, 2666). */
  method TransferEvent(a0: Address, a1: Address) returns (event: Event)
    ensures event == Event.Transfer(a0, a1, 2666)
  {
    var token := NewToken(a0);
    var _ := token.Transfer(a0, a1, 2666);
    event := token.log[|token.log| - 1];
  }

  /** A zero transfer still logs Transfer(a0, a1, 0). */
  method ZeroTransferEvent(a0: Address, a1: Address) returns (event: Event)
    ensures event == Event.Transfer(a0, a1, 0)
  {
    var token := NewToken(a0);
    var _ := token.Transfer(a0, a1, 0);
    event := token.log[|token.log| - 1];
  }

  /** An approval of 2666 logs Approval(a0, a1, 2666). */
  method ApprovalEvent(a0: Address, a1: Address) returns (event: Event)
    ensures event == Event.Approval(a0, a1, 2666)
  {
    var token := NewToken(a0);
    var _ := token.Approve(a0, a1, 2666);
    event := token.log[|token.log| - 1];
  }
}
