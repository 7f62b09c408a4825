/** The EIP-20 token ledger: balances, allowances, immutable metadata and
    supply, and an append-only event log, driven by calls whose caller
    identity the host supplies. Every failing call reverts: it returns
    `Revert` and leaves the whole state as it was. */
module EIP20 {
  import opened Uint256
  import opened Store

  /** Why a call reverted. */
  datatype Error =
    | InsufficientBalance
    | InsufficientAllowance
    | ArithmeticOverflow
    | NoPayableEntry

  /** The result of a mutating call: it commits, or it reverts with an error. */
  datatype Outcome = Success | Revert(error: Error)

  /** The two event records of the standard, with their three fields in order. */
  datatype Event =
    | Transfer(from: Address, to: Address, value: Amount)
    | Approval(owner: Address, spender: Address, value: Amount)

  class Token {
    const name: string
    const symbol: string
    const decimals: Uint8
    const totalSupply: Amount
    var balances: map<Address, Amount>
    var allowed: map<(Address, Address), Amount>
    var log: seq<Event>

    /** The balances always add up to the fixed total supply. */
    ghost predicate Valid()
      reads this
    {
      Sum(balances) == totalSupply
    }

    /** Credits `initialSupply * 10^tokenDecimals` base units to the creator
        and logs that credit as a transfer from the zero identity. A
        deployment that names no decimals gets 18. */
    constructor (creator: Address, initialSupply: Amount, tokenName: string, tokenSymbol: string, tokenDecimals: Uint8 := 18)
      requires initialSupply * Pow10(tokenDecimals) <= MAX_UINT256
      ensures Valid()
      ensures name == tokenName && symbol == tokenSymbol && decimals == tokenDecimals
      ensures totalSupply == initialSupply * Pow10(tokenDecimals)
      ensures balances == map[creator := totalSupply]
      ensures allowed == map[]
      ensures log == [Event.Transfer(ZERO_ADDRESS, creator, totalSupply)]
    {
      name, symbol, decimals := tokenName, tokenSymbol, tokenDecimals;
      var supply: Amount := initialSupply * Pow10(tokenDecimals);
      totalSupply := supply;
      balances := map[creator := supply];
      allowed := map[];
      log := [Event.Transfer(ZERO_ADDRESS, creator, supply)];
      SumSingleton(creator, supply);
    }

    /** The total supply, which is always the sum of all balances. */
    function TotalSupply(): (r: Amount)
      reads this
      ensures Valid() ==> r == Sum(balances)
    {
      totalSupply
    }

    /** The balance of `owner`: zero when never credited, never above the supply. */
    function BalanceOf(owner: Address): (r: Amount)
      reads this
      ensures owner !in balances ==> r == 0
      ensures owner in balances ==> r == balances[owner]
      ensures Valid() ==> r <= totalSupply
    {
      GetLeSum(balances, owner);
      Get(balances, owner)
    }

    /** What `spender` may still move out of `owner`'s balance: zero unless approved. */
    function Allowance(owner: Address, spender: Address): (r: Amount)
      reads this
      ensures (owner, spender) !in allowed ==> r == 0
      ensures (owner, spender) in allowed ==> r == allowed[(owner, spender)]
    {
      Get(allowed, (owner, spender))
    }

    /** Moves `value` from the caller to `to`; reverts when the caller's
        balance is too small. A zero value and a transfer to oneself succeed. */
    method Transfer(caller: Address, to: Address, value: Amount) returns (r: Outcome)
      requires Valid()
      modifies this
      ensures Valid()
      ensures r.Success? <==> value <= old(BalanceOf(caller))
      ensures r.Revert? ==> r.error == InsufficientBalance
      ensures r.Success? ==> balances == Move(old(balances), caller, to, value)
      ensures r.Success? && caller != to ==>
        BalanceOf(caller) == old(BalanceOf(caller)) - value && BalanceOf(to) == old(BalanceOf(to)) + value
      ensures r.Success? ==> log == old(log) + [Event.Transfer(caller, to, value)]
      ensures r.Revert? ==> balances == old(balances) && log == old(log)
      ensures allowed == old(allowed)
    {
      if Get(balances, caller) < value {
        return Revert(InsufficientBalance);
      }
      balances := Move(balances, caller, to, value);
      log := log + [Event.Transfer(caller, to, value)];
      r := Success;
    }

    /** Sets the caller's allowance for `spender` to exactly `value`,
        replacing whatever it was; never reverts. */
    method Approve(caller: Address, spender: Address, value: Amount) returns (r: Outcome)
      requires Valid()
      modifies this
      ensures Valid()
      ensures r == Success
      ensures allowed == old(allowed)[(caller, spender) := value]
      ensures Allowance(caller, spender) == value
      ensures balances == old(balances)
      ensures log == old(log) + [Event.Approval(caller, spender, value)]
    {
      allowed := allowed[(caller, spender) := value];
      log := log + [Event.Approval(caller, spender, value)];
      r := Success;
    }

    /** Moves `value` from `from` to `to` on the caller's allowance from
        `from`, lowering that allowance by `value`. Reverts when the
        allowance is too small, and otherwise when `from`'s balance is. */
    method TransferFrom(caller: Address, from: Address, to: Address, value: Amount) returns (r: Outcome)
      requires Valid()
      modifies this
      ensures Valid()
      ensures r.Success? <==> value <= old(Allowance(from, caller)) && value <= old(BalanceOf(from))
      ensures r == Revert(InsufficientAllowance) <==> old(Allowance(from, caller)) < value
      ensures r == Revert(InsufficientBalance) <==> value <= old(Allowance(from, caller)) && old(BalanceOf(from)) < value
      ensures r.Success? ==> allowed == old(allowed)[(from, caller) := old(Allowance(from, caller)) - value]
      ensures r.Success? ==> balances == Move(old(balances), from, to, value)
      ensures r.Success? && from != to ==>
        BalanceOf(from) == old(BalanceOf(from)) - value && BalanceOf(to) == old(BalanceOf(to)) + value
      ensures r.Success? ==> log == old(log) + [Event.Transfer(from, to, value)]
      ensures r.Revert? ==> balances == old(balances) && allowed == old(allowed) && log == old(log)
    {
      var allowance := Get(allowed, (from, caller));
      if allowance < value {
        return Revert(InsufficientAllowance);
      }
      if Get(balances, from) < value {
        return Revert(InsufficientBalance);
      }
      allowed := allowed[(from, caller) := allowance - value];
      balances := Move(balances, from, to, value);
      log := log + [Event.Transfer(from, to, value)];
      r := Success;
    }

    /** Native currency sent to the ledger: there is no payable entry, so
        it always reverts and nothing changes. */
    method ReceiveNative(sender: Address, value: nat) returns (r: Outcome)
      ensures r == Revert(NoPayableEntry)
    {
      r := Revert(NoPayableEntry);
    }
  }

  /** The result of deploying a ledger. */
  datatype Deployment = Deployed(token: Token) | Failed(error: Error)

  /** Deploys a ledger, failing when the scaled initial supply does not fit
      in 256 bits. */
  method Deploy(creator: Address, initialSupply: Amount, tokenName: string, tokenSymbol: string, tokenDecimals: Uint8 := 18)
    returns (d: Deployment)
    ensures d.Failed? <==> initialSupply * Pow10(tokenDecimals) > MAX_UINT256
    ensures d.Failed? ==> d.error == ArithmeticOverflow
    ensures d.Deployed? ==>
      && fresh(d.token) && d.token.Valid()
      && d.token.totalSupply == initialSupply * Pow10(tokenDecimals)
      && d.token.balances == map[creator := d.token.totalSupply]
      && d.token.allowed == map[]
      && d.token.log == [Event.Transfer(ZERO_ADDRESS, creator, d.token.totalSupply)]
      && d.token.name == tokenName && d.token.symbol == tokenSymbol && d.token.decimals == tokenDecimals
  {
    if initialSupply * Pow10(tokenDecimals) > MAX_UINT256 {
      return Failed(ArithmeticOverflow);
    }
    var token := new Token(creator, initialSupply, tokenName, tokenSymbol, tokenDecimals);
    d := Deployed(token);
  }
}
