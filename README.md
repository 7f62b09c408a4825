# ZYM EIP-20 token ledger, modelled in Dafny

This project models the `EnzymToken` ledger, an EIP-20 fungible token that follows the
ConsenSys EIP20 reference token. The model is built from the behaviour its test suite
asserts, call by call. The ledger is a state machine with these parts:

- `balances`: account → amount. An absent key reads as 0.
- `allowed`: (owner, spender) → amount. An absent key reads as 0.
- `totalSupply`: immutable after construction.
- Metadata `name`, `symbol` and `decimals`: immutable after construction.
- `log`: an append-only sequence of `Transfer{from, to, value}` and `Approval{owner, spender, value}` events.

Amounts are naturals bounded by 2^256 − 1. Identities are 160-bit naturals. The caller
identity (`msg.sender`) is an explicit `caller` parameter. A failing mutating call returns
`Revert(error)` and leaves balances, allowances and the log exactly as they were.

Files:

- `uint256.dfy` (module `Uint256`): the amount, address and 8-bit domains, and powers of ten.
- `store.dfy` (module `Store`): default-zero reads and the ghost sum of all balances.
  It also holds `Move`, the one debit-and-credit primitive that `transfer` and `transferFrom`
  share, proved to conserve that sum.
- `eip20.dfy` (module `EIP20`): errors, outcomes, events, the `Token` class and `Deploy`.
  `Token` keeps the object invariant `Valid()`: the sum of balances equals `totalSupply`.
  Every mutating method preserves it.
- `token_tests.dfy` (module `TokenTests`): `NewToken`, the deployment made before every test
  case, then one method for each of the 16 active test cases. Each of these deploys a fresh ZYM
  ledger, makes that test's calls, and proves in its postcondition what the test asserts. One
  more method, `ApproveTwiceOverwrites`, is not a test case of the suite. It states the overwrite
  property of `approve` that the revocation test relies on.

## Model

| member | source | states |
|---|---|---|
| `Uint256.Pow10Add` | test/1_token.js:8-10 | 10^(a+b) = 10^a · 10^b, used to evaluate 10^18 |
| `Uint256.Pow10Eighteen` | test/1_token.js:9-10 | one display unit at 18 decimals is exactly 10^18 base units |
| `Store.SumRemove` | test/1_token.js:116-132 | the total of all balances splits as any one balance plus the total of the rest |
| `Store.SumSingleton` | test/1_token.js:17-20 | a ledger whose only holder is the creator has total equal to the creator's balance |
| `Store.SumUpdate` | test/1_token.js:116-132 | overwriting one balance changes the total by exactly the difference |
| `Store.GetLeSum` | test/1_token.js:64-68 | no single balance exceeds the total of all balances |
| `Store.Move` | test/1_token.js:58-62 | the shared move lowers `from` by v and raises `to` by v and touches no other account; `from == to` changes nothing; the total is conserved |
| `EIP20.Token.constructor` | test/1_token.js:13-20 | the creator holds `initialSupply · 10^decimals` and nobody else holds anything; name and symbol are as given; decimals is as given, or 18 when the deployment names none; no allowances; the log holds one mint `Transfer` from the zero identity; the invariant holds |
| `EIP20.Deploy` | test/1_token.js:14 | deployment fails with `ArithmeticOverflow` exactly when the scaled supply exceeds 2^256 − 1; otherwise the new ledger is as the constructor states, with decimals 18 when none is named |
| `EIP20.Token.TotalSupply` | test/1_token.js:116-132 | the total supply equals the sum of all balances |
| `EIP20.Token.BalanceOf` | test/1_token.js:89-91 | a never-credited account reads 0; a credited account reads its stored balance; no balance exceeds the total supply |
| `EIP20.Token.Allowance` | test/1_token.js:156-158 | an allowance never granted reads 0; otherwise it reads the stored amount |
| `EIP20.Token.Transfer` | test/1_token.js:58-72 | succeeds iff value ≤ the caller's balance, otherwise reverts with `InsufficientBalance` and changes nothing; on success the caller is debited and `to` credited by exactly value, a `Transfer(caller, to, value)` event is appended, allowances are untouched and the total is conserved |
| `EIP20.Token.Approve` | test/1_token.js:78-82 | always succeeds; sets `allowance(caller, spender)` to exactly value, replacing the old amount; leaves balances unchanged; appends `Approval(caller, spender, value)` |
| `EIP20.Token.TransferFrom` | test/1_token.js:107-165 | reverts with `InsufficientAllowance` iff the allowance is below value; otherwise reverts with `InsufficientBalance` iff `from`'s balance is below value; a revert changes nothing; on success the allowance drops by value, `from` is debited and `to` credited by value, a `Transfer(from, to, value)` event is appended and the total is conserved |
| `EIP20.Token.ReceiveNative` | test/1_token.js:43-56 | native currency sent to the ledger always reverts with `NoPayableEntry` and changes nothing |
| `TokenTests.NewToken` | test/1_token.js:13-15 | each test starts from a fresh ledger deployed with three arguments, in which the creator holds 10^27 base units, named and symbolled ZYM, and decimals defaults to 18 |
| `TokenTests.CreationBalance` | test/1_token.js:17-20 | the creator's balance and the total supply are both 10^27; any other account holds 0 |
| `TokenTests.CreationVanityInformation` | test/1_token.js:22-31 | name, decimals and symbol read back as "ZYM", 18 and "ZYM" |
| `TokenTests.EtherTransferReverted` | test/1_token.js:43-56 | sending ether reverts, and the creator's balance is 10^27 both before and after |
| `TokenTests.TransferWholeSupply` | test/1_token.js:58-62 | transferring the whole balance succeeds, and the recipient then holds 10^27 |
| `TokenTests.TransferOverdraftReverts` | test/1_token.js:64-68 | transferring balance + 1 reverts with `InsufficientBalance`; both balances and the log stay as they were |
| `TokenTests.ZeroTransferSucceeds` | test/1_token.js:70-72 | a zero-value transfer succeeds |
| `TokenTests.ApproveHundred` | test/1_token.js:78-82 | after approving 100, the allowance reads 100 |
| `TokenTests.ApproveWithdrawOnce` | test/1_token.js:85-104 | the owner holds 10^27 and the recipient 0 before the draw; after approving 100 and one draw of 20, the allowance is 80, the recipient holds 20 and the owner holds 10^27 − 20 |
| `TokenTests.ApproveWithdrawTwice` | test/1_token.js:107-133 | over two draws of 20, the allowance goes 100, 80, 60, the recipient 20, 40 and the owner 10^27 − 20, 10^27 − 40; the log is the mint, the approval and the two transfers, in order |
| `TokenTests.ApproveWithdrawThenExceed` | test/1_token.js:136-154 | the allowance reads 100 right after the approval; after a draw of 50 the allowance is 50, the recipient holds 50 and the owner 10^27 − 50; a draw of 60 then reverts with `InsufficientAllowance` and 50 remains |
| `TokenTests.WithdrawWithoutAllowance` | test/1_token.js:156-158 | a draw with no allowance reverts with `InsufficientAllowance` |
| `TokenTests.ApproveZeroRevokes` | test/1_token.js:160-165 | after approve 100, a draw of 60 and approve 0, a draw of 10 reverts with `InsufficientAllowance` |
| `TokenTests.ApproveMax` | test/1_token.js:167-171 | an approval of 2^256 − 1 reads back as exactly 2^256 − 1 |
| `TokenTests.ApproveTwiceOverwrites` | test/1_token.js:163-164 | not a test case of the suite: for every value v, approving v twice leaves v, not 2v. An approval replaces the allowance instead of adding to it, which the revocation by `approve(accounts[1], 0)` relies on |
| `TokenTests.TransferEvent` | test/1_token.js:174-180 | a transfer of 2666 logs `Transfer(a0, a1, 2666)` |
| `TokenTests.ZeroTransferEvent` | test/1_token.js:182-188 | a zero transfer still logs `Transfer(a0, a1, 0)` |
| `TokenTests.ApprovalEvent` | test/1_token.js:190-196 | an approval of 2666 logs `Approval(a0, a1, 2666)` |

Metadata and the total supply are `const` fields of `Token`. No operation can change them after
construction, and the queries `name`, `symbol` and `decimals` read those fields directly.

The contract's own source is not part of this model. Its behaviour is taken from the test suite.
Where the tests are silent, the model makes these choices:

- The constructor logs a mint event `Transfer(0, creator, supply)`, following the EIP-20
  convention that a token creation emits a `Transfer` from the zero address. No test observes it.
- `transferFrom` checks the allowance before the balance. This order is a choice of the model:
  the tests never make both checks fail at once.
- Deployment fails when the scaled initial supply does not fit in 256 bits, by the checked
  arithmetic used for every amount. The test that would exercise this is commented out.

## Left out

- Store.Move: a credit that would overflow 2^256 − 1 is not a revert path. `Move` requires the total of balances to fit in 256 bits, which the ledger invariant guarantees, and proves from it that the credit fits. The `ArithmeticOverflow` error therefore arises only at deployment.
- Dry runs with `.call` (test/1_token.js:93-94, 153, 157, 164) are host features that never commit state. The dry run at line 93 is not modelled. The reverting dry runs at lines 153, 157 and 164 are modelled as committed calls, and a revert leaves the state unchanged either way.
- The Truffle/web3 harness (`artifacts.require`, `contract`, `beforeEach`, `assertRevert`, BigNumber conversions) is test plumbing. The `beforeEach` deployment is `TokenTests.NewToken`.
- The commented-out test creating 2^256 − 1 tokens (test/1_token.js:33-39) is disabled and asserts nothing.
- Uint256 wrap-around is not modelled: amounts are bounded naturals with checked arithmetic, and no input above 2^256 − 1 can be supplied (test/1_token.js:74-75).
- "Infinite approval" for an allowance of 2^256 − 1 is not modelled. No test exercises it, so `TransferFrom` always decrements the allowance.
- Ether ingress is modelled only as `ReceiveNative`, which always reverts. Host-level dispatch and gas are not modelled.
- `ReceiveNative`'s value is a natural in wei. The model does not bound it.
