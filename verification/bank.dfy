/** Lamports through a bank: fees leave the payer, transactions move lamports between
    accounts, fees are burned or paid to the leader, and the incinerator is emptied
    (crates/karstflow-consensus/src/bank_executor.rs and bank.rs).

    The virtual machine and the many checks that decide whether a transaction may run are
    parameters; what is done with their answers is modelled step by step. */
module Banking {
  import opened Base
  import opened Lamports

  const MAX_TRANSACTION_ACCOUNT_LOCKS: nat := 64
  const NONCE_ACCOUNT_SIZE: nat := 80

  // ---- transactions ----

  /** `nonce` is the nonce account of a durable-nonce transaction. */
  datatype Tx = Tx(
    keys: seq<Key>,
    numSignatures: nat,
    readonlySigned: nat,
    readonlyUnsigned: nat,
    numStaticKeys: nat,
    writableLookups: nat,
    executionFee: nat,
    priorityFee: nat,
    nonce: Option<Key>)
  {
    function StaticKeyCount(): nat {
      if numStaticKeys > 0 then numStaticKeys else |keys|
    }

    predicate IsWritableIndex(i: nat) {
      if i >= StaticKeyCount() then i < StaticKeyCount() + writableLookups
      else if i < numSignatures then i < SaturatingSub(numSignatures, readonlySigned)
      else i < SaturatingSub(StaticKeyCount(), readonlyUnsigned)
    }

    ghost function WritableKeys(): set<Key> {
      set i | 0 <= i < |keys| && IsWritableIndex(i) :: keys[i]
    }

    function Fee(): nat {
      SaturatingAdd(executionFee, priorityFee)
    }
  }

  datatype LockError = TooManyAccountLocks(count: nat) | DuplicateAccountKey(account: Key)

  /** At most 64 keys, all different. */
  method ValidateAccountLocks(tx: Tx) returns (error: Option<LockError>)
    ensures error.None? <==> |tx.keys| <= MAX_TRANSACTION_ACCOUNT_LOCKS && NoRepeats(tx.keys)
    ensures error.Some? && error.value.TooManyAccountLocks? <==> |tx.keys| > MAX_TRANSACTION_ACCOUNT_LOCKS
    ensures error.Some? && error.value.DuplicateAccountKey? ==>
      exists i, j :: 0 <= i < j < |tx.keys| && tx.keys[i] == tx.keys[j] == error.value.account
  {
    if |tx.keys| > MAX_TRANSACTION_ACCOUNT_LOCKS {
      return Some(TooManyAccountLocks(|tx.keys|));
    }
    for i := 0 to |tx.keys|
      invariant forall x, y :: 0 <= x < i && x < y < |tx.keys| ==> tx.keys[x] != tx.keys[y]
    {
      for j := i + 1 to |tx.keys|
        invariant forall y :: i < y < j ==> tx.keys[i] != tx.keys[y]
      {
        if tx.keys[i] == tx.keys[j] {
          return Some(DuplicateAccountKey(tx.keys[i]));
        }
      }
    }
    return None;
  }

  /** The lamports of the writable keys among the first `n`. */
  ghost function WritableUpTo(tx: Tx, m: Accounts, n: nat): nat
    requires n <= |tx.keys|
  {
    if n == 0 then 0
    else WritableUpTo(tx, m, n - 1) + if tx.IsWritableIndex(n - 1) then Get(m, tx.keys[n - 1]).lamports else 0
  }

  ghost function WritableKeysUpTo(tx: Tx, n: nat): set<Key>
    requires n <= |tx.keys|
  {
    set i | 0 <= i < n && tx.IsWritableIndex(i) :: tx.keys[i]
  }

  lemma {:induction false} WritableUpToIsSum(tx: Tx, m: Accounts, n: nat)
    requires n <= |tx.keys| && NoRepeats(tx.keys)
    ensures WritableUpTo(tx, m, n) == Sum(m, WritableKeysUpTo(tx, n))
  {
    if n > 0 {
      WritableUpToIsSum(tx, m, n - 1);
      var before, after := WritableKeysUpTo(tx, n - 1), WritableKeysUpTo(tx, n);
      var k := tx.keys[n - 1];
      if tx.IsWritableIndex(n - 1) {
        assert k !in before;
        assert after == before + {k};
        SumTake(m, after, k);
        assert after - {k} == before;
      } else {
        assert after == before;
      }
    }
  }

  /** Accepts exactly the results that leave the writable accounts' lamports unchanged in sum. */
  method VerifyLamportBalance(tx: Tx, pre: Accounts, modified: Accounts) returns (ok: bool)
    requires NoRepeats(tx.keys)
    ensures ok <==> Sum(pre, tx.WritableKeys()) == Sum(pre + modified, tx.WritableKeys())
  {
    var starting, ending := 0, 0;
    for i := 0 to |tx.keys|
      invariant starting == WritableUpTo(tx, pre, i) && ending == WritableUpTo(tx, pre + modified, i)
    {
      if tx.IsWritableIndex(i) {
        var k := tx.keys[i];
        starting := starting + Get(pre, k).lamports;
        ending := ending + if k in modified then modified[k].lamports else Get(pre, k).lamports;
      }
    }
    ok := starting == ending;
    WritableUpToIsSum(tx, pre, |tx.keys|);
    WritableUpToIsSum(tx, pre + modified, |tx.keys|);
    assert WritableKeysUpTo(tx, |tx.keys|) == tx.WritableKeys();
  }

  /** Accounts left without lamports lose their data and owner. */
  function Reclaim(modified: Accounts): Accounts {
    map k | k in modified :: if modified[k].lamports == 0 then NO_ACCOUNT else modified[k]
  }

  // ---- execution ----

  /** Answers of the checks outside this model. `payerMinimum` is what the fee payer must
      keep, or nothing if its kind of account may not pay fees. */
  datatype Checks =
    Checks(admitted: bool, payerMinimum: Option<nat>, rentAllows: bool, loads: bool, outcomeAllowed: bool)

  datatype Execution = Execution(success: bool, modified: Accounts)

  datatype Machine = Machine(check: (Tx, Accounts) -> Checks, execute: (Tx, Accounts) -> Execution)

  /** The machine changes lamports only on writable accounts of the transaction. */
  ghost predicate Faithful(machine: Machine) {
    forall tx, m, k :: k in machine.execute(tx, m).modified && k !in tx.WritableKeys() ==>
      machine.execute(tx, m).modified[k].lamports == Get(m, k).lamports
  }

  datatype TxResult = Rejected | FeesOnly(fee: nat) | Failed(fee: nat) | Succeeded(fee: nat)

  /** What a successful transaction writes: the machine's result, the debited payer and the
      advanced nonce where the machine left them alone, all reclaimed. */
  function Written(payer: Key, paid: Account, nonce: Option<Key>, rollback: Account, modified: Accounts): Accounts {
    var withPayer := if payer in modified then modified else modified[payer := paid];
    var withNonce := if nonce.Some? && nonce.value !in withPayer then withPayer[nonce.value := rollback] else withPayer;
    Reclaim(withNonce)
  }

  lemma WrittenAt(accounts: Accounts, payer: Key, paid: Account, nonce: Option<Key>, rollback: Account,
                  modified: Accounts, k: Key)
    requires nonce.Some? ==> nonce.value in accounts && rollback.lamports == accounts[nonce.value].lamports
    ensures Get(accounts + Written(payer, paid, nonce, rollback, modified), k).lamports
         == Get(accounts[payer := paid] + modified, k).lamports
  {
  }

  /** A balanced result keeps the supply of the debited view. */
  lemma WrittenKeepsSupply(tx: Tx, accounts: Accounts, payer: Key, paid: Account, rollback: Account, modified: Accounts)
    requires tx.nonce.Some? ==> tx.nonce.value in accounts && rollback.lamports == accounts[tx.nonce.value].lamports
    requires var view := accounts[payer := paid];
      && (forall k :: k in modified && k !in tx.WritableKeys() ==> modified[k].lamports == Get(view, k).lamports)
      && Sum(view, tx.WritableKeys()) == Sum(view + modified, tx.WritableKeys())
    ensures Supply(accounts + Written(payer, paid, tx.nonce, rollback, modified)) == Supply(accounts[payer := paid])
  {
    var w := tx.WritableKeys();
    var view := accounts[payer := paid];
    var final := accounts + Written(payer, paid, tx.nonce, rollback, modified);
    forall k
      ensures Get(final, k).lamports == Get(view + modified, k).lamports
    {
      WrittenAt(accounts, payer, paid, tx.nonce, rollback, modified, k);
    }
    hide Written;
    SumAgree(final, view + modified, w);
    SupplyDiffers(view, final, w);
  }

  // ---- the bank ----

  datatype Status = Processing | Frozen | Rooted

  /** The fee payer exists, may pay, and keeps what it must keep. */
  predicate Payable(tx: Tx, checks: Checks, accounts: Accounts)
    requires tx.keys != []
  {
    var payer := Get(accounts, tx.keys[0]);
    && checks.admitted && (tx.nonce.Some? ==> tx.nonce.value in accounts)
    && payer.lamports > 0 && checks.payerMinimum.Some?
    && tx.Fee() <= SaturatingSub(payer.lamports, checks.payerMinimum.value) && checks.rentAllows
  }

  /** The fee payer's account after the fee. */
  function Debited(accounts: Accounts, tx: Tx): Account
    requires tx.keys != []
  {
    var payer := Get(accounts, tx.keys[0]);
    payer.(lamports := SaturatingSub(payer.lamports, tx.Fee()))
  }

  /** The nonce account with its nonce advanced. */
  function Rollback(accounts: Accounts, tx: Tx): Account {
    if tx.nonce.Some? then Get(accounts, tx.nonce.value).(size := NONCE_ACCOUNT_SIZE) else NO_ACCOUNT
  }

  /** The machine succeeds on the debited accounts, and its result is allowed and balanced. */
  ghost predicate WouldSucceed(tx: Tx, machine: Machine, accounts: Accounts)
    requires tx.keys != []
  {
    var view := accounts[tx.keys[0] := Debited(accounts, tx)];
    && machine.execute(tx, view).success && machine.check(tx, accounts).outcomeAllowed
    && Sum(view, tx.WritableKeys()) == Sum(view + machine.execute(tx, view).modified, tx.WritableKeys())
  }

  /** The accounts a landed transaction leaves. */
  ghost function Landed(tx: Tx, machine: Machine, accounts: Accounts): Accounts
    requires tx.keys != []
  {
    var paid := Debited(accounts, tx);
    var view := accounts[tx.keys[0] := paid];
    if WouldSucceed(tx, machine, accounts)
    then accounts + Written(tx.keys[0], paid, tx.nonce, Rollback(accounts, tx), machine.execute(tx, view).modified)
    else FailureWrites(accounts, tx.keys[0], paid, tx.nonce)
  }

  // ---- the same key by key ----

  /** The fee payer's account less the fee. */
  ghost function Charged(tx: Tx, before: Accounts): Account
    requires tx.keys != []
  {
    var payer := Get(before, tx.keys[0]);
    payer.(lamports := SaturatingSub(payer.lamports, tx.executionFee + tx.priorityFee))
  }

  /** What is kept of an account: all of it, or nothing once it has no lamports. */
  ghost function Swept(a: Account): Account {
    if a.lamports > 0 then a else Account(0, SYSTEM_PROGRAM, 0)
  }

  /** What the machine changes when it runs on the charged accounts. */
  ghost function Changes(tx: Tx, machine: Machine, before: Accounts): Accounts
    requires tx.keys != []
  {
    machine.execute(tx, before[tx.keys[0] := Charged(tx, before)]).modified
  }

  /** Key by key, what a successful transaction leaves: what the machine changed, then the charged
      payer, then the nonce account at its full size, each swept; and everything else as it was. */
  ghost predicate SuccessLeaves(tx: Tx, before: Accounts, changed: Accounts, after: Accounts)
    requires tx.keys != []
  {
    forall k ::
      if k in changed then k in after && after[k] == Swept(changed[k])
      else if k == tx.keys[0] then k in after && after[k] == Swept(Charged(tx, before))
      else if tx.nonce == Some(k) then k in after && after[k] == Swept(Get(before, k).(size := 80))
      else (k in after <==> k in before) && (k in before ==> after[k] == before[k])
  }

  /** Key by key, what a failed transaction leaves: the nonce account at its full size, which takes
      precedence, the charged payer, and everything else as it was. */
  ghost predicate FailureLeaves(tx: Tx, before: Accounts, after: Accounts)
    requires tx.keys != []
  {
    forall k ::
      if tx.nonce == Some(k) then k in after && after[k] == Get(before, k).(size := 80)
      else if k == tx.keys[0] then k in after && after[k] == Charged(tx, before)
      else (k in after <==> k in before) && (k in before ==> after[k] == before[k])
  }

  /** The machine succeeds on the charged accounts, its outcome is allowed, and the writable
      accounts hold in sum what they held. */
  ghost predicate Succeeds(tx: Tx, machine: Machine, before: Accounts)
    requires tx.keys != []
  {
    var charged := before[tx.keys[0] := Charged(tx, before)];
    && machine.execute(tx, charged).success && machine.check(tx, before).outcomeAllowed
    && Sum(charged, tx.WritableKeys()) == Sum(charged + Changes(tx, machine, before), tx.WritableKeys())
  }

  /** The payer exists, is of a kind that may pay, and can do without the fee; a durable nonce
      exists; the other checks passed. */
  ghost predicate CanPay(tx: Tx, machine: Machine, before: Accounts)
    requires tx.keys != []
  {
    var checks, lamports := machine.check(tx, before), Get(before, tx.keys[0]).lamports;
    && checks.admitted && checks.rentAllows && (tx.nonce.Some? ==> tx.nonce.value in before)
    && lamports > 0 && checks.payerMinimum.Some?
    && (tx.executionFee + tx.priorityFee == 0 ||
        checks.payerMinimum.value + tx.executionFee + tx.priorityFee <= lamports)
  }

  lemma LandedKeyByKey(tx: Tx, machine: Machine, before: Accounts)
    requires tx.keys != [] && tx.executionFee + tx.priorityFee <= U64_MAX
    requires Payable(tx, machine.check(tx, before), before)
    ensures WouldSucceed(tx, machine, before) <==> Succeeds(tx, machine, before)
    ensures Succeeds(tx, machine, before) ==>
      SuccessLeaves(tx, before, Changes(tx, machine, before), Landed(tx, machine, before))
    ensures !Succeeds(tx, machine, before) ==> FailureLeaves(tx, before, Landed(tx, machine, before))
  {
    assert Debited(before, tx) == Charged(tx, before);
  }

  lemma PayableIff(tx: Tx, machine: Machine, before: Accounts)
    requires tx.keys != [] && tx.executionFee + tx.priorityFee <= U64_MAX
    ensures Payable(tx, machine.check(tx, before), before) <==> CanPay(tx, machine, before)
  {
  }

  /** Which accounts of a transaction are writable: all signers but the last `readonlySigned`, all
      other keys it names but the last `readonlyUnsigned`, and the first of those it looks up. */
  lemma WritableAre(tx: Tx, i: nat)
    ensures var named := if tx.numStaticKeys > 0 then tx.numStaticKeys else |tx.keys|;
      tx.IsWritableIndex(i) <==>
        || (i < named && i < tx.numSignatures && i + tx.readonlySigned < tx.numSignatures)
        || (tx.numSignatures <= i && i + tx.readonlyUnsigned < named)
        || (named <= i < named + tx.writableLookups)
  {
  }

  lemma FaithfulTo(machine: Machine, tx: Tx, m: Accounts)
    requires Faithful(machine)
    ensures forall k :: k in machine.execute(tx, m).modified && k !in tx.WritableKeys() ==>
      machine.execute(tx, m).modified[k].lamports == Get(m, k).lamports
  {
  }

  /** What a failed transaction leaves: the payer debited, then the nonce advanced. */
  function FailureWrites(accounts: Accounts, payer: Key, paid: Account, nonce: Option<Key>): Accounts {
    var debited := accounts[payer := paid];
    if nonce.Some? && nonce.value in accounts
    then debited[nonce.value := accounts[nonce.value].(size := NONCE_ACCOUNT_SIZE)] else debited
  }

  lemma FailureSupply(accounts: Accounts, payer: Key, fee: nat, nonce: Option<Key>)
    requires payer in accounts && fee <= accounts[payer].lamports
    ensures var paid := accounts[payer].(lamports := accounts[payer].lamports - fee);
      Supply(FailureWrites(accounts, payer, paid, nonce)) + (if nonce == Some(payer) then 0 else fee)
        == Supply(accounts)
  {
    var paid := accounts[payer].(lamports := accounts[payer].lamports - fee);
    SupplyStore(accounts, payer, paid);
    if nonce.Some? && nonce.value in accounts {
      SupplyStore(accounts[payer := paid], nonce.value, accounts[nonce.value].(size := NONCE_ACCOUNT_SIZE));
    }
  }

  lemma WrappingExact(a: nat, b: nat)
    requires b <= a <= U64_MAX
    ensures WrappingSub(a, b) == a - b
  {
  }

  class Bank {
    var accounts: Accounts
    var executionFees: nat
    var priorityFees: nat
    var capitalization: nat
    var status: Status

    constructor (accounts: Accounts, total: nat)
      requires total == Supply(accounts) <= U64_MAX
      ensures Balanced() && this.accounts == accounts && status == Processing
      ensures executionFees == 0 && priorityFees == 0 && capitalization == total
    {
      this.accounts := accounts;
      executionFees := 0;
      priorityFees := 0;
      capitalization := total;
      status := Processing;
    }

    /** The recorded total is what accounts hold and what is collected but not yet given out. */
    ghost predicate Balanced()
      reads this
    {
      capitalization == Supply(accounts) + executionFees + priorityFees <= U64_MAX
    }

    /** Every counter fits in 64 bits. */
    ghost predicate Bounded()
      reads this
    {
      Supply(accounts) <= U64_MAX && executionFees <= U64_MAX && priorityFees <= U64_MAX && capitalization <= U64_MAX
    }

    /** Collects the fees of a transaction that landed; the counters wrap. */
    method AddFees(tx: Tx)
      modifies this`executionFees, this`priorityFees
      ensures executionFees == WrappingAdd(old(executionFees), tx.executionFee)
      ensures priorityFees == WrappingAdd(old(priorityFees), tx.priorityFee)
    {
      executionFees := WrappingAdd(executionFees, tx.executionFee);
      priorityFees := WrappingAdd(priorityFees, tx.priorityFee);
    }

    /** Runs a transaction whose payer was found good for the fee and whose accounts loaded. The
        accounts lose the fee, unless it was restored. */
    method Land(tx: Tx, machine: Machine) returns (r: TxResult)
      requires Bounded() && Faithful(machine) && tx.keys != [] && NoRepeats(tx.keys)
      requires tx.executionFee + tx.priorityFee <= U64_MAX
      requires Payable(tx, machine.check(tx, accounts), accounts)
      modifies this`accounts, this`executionFees, this`priorityFees
      ensures r == if WouldSucceed(tx, machine, old(accounts)) then Succeeded(tx.Fee()) else Failed(tx.Fee())
      ensures accounts == Landed(tx, machine, old(accounts))
      ensures r.Succeeded? <==> Succeeds(tx, machine, old(accounts))
      ensures r.Succeeded? ==> SuccessLeaves(tx, old(accounts), Changes(tx, machine, old(accounts)), accounts)
      ensures r.Failed? ==> FailureLeaves(tx, old(accounts), accounts)
      ensures executionFees == WrappingAdd(old(executionFees), tx.executionFee)
      ensures priorityFees == WrappingAdd(old(priorityFees), tx.priorityFee)
      ensures Supply(accounts) + r.fee == old(Supply(accounts)) + RestoredBy(tx, r)
      ensures Bounded()
    {
      hide NoRepeats, Faithful, Written, FailureWrites, SuccessLeaves, FailureLeaves, Succeeds, Changes;
      LandedKeyByKey(tx, machine, accounts);
      var payer, fee, paid := tx.keys[0], tx.Fee(), Debited(accounts, tx);
      var checks := machine.check(tx, accounts);
      SupplyStore(accounts, payer, paid);
      InSupply(accounts, payer);
      var view := accounts[payer := paid];
      var execution := machine.execute(tx, view);
      var ok := execution.success && checks.outcomeAllowed;
      if ok {
        ok := VerifyLamportBalance(tx, view, execution.modified);
      }
      AddFees(tx);
      if !ok {
        FailureSupply(accounts, payer, fee, tx.nonce);
        accounts := FailureWrites(accounts, payer, paid, tx.nonce);
        return Failed(fee);
      }
      FaithfulTo(machine, tx, view);
      WrittenKeepsSupply(tx, accounts, payer, paid, Rollback(accounts, tx), execution.modified);
      accounts := accounts + Written(payer, paid, tx.nonce, Rollback(accounts, tx), execution.modified);
      return Succeeded(fee);
    }

    /** One transaction. What the accounts lose is what is collected, unless the transaction
        fails while its nonce account pays the fee: then the rollback of the nonce restores what
        was paid. A balanced bank stays so with this one exception. */
    method Process(tx: Tx, machine: Machine) returns (r: TxResult)
      requires Bounded() && Faithful(machine) && tx.keys != [] && tx.executionFee + tx.priorityFee <= U64_MAX
      modifies this`accounts, this`executionFees, this`priorityFees
      ensures Bounded()
      ensures old(Balanced()) ==> (Balanced() <==> RestoredBy(tx, r) == 0)
      ensures Supply(accounts) + CollectedBy(r) == old(Supply(accounts)) + RestoredBy(tx, r)
      ensures !r.Rejected? <==>
        && !status.Rooted? && |tx.keys| <= MAX_TRANSACTION_ACCOUNT_LOCKS && NoRepeats(tx.keys)
        && CanPay(tx, machine, old(accounts))
      ensures !r.Rejected? ==> r.fee == tx.executionFee + tx.priorityFee
      ensures !r.Rejected? ==> (r.FeesOnly? <==> !machine.check(tx, old(accounts)).loads)
      ensures r.Rejected? || r.FeesOnly? ==>
        accounts == old(accounts) && executionFees == old(executionFees) && priorityFees == old(priorityFees)
      ensures r.Failed? || r.Succeeded? ==>
        && (r.Succeeded? <==> Succeeds(tx, machine, old(accounts)))
        && (r.Succeeded? ==> SuccessLeaves(tx, old(accounts), Changes(tx, machine, old(accounts)), accounts))
        && (r.Failed? ==> FailureLeaves(tx, old(accounts), accounts))
        && executionFees == WrappingAdd(old(executionFees), tx.executionFee)
        && priorityFees == WrappingAdd(old(priorityFees), tx.priorityFee)
    {
      hide Faithful, WouldSucceed, Landed, SuccessLeaves, FailureLeaves, Succeeds, Changes, Payable, CanPay;
      PayableIff(tx, machine, accounts);
      if status.Rooted? {
        return Rejected;
      }
      var locks := ValidateAccountLocks(tx);
      var checks := machine.check(tx, accounts);
      if locks.Some? || !Payable(tx, checks, accounts) {
        return Rejected;
      }
      if !checks.loads {
        return FeesOnly(tx.Fee());
      }
      r := Land(tx, machine);
      WrappedSum(old(executionFees), old(priorityFees), tx.executionFee, tx.priorityFee);
    }

    /** Gives out the collected fees: half the execution fees are burned, the rest goes to the
        leader, or is burned too if the leader's account may not receive it. Without a leader
        the rest is dropped without being recorded, which unbalances the bank. A frozen or
        rooted bank gives out nothing. */
    method DistributeFees(leader: Option<Key>, minimumBalance: nat -> nat) returns (r: Option<(nat, nat)>)
      requires Balanced()
      modifies this`accounts, this`executionFees, this`priorityFees, this`capitalization
      ensures r.None? <==> status.Frozen? || status.Rooted?
      ensures r.None? ==> unchanged(this)
      ensures r.Some? ==> executionFees == 0 && priorityFees == 0
      ensures r.Some? ==> r.value.0 + r.value.1 == old(executionFees) + old(priorityFees)
      ensures capitalization == old(capitalization) - if r.Some? then r.value.1 else 0
      ensures r.Some? ==>
        var burn := old(executionFees) / 2;
        var share := old(executionFees) - burn + old(priorityFees);
        && (Balanced() <==> leader.Some? || share == 0)
        && (leader.None? ==> accounts == old(accounts) && r.value == (share, burn))
        && (share == 0 ==> accounts == old(accounts) && r.value == (0, burn))
        && (leader.Some? && share > 0 && MayReceive(old(accounts), leader.value, minimumBalance) ==>
              r.value == (share, burn) && accounts == Credited(old(accounts), leader.value, share))
        && (leader.Some? && share > 0 && !MayReceive(old(accounts), leader.value, minimumBalance) ==>
              accounts == old(accounts) && r.value == (0, burn + share))
    {
      if status.Frozen? || status.Rooted? {
        return None;
      }
      var execution, priority := executionFees, priorityFees;
      executionFees, priorityFees := 0, 0;
      if execution == 0 && priority == 0 {
        return Some((0, 0));
      }
      if leader.Some? {
        MayCollectIff(accounts, leader.value, minimumBalance);
      }
      hide WrappingSub, MayCollect, MayReceive;
      var burn := execution / 2;
      var share := SaturatingAdd(priority, execution - burn);
      WrappingExact(capitalization, burn);
      WrappingExact(capitalization - burn, share);
      capitalization := WrappingSub(capitalization, burn);
      if share > 0 && leader.Some? {
        if MayCollect(accounts, leader.value, minimumBalance) {
          Credit(leader.value, share);
        } else {
          capitalization := WrappingSub(capitalization, share);
          return Some((0, SaturatingAdd(burn, share)));
        }
      }
      return Some((share, burn));
    }

    /** Pays an amount out of the recorded total into an account. */
    method Credit(leader: Key, amount: nat)
      requires Supply(accounts) + amount <= U64_MAX
      modifies this`accounts
      ensures Supply(accounts) == old(Supply(accounts)) + amount
      ensures accounts == Credited(old(accounts), leader, amount)
    {
      var account := Get(accounts, leader);
      InSupply(accounts, leader);
      var credited := account.(lamports := SaturatingAdd(account.lamports, amount));
      SupplyStore(accounts, leader, credited);
      accounts := accounts[leader := credited];
    }

    /** Empties the incinerator and takes its lamports out of the total. */
    method RunIncinerator(incinerator: Key)
      requires Balanced()
      modifies this`accounts, this`capitalization
      ensures Balanced() && Get(accounts, incinerator).lamports == 0
      ensures capitalization == old(capitalization) - Get(old(accounts), incinerator).lamports
      ensures accounts == if incinerator in old(accounts)
                          then old(accounts)[incinerator := old(accounts)[incinerator].(lamports := 0)]
                          else old(accounts)
    {
      if incinerator in accounts && accounts[incinerator].lamports > 0 {
        var balance := accounts[incinerator].lamports;
        InSupply(accounts, incinerator);
        SupplyStore(accounts, incinerator, accounts[incinerator].(lamports := 0));
        accounts := accounts[incinerator := accounts[incinerator].(lamports := 0)];
        capitalization := WrappingSub(capitalization, balance);
      }
    }

    /** A batch, one transaction after the other: lamports and collected fees grow by exactly
        what the rollback of nonces restored, as long as that fits in 64 bits, so a balanced bank
        stays balanced iff nothing was restored. The reported fees exceed the collected ones by
        those of the transactions whose accounts did not load. */
    method ProcessBatch(txs: seq<Tx>, machine: Machine) returns (results: seq<TxResult>, totalFees: nat)
      requires Bounded() && Faithful(machine) && forall tx :: tx in txs ==> Payer(tx)
      modifies this`accounts, this`executionFees, this`priorityFees
      ensures Bounded() && |results| == |txs|
      ensures Supply(accounts) + Collected(results) == old(Supply(accounts)) + Restored(txs, results)
      ensures totalFees == Collected(results) + Unpaid(results)
      ensures var before := old(Supply(accounts) + executionFees + priorityFees);
        before + Restored(txs, results) <= U64_MAX ==>
          && executionFees + priorityFees == old(executionFees + priorityFees) + Collected(results)
          && executionFees >= old(executionFees) && priorityFees >= old(priorityFees)
          && Supply(accounts) + executionFees + priorityFees == before + Restored(txs, results)
      ensures old(Balanced()) && capitalization + Restored(txs, results) <= U64_MAX ==>
        (Balanced() <==> Restored(txs, results) == 0)
    {
      results, totalFees := [], 0;
      ghost var before := Supply(accounts) + executionFees + priorityFees;
      for i := 0 to |txs|
        invariant Bounded() && |results| == i
        invariant Supply(accounts) + Collected(results) == old(Supply(accounts)) + Restored(txs[..i], results)
        invariant totalFees == Collected(results) + Unpaid(results)
        invariant before + Restored(txs[..i], results) <= U64_MAX ==>
          && executionFees + priorityFees == old(executionFees + priorityFees) + Collected(results)
          && executionFees >= old(executionFees) && priorityFees >= old(priorityFees)
      {
        assert Payer(txs[i]);
        ghost var e, p := executionFees, priorityFees;
        var r := Process(txs[i], machine);
        WrappedSum(e, p, txs[i].executionFee, txs[i].priorityFee);
        TalliesMore(txs, results, i, r);
        results := results + [r];
        totalFees := totalFees + if r.Rejected? then 0 else r.fee;
      }
      assert txs[..|txs|] == txs;
    }

    /** A slot: a batch, then the fees, then the incinerator. In the end every lamport of the
        recorded total is in an account, unless the bank was frozen or rooted: then the fees
        stay collected and nothing else is lost. */
    method RunSlot(txs: seq<Tx>, machine: Machine, leader: Key, minimumBalance: nat -> nat, incinerator: Key)
      returns (paid: Option<(nat, nat)>)
      requires Balanced() && Faithful(machine) && forall tx :: tx in txs ==> Proper(tx)
      modifies this`accounts, this`executionFees, this`priorityFees, this`capitalization
      ensures Balanced() && capitalization <= old(capitalization)
      ensures paid.Some? <==> status.Processing?
      ensures paid.Some? ==> capitalization == Supply(accounts) && executionFees == 0 && priorityFees == 0
      ensures paid.None? ==> executionFees >= old(executionFees) && priorityFees >= old(priorityFees)
    {
      var results, total := ProcessBatch(txs, machine);
      ProperRestoresNothing(txs, results);
      paid := DistributeFees(Some(leader), minimumBalance);
      RunIncinerator(incinerator);
    }
  }

  // ---- where a bank does not stay balanced ----

  lemma SingleSupply(k: Key, a: Account)
    ensures Supply(map[k := a]) == a.lamports
  {
    var m: Accounts := map[k := a];
    assert m.Keys == {k};
    SumTake(m, {k}, k);
    assert {k} - {k} == {};
  }

  /** The rent minimum of a nonce account. */
  const NONCE_RENT: nat := 1_447_680

  /** A machine on which every transaction fails, if its accounts load at all. */
  function FailingMachine(loads: bool): Machine {
    Machine((tx: Tx, m: Accounts) =>
              Checks(true, Some(if tx.nonce.Some? then NONCE_RENT else 0), true, loads, true),
            (tx: Tx, m: Accounts) => Execution(false, map[]))
  }

  /** One account with two million lamports and a transaction that is to pay a fee of 10 from it. */
  method OnePayment(nonce: Option<Key>, loads: bool) returns (bank: Bank, r: TxResult)
    requires nonce == None || nonce == Some(1)
    ensures fresh(bank) && bank.status.Processing? && bank.capitalization == 2_000_000 && bank.priorityFees == 0
    ensures r == if loads then Failed(10) else FeesOnly(10)
    ensures bank.executionFees == if loads then 10 else 0
    ensures Supply(bank.accounts) == if loads && nonce.None? then 1_999_990 else 2_000_000
  {
    var size := if nonce.Some? then NONCE_ACCOUNT_SIZE else 0;
    var before: Accounts := map[1 := Account(2_000_000, SYSTEM_PROGRAM, size)];
    SingleSupply(1, before[1]);
    bank := new Bank(before, 2_000_000);
    var tx := Tx([1], 1, 0, 0, 1, 0, 10, 0, nonce);
    r := bank.Process(tx, FailingMachine(loads));
    var debited := Account(1_999_990, SYSTEM_PROGRAM, size);
    assert !Succeeds(tx, FailingMachine(loads), before) && Charged(tx, before) == debited;
    assert bank.accounts == if loads then map[1 := if nonce.Some? then before[1] else debited] else before;
    SingleSupply(1, debited);
  }

  /** A nonce account that pays for a failing transaction keeps its lamports, while the fee is
      collected: ten lamports too many. */
  method NoncePayerCreatesLamports() returns (bank: Bank)
    ensures !bank.Balanced()
    ensures Supply(bank.accounts) + bank.executionFees + bank.priorityFees == bank.capitalization + 10
  {
    var r;
    bank, r := OnePayment(Some(1), true);
  }

  /** Without a leader, half of the collected fee disappears: five lamports too few. */
  method LeaderlessFeesVanish() returns (bank: Bank)
    ensures !bank.Balanced()
    ensures Supply(bank.accounts) + bank.executionFees + bank.priorityFees + 5 == bank.capitalization
  {
    var r;
    bank, r := OnePayment(None, true);
    var paid := bank.DistributeFees(None, (size: nat) => 0);
  }

  /** A transaction whose accounts do not load is reported as charged, and neither the payer's
      lamports nor the fee counters change. */
  method ChargedOnPaperOnly() returns (bank: Bank, r: TxResult)
    ensures r == FeesOnly(10) && Supply(bank.accounts) == bank.capitalization
    ensures bank.executionFees == 0 && bank.priorityFees == 0
  {
    bank, r := OnePayment(None, false);
  }

  /** The transaction names a fee payer, and its fees fit in 64 bits. */
  ghost predicate Payer(tx: Tx) {
    tx.keys != [] && tx.executionFee + tx.priorityFee <= U64_MAX
  }

  /** The transaction names a fee payer other than its nonce, and its fees fit in 64 bits. */
  ghost predicate Proper(tx: Tx) {
    Payer(tx) && tx.nonce != Some(tx.keys[0])
  }

  /** The fees of the transactions that were charged on paper only. */
  ghost function Unpaid(results: seq<TxResult>): nat {
    if results == [] then 0
    else
      var last := results[|results| - 1];
      Unpaid(results[..|results| - 1]) + if last.FeesOnly? then last.fee else 0
  }

  /** The fee of a transaction that landed. */
  ghost function CollectedBy(r: TxResult): nat {
    if r.Failed? || r.Succeeded? then r.fee else 0
  }

  /** The fee that the rollback of the nonce gives back: of a failed transaction that its own
      nonce account pays for. */
  ghost function RestoredBy(tx: Tx, r: TxResult): nat {
    if r.Failed? && tx.keys != [] && tx.nonce == Some(tx.keys[0]) then r.fee else 0
  }

  ghost function Collected(results: seq<TxResult>): nat {
    if results == [] then 0
    else Collected(results[..|results| - 1]) + CollectedBy(results[|results| - 1])
  }

  ghost function Restored(txs: seq<Tx>, results: seq<TxResult>): nat
    requires |txs| == |results|
  {
    if txs == [] then 0
    else
      var last := |txs| - 1;
      Restored(txs[..last], results[..last]) + RestoredBy(txs[last], results[last])
  }

  lemma TalliesMore(txs: seq<Tx>, results: seq<TxResult>, i: nat, r: TxResult)
    requires i < |txs| && |results| == i
    ensures Collected(results + [r]) == Collected(results) + CollectedBy(r)
    ensures Unpaid(results + [r]) == Unpaid(results) + if r.FeesOnly? then r.fee else 0
    ensures Restored(txs[..i + 1], results + [r]) == Restored(txs[..i], results) + RestoredBy(txs[i], r)
  {
    assert (results + [r])[..i] == results && txs[..i + 1][..i] == txs[..i];
  }

  lemma {:induction false} ProperRestoresNothing(txs: seq<Tx>, results: seq<TxResult>)
    requires |txs| == |results| && forall tx :: tx in txs ==> Proper(tx)
    ensures Restored(txs, results) == 0
  {
    if txs != [] {
      var last := |txs| - 1;
      assert Proper(txs[last]);
      ProperRestoresNothing(txs[..last], results[..last]);
    }
  }

  /** Two wrapping counters add up exactly as long as the sum fits, and never seem unchanged
      unless nothing was added. */
  lemma WrappedSum(e: nat, p: nat, x: nat, y: nat)
    requires e <= U64_MAX && p <= U64_MAX && x + y <= U64_MAX
    ensures e + p + x + y <= U64_MAX ==> WrappingAdd(e, x) == e + x && WrappingAdd(p, y) == p + y
    ensures x + y > 0 ==> WrappingAdd(e, x) + WrappingAdd(p, y) != e + p
  {
  }

  /** One account holds more. */
  ghost function Credited(accounts: Accounts, k: Key, amount: nat): Accounts {
    accounts[k := Get(accounts, k).(lamports := Get(accounts, k).lamports + amount)]
  }

  /** One more lamport leaves a new account, or one of the system program at its rent minimum. */
  ghost predicate MayReceive(accounts: Accounts, leader: Key, minimumBalance: nat -> nat) {
    leader in accounts ==>
      && accounts[leader].owner == SYSTEM_PROGRAM
      && minimumBalance(accounts[leader].size) <= U64_MAX
      && minimumBalance(accounts[leader].size) <= accounts[leader].lamports + 1
  }

  lemma MayCollectIff(accounts: Accounts, leader: Key, minimumBalance: nat -> nat)
    ensures MayCollect(accounts, leader, minimumBalance) <==> MayReceive(accounts, leader, minimumBalance)
  {
  }

  /** The leader's account is new, or owned by the system program and rent exempt. */
  predicate MayCollect(accounts: Accounts, leader: Key, minimumBalance: nat -> nat) {
    leader !in accounts
    || (accounts[leader].owner == SYSTEM_PROGRAM
        && SaturatingAdd(accounts[leader].lamports, 1) >= minimumBalance(accounts[leader].size))
  }
}
