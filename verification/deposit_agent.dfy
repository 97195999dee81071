/**
 * The deposit monitor's transaction handler. For every `Deposited` log the
 * configured contract emitted in a transaction it raises a "New deposit!"
 * finding, a small-deposit finding when the amount is below the network's
 * minimum, and a blacklist finding when the sender is blacklisted, in that
 * order. Amounts and the minimum are integer wei.
 */
module DepositAgent {
  import opened Wrappers
  import opened Findings

  /** The event a log carries: `Deposited(uint256 amount)` or any other. */
  datatype EventKind = Deposited | OtherEvent(signature: string)

  /** A log as the handler sees it: who emitted it, which event, and the deposited amount. */
  datatype Log = Log(emitter: string, event: EventKind, amount: nat)

  /** The per-network configuration. */
  datatype NetworkData = NetworkData(address: string, minimumDepositAmount: nat, blacklistedAddresses: seq<string>)

  /** The part of a transaction the handler reads: its sender and its logs. */
  datatype TransactionEvent = TransactionEvent(from: string, logs: seq<Log>)

  /** A `Deposited` log emitted by `address`. */
  predicate IsDeposit(log: Log, address: string)
  {
    log.event == Deposited && log.emitter == address
  }

  /** `filterLog` for the `Deposited` event at `address`: the matching logs, in order. */
  function DepositLogs(logs: seq<Log>, address: string): (deposits: seq<Log>)
    ensures |deposits| <= |logs|
    ensures forall i :: 0 <= i < |deposits| ==> IsDeposit(deposits[i], address) && deposits[i] in logs
    ensures forall log :: log in logs && IsDeposit(log, address) ==> log in deposits
    ensures |logs| == 1 ==> deposits == if IsDeposit(logs[0], address) then logs else []
  {
    if logs == [] then []
    else
      var last := logs[|logs| - 1];
      DepositLogs(logs[..|logs| - 1], address) + (if IsDeposit(last, address) then [last] else [])
  }

  /**
   * The filter works log by log: filtering two stretches of logs one after
   * the other is filtering them together, so the kept logs keep their order
   * and their repetitions.
   */
  lemma {:induction false} DepositLogsAppend(a: seq<Log>, b: seq<Log>, address: string)
    ensures DepositLogs(a + b, address) == DepositLogs(a, address) + DepositLogs(b, address)
  {
    if b == [] {
      assert a + b == a;
    } else {
      var front, last := b[..|b| - 1], b[|b| - 1];
      var kept := if IsDeposit(last, address) then [last] else [];
      DepositLogsAppend(a, front, address);
      assert (a + b)[..|a + b| - 1] == a + front;
      assert (a + b)[|a + b| - 1] == last;
      calc {
        DepositLogs(a + b, address);
        DepositLogs(a + front, address) + kept;
        DepositLogs(a, address) + DepositLogs(front, address) + kept;
        { assert DepositLogs(b, address) == DepositLogs(front, address) + kept; }
        DepositLogs(a, address) + DepositLogs(b, address);
      }
    }
  }

  /** Without a matching log the filter keeps nothing. */
  lemma {:induction false} NoDepositLogs(logs: seq<Log>, address: string)
    requires forall i :: 0 <= i < |logs| ==> !IsDeposit(logs[i], address)
    ensures DepositLogs(logs, address) == []
  {
    if logs != [] {
      NoDepositLogs(logs[..|logs| - 1], address);
    }
  }

  const DEPOSIT_DESCRIPTION: string := "New deposit!"
  const SMALL_DEPOSIT_DESCRIPTION: string := "Someone deposited a very small amount"
  const BLACKLIST_DESCRIPTION: string := "Blacklisted addresses deposit!"

  /** Finding 001, raised for every deposit. */
  function DepositFinding(from: string, amount: nat): Finding
  {
    CreateFinding(FindingParams(A001, from, amount, DEPOSIT_DESCRIPTION, Low, InfoType))
  }

  /** Finding 002, raised for a deposit below the minimum. */
  function SmallDepositFinding(from: string, amount: nat): Finding
  {
    CreateFinding(FindingParams(A002, from, amount, SMALL_DEPOSIT_DESCRIPTION, Medium, Suspicious))
  }

  /** Finding 003, raised for a deposit from a blacklisted sender. */
  function BlacklistFinding(from: string, amount: nat): Finding
  {
    CreateFinding(FindingParams(A003, from, amount, BLACKLIST_DESCRIPTION, Critical, Exploit))
  }

  /** The deposit is below the network's minimum. */
  predicate IsSmall(net: NetworkData, amount: nat)
  {
    amount < net.minimumDepositAmount
  }

  /** The sender is on the network's blacklist. */
  predicate IsBlacklisted(net: NetworkData, from: string)
  {
    from in net.blacklistedAddresses
  }

  /** The findings one deposit log raises. */
  function LogFindings(net: NetworkData, from: string, log: Log): seq<Finding>
  {
    [DepositFinding(from, log.amount)]
    + (if IsSmall(net, log.amount) then [SmallDepositFinding(from, log.amount)] else [])
    + (if IsBlacklisted(net, from) then [BlacklistFinding(from, log.amount)] else [])
  }

  /** The findings of a list of deposit logs, log after log. */
  function FindingsFor(net: NetworkData, from: string, deposits: seq<Log>): seq<Finding>
  {
    if deposits == [] then []
    else FindingsFor(net, from, deposits[..|deposits| - 1]) + LogFindings(net, from, deposits[|deposits| - 1])
  }

  /**
   * `provideHandleTransaction(networkManager)(txEvent)`: for each deposit
   * log, in order, push the deposit finding, then the small-deposit finding
   * if the amount is below the minimum, then the blacklist finding if the
   * sender is blacklisted.
   */
  method HandleTransaction(net: NetworkData, txEvent: TransactionEvent) returns (findings: seq<Finding>)
    ensures findings == FindingsFor(net, txEvent.from, DepositLogs(txEvent.logs, net.address))
  {
    findings := [];
    var depositLogs := DepositLogs(txEvent.logs, net.address);
    for i := 0 to |depositLogs|
      invariant findings == FindingsFor(net, txEvent.from, depositLogs[..i])
    {
      ghost var before := findings;
      var log := depositLogs[i];
      var amount := log.amount;
      findings := findings + [DepositFinding(txEvent.from, amount)];
      if amount < net.minimumDepositAmount {
        findings := findings + [SmallDepositFinding(txEvent.from, amount)];
      }
      if txEvent.from in net.blacklistedAddresses {
        findings := findings + [BlacklistFinding(txEvent.from, amount)];
      }
      assert findings == before + LogFindings(net, txEvent.from, log);
      FindingsForStep(net, txEvent.from, depositLogs, i);
    }
    assert depositLogs[..|depositLogs|] == depositLogs;
  }

  /** The findings of the first i + 1 deposits extend those of the first i by the findings of deposit i. */
  lemma FindingsForStep(net: NetworkData, from: string, deposits: seq<Log>, i: nat)
    requires i < |deposits|
    ensures FindingsFor(net, from, deposits[..i + 1]) == FindingsFor(net, from, deposits[..i]) + LogFindings(net, from, deposits[i])
  {
    assert deposits[..i + 1][..i] == deposits[..i];
  }

  /** The alert codes of a list of findings, in order (`None` for a foreign id). */
  function Codes(findings: seq<Finding>): seq<Option<AlertCode>>
  {
    seq(|findings|, i requires 0 <= i < |findings| => ParseAlertId(findings[i].alertId))
  }

  /**
   * One deposit raises the deposit alert first, the small-deposit alert
   * exactly when the amount is below the minimum, the blacklist alert
   * exactly when the sender is blacklisted, in that order, each carrying the
   * sender and the amount.
   */
  lemma LogFindingsShape(net: NetworkData, from: string, log: Log)
    ensures var fs := LogFindings(net, from, log);
      && 1 <= |fs| <= 3
      && Codes(fs)[0] == Some(A001)
      && (Some(A002) in Codes(fs) <==> log.amount < net.minimumDepositAmount)
      && (Some(A003) in Codes(fs) <==> from in net.blacklistedAddresses)
      && (forall i, j :: 0 <= i < j < |fs| ==>
            Codes(fs)[i].Some? && Codes(fs)[j].Some? && Rank(Codes(fs)[i].value) < Rank(Codes(fs)[j].value))
      && (forall f :: f in fs ==> f.metadata == Metadata(from, log.amount))
  {
    AlertIdRoundTrip(A001);
    AlertIdRoundTrip(A002);
    AlertIdRoundTrip(A003);
    var fs := LogFindings(net, from, log);
    var small, black := IsSmall(net, log.amount), IsBlacklisted(net, from);
    var codes := [Some(A001)] + (if small then [Some(A002)] else []) + (if black then [Some(A003)] else []);
    assert Codes(fs) == codes;
  }

  /** n deposit logs raise between n and 3n findings. */
  lemma {:induction false} FindingsCountBounds(net: NetworkData, from: string, deposits: seq<Log>)
    ensures |deposits| <= |FindingsFor(net, from, deposits)| <= 3 * |deposits|
  {
    if deposits != [] {
      FindingsCountBounds(net, from, deposits[..|deposits| - 1]);
    }
  }

  /** Every finding of a transaction carries its sender and the amount of one of its deposits. */
  lemma {:induction false} FindingsCarryDeposit(net: NetworkData, from: string, deposits: seq<Log>)
    ensures forall f :: f in FindingsFor(net, from, deposits) ==>
      f.metadata.account == from && exists log :: log in deposits && f.metadata.depositedAmount == log.amount
  {
    if deposits != [] {
      var front, last := deposits[..|deposits| - 1], deposits[|deposits| - 1];
      FindingsCarryDeposit(net, from, front);
      forall f | f in FindingsFor(net, from, deposits)
        ensures f.metadata.account == from && exists log :: log in deposits && f.metadata.depositedAmount == log.amount
      {
        if f in FindingsFor(net, from, front) {
          var log :| log in front && f.metadata.depositedAmount == log.amount;
          assert log in deposits;
        } else {
          assert f in LogFindings(net, from, last);
        }
      }
    }
  }

  /** The number of findings raising `code`. */
  function CountCode(findings: seq<Finding>, code: AlertCode): nat
  {
    if findings == [] then 0
    else CountCode(findings[..|findings| - 1], code)
         + (if ParseAlertId(findings[|findings| - 1].alertId) == Some(code) then 1 else 0)
  }

  lemma {:induction false} CountCodeAppend(a: seq<Finding>, b: seq<Finding>, code: AlertCode)
    ensures CountCode(a + b, code) == CountCode(a, code) + CountCode(b, code)
  {
    if b != [] {
      CountCodeAppend(a, b[..|b| - 1], code);
      assert (a + b)[..|a + b| - 1] == a + b[..|b| - 1];
    } else {
      assert a + b == a;
    }
  }

  /** The number of deposits below the minimum. */
  function CountSmall(net: NetworkData, deposits: seq<Log>): nat
  {
    if deposits == [] then 0
    else CountSmall(net, deposits[..|deposits| - 1]) + (if IsSmall(net, deposits[|deposits| - 1].amount) then 1 else 0)
  }

  /**
   * Over a whole transaction: one deposit alert per deposit log, one
   * small-deposit alert per deposit below the minimum, and one blacklist
   * alert per deposit when the sender is blacklisted (none otherwise).
   */
  lemma {:induction false} FindingsPerCode(net: NetworkData, from: string, deposits: seq<Log>)
    ensures CountCode(FindingsFor(net, from, deposits), A001) == |deposits|
    ensures CountCode(FindingsFor(net, from, deposits), A002) == CountSmall(net, deposits)
    ensures CountCode(FindingsFor(net, from, deposits), A003) == if IsBlacklisted(net, from) then |deposits| else 0
  {
    if deposits != [] {
      var front, last := deposits[..|deposits| - 1], deposits[|deposits| - 1];
      FindingsPerCode(net, from, front);
      AlertIdRoundTrip(A001);
      AlertIdRoundTrip(A002);
      AlertIdRoundTrip(A003);
      var one := LogFindings(net, from, last);
      forall code
        ensures CountCode(FindingsFor(net, from, deposits), code)
                == CountCode(FindingsFor(net, from, front), code) + CountCode(one, code)
      {
        CountCodeAppend(FindingsFor(net, from, front), one, code);
      }
      LogCodeCounts(net, from, last);
    }
  }

  /** The codes one deposit raises, counted. */
  lemma LogCodeCounts(net: NetworkData, from: string, log: Log)
    ensures CountCode(LogFindings(net, from, log), A001) == 1
    ensures CountCode(LogFindings(net, from, log), A002) == if IsSmall(net, log.amount) then 1 else 0
    ensures CountCode(LogFindings(net, from, log), A003) == if IsBlacklisted(net, from) then 1 else 0
  {
    AlertIdRoundTrip(A001);
    AlertIdRoundTrip(A002);
    AlertIdRoundTrip(A003);
    var d, s, b := DepositFinding(from, log.amount), SmallDepositFinding(from, log.amount), BlacklistFinding(from, log.amount);
    CountCodeAppend([d], [s], A001);
    CountCodeAppend([d], [s], A002);
    CountCodeAppend([d], [s], A003);
    var ds := [d] + (if IsSmall(net, log.amount) then [s] else []);
    CountCodeAppend(ds, [b], A001);
    CountCodeAppend(ds, [b], A002);
    CountCodeAppend(ds, [b], A003);
  }
}
