/**
 * The deposit monitor's configured network and the three transactions its
 * test suite hands the handler, with the findings each one produces.
 * Ether amounts are written in wei (1 ether = 10^18 wei).
 */
module DepositScenarios {
  import opened Findings
  import opened DepositAgent

  const WEI_PER_ETHER: nat := 1_000_000_000_000_000_000

  /** The monitored deposit contract on chain 80001. */
  const DEPOSIT_CONTRACT: string := "0xa87db9fe057cff6e296586bec6a6982a5a9b44b0"
  const BLACKLISTED_0: string := "0x7c71a3d85a8d620eeab9339cce776ddc14a8129c"
  const BLACKLISTED_1: string := "0x17156c0cf9701b09114cb3619d9f3fd937caa3a8"

  /** The configuration of chain 80001: a minimum deposit of 0.01 ether and two blacklisted senders. */
  const MUMBAI: NetworkData := NetworkData(DEPOSIT_CONTRACT, WEI_PER_ETHER / 100, [BLACKLISTED_0, BLACKLISTED_1])

  /** `createAddress("0x0d")`: an address that is not the deposit contract. */
  const WRONG_ADDRESS: string := "0x000000000000000000000000000000000000000d"

  /** 0.001 ether, the amount every test deposit carries. */
  const TEST_AMOUNT: nat := WEI_PER_ETHER / 1000

  /** The three findings a blacklisted sender's 0.001 ether deposit raises, in order. */
  const EXPECTED_FINDINGS: seq<Finding> := [
    CreateFinding(FindingParams(A001, BLACKLISTED_0, TEST_AMOUNT, "New deposit!", Low, InfoType)),
    CreateFinding(FindingParams(A002, BLACKLISTED_0, TEST_AMOUNT, "Someone deposited a very small amount", Medium, Suspicious)),
    CreateFinding(FindingParams(A003, BLACKLISTED_0, TEST_AMOUNT, "Blacklisted addresses deposit!", Critical, Exploit))
  ]

  /** A `Transfer` log from another contract raises nothing, even for a blacklisted sender. */
  method DifferentEventTest() returns (findings: seq<Finding>)
    ensures findings == []
  {
    var log := Log(WRONG_ADDRESS, OtherEvent("Transfer(address,address,uint256)"), TEST_AMOUNT);
    findings := HandleTransaction(MUMBAI, TransactionEvent(BLACKLISTED_0, [log]));
    NoDepositLogs([log], MUMBAI.address);
  }

  /** A `Deposited` log emitted by another contract raises nothing. */
  method DifferentContractTest() returns (findings: seq<Finding>)
    ensures findings == []
  {
    var log := Log(WRONG_ADDRESS, Deposited, TEST_AMOUNT);
    findings := HandleTransaction(MUMBAI, TransactionEvent(BLACKLISTED_0, [log]));
    NoDepositLogs([log], MUMBAI.address);
  }

  /** A blacklisted sender's 0.001 ether deposit to the contract raises all three findings. */
  method ThreeFindingsTest() returns (findings: seq<Finding>)
    ensures findings == EXPECTED_FINDINGS
  {
    var log := Log(DEPOSIT_CONTRACT, Deposited, TEST_AMOUNT);
    findings := HandleTransaction(MUMBAI, TransactionEvent(BLACKLISTED_0, [log]));
    assert DepositLogs([log], MUMBAI.address) == [log];
    assert [log][..0] == [];
  }
}
