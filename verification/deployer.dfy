/** The deployer contract: it instantiates new ERC-20 ledgers from one fixed code hash
    and keeps the addresses in an append-only registry. Address derivation, collision
    detection and the running of the ledger's constructor belong to the runtime and are
    the `Instantiator` parameter. */
module Deployer {
  import opened Runtime
  import LeBytes

  datatype DeployerContract = DeployerContract(deployedContracts: seq<AccountId>)

  /** The arguments of the ledger constructor `Erc20Ref::new`. */
  datatype Erc20Params = Erc20Params(totalSupply: U128, name: Option<string>, symbol: Option<string>)

  /** The runtime's instantiation service: given a code hash, an endowment, salt bytes
      and constructor arguments it yields the new instance's address, or `None` when
      instantiation fails. */
  type Instantiator = (Hash, U128, Bytes, Erc20Params) -> Option<AccountId>

  /** `erc20_code_hash`: the fixed code hash every ledger is instantiated from. */
  const Erc20CodeHash: Hash := [
    0xf5, 0x7c, 0xc5, 0xb3, 0x4d, 0x13, 0xac, 0xd0,
    0x93, 0x59, 0xec, 0xd0, 0xa4, 0xbd, 0x0f, 0xf6,
    0x22, 0xea, 0x8d, 0x3b, 0x94, 0x1b, 0xda, 0x65,
    0xc1, 0x28, 0x7c, 0x8c, 0x7c, 0xba, 0x51, 0xf5
  ]

  /** The endowment passed with every instantiation. */
  const Endowment: U128 := 0

  /** Constructor `new`: an empty registry. */
  function New(): (r: DeployerContract)
    ensures |GetDeployedContracts(r)| == 0
  {
    DeployerContract([])
  }

  /** Message `get_deployed_contracts`. */
  function GetDeployedContracts(d: DeployerContract): seq<AccountId> {
    d.deployedContracts
  }

  /** The instantiation request `deploy_erc20` builds: fixed code hash, zero endowment,
      the salt's little-endian bytes and the constructor arguments. */
  function Request(instantiate: Instantiator, totalSupply: U128, name: Option<string>, symbol: Option<string>, salt: U64): Option<AccountId> {
    instantiate(Erc20CodeHash, Endowment, LeBytes.ToLeBytes(salt), Erc20Params(totalSupply, name, symbol))
  }

  /** Message `deploy_erc20`. When instantiation fails the call traps (and is rolled
      back); otherwise the new address is appended to the registry, after all earlier
      entries in their order, and returned. */
  function DeployErc20(d: DeployerContract, instantiate: Instantiator, totalSupply: U128,
                       name: Option<string>, symbol: Option<string>, salt: U64): (r: Exec<DeployerContract, AccountId>)
    ensures r.Trapped? <==> Request(instantiate, totalSupply, name, symbol, salt).None?
    ensures r.Done? ==> r.ret == Request(instantiate, totalSupply, name, symbol, salt).value
    ensures r.Done? ==> |GetDeployedContracts(r.post)| == |GetDeployedContracts(d)| + 1
    ensures r.Done? ==> GetDeployedContracts(r.post)[..|GetDeployedContracts(d)|] == GetDeployedContracts(d)
    ensures r.Done? ==> GetDeployedContracts(r.post)[|GetDeployedContracts(d)|] == r.ret
  {
    var saltBytes := LeBytes.ToLeBytes(salt);
    match instantiate(Erc20CodeHash, Endowment, saltBytes, Erc20Params(totalSupply, name, symbol))
    case None => Trapped
    case Some(address) =>
      Done(d.(deployedContracts := d.deployedContracts + [address]), address)
  }

  /** One `deploy_erc20` call. */
  datatype DeployCall = DeployCall(totalSupply: U128, name: Option<string>, symbol: Option<string>, salt: U64)

  /** The deployer after the calls `calls` in order; a trapped call is rolled back.
      Call `i` sees the instantiation service as the runtime stands at that moment,
      `services[i]`, so the service may answer differently as instances accumulate. */
  function RunDeploys(d: DeployerContract, services: seq<Instantiator>, calls: seq<DeployCall>): DeployerContract
    requires |services| == |calls|
    decreases |calls|
  {
    if calls == [] then d
    else
      var c := calls[0];
      var r := DeployErc20(d, services[0], c.totalSupply, c.name, c.symbol, c.salt);
      RunDeploys(if r.Done? then r.post else d, services[1..], calls[1..])
  }

  /** The addresses the successful calls among `calls` return, in call order. */
  function Returned(services: seq<Instantiator>, calls: seq<DeployCall>): seq<AccountId>
    requires |services| == |calls|
    decreases |calls|
  {
    if calls == [] then []
    else
      var c := calls[0];
      var out := Request(services[0], c.totalSupply, c.name, c.symbol, c.salt);
      (if out.Some? then [out.value] else []) + Returned(services[1..], calls[1..])
  }

  /** The registry is append-only: after any sequence of deploys it is the old registry
      followed by exactly the addresses the successful deploys returned, in call order.
      Failed deploys leave no trace. */
  lemma {:induction false} RunDeploysAppends(d: DeployerContract, services: seq<Instantiator>, calls: seq<DeployCall>)
    requires |services| == |calls|
    ensures GetDeployedContracts(RunDeploys(d, services, calls))
         == GetDeployedContracts(d) + Returned(services, calls)
    decreases |calls|
  {
    if calls != [] {
      var c := calls[0];
      var r := DeployErc20(d, services[0], c.totalSupply, c.name, c.symbol, c.salt);
      var d' := if r.Done? then r.post else d;
      RunDeploysAppends(d', services[1..], calls[1..]);
      if r.Done? {
        assert d'.deployedContracts == d.deployedContracts + [r.ret];
      }
    }
  }

  /** A deterministic runtime: the address is derived from the request alone, and
      instantiation fails when an instance already lives at that address. */
  function DeterministicService(derive: (Hash, U128, Bytes, Erc20Params) -> AccountId, taken: set<AccountId>): Instantiator {
    (h: Hash, e: U128, b: Bytes, p: Erc20Params) =>
      var address := derive(h, e, b, p);
      if address in taken then None else Some(address)
  }

  /** Under a deterministic runtime, a deploy succeeds at the derived address, and
      repeating it with the same arguments and salt then traps, leaving the registry
      with the one entry the first call recorded. */
  lemma RepeatedDeployTraps(d: DeployerContract, derive: (Hash, U128, Bytes, Erc20Params) -> AccountId,
                            taken: set<AccountId>, totalSupply: U128, name: Option<string>,
                            symbol: Option<string>, salt: U64)
    requires derive(Erc20CodeHash, Endowment, LeBytes.ToLeBytes(salt), Erc20Params(totalSupply, name, symbol)) !in taken
    ensures var address := derive(Erc20CodeHash, Endowment, LeBytes.ToLeBytes(salt), Erc20Params(totalSupply, name, symbol));
      var first := DeployErc20(d, DeterministicService(derive, taken), totalSupply, name, symbol, salt);
      && first == Done(DeployerContract(d.deployedContracts + [address]), address)
      && DeployErc20(first.post, DeterministicService(derive, taken + {address}), totalSupply, name, symbol, salt).Trapped?
      && RunDeploys(d, [DeterministicService(derive, taken), DeterministicService(derive, taken + {address})],
                    [DeployCall(totalSupply, name, symbol, salt), DeployCall(totalSupply, name, symbol, salt)])
         == first.post
  {
    var address := derive(Erc20CodeHash, Endowment, LeBytes.ToLeBytes(salt), Erc20Params(totalSupply, name, symbol));
    var c := DeployCall(totalSupply, name, symbol, salt);
    var services := [DeterministicService(derive, taken), DeterministicService(derive, taken + {address})];
    var first := DeployErc20(d, services[0], totalSupply, name, symbol, salt);
    assert services[1..] == [services[1]];
    assert [c, c][1..] == [c];
    assert RunDeploys(d, services, [c, c]) == RunDeploys(first.post, [services[1]], [c]);
    assert RunDeploys(first.post, [services[1]], [c]) == RunDeploys(first.post, [], []);
  }

  /** Two deploys that differ only in their salt ask the runtime for two instances with
      different salt bytes, so a deterministic address scheme can tell them apart. */
  lemma DistinctSaltsDistinctRequests(salt1: U64, salt2: U64)
    requires salt1 != salt2
    ensures LeBytes.ToLeBytes(salt1) != LeBytes.ToLeBytes(salt2)
  {
  }
}
