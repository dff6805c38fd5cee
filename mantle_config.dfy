/** The Mantle part of the chain configuration: the rollup parameters, the
    queries made on them, the compatibility check between a stored and a new
    configuration, and the parameter presets of the known networks. */
module MantleConfig {
  import opened Common

  datatype MantleChainParams = MantleChainParams(
    enableMtOS: bool,
    allowDebugPrecompiles: bool,
    dataAvailabilityCommittee: bool,
    initialMtOSVersion: u64,
    initialChainOwner: Address,
    genesisBlockNum: u64)

  /** `ChainConfig`, reduced to its Mantle parameters. */
  datatype ChainConfig = ChainConfig(mantleChainParams: MantleChainParams)

  /** `ConfigCompatError` without its rewind target. */
  datatype ConfigCompatError = ConfigCompatError(what: string, storedBlock: nat, newBlock: nat)

  function IsMantle(c: ChainConfig): bool
  {
    c.mantleChainParams.enableMtOS
  }

  function DebugMode(c: ChainConfig): bool
  {
    c.mantleChainParams.allowDebugPrecompiles
  }

  /** `isForked(s, head)`: a fork scheduled at block `s` is active at `head`;
      an absent head means no fork is active. */
  function IsForked(s: nat, head: BigInt): bool
  {
    head.Some? && s <= head.value
  }

  function IsMantleMantle(c: ChainConfig, num: BigInt): bool
  {
    IsMantle(c) && IsForked(c.mantleChainParams.genesisBlockNum, num)
  }

  /** `checkMantleCompatible`: `None` for compatible configurations. A switch
      of the Mantle flag is reported at the genesis block; two Mantle
      configurations must agree on the Mantle genesis block. */
  function CheckMantleCompatible(c: ChainConfig, newcfg: ChainConfig, head: BigInt): (r: Option<ConfigCompatError>)
    ensures r.Some? ==> r.value.what == "isMantle" || r.value.what == "genesisblocknum"
  {
    if IsMantle(c) != IsMantle(newcfg) then
      Some(ConfigCompatError("isMantle", 0, 0))
    else if !IsMantle(c) then
      None
    else if c.mantleChainParams.genesisBlockNum != newcfg.mantleChainParams.genesisBlockNum then
      Some(ConfigCompatError("genesisblocknum", c.mantleChainParams.genesisBlockNum,
        newcfg.mantleChainParams.genesisBlockNum))
    else
      None
  }

  // ---------------------------------------------------------------------
  // Presets.

  datatype Preset =
    | One | Nova | RollupGoerliTestnet | RinkebyTest | DevTest | DevTestDAS
    | AnytrustGoerliTestnet | Disable

  const OneChainOwner: Address := [0xd3, 0x45, 0xe4, 0x1a, 0xe2, 0xcb, 0x00, 0x31, 0x19, 0x56,
    0xaa, 0x71, 0x09, 0xfc, 0x80, 0x1a, 0xe8, 0xc8, 0x1a, 0x52]
  const NovaChainOwner: Address := [0x9c, 0x04, 0x07, 0x26, 0xf2, 0xa6, 0x57, 0x22, 0x6e, 0xd9,
    0x57, 0x12, 0x24, 0x5d, 0xee, 0x84, 0xb6, 0x50, 0xa1, 0xb5]
  const GoerliChainOwner: Address := [0x18, 0x6b, 0x56, 0x02, 0x3d, 0x42, 0xb2, 0xb4, 0xe7, 0x61,
    0x65, 0x89, 0xa5, 0xc6, 0x2e, 0xef, 0x5f, 0xca, 0x21, 0xdd]
  const RinkebyChainOwner: Address := [0x06, 0xc7, 0xdb, 0xc8, 0x04, 0xd7, 0xbc, 0xd8, 0x81, 0xd7,
    0xb8, 0x6b, 0x66, 0x78, 0x93, 0x73, 0x6b, 0x8e, 0x0b, 0xe2]

  /** The parameter presets; none sets a Mantle genesis block, so it is 0. */
  function PresetParams(p: Preset): MantleChainParams
  {
    match p
    case One => MantleChainParams(true, false, false, 6, OneChainOwner, 0)
    case Nova => MantleChainParams(true, false, true, 1, NovaChainOwner, 0)
    case RollupGoerliTestnet => MantleChainParams(true, false, false, 2, GoerliChainOwner, 0)
    case RinkebyTest => MantleChainParams(true, false, false, 3, RinkebyChainOwner, 0)
    case DevTest => MantleChainParams(true, true, false, 7, ZeroAddress, 0)
    case DevTestDAS => MantleChainParams(true, true, true, 7, ZeroAddress, 0)
    case AnytrustGoerliTestnet => MantleChainParams(true, false, true, 2, GoerliChainOwner, 0)
    case Disable => MantleChainParams(false, false, false, 0, ZeroAddress, 0)
  }

  // ---------------------------------------------------------------------
  // Properties.

  /** `IsMantleMantle(num)`: Mantle is enabled and a block number is given
      that is at least the Mantle genesis block. */
  lemma IsMantleMantleIff(c: ChainConfig, num: BigInt)
    ensures IsMantleMantle(c, num) <==>
      c.mantleChainParams.enableMtOS && num.Some? && c.mantleChainParams.genesisBlockNum <= num.value
    ensures IsMantleMantle(c, num) ==> IsMantle(c)
  {
  }

  /** Once active, Mantle stays active at every later block. */
  lemma IsMantleMantleMonotone(c: ChainConfig, n: nat, m: nat)
    requires n <= m && IsMantleMantle(c, Some(n))
    ensures IsMantleMantle(c, Some(m))
  {
  }

  /** The error cases and their contents, exactly. */
  lemma CheckMantleCompatibleCases(c: ChainConfig, newcfg: ChainConfig, head: BigInt)
    ensures IsMantle(c) != IsMantle(newcfg) ==>
      CheckMantleCompatible(c, newcfg, head) == Some(ConfigCompatError("isMantle", 0, 0))
    ensures !IsMantle(c) && !IsMantle(newcfg) ==> CheckMantleCompatible(c, newcfg, head) == None
    ensures IsMantle(c) && IsMantle(newcfg) ==>
      (CheckMantleCompatible(c, newcfg, head).Some? <==>
        c.mantleChainParams.genesisBlockNum != newcfg.mantleChainParams.genesisBlockNum)
    ensures IsMantle(c) && IsMantle(newcfg) && CheckMantleCompatible(c, newcfg, head).Some? ==>
      CheckMantleCompatible(c, newcfg, head) == Some(ConfigCompatError("genesisblocknum",
        c.mantleChainParams.genesisBlockNum, newcfg.mantleChainParams.genesisBlockNum))
  {
  }

  /** Compatibility depends only on the Mantle flag and, for Mantle chains,
      the genesis block; other parameters and the head are free to change. */
  lemma CompatibleIff(c: ChainConfig, newcfg: ChainConfig, head: BigInt)
    ensures CheckMantleCompatible(c, newcfg, head) == None <==>
      IsMantle(c) == IsMantle(newcfg)
      && (IsMantle(c) ==> c.mantleChainParams.genesisBlockNum == newcfg.mantleChainParams.genesisBlockNum)
  {
  }

  /** The head block plays no part in the check. */
  lemma CheckIgnoresHead(c: ChainConfig, newcfg: ChainConfig, h1: BigInt, h2: BigInt)
    ensures CheckMantleCompatible(c, newcfg, h1) == CheckMantleCompatible(c, newcfg, h2)
  {
  }

  /** Swapping the two configurations reports the same kind of error with
      the stored and new blocks exchanged. */
  lemma CheckSymmetric(c: ChainConfig, newcfg: ChainConfig, head: BigInt)
    ensures CheckMantleCompatible(c, newcfg, head).Some? <==> CheckMantleCompatible(newcfg, c, head).Some?
    ensures CheckMantleCompatible(c, newcfg, head).Some? ==>
      var e, e' := CheckMantleCompatible(c, newcfg, head).value, CheckMantleCompatible(newcfg, c, head).value;
      e.what == e'.what && e.storedBlock == e'.newBlock && e.newBlock == e'.storedBlock
  {
  }

  /** Every configuration is compatible with itself. */
  lemma CheckReflexive(c: ChainConfig, head: BigInt)
    ensures CheckMantleCompatible(c, c, head) == None
  {
  }

  /** Only the disabling preset turns Mantle off; only the two development
      presets allow the debug precompiles; every preset starts Mantle at
      block 0, so any two Mantle presets are compatible with each other. */
  lemma PresetFacts(p: Preset, q: Preset, head: BigInt)
    ensures !PresetParams(p).enableMtOS <==> p == Disable
    ensures PresetParams(p).allowDebugPrecompiles <==> p == DevTest || p == DevTestDAS
    ensures PresetParams(p).dataAvailabilityCommittee <==> p == Nova || p == DevTestDAS || p == AnytrustGoerliTestnet
    ensures (p == Disable) == (q == Disable) ==>
      CheckMantleCompatible(ChainConfig(PresetParams(p)), ChainConfig(PresetParams(q)), head) == None
  {
  }

  /** The MtOS versions the presets start with. */
  lemma PresetVersions()
    ensures PresetParams(One).initialMtOSVersion == 6
    ensures PresetParams(Nova).initialMtOSVersion == 1
    ensures PresetParams(RollupGoerliTestnet).initialMtOSVersion == 2
    ensures PresetParams(AnytrustGoerliTestnet).initialMtOSVersion == 2
    ensures PresetParams(RinkebyTest).initialMtOSVersion == 3
    ensures PresetParams(DevTest).initialMtOSVersion == 7
    ensures PresetParams(DevTestDAS).initialMtOSVersion == 7
    ensures PresetParams(Disable).initialMtOSVersion == 0
  {
  }
}
