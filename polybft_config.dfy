/** The PolyBFT consensus configuration: its data model, the projection of
    observed rootchain metadata into the persisted bridge configuration, the
    wire form of the rewards configuration, and how the two loaders combine
    the errors of the steps they delegate to.

    The steps this code hands to other packages (reading the genesis file,
    Go's JSON encoder and decoder, the big-integer text codec) are passed in
    as function parameters: nothing is assumed about them beyond their types,
    except where a lemma states a hypothesis about them outright. */
module PolybftConfig {
  import opened Wrappers
  import opened Types

  /** The key of this engine's block in the genesis document's engine map. */
  const ConsensusName: string := "polybft"

  // ---------------------------------------------------------------------
  // Data model
  // ---------------------------------------------------------------------

  /** The persisted rootchain configuration needed for bridging. A Go nil map
      and an empty map read alike, so both are the empty map here. */
  datatype BridgeConfig = BridgeConfig(
    stateSenderAddr: Address,
    checkpointManagerAddr: Address,
    exitHelperAddr: Address,
    rootERC20PredicateAddr: Address,
    rootNativeERC20Addr: Address,
    rootERC721Addr: Address,
    rootERC721PredicateAddr: Address,
    rootERC1155Addr: Address,
    rootERC1155PredicateAddr: Address,
    customSupernetManagerAddr: Address,
    stakeManagerAddr: Address,
    jsonRPCEndpoint: string,
    eventTrackerStartBlocks: map<Address, uint64>)

  /** Rootchain metadata as observed at run time: the bridge addresses plus
      the BLS and BN256G2 precompiles and three token template contracts. */
  datatype RootchainConfig = RootchainConfig(
    jsonRPCAddr: string,
    stateSenderAddress: Address,
    checkpointManagerAddress: Address,
    blsAddress: Address,
    bn256G2Address: Address,
    exitHelperAddress: Address,
    rootERC20PredicateAddress: Address,
    rootNativeERC20Address: Address,
    erc20TemplateAddress: Address,
    rootERC721PredicateAddress: Address,
    rootERC721Address: Address,
    rootERC721TemplateAddress: Address,
    rootERC1155PredicateAddress: Address,
    rootERC1155Address: Address,
    erc1155TemplateAddress: Address,
    customSupernetManagerAddress: Address,
    stakeManagerAddress: Address)

  /** The native token of the chain. */
  datatype TokenConfig = TokenConfig(name: string, symbol: string, decimals: uint8, isMintable: bool)

  /** Reward token, reward wallet and the wallet's amount; the amount is a
      signed big-integer pointer in the source, so it may be nil (`None`)
      and, when built in code rather than parsed, negative. */
  datatype RewardsConfig = RewardsConfig(tokenAddress: Address, walletAddress: Address, walletAmount: Option<int>)

  /** The wire form of RewardsConfig: the amount travels as an optional text. */
  datatype RewardsConfigRaw = RewardsConfigRaw(tokenAddress: Address, walletAddress: Address, walletAmount: Option<string>)

  /** The consensus configuration. `V` stands for the genesis validator
      descriptor, which this model never looks into. An absent bridge block
      means that bridging is off. */
  datatype PolyBFTConfig<V> = PolyBFTConfig(
    initialValidatorSet: seq<V>,
    bridge: Option<BridgeConfig>,
    epochSize: uint64,
    epochReward: uint64,
    sprintSize: uint64,
    blockTime: Duration,
    governance: Address,
    nativeTokenConfig: Option<TokenConfig>,
    initialTrieRoot: Hash,
    maxValidatorSetSize: uint64,
    rewardConfig: Option<RewardsConfig>)

  /** Go's zero value `PolyBFTConfig{}`, returned by the loaders on failure. */
  function ZeroConfig<V>(): PolyBFTConfig<V> {
    PolyBFTConfig([], None, 0, 0, 0, ZeroDuration, ZeroAddress, None, ZeroHash, 0, None)
  }

  // ---------------------------------------------------------------------
  // Bridge flag and the rootchain-to-bridge projection
  // ---------------------------------------------------------------------

  /** Bridging is on exactly when a bridge block is present. */
  predicate IsBridgeEnabled<V>(p: PolyBFTConfig<V>)
    ensures IsBridgeEnabled(p) <==> p.bridge != None
  {
    p.bridge.Some?
  }

  /** The flag is decided by the presence of the bridge block alone: no field
      of the block and no other field of the configuration plays a part. */
  lemma BridgeEnabledIffPresent<V>(p: PolyBFTConfig<V>, b: BridgeConfig)
    ensures IsBridgeEnabled(p) <==> p.bridge != None
    ensures IsBridgeEnabled(p.(bridge := Some(b)))
    ensures !IsBridgeEnabled(p.(bridge := None))
    ensures IsBridgeEnabled(ZeroConfig<V>()) == false
  {
  }

  /** Projects rootchain metadata onto the persisted bridge configuration.
      Each of the eleven shared addresses is copied from its namesake (the
      ERC721 and ERC1155 contracts and predicates are not crossed), the
      endpoint is the RPC address unchanged, and no tracker start block is
      set. The precompile and template addresses are dropped. */
  function ToBridgeConfig(r: RootchainConfig): (b: BridgeConfig)
    ensures b.jsonRPCEndpoint == r.jsonRPCAddr
    ensures b.stateSenderAddr == r.stateSenderAddress
    ensures b.checkpointManagerAddr == r.checkpointManagerAddress
    ensures b.exitHelperAddr == r.exitHelperAddress
    ensures b.rootERC20PredicateAddr == r.rootERC20PredicateAddress
    ensures b.rootNativeERC20Addr == r.rootNativeERC20Address
    ensures b.rootERC721Addr == r.rootERC721Address
    ensures b.rootERC721PredicateAddr == r.rootERC721PredicateAddress
    ensures b.rootERC1155Addr == r.rootERC1155Address
    ensures b.rootERC1155PredicateAddr == r.rootERC1155PredicateAddress
    ensures b.customSupernetManagerAddr == r.customSupernetManagerAddress
    ensures b.stakeManagerAddr == r.stakeManagerAddress
    ensures b.eventTrackerStartBlocks == map[]
  {
    BridgeConfig(
      stateSenderAddr := r.stateSenderAddress,
      checkpointManagerAddr := r.checkpointManagerAddress,
      exitHelperAddr := r.exitHelperAddress,
      rootERC20PredicateAddr := r.rootERC20PredicateAddress,
      rootNativeERC20Addr := r.rootNativeERC20Address,
      rootERC721Addr := r.rootERC721Address,
      rootERC721PredicateAddr := r.rootERC721PredicateAddress,
      rootERC1155Addr := r.rootERC1155Address,
      rootERC1155PredicateAddr := r.rootERC1155PredicateAddress,
      customSupernetManagerAddr := r.customSupernetManagerAddress,
      stakeManagerAddr := r.stakeManagerAddress,
      jsonRPCEndpoint := r.jsonRPCAddr,
      eventTrackerStartBlocks := map[])
  }

  /** Two rootchain configurations agree on every field that has a
      counterpart in BridgeConfig. */
  predicate AgreeOnSharedFields(a: RootchainConfig, c: RootchainConfig) {
    && a.jsonRPCAddr == c.jsonRPCAddr
    && a.stateSenderAddress == c.stateSenderAddress
    && a.checkpointManagerAddress == c.checkpointManagerAddress
    && a.exitHelperAddress == c.exitHelperAddress
    && a.rootERC20PredicateAddress == c.rootERC20PredicateAddress
    && a.rootNativeERC20Address == c.rootNativeERC20Address
    && a.rootERC721PredicateAddress == c.rootERC721PredicateAddress
    && a.rootERC721Address == c.rootERC721Address
    && a.rootERC1155PredicateAddress == c.rootERC1155PredicateAddress
    && a.rootERC1155Address == c.rootERC1155Address
    && a.customSupernetManagerAddress == c.customSupernetManagerAddress
    && a.stakeManagerAddress == c.stakeManagerAddress
  }

  /** The projection sees the shared fields and nothing else: two rootchain
      configurations project equally exactly when they agree there, so the
      precompile and template addresses cannot influence the result. */
  lemma ProjectionDependsOnlyOnSharedFields(a: RootchainConfig, c: RootchainConfig)
    ensures ToBridgeConfig(a) == ToBridgeConfig(c) <==> AgreeOnSharedFields(a, c)
  {
  }

  /** Changing any of the five runtime-only addresses leaves the projection
      as it was. */
  lemma ProjectionIgnoresRuntimeOnlyFields(r: RootchainConfig, bls: Address, bn256G2: Address,
                                           erc20Template: Address, erc721Template: Address, erc1155Template: Address)
    ensures ToBridgeConfig(r.(blsAddress := bls, bn256G2Address := bn256G2,
                              erc20TemplateAddress := erc20Template,
                              rootERC721TemplateAddress := erc721Template,
                              erc1155TemplateAddress := erc1155Template)) == ToBridgeConfig(r)
  {
  }

  /** A rootchain configuration whose every address is `a`. */
  function UniformRootchainConfig(endpoint: string, a: Address): RootchainConfig {
    RootchainConfig(endpoint, a, a, a, a, a, a, a, a, a, a, a, a, a, a, a, a)
  }

  /** The projection is lossy: no function from BridgeConfig back to
      RootchainConfig undoes it, whatever that function is. */
  lemma NoLeftInverse(f: BridgeConfig -> RootchainConfig)
    ensures exists r :: f(ToBridgeConfig(r)) != r
  {
    var a := UniformRootchainConfig("", ZeroAddress);
    var other: Address := [1, 0, 0, 0, 0, 0, 0, 0, 0, 0, 0, 0, 0, 0, 0, 0, 0, 0, 0, 0];
    var c := a.(blsAddress := other);
    assert a.blsAddress[0] != c.blsAddress[0];
    ProjectionIgnoresRuntimeOnlyFields(a, other, a.bn256G2Address, a.erc20TemplateAddress,
                                       a.rootERC721TemplateAddress, a.erc1155TemplateAddress);
    if f(ToBridgeConfig(a)) == a {
      assert f(ToBridgeConfig(c)) != c;
    }
  }

  /** Every bridge configuration without tracker start blocks is the
      projection of some rootchain configuration: the projection loses
      nothing of the shared fields. */
  lemma ProjectionReachesEveryTrackerFreeConfig(b: BridgeConfig)
    requires b.eventTrackerStartBlocks == map[]
    ensures exists r :: ToBridgeConfig(r) == b
  {
    var r := RootchainConfig(
      jsonRPCAddr := b.jsonRPCEndpoint,
      stateSenderAddress := b.stateSenderAddr,
      checkpointManagerAddress := b.checkpointManagerAddr,
      blsAddress := ZeroAddress,
      bn256G2Address := ZeroAddress,
      exitHelperAddress := b.exitHelperAddr,
      rootERC20PredicateAddress := b.rootERC20PredicateAddr,
      rootNativeERC20Address := b.rootNativeERC20Addr,
      erc20TemplateAddress := ZeroAddress,
      rootERC721PredicateAddress := b.rootERC721PredicateAddr,
      rootERC721Address := b.rootERC721Addr,
      rootERC721TemplateAddress := ZeroAddress,
      rootERC1155PredicateAddress := b.rootERC1155PredicateAddr,
      rootERC1155Address := b.rootERC1155Addr,
      erc1155TemplateAddress := ZeroAddress,
      customSupernetManagerAddress := b.customSupernetManagerAddr,
      stakeManagerAddress := b.stakeManagerAddr);
    assert ToBridgeConfig(r) == b;
  }

  // ---------------------------------------------------------------------
  // Rewards configuration on the wire
  // ---------------------------------------------------------------------

  /** What the big-integer parser hands back: Go's `(*big.Int, error)` pair.
      The caller stores `amount` whether or not `err` is set. */
  datatype Parsed = Parsed(amount: Option<int>, err: Option<Error>)

  /** The raw value MarshalJSON hands to the JSON encoder: both addresses
      as they are and the amount run through the hex encoder. */
  function ToRaw(r: RewardsConfig, encodeBigInt: Option<int> -> Option<string>): (raw: RewardsConfigRaw)
    ensures raw.tokenAddress == r.tokenAddress
    ensures raw.walletAddress == r.walletAddress
    ensures raw.walletAmount == encodeBigInt(r.walletAmount)
  {
    RewardsConfigRaw(r.tokenAddress, r.walletAddress, encodeBigInt(r.walletAmount))
  }

  /** MarshalJSON: the JSON encoding of the raw form. */
  function MarshalJSON(r: RewardsConfig, encodeBigInt: Option<int> -> Option<string>,
                       jsonMarshal: RewardsConfigRaw -> Result<Bytes>): (res: Result<Bytes>)
    ensures res == jsonMarshal(RewardsConfigRaw(r.tokenAddress, r.walletAddress, encodeBigInt(r.walletAmount)))
  {
    jsonMarshal(ToRaw(r, encodeBigInt))
  }

  /** The receiver's value and the error after UnmarshalJSON. */
  datatype Unmarshalled = Unmarshalled(value: RewardsConfig, err: Option<Error>)

  /** UnmarshalJSON as a function of the receiver's previous value. It fails
      when the JSON decode or the amount parse fails, and only then. A failed
      decode leaves the receiver as it was; once the decode succeeds, both
      addresses are taken from the wire even if the amount parse then fails,
      and the amount is whatever the parser handed back. */
  function Unmarshal(prev: RewardsConfig, data: Bytes,
                     jsonUnmarshal: Bytes -> Result<RewardsConfigRaw>,
                     parseUint256orHex: Option<string> -> Parsed): (out: Unmarshalled)
    ensures out.err.None? <==>
              jsonUnmarshal(data).Ok? && parseUint256orHex(jsonUnmarshal(data).value.walletAmount).err.None?
    ensures jsonUnmarshal(data).Err? ==> out.value == prev && out.err == Some(jsonUnmarshal(data).error)
    ensures jsonUnmarshal(data).Ok? ==>
              && out.value.tokenAddress == jsonUnmarshal(data).value.tokenAddress
              && out.value.walletAddress == jsonUnmarshal(data).value.walletAddress
              && out.value.walletAmount == parseUint256orHex(jsonUnmarshal(data).value.walletAmount).amount
              && out.err == parseUint256orHex(jsonUnmarshal(data).value.walletAmount).err
  {
    match jsonUnmarshal(data)
    case Err(e) => Unmarshalled(prev, Some(e))
    case Ok(raw) =>
      var parsed := parseUint256orHex(raw.walletAmount);
      Unmarshalled(RewardsConfig(raw.tokenAddress, raw.walletAddress, parsed.amount), parsed.err)
  }

  /** Marshalling then unmarshalling into any receiver restores both
      addresses whenever the JSON step round-trips the raw value, and the
      whole configuration, with no error, when the amount parser also inverts
      the encoder on this amount. */
  lemma RewardsRoundTrip(r: RewardsConfig, prev: RewardsConfig,
                         encodeBigInt: Option<int> -> Option<string>,
                         parseUint256orHex: Option<string> -> Parsed,
                         jsonMarshal: RewardsConfigRaw -> Result<Bytes>,
                         jsonUnmarshal: Bytes -> Result<RewardsConfigRaw>)
    requires MarshalJSON(r, encodeBigInt, jsonMarshal).Ok?
    requires jsonUnmarshal(MarshalJSON(r, encodeBigInt, jsonMarshal).value) == Ok(ToRaw(r, encodeBigInt))
    ensures var out := Unmarshal(prev, MarshalJSON(r, encodeBigInt, jsonMarshal).value, jsonUnmarshal, parseUint256orHex);
            && out.value.tokenAddress == r.tokenAddress
            && out.value.walletAddress == r.walletAddress
            && (parseUint256orHex(encodeBigInt(r.walletAmount)) == Parsed(r.walletAmount, None) ==>
                  out == Unmarshalled(r, None))
  {
  }

  /** A failed amount parse is not all-or-nothing: the error is reported, yet
      the receiver already holds the addresses from the wire, so a receiver
      whose token address differed ends up changed. */
  lemma FailedParseLeavesPartialUpdate(prev: RewardsConfig, data: Bytes, raw: RewardsConfigRaw,
                                       jsonUnmarshal: Bytes -> Result<RewardsConfigRaw>,
                                       parseUint256orHex: Option<string> -> Parsed)
    requires jsonUnmarshal(data) == Ok(raw)
    requires parseUint256orHex(raw.walletAmount).err.Some?
    requires raw.tokenAddress != prev.tokenAddress
    ensures var out := Unmarshal(prev, data, jsonUnmarshal, parseUint256orHex);
            out.err.Some? && out.value != prev && out.value.tokenAddress == raw.tokenAddress
  {
  }

  /** The receiver of RewardsConfig.UnmarshalJSON, whose three fields the
      decoder overwrites one after another. */
  class MutableRewardsConfig {
    var tokenAddress: Address
    var walletAddress: Address
    var walletAmount: Option<int>

    /** The configuration the receiver currently holds. */
    function Value(): RewardsConfig
      reads this
    {
      RewardsConfig(tokenAddress, walletAddress, walletAmount)
    }

    constructor (init: RewardsConfig)
      ensures Value() == init
    {
      tokenAddress := init.tokenAddress;
      walletAddress := init.walletAddress;
      walletAmount := init.walletAmount;
    }

    /** Decodes `data` into this receiver. A decode failure returns before any
        field is touched; after a successful decode both addresses are
        overwritten before the amount is parsed, so a parse failure returns
        its error with the receiver partly updated. */
    method UnmarshalJSON(data: Bytes, jsonUnmarshal: Bytes -> Result<RewardsConfigRaw>,
                         parseUint256orHex: Option<string> -> Parsed)
      returns (err: Option<Error>)
      modifies this
      ensures Unmarshalled(Value(), err) == Unmarshal(old(Value()), data, jsonUnmarshal, parseUint256orHex)
      ensures jsonUnmarshal(data).Err? ==> unchanged(this) && err == Some(jsonUnmarshal(data).error)
      ensures jsonUnmarshal(data).Ok? ==>
                && tokenAddress == jsonUnmarshal(data).value.tokenAddress
                && walletAddress == jsonUnmarshal(data).value.walletAddress
                && walletAmount == parseUint256orHex(jsonUnmarshal(data).value.walletAmount).amount
                && err == parseUint256orHex(jsonUnmarshal(data).value.walletAmount).err
    {
      var decoded := jsonUnmarshal(data);
      if decoded.Err? {
        return Some(decoded.error);
      }
      var raw := decoded.value;
      tokenAddress := raw.tokenAddress;
      walletAddress := raw.walletAddress;
      var parsed := parseUint256orHex(raw.walletAmount);
      walletAmount := parsed.amount;
      if parsed.err.Some? {
        return parsed.err;
      }
      return None;
    }
  }

  // ---------------------------------------------------------------------
  // Loaders
  // ---------------------------------------------------------------------

  /** The parameters of a chain-genesis document that this code reads: the
      chain identifier and the engine map, whose values are opaque (`E`). */
  datatype Params<E> = Params(chainID: int64, engine: map<string, E>)

  /** A parsed chain-genesis document. */
  datatype Chain<E> = Chain(params: Params<E>)

  /** Indexes the engine map with this engine's name; a missing key reads as
      the nil interface value (`None`), with no error. */
  function EngineBlock<E>(c: Chain<E>): (block: Option<E>)
    ensures block.Some? <==> ConsensusName in c.params.engine
    ensures block.Some? ==> block.value == c.params.engine[ConsensusName]
  {
    if ConsensusName in c.params.engine then Some(c.params.engine[ConsensusName]) else None
  }

  /** GetPolyBFTConfig's result: a configuration and an error. */
  datatype ConfigOutcome<V> = ConfigOutcome(config: PolyBFTConfig<V>, err: Option<Error>)

  /** Re-encodes this engine's block and decodes it as a PolyBFTConfig. It
      succeeds exactly when both steps succeed, and then returns what the
      decoder produced; otherwise it returns the zero configuration with the
      first step's error, unchanged. */
  function GetPolyBFTConfig<E, V>(c: Chain<E>,
                                  jsonMarshal: Option<E> -> Result<Bytes>,
                                  jsonUnmarshal: Bytes -> Result<PolyBFTConfig<V>>): (out: ConfigOutcome<V>)
    ensures out.err.Some? ==> out.config == ZeroConfig()
    ensures out.err.None? <==>
              jsonMarshal(EngineBlock(c)).Ok? && jsonUnmarshal(jsonMarshal(EngineBlock(c)).value).Ok?
    ensures out.err.None? ==> out.config == jsonUnmarshal(jsonMarshal(EngineBlock(c)).value).value
    ensures jsonMarshal(EngineBlock(c)).Err? ==> out.err == Some(jsonMarshal(EngineBlock(c)).error)
    ensures jsonMarshal(EngineBlock(c)).Ok? && jsonUnmarshal(jsonMarshal(EngineBlock(c)).value).Err? ==>
              out.err == Some(jsonUnmarshal(jsonMarshal(EngineBlock(c)).value).error)
  {
    match jsonMarshal(EngineBlock(c))
    case Err(e) => ConfigOutcome(ZeroConfig(), Some(e))
    case Ok(encoded) =>
      match jsonUnmarshal(encoded)
      case Err(e) => ConfigOutcome(ZeroConfig(), Some(e))
      case Ok(config) => ConfigOutcome(config, None)
  }

  /** A document without this engine's block is not an error in itself:
      the nil value is encoded and decoded like any other, and the outcome is
      whatever those two steps give. */
  lemma MissingEngineBlockIsNotAnError<E, V>(c: Chain<E>, encoded: Bytes, config: PolyBFTConfig<V>,
                                             jsonMarshal: Option<E> -> Result<Bytes>,
                                             jsonUnmarshal: Bytes -> Result<PolyBFTConfig<V>>)
    requires ConsensusName !in c.params.engine
    requires jsonMarshal(None) == Ok(encoded)
    requires jsonUnmarshal(encoded) == Ok(config)
    ensures GetPolyBFTConfig(c, jsonMarshal, jsonUnmarshal) == ConfigOutcome(config, None)
  {
  }

  /** Whatever the encoder and decoder do, a document without this engine's
      block yields exactly what a document with an empty engine map yields:
      the other entries and the chain ID play no part. */
  lemma MissingEngineBlockActsAsEmptyDocument<E, V>(c: Chain<E>,
                                                    jsonMarshal: Option<E> -> Result<Bytes>,
                                                    jsonUnmarshal: Bytes -> Result<PolyBFTConfig<V>>)
    requires ConsensusName !in c.params.engine
    ensures GetPolyBFTConfig(c, jsonMarshal, jsonUnmarshal) == GetPolyBFTConfig(Chain(Params(0, map[])), jsonMarshal, jsonUnmarshal)
  {
  }

  /** LoadPolyBFTConfig's result: a configuration, a chain ID and an error. */
  datatype Loaded<V> = Loaded(config: PolyBFTConfig<V>, chainID: int64, err: Option<Error>)

  /** Imports the genesis document at `chainConfigFile` and extracts this
      engine's configuration. All or nothing: on any error the zero
      configuration and chain ID 0 come back with that error unchanged;
      without one, the extracted configuration and the document's chain ID. */
  function LoadPolyBFTConfig<E, V>(chainConfigFile: string,
                                   importFromFile: string -> Result<Chain<E>>,
                                   jsonMarshal: Option<E> -> Result<Bytes>,
                                   jsonUnmarshal: Bytes -> Result<PolyBFTConfig<V>>): (out: Loaded<V>)
    ensures out.err.Some? ==> out.config == ZeroConfig() && out.chainID == 0
    ensures importFromFile(chainConfigFile).Err? ==> out.err == Some(importFromFile(chainConfigFile).error)
    ensures importFromFile(chainConfigFile).Ok? ==>
              out.err == GetPolyBFTConfig(importFromFile(chainConfigFile).value, jsonMarshal, jsonUnmarshal).err
    ensures importFromFile(chainConfigFile).Ok? && out.err.None? ==>
              && out.config == GetPolyBFTConfig(importFromFile(chainConfigFile).value, jsonMarshal, jsonUnmarshal).config
              && out.chainID == importFromFile(chainConfigFile).value.params.chainID
  {
    match importFromFile(chainConfigFile)
    case Err(e) => Loaded(ZeroConfig(), 0, Some(e))
    case Ok(c) =>
      var got := GetPolyBFTConfig(c, jsonMarshal, jsonUnmarshal);
      if got.err.Some? then Loaded(ZeroConfig(), 0, got.err)
      else Loaded(got.config, c.params.chainID, got.err)
  }
}
