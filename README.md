# PolyBFT consensus configuration

This project models the configuration layer of the PolyBFT consensus engine
(`consensus/polybft/polybft_config.go`):

- The data model: `PolyBFTConfig`, `BridgeConfig`, `RootchainConfig`,
  `TokenConfig`, `RewardsConfig` and its wire form `rewardsConfigRaw`.
- The bridge flag `IsBridgeEnabled`: bridging is on exactly when the
  optional bridge block is present.
- The lossy projection `RootchainConfig.ToBridgeConfig`.
- The custom JSON conversion of `RewardsConfig`. `MarshalJSON` is a pure
  function. `UnmarshalJSON` is a method on a receiver object whose three
  fields it overwrites one after another.
- How `GetPolyBFTConfig` and `LoadPolyBFTConfig` combine the errors of the
  steps they delegate to.

The model has three files:

- `wrappers.dfy`: Go-style `Option`, `Error` and `Result`.
- `types.dfy`: 20-byte addresses, 32-byte hashes and the fixed-width
  integers.
- `polybft_config.dfy`: everything else, in module `PolybftConfig`.

Go pointers that may be nil (`*BridgeConfig`, `*TokenConfig`,
`*RewardsConfig`, `*big.Int`) become `Option` values. The receiver of
`UnmarshalJSON` is the class `MutableRewardsConfig`. Its method is proved
against the function `Unmarshal`, which gives the receiver's new value and
the returned error from its old value.

Several steps of this code belong to other packages: reading the genesis
file, Go's JSON encoder and decoder, and the big-integer hex codec. Each
enters the model as a function parameter. Nothing is assumed about such a
parameter except where a lemma states a hypothesis about it outright.
The hex parser returns Go's `(*big.Int, error)` pair as the datatype
`Parsed`. The reason: line 185 of the source stores the returned pointer
in the receiver even when the parser also returns an error.

Three behaviours of the code are easy to miss:

- A failed amount parse leaves the receiver partly updated. The addresses
  are overwritten at lines 182-183, before the parse that can fail at line
  185. `FailedParseLeavesPartialUpdate` states this.
- A genesis document with no `"polybft"` engine entry is not rejected by
  `GetPolyBFTConfig` as such. Indexing the Go map yields nil, and nil is
  encoded and decoded like any other value. `MissingEngineBlockIsNotAnError`
  and `MissingEngineBlockActsAsEmptyDocument` state this.
- Whether a missing or malformed amount text is an error is decided by
  `types.ParseUint256orHex`, whose code is not part of this model.

## Model

| member | source | states |
|---|---|---|
| `PolybftConfig.IsBridgeEnabled` | consensus/polybft/polybft_config.go:98-100 | the flag is true exactly when the bridge block is present; that nothing else decides it is carried by `BridgeEnabledIffPresent` |
| `PolybftConfig.BridgeEnabledIffPresent` | consensus/polybft/polybft_config.go:98-100 | bridging is reported on exactly when the bridge block is present; setting any block turns it on, removing it turns it off, and the zero configuration has it off |
| `PolybftConfig.ToBridgeConfig` | consensus/polybft/polybft_config.go:124-141 | each of the eleven shared addresses is copied from its namesake, with the ERC721 and ERC1155 contract and predicate addresses not crossed; the endpoint is the RPC address unchanged; no tracker start block is set |
| `PolybftConfig.ProjectionDependsOnlyOnSharedFields` | consensus/polybft/polybft_config.go:103-141 | two rootchain configurations project to the same bridge configuration if and only if they agree on the endpoint and the eleven shared addresses |
| `PolybftConfig.ProjectionIgnoresRuntimeOnlyFields` | consensus/polybft/polybft_config.go:103-141 | changing the BLS, BN256G2 or any of the three template addresses does not change the projection |
| `PolybftConfig.NoLeftInverse` | consensus/polybft/polybft_config.go:103-141 | the projection is lossy: no function from bridge configurations back to rootchain configurations recovers every input |
| `PolybftConfig.ProjectionReachesEveryTrackerFreeConfig` | consensus/polybft/polybft_config.go:81-141 | every bridge configuration without tracker start blocks is the projection of some rootchain configuration, so nothing of the shared fields is lost |
| `PolybftConfig.ToRaw` | consensus/polybft/polybft_config.go:162-170 | the raw form carries both addresses unchanged and the amount as the hex encoder's output for it |
| `PolybftConfig.MarshalJSON` | consensus/polybft/polybft_config.go:162-170 | the output is the JSON encoding of a raw value holding both addresses unchanged and the encoder's text for the amount; `ToRaw` and `RewardsRoundTrip` carry what that raw value means |
| `PolybftConfig.Unmarshal` | consensus/polybft/polybft_config.go:172-191 | the result is an error exactly when the JSON decode or the amount parse fails; a failed decode leaves the receiver as it was and returns that error; after a successful decode both addresses come from the wire and the amount and the error are what the parser returned |
| `PolybftConfig.MutableRewardsConfig.UnmarshalJSON` | consensus/polybft/polybft_config.go:172-191 | the receiver's new fields and the returned error are those `Unmarshal` gives from its old fields; on a decode failure nothing is modified; otherwise the addresses are the wire's even when the parse fails |
| `PolybftConfig.MutableRewardsConfig.constructor` | consensus/polybft/polybft_config.go:151-160 | a receiver starts out holding the given rewards configuration |
| `PolybftConfig.RewardsRoundTrip` | consensus/polybft/polybft_config.go:162-191 | marshalling and then unmarshalling into any receiver restores both addresses whenever the JSON step round-trips the raw value; it restores the whole configuration with no error when, in addition, the parser inverts the encoder on this amount |
| `PolybftConfig.FailedParseLeavesPartialUpdate` | consensus/polybft/polybft_config.go:182-188 | when the decode succeeds but the amount parse fails, an error is returned and yet the receiver already holds the wire's token address, so it differs from what it was |
| `PolybftConfig.EngineBlock` | consensus/polybft/polybft_config.go:67 | the engine block is present exactly when the engine map has the `polybft` key, and is then that key's value; a missing key reads as nil without an error |
| `PolybftConfig.GetPolyBFTConfig` | consensus/polybft/polybft_config.go:65-78 | succeeds exactly when both the encode and the decode step succeed, and then returns the decoded configuration; otherwise returns the zero configuration with the first failing step's error unchanged |
| `PolybftConfig.MissingEngineBlockIsNotAnError` | consensus/polybft/polybft_config.go:66-77 | with no `polybft` key, the outcome is whatever encoding nil and decoding the result give; the missing key alone raises no error |
| `PolybftConfig.MissingEngineBlockActsAsEmptyDocument` | consensus/polybft/polybft_config.go:66-77 | whatever the encoder and decoder do, a document without the `polybft` key gives exactly the outcome of a document with an empty engine map |
| `PolybftConfig.LoadPolyBFTConfig` | consensus/polybft/polybft_config.go:50-63 | all or nothing: on any error the zero configuration and chain ID 0 are returned with the import's or the extraction's error unchanged; without an error, the extracted configuration and the document's own chain ID |

## Left out

- Reading the genesis file (`chain.ImportFromFile`) is file I/O. It is the parameter `importFromFile`.
- Go's `encoding/json` is library behaviour. Both its encoder and its decoder are parameters. So the JSON field names in the struct tags are not modelled, and neither is Go's decoder invoking `RewardsConfig.UnmarshalJSON` for a nested rewards block.
- `types.EncodeBigInt` and `types.ParseUint256orHex` are not part of this model. They are the parameters `encodeBigInt` and `parseUint256orHex`.
- RewardsRoundTrip: proves the amount round trip only under the hypothesis that the parser inverts the encoder on that amount, because the hex codec's code is not part of this model.
- `validator.GenesisValidator` is not part of this model. It is the type parameter `V`, and validators are never inspected.
- `common.Duration` is not part of this model. It is carried as a signed 64-bit nanosecond count; only its zero value matters here.
- `types.Hash` and `types.Address` are not part of this model. They are 32-byte and 20-byte sequences.
- Nil receivers and nil documents are not modelled. In Go, a nil `*PolyBFTConfig` panics in `IsBridgeEnabled` (line 99), a nil `*RootchainConfig` panics in `ToBridgeConfig` (line 127), a nil `*RewardsConfig` panics in `UnmarshalJSON` once the decode succeeds (line 182), and a nil `chainConfig` or `Params` panics in `GetPolyBFTConfig` (line 67). Every value in the model is present, so these panics cannot arise.
- Pointer identity is not modelled. `ToBridgeConfig` returns a fresh `*BridgeConfig` in the source and a value here. Leaving its receiver unmodified is then automatic.
- A nil `EventTrackerStartBlocks` map and an empty one read alike in Go. They differ only in JSON output (`null` or `{}`), so both are the empty map.
- No validation is modelled of sprint size against epoch size, or of tracker keys against the declared bridge addresses. The code performs none.
- The peer-discovery `FindPeers` remote call is not part of this model. No code for it is among the files modelled.
