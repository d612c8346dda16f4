# ChaincodeStubImpl, modelled in Dafny

A model of `ChaincodeStubImpl`, the per-transaction stub that Hyperledger Fabric's
Java chaincode shim hands to contract code. Most of the stub forwards calls to a
transport `Handler`. The model covers the sequential logic the stub itself owns:

- **Transaction context** (`context.dfy`, module `Context`). The constructor may
  receive a signed proposal or none. With a proposal, it runs a chain of protobuf
  decoders: proposal, header, channel header, then the header-type check, then the
  signature header and the payload. Each decoder is a partial function passed in
  as a parameter. Any decode failure becomes `MalformedProposal`. A header type
  other than `ENDORSER_TRANSACTION` (3) or `CONFIG` (1) becomes
  `UnsupportedProposalType`. The binding is the SHA-256 digest of
  `nonce ++ creator ++ LE64(epoch)`; SHA-256 is also a parameter.
- **Little-endian epoch** (`bytes.dfy`, module `Bytes`). The epoch is a Java
  `long` written by `ByteBuffer.putLong` in `LITTLE_ENDIAN` order. The model
  proves round trips in both directions and the byte formula `(e >> 8i) & 0xFF`.
- **Key-range shaping** (`keys.dfy`, module `KeyRange`). A `null` or empty bound
  becomes `UNSPECIFIED_KEY` (U+0001). A partial-key scan covers
  `[P, P ++ U+DBFF U+DFFF)`.
- **The facade** (`stub.dfy`, module `Stub`). Each operation takes the stub state
  and returns a `Step`: the new state plus either `Normal` or the thrown
  exception. The state holds the context, the argument list, the stored event and
  an append-only log of transport requests.
- **Java strings** (`utf16.dfy`, module `Utf16`). Strings are sequences of UTF-16
  code units. This module defines `trim()`, `null` rendering in string
  concatenation, and `compareTo` order. Java `null` is `Option.None`
  (`wrappers.dfy`).

Parameters stand in for code outside this file: the protobuf `parseFrom`
decoders, SHA-256, UTF-8 decoding of arguments and `CompositeKey.validateSimpleKeys`.

## Model

| member | source | states |
|---|---|---|
| Bytes.Le64 | chaincode_java/shim/src/main/java/org/hyperledger/fabric/shim/impl/ChaincodeStubImpl.java:93-97 | The epoch occupies exactly 8 bytes, and byte i is `(epoch >> 8i) & 0xFF` under Java's arithmetic shift, negative epochs included. |
| Bytes.LittleEndianByte | chaincode_java/shim/src/main/java/org/hyperledger/fabric/shim/impl/ChaincodeStubImpl.java:93-95 | Byte i of the little-endian encoding of any integer is its i-th byte `(v / 256^i) mod 256`. |
| Bytes.Le64RoundTrip | chaincode_java/shim/src/main/java/org/hyperledger/fabric/shim/impl/ChaincodeStubImpl.java:93-97 | Reading the 8 bytes back as a little-endian `long` recovers the epoch. |
| Bytes.FromLe64RoundTrip | chaincode_java/shim/src/main/java/org/hyperledger/fabric/shim/impl/ChaincodeStubImpl.java:93-97 | Every 8-byte string is the encoding of the `long` it decodes to. |
| Bytes.Le64Injective | chaincode_java/shim/src/main/java/org/hyperledger/fabric/shim/impl/ChaincodeStubImpl.java:93-97 | Two epochs have the same encoding if and only if they are equal. |
| Bytes.LittleEndianWrap | chaincode_java/shim/src/main/java/org/hyperledger/fabric/shim/impl/ChaincodeStubImpl.java:93-95 | A `long` and its value plus 2^64 have the same 8 bytes, which is why the two's-complement bits are written. |
| Bytes.UnsignedOfLittleEndian | chaincode_java/shim/src/main/java/org/hyperledger/fabric/shim/impl/ChaincodeStubImpl.java:93-95 | Decoding the n-byte encoding of a value below 256^n recovers the value. |
| Bytes.LittleEndianOfUnsigned | chaincode_java/shim/src/main/java/org/hyperledger/fabric/shim/impl/ChaincodeStubImpl.java:93-95 | Encoding the unsigned value of a byte string gives back the same byte string. |
| Context.ValidateProposalType | chaincode_java/shim/src/main/java/org/hyperledger/fabric/shim/impl/ChaincodeStubImpl.java:101-108 | Succeeds if and only if the header type is `ENDORSER_TRANSACTION` or `CONFIG`; otherwise it fails and the error names the offending type. |
| Context.Decode | chaincode_java/shim/src/main/java/org/hyperledger/fabric/shim/impl/ChaincodeStubImpl.java:70-76 | A failure in the first three decoders is `MalformedProposal`. An unsupported type is reported as such whatever the signature-header and payload decoders would return, so the type check comes first. For a supported type, decoding succeeds if and only if the signature-header and payload decoders both succeed, and any failure is `MalformedProposal`. A success carries the messages the decoders returned. |
| Context.BindingPreimage | chaincode_java/shim/src/main/java/org/hyperledger/fabric/shim/impl/ChaincodeStubImpl.java:89-98 | The bytes `computeBinding` hashes are `nonce ++ creator ++ LE64(epoch)`. Their length is the nonce length plus the creator length plus 8, and each part sits at its offset. |
| Context.DeriveContext | chaincode_java/shim/src/main/java/org/hyperledger/fabric/shim/impl/ChaincodeStubImpl.java:58-86 | With no proposal, creator, timestamp and binding are absent and the transient map is empty. With a proposal, construction fails exactly when decoding fails, and with the same error. On success, timestamp, creator, transient map and `binding = SHA256(preimage)` all come from the one decoded proposal. |
| Context.PreimageInjective | chaincode_java/shim/src/main/java/org/hyperledger/fabric/shim/impl/ChaincodeStubImpl.java:89-98 | For fixed nonce and creator lengths, two preimages are equal if and only if nonce, creator and epoch are all equal. |
| Context.PreimageAmbiguousAcrossLengths | chaincode_java/shim/src/main/java/org/hyperledger/fabric/shim/impl/ChaincodeStubImpl.java:91-92 | Nothing separates the nonce from the creator in the digest input: nonce `[1]` with an empty creator hashes the same bytes as an empty nonce with creator `[1]`. |
| Context.EpochSeparatesBindings | chaincode_java/shim/src/main/java/org/hyperledger/fabric/shim/impl/ChaincodeStubImpl.java:89-98 | The same nonce and creator under two different epochs give different digest inputs. |
| Context.GoldenPreimage | chaincode_java/shim/src/main/java/org/hyperledger/fabric/shim/impl/ChaincodeStubImpl.java:89-98 | For nonce 0x01..0x10, creator "Org1MSP" and epoch 7, the digest input is those 16 bytes, then the 7 ASCII bytes, then 07 00 00 00 00 00 00 00. |
| Context.NegativeEpochEncoding | chaincode_java/shim/src/main/java/org/hyperledger/fabric/shim/impl/ChaincodeStubImpl.java:93-97 | Epoch -1 is encoded as eight 0xFF bytes (two's complement). |
| Utf16.TrimStart | chaincode_java/shim/src/main/java/org/hyperledger/fabric/shim/impl/ChaincodeStubImpl.java:133 | The result is a suffix of the input, everything it drops is at most U+0020, and it does not itself start with such a unit. |
| Utf16.TrimEnd | chaincode_java/shim/src/main/java/org/hyperledger/fabric/shim/impl/ChaincodeStubImpl.java:133 | The result is a prefix of the input, everything it drops is at most U+0020, and it does not itself end with such a unit. |
| Utf16.Trim | chaincode_java/shim/src/main/java/org/hyperledger/fabric/shim/impl/ChaincodeStubImpl.java:133 | `trim()` gives an empty string if and only if every code unit is at most U+0020; otherwise the result starts and ends with a unit above U+0020. |
| Utf16.TrimEmptyIffBlank | chaincode_java/shim/src/main/java/org/hyperledger/fabric/shim/impl/ChaincodeStubImpl.java:248 | Trimming both ends leaves nothing exactly when the string is blank; this is the test `setEvent` and `invokeChaincode` apply. |
| Utf16.Render | chaincode_java/shim/src/main/java/org/hyperledger/fabric/shim/impl/ChaincodeStubImpl.java:249 | In string concatenation a `null` name prints as "null", and any other name prints as itself. |
| Utf16.ExtensionIsGreater | chaincode_java/shim/src/main/java/org/hyperledger/fabric/shim/impl/ChaincodeStubImpl.java:205 | A string sorts strictly before any proper extension of itself under `compareTo` order. |
| KeyRange.NormalizeBound | chaincode_java/shim/src/main/java/org/hyperledger/fabric/shim/impl/ChaincodeStubImpl.java:180-181 | A `null` or empty bound becomes `UNSPECIFIED_KEY` (U+0001), a non-empty bound passes through unchanged, and the result is never empty. |
| KeyRange.RangeBounds | chaincode_java/shim/src/main/java/org/hyperledger/fabric/shim/impl/ChaincodeStubImpl.java:179-181 | Both bounds sent by a range scan are non-empty, and each is normalized independently. |
| KeyRange.NormalizeIdempotent | chaincode_java/shim/src/main/java/org/hyperledger/fabric/shim/impl/ChaincodeStubImpl.java:180-181 | Normalizing twice is the same as normalizing once. |
| KeyRange.EmptyBoundsAreFullRange | chaincode_java/shim/src/main/java/org/hyperledger/fabric/shim/impl/ChaincodeStubImpl.java:180-181 | `("", "")` and `(null, null)` both become `[UNSPECIFIED_KEY, UNSPECIFIED_KEY)`. |
| KeyRange.PartialKeyBounds | chaincode_java/shim/src/main/java/org/hyperledger/fabric/shim/impl/ChaincodeStubImpl.java:201-206 | The start is the normalized prefix and the end is the start followed by U+DBFF U+DFFF. The start is a strict prefix of the end, so it sorts strictly before it, and range normalization leaves both bounds unchanged. |
| Stub.NewStub | chaincode_java/shim/src/main/java/org/hyperledger/fabric/shim/impl/ChaincodeStubImpl.java:58-87 | A new stub's `getEvent` returns `null`; it has an empty request log, the given arguments, channel id and tx id. It exists if and only if context derivation succeeds. Its context is then exactly the derived one, so the creator, timestamp, transient map and binding that the accessors return come from the proposal. Otherwise the derivation's exception escapes. |
| Stub.Issue | chaincode_java/shim/src/main/java/org/hyperledger/fabric/shim/impl/ChaincodeStubImpl.java:161-254 | Handing one request to the transport appends exactly that request to the log and leaves context, arguments and event unchanged. |
| Stub.GetState | chaincode_java/shim/src/main/java/org/hyperledger/fabric/shim/impl/ChaincodeStubImpl.java:162-164 | Issues exactly one `GetState(channelId, txId, key)` request and changes nothing else. |
| Stub.PutState | chaincode_java/shim/src/main/java/org/hyperledger/fabric/shim/impl/ChaincodeStubImpl.java:167-171 | A `null` key throws NPE and an empty key throws IAE. A valid key with a `null` value throws NPE (from `ByteString.copyFrom`). Every throw leaves the stub unchanged. It returns normally if and only if the key is non-empty and the value is non-null, and then exactly one `PutState(channelId, txId, key, value)` request is appended. |
| Stub.DelState | chaincode_java/shim/src/main/java/org/hyperledger/fabric/shim/impl/ChaincodeStubImpl.java:174-176 | Issues exactly one `DeleteState(channelId, txId, key)` request and changes nothing else. |
| Stub.GetStateByRange | chaincode_java/shim/src/main/java/org/hyperledger/fabric/shim/impl/ChaincodeStubImpl.java:179-188 | The request carries the normalized bounds and is sent if and only if the simple-key validation accepts them. A rejection throws and leaves the log unchanged. |
| Stub.GetStateByPartialCompositeKey | chaincode_java/shim/src/main/java/org/hyperledger/fabric/shim/impl/ChaincodeStubImpl.java:201-206 | It is the range scan `[P, P ++ U+DBFF U+DFFF)`, where P is the prefix or `UNSPECIFIED_KEY`, and both bounds reach the transport unaltered. |
| Stub.GetQueryResult | chaincode_java/shim/src/main/java/org/hyperledger/fabric/shim/impl/ChaincodeStubImpl.java:219-224 | Issues exactly one `GetQueryResult` request carrying the query verbatim and changes nothing else. |
| Stub.GetHistoryForKey | chaincode_java/shim/src/main/java/org/hyperledger/fabric/shim/impl/ChaincodeStubImpl.java:227-232 | Issues exactly one `GetHistoryForKey` request carrying the key verbatim and changes nothing else. |
| Stub.TargetName | chaincode_java/shim/src/main/java/org/hyperledger/fabric/shim/impl/ChaincodeStubImpl.java:245-252 | The target is `name/channel` when the channel is non-null and has a unit above U+0020, and the name alone (possibly `null`) otherwise. |
| Stub.TargetNameSplits | chaincode_java/shim/src/main/java/org/hyperledger/fabric/shim/impl/ChaincodeStubImpl.java:248-249 | For a slash-free name, the first slash of the composite target separates the name from the channel. |
| Stub.InvokeChaincode | chaincode_java/shim/src/main/java/org/hyperledger/fabric/shim/impl/ChaincodeStubImpl.java:245-254 | Issues exactly one `InvokeChaincode` request with the composite target and the arguments, and changes nothing else. |
| Stub.SetEvent | chaincode_java/shim/src/main/java/org/hyperledger/fabric/shim/impl/ChaincodeStubImpl.java:132-144 | It throws IAE if and only if the name is `null` or trim-empty, and then the stub is unchanged. Otherwise the stored event has that name, and its payload is absent if and only if the payload supplied was `null`. The log is never touched. |
| Stub.GetEventAfterSetEvent | chaincode_java/shim/src/main/java/org/hyperledger/fabric/shim/impl/ChaincodeStubImpl.java:132-149 | After `setEvent` with a non-null, non-blank name, `getEvent` returns an event with that name and exactly the supplied payload, absent if and only if it was `null`. After a refused `setEvent`, `getEvent` returns what it returned before. |
| Stub.SetEventLastWriteWins | chaincode_java/shim/src/main/java/org/hyperledger/fabric/shim/impl/ChaincodeStubImpl.java:132-149 | After a successful `setEvent`, the state no longer depends on any earlier `setEvent`. |
| Stub.StringArgs | chaincode_java/shim/src/main/java/org/hyperledger/fabric/shim/impl/ChaincodeStubImpl.java:117-119 | There is one decoded string per argument, in order. |
| Stub.GetFunction | chaincode_java/shim/src/main/java/org/hyperledger/fabric/shim/impl/ChaincodeStubImpl.java:122-124 | Returns `null` if and only if there are no arguments, and otherwise the first decoded argument. |
| Stub.GetParameters | chaincode_java/shim/src/main/java/org/hyperledger/fabric/shim/impl/ChaincodeStubImpl.java:127-129 | Returns the decoded arguments after the first, in order; the result is empty when there are none. |
| Stub.FunctionAndParametersSplitArgs | chaincode_java/shim/src/main/java/org/hyperledger/fabric/shim/impl/ChaincodeStubImpl.java:121-129 | With at least one argument, the function name followed by the parameters is the whole argument list. |
| Stub.ApplyAppendsAtMostOne | chaincode_java/shim/src/main/java/org/hyperledger/fabric/shim/impl/ChaincodeStubImpl.java:161-254 | No call changes the context or arguments. A call that throws changes nothing. A call that returns normally appends exactly one request, except `setEvent`, which appends none. The old log is always a prefix of the new one. |
| Stub.RunAppendOnly | chaincode_java/shim/src/main/java/org/hyperledger/fabric/shim/impl/ChaincodeStubImpl.java:47-56 | Over any sequence of calls the context and arguments stay fixed. The log only grows, by at most one request per call. |

## Left out

- Protobuf decoding (`parseFrom`) is left out: it is foreign code. Each decoder is a partial-function parameter.
- SHA-256 (`MessageDigest`) is left out: it is foreign code and a parameter here. Only the digest input's layout is proved. `NoSuchAlgorithmException` is not modelled.
- The transport `Handler` is an external RPC collaborator. Its results and its failures are not modelled. Each call is recorded as a request in the log.
- `QueryResultsIteratorImpl` (the paged iteration protocol) and the decoders `queryResultBytesToKv` and `queryResultBytesToKeyModification` are not part of this model. The scan operations stop at the request they send.
- `CompositeKey` is not part of this model. Consequences: `createCompositeKey` and `splitCompositeKey` are not modelled; `validateSimpleKeys` is a parameter predicate over the list of keys.
- Context.ValidateProposalType: for type numbers that `HeaderType.forNumber` does not know, Java throws a `NullPointerException` from the `switch` rather than the formatted exception. Both abort construction, and the model reports both as `UnsupportedProposalType`. The numbers 1 and 3 are the `HeaderType` values of Fabric's `common.proto`, which is not part of this model.
- `Instant.ofEpochSecond` is not modelled. The context keeps the raw (seconds, nanos) pair. Normalization and the `DateTimeException` for out-of-range seconds are left out.
- UTF-8 decoding in `getStringArgs` is a parameter.
- Defensive copies are not modelled because values are immutable here. Accessors that read context fields (`getCreator`, `getTxTimestamp`, `getTransient`, `getBinding`, `getTxId`, `getChannelId`, `getSignedProposal`, `getArgs`) are not modelled as separate members.
- `getBinding` returns the internal array without a copy. Values are immutable here, so the model makes no claim about copying.
- `null` channel ids, tx ids and argument lists given to the constructor are not modelled.
- Nothing is claimed about the partial-key upper bound sorting above every key that shares the prefix. Under UTF-16 code-unit order, units U+E000..U+FFFF sort above U+DBFF, so such a claim fails. Only the strict-prefix ordering is proved.
- Stub.SetEvent: payload absence is the builder's field being unset. Reading an unset proto3 `bytes` field yields empty bytes, and that distinction is not modelled.

## Notes on the code

- `putState` with a valid key and a `null` value throws a `NullPointerException` from `ByteString.copyFrom` before the transport is called. The model follows the code. A valid key alone is not enough for a request to be issued.
- `setEvent` and `invokeChaincode` test for a blank string with `trim()`, not for an empty one. A name or channel made only of spaces or control units counts as missing. The model follows the code.
- `putState` rejects a `null` key (`NullPointerException`) separately from an empty key (`IllegalArgumentException`).
- The binding's digest input has no delimiters. Only the nonce and creator lengths make it unambiguous (`Context.PreimageInjective`). Without them a byte can move from the nonce to the creator and the input stays the same (`Context.PreimageAmbiguousAcrossLengths`).
- `invokeChaincode` with a `null` name and a non-blank channel targets `"null/<channel>"`, because of Java string concatenation. With a blank channel it targets `null`.
