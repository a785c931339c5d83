# bubblegum_nifs native core, modelled in Dafny

The Rust side of `bubblegum_nifs` is a set of native functions that the Elixir client calls
to build signed transactions for the Metaplex Bubblegum compressed-NFT program. Each
builder takes base-58 text for account keys, secret-key bytes for keypairs, a blockhash
text and plain numbers, and then works in four steps:

- it checks and parses each argument in a fixed order, and stops at the first one that fails with that argument's own message;
- it fills in the `mpl_bubblegum` account and argument records;
- it signs a transaction with `Transaction::new_signed_with_payer`;
- it returns the bincode bytes of that transaction together with its signatures.

The model covers these functions:

- `to_rust_creator` and `to_rust_metadata_args`, which turn the Elixir metadata record into `MetadataArgs`;
- the four builders `create_tree_config_ix`, `mint_v1_ix`, `mint_to_collection_v1_ix` and `transfer_ix`;
- `get_tree_authority_pda_address`;
- `vec_to_array32` from `utils.rs`.

Modules:

- `Results` (results.dfy): Option and Result, and the two ways the source chains fallible steps:
  - `FirstError` / `FirstOf`: the first failing check of a `?` chain;
  - `MapAll`: a list conversion that fails at its first failing element.
- `Ints`, `Ledger`, `Bubblegum`, `Library` (types.dfy): integer widths, ledger values, the `mpl_bubblegum` records, and the library record `Lib`.
  - `Lib` holds every library call the native code makes but does not implement: base-58 parsing and printing, `Keypair::from_bytes`, address derivation, the instruction builders, signing and bincode.
  - Every property is proved for every `Lib`. The lemmas that print a key and parse it back also assume `Base58RoundTrip`: parsing the base-58 text of any 32-byte key gives that key back. Nothing else is assumed about these calls beyond their types.
- `Utils` (utils.dfy): `vec_to_array32`, as a method that fills a 32-element array.
- `Core` (core.dfy): the native functions.
  - Each builder is split into two stages. A `...Tx` function validates the arguments and assembles the transaction. A `...Ix` function serialises it.
  - The error order of each builder is stated against an independent chain of checks (`...FirstError`).
  - The two loops of the source are methods, each proved equal to its specification function:
    - the creators loop in `ToRustMetadataArgs`;
    - the proof-account loop in `TransferIx`.
- `CoreProperties` (properties.dfy): properties that relate several calls, such as round trips, the fallback to derived addresses, and agreement between builders.

Places where the code and the design description of the repository disagree. The model follows the code:

- The description asks that creator shares not summing to 100, or a seller fee above 10000, be rejected. The code checks neither (`CoreProperties.NoFeeOrShareValidation`).
- The description asks that a transfer with an empty proof list be rejected. The code accepts it (`CoreProperties.EmptyProofListAccepted`).
- The description has the leaf owner sign a transfer. `transfer_ix` signs with the payer alone.
- `mint_v1_ix`, `mint_to_collection_v1_ix` and `transfer_ix` report a serialisation failure as "Failed to serialize create tree config instruction". The model keeps these messages as written.
- `mint_v1_ix` and `mint_to_collection_v1_ix` report a bad payer keypair as "Invalid pubkey format for payer", while `transfer_ix` says "Invalid payer keypair". The model keeps both.

## Model

| member | source | states |
|---|---|---|
| Utils.VecToArray32 | native/bubblegum_nifs/src/utils.rs:1-8 | succeeds iff the vector has exactly 32 bytes; the array is then a byte-for-byte copy; too short and too long give the same message, "Vector length must be 32" |
| Core.ToRustCreator | native/bubblegum_nifs/src/core.rs:71-80 | succeeds iff the address parses; the address is the parsed key, and `verified` and `share` are kept; otherwise the creator message |
| Core.UseMethodOf | native/bubblegum_nifs/src/core.rs:102-107 | bytes 0, 1 and 2 decode to Burn, Multiple and Single; every other byte gives "Invalid use method" |
| Core.UseMethodRoundTrip | native/bubblegum_nifs/src/core.rs:102-107 | decoding inverts the byte table, and any byte that decodes is the code of what it decodes to |
| Core.CollectionOf | native/bubblegum_nifs/src/core.rs:88-98 | an absent collection stays absent; a present one succeeds iff its key parses, keeps `verified` and carries the parsed key; otherwise the collection message |
| Core.UsesOf | native/bubblegum_nifs/src/core.rs:100-116 | absent uses stay absent; present uses succeed iff the use method byte is at most 2, and the counters are copied unchecked |
| Core.MetadataArgsOf | native/bubblegum_nifs/src/core.rs:82-132 | fails iff a creator, the collection key or the use method is bad, with the first failing check's message in that order; on success the scalars are copied, the creators are converted one-to-one in order, the token program version is Original and the token standard is NonFungible |
| Core.CreatorChecksAgree | native/bubblegum_nifs/src/core.rs:83-86 | the per-creator checks fail exactly when the creators loop returns early, and then with the creator message |
| Core.ToRustMetadataArgs | native/bubblegum_nifs/src/core.rs:82-132 | the loop that pushes each converted creator computes exactly MetadataArgsOf, early returns included |
| Core.CollectionAccount | native/bubblegum_nifs/src/core.rs:311-324 | empty text gives the derived address; non-empty text must parse, and a parse failure is that account's error, never a fallback |
| Core.GetTreeAuthorityPdaAddress | native/bubblegum_nifs/src/core.rs:470-476 | succeeds iff the tree address parses; it returns the text of the tree-config address derived from that tree; otherwise the merkle-tree message |
| Core.CreateTreeConfigTx | native/bubblegum_nifs/src/core.rs:144-199 | fails iff the payer keypair, tree keypair or blockhash is bad, with the first in that order; instructions are [create_account(payer to tree, lamports, size, owned by account compression), CreateTreeConfig(derived authority, tree, payer as payer and tree creator, Some(public))]; fee payer is the payer; signers are [payer, tree] |
| Core.CreateTreeConfigIx | native/bubblegum_nifs/src/core.rs:201-211 | passes validation errors through; otherwise it succeeds iff bincode succeeds, returning its bytes and the signatures, or "Failed to serialize transaction" |
| Core.MintV1Tx | native/bubblegum_nifs/src/core.rs:215-258 | fails iff one of tree authority, leaf owner, leaf delegate, merkle tree, payer keypair, metadata or blockhash is bad, reporting the first in that order; otherwise one MintV1 instruction over the parsed keys, with the payer as payer and tree creator, paid and signed by the payer |
| Core.MintV1Ix | native/bubblegum_nifs/src/core.rs:260-273 | passes validation errors through; otherwise it succeeds iff bincode succeeds, returning its bytes and the signatures; the failure message is the create-tree-config one, as written |
| Core.MintToCollectionV1Tx | native/bubblegum_nifs/src/core.rs:277-358 | fails iff a check fails, reporting the first in source order (the mint checks, then collection authority, collection mint, non-empty collection metadata and master edition, then metadata and blockhash); otherwise one MintToCollectionV1 instruction with the derived-or-parsed collection accounts, no authority record, the collection_cpi signer address and the payer as payer and tree creator |
| Core.MintToCollectionV1Ix | native/bubblegum_nifs/src/core.rs:360-373 | passes validation errors through; otherwise it succeeds iff bincode succeeds, returning its bytes and the signatures |
| Core.ProofAccount | native/bubblegum_nifs/src/core.rs:435-440 | a proof address gives a readonly, non-signer account of the parsed key; otherwise the proof-address message |
| Core.WithProofAccounts | native/bubblegum_nifs/src/core.rs:435-441 | succeeds iff every proof address parses, failing at the first bad one; program, data and existing accounts are unchanged, followed by exactly one readonly non-signer account per proof address, in order |
| Core.TransferTx | native/bubblegum_nifs/src/core.rs:377-448 | fails iff a check fails, reporting the first in the order tree authority, leaf owner, leaf delegate, new leaf owner, merkle tree, payer keypair, blockhash, then root, data and creator hash lengths, then proof addresses; on success all three hashes are 32 bytes and the one instruction is the Transfer (each hash in its own field, owner and delegate flagged as signers) extended with the proof accounts; paid and signed by the payer |
| Core.TransferIxOf | native/bubblegum_nifs/src/core.rs:450-466 | passes validation errors through; the transaction's bincode bytes are serialised a second time as a byte vector, and each of the two failures has its own message |
| Core.TransferIx | native/bubblegum_nifs/src/core.rs:377-467 | the code as written (hashes copied by vec_to_array32, proof accounts pushed in a loop with early return) computes exactly TransferIxOf |
| CoreProperties.MetadataArgsRoundTrip | native/bubblegum_nifs/src/core.rs:82-132 | assuming `Base58RoundTrip`, converting the Elixir record of any metadata with the two fixed fields gives that metadata back |
| CoreProperties.NoFeeOrShareValidation | native/bubblegum_nifs/src/core.rs:118-131 | changing the seller fee and every creator share never changes whether the conversion succeeds; the new values are copied as they are |
| CoreProperties.CreateTreeAuthorityMatchesPdaAddress | native/bubblegum_nifs/src/core.rs:167-180 | assuming `Base58RoundTrip`, get_tree_authority_pda_address succeeds on the new tree's text, and its result parses to the tree config written into the CreateTreeConfig instruction |
| CoreProperties.MintUsesDerivedAuthority | native/bubblegum_nifs/src/core.rs:224-225 | assuming `Base58RoundTrip`, a mint given the authority text that get_tree_authority_pda_address returned for its tree passes the authority check and, when the mint succeeds, its MintV1 instruction has that tree's derived authority as tree config |
| CoreProperties.EmptyCollectionMetadataIsDerived | native/bubblegum_nifs/src/core.rs:311-316 | assuming `Base58RoundTrip`, an empty collection metadata builds the same transaction as passing the text of the metadata address derived from the collection mint |
| CoreProperties.EmptyMasterEditionIsDerived | native/bubblegum_nifs/src/core.rs:318-326 | assuming `Base58RoundTrip`, an empty collection master edition builds the same transaction as passing the text of the derived master-edition address |
| CoreProperties.BadCollectionMetadataIsAnError | native/bubblegum_nifs/src/core.rs:311-316 | a non-empty collection metadata that does not parse fails the mint with its own message once the earlier checks pass |
| CoreProperties.WithProofAccountsAppend | native/bubblegum_nifs/src/core.rs:435-441 | pushing the proof accounts of two lists one after the other equals pushing the accounts of their concatenation |
| CoreProperties.EmptyProofListAccepted | native/bubblegum_nifs/src/core.rs:435-441 | with no proof addresses the transfer succeeds exactly when the ten checks before the proof addresses pass, never fails with the proof-address message, and its instruction keeps only the builder's own accounts |
| CoreProperties.TransferMessageIsReserialised | native/bubblegum_nifs/src/core.rs:450-458 | transfer's bytes are the one-pass serialisation, serialised once more; the signatures are the same |
| CoreProperties.CreateTreeIgnoresKeyPairText | native/bubblegum_nifs/src/core.rs:155-160 | the `pubkey` text of the payer and tree keypair records never changes the result; only the secret bytes are read |
| CoreProperties.MintV1IgnoresKeyPairText | native/bubblegum_nifs/src/core.rs:236-237 | the payer record's `pubkey` text never changes what mint_v1_ix returns |
| CoreProperties.MintToCollectionV1IgnoresKeyPairText | native/bubblegum_nifs/src/core.rs:302-303 | the payer record's `pubkey` text never changes what mint_to_collection_v1_ix returns |
| CoreProperties.TransferIgnoresKeyPairText | native/bubblegum_nifs/src/core.rs:407-408 | the payer record's `pubkey` text never changes what transfer_ix returns |

## Left out

- `generate_keypair`: it draws fresh randomness and has no logic of its own.
- Keys and hashes are 32-byte values. Base-58, `Keypair::from_bytes`, `Hash::from_str`, program-address derivation, the `mpl_bubblegum` instruction builders, signing and bincode are parameters of the model (the `Lib` record). Their byte layouts and cryptography are not modelled.
- Transaction: compiling the message is not modelled. This covers account deduplication, ordering and instruction indices. A transaction is its instructions, fee payer, blockhash and the signatures the library produces over them.
- `Transaction::new_signed_with_payer` panics when the given keypairs do not cover every signer the instructions require. The model does not capture this panic.
  - `transfer_ix` flags the leaf owner and the leaf delegate as signers but signs with the payer alone.
  - So the library panics unless both of those keys are the payer's. The model instead returns the transaction the library would build.
- Decoding Elixir terms into the Rust records, including the range checks on the integers, happens before the modelled code runs. The records and integer newtypes start from the decoded values.
- The RPC workflow (blockhash, rent and proof fetches, submission), the account-size computation and the Elixir client are not part of the native code and are not modelled.
- Core.MintV1Tx, Core.MintToCollectionV1Tx: they use the specification function MetadataArgsOf rather than the looping method ToRustMetadataArgs. The two are proved equal (`ToRustMetadataArgs` ensures it).
