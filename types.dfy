/** Rust's fixed-width unsigned integers. Values arrive already range-checked: decoding a
    NIF argument into `u8`, `u16`, `u32` or `u64` rejects out-of-range integers before any
    of the modelled code runs. */
module Ints {
  newtype u8 = x: int | 0 <= x < 0x100
  newtype u16 = x: int | 0 <= x < 0x1_0000
  newtype u32 = x: int | 0 <= x < 0x1_0000_0000
  newtype u64 = x: int | 0 <= x < 0x1_0000_0000_0000_0000
}

/** The ledger's value types as the native code handles them (`solana_program` and
    `solana_sdk`). Keys and hashes are 32-byte values; their base-58 text form and every
    computation on them belong to the library record in module Library. */
module Ledger {
  import opened Ints
  import opened Results

  /** Exactly 32 bytes, the width of `[u8; 32]`. */
  type Bytes32 = s: seq<u8> | |s| == 32 witness seq(32, _ => 0)

  /** A key is 32 bytes; `Pubkey::from_str` rejects any text that does not decode to 32 bytes. */
  datatype Pubkey = Pubkey(bytes: Bytes32)

  datatype Hash = Hash(bytes: Bytes32)

  /** A signing keypair: its public key and its secret bytes. */
  datatype Keypair = Keypair(pubkey: Pubkey, secret: seq<u8>)

  /** One account reference of an instruction. */
  datatype AccountMeta = AccountMeta(pubkey: Pubkey, isSigner: bool, isWritable: bool)

  /** `AccountMeta::new_readonly(pubkey, is_signer)`: a reference the instruction never writes. */
  function NewReadonly(pubkey: Pubkey, isSigner: bool): (m: AccountMeta)
    ensures m.pubkey == pubkey && m.isSigner == isSigner && !m.isWritable
  {
    AccountMeta(pubkey, isSigner, false)
  }

  datatype Instruction = Instruction(programId: Pubkey, accounts: seq<AccountMeta>, data: seq<u8>)

  /** What a transaction message is built from: the instructions in order, the fee payer and
      the recent blockhash. Compiling this into the wire message (account deduplication and
      ordering, instruction indices) is library code and is not modelled. */
  datatype Message = Message(instructions: seq<Instruction>, payer: Option<Pubkey>, recentBlockhash: Hash)

  datatype Transaction = Transaction(message: Message, signatures: seq<seq<u8>>)
}

/** The `mpl_bubblegum` types the native code fills in: the metadata of a compressed NFT, the
    account records of the four instructions and their argument records. Field names follow
    the Rust structs. */
module Bubblegum {
  import opened Ints
  import opened Results
  import opened Ledger

  datatype Creator = Creator(address: Pubkey, verified: bool, share: u8)

  datatype Collection = Collection(verified: bool, key: Pubkey)

  datatype UseMethod = Burn | Multiple | Single

  datatype Uses = Uses(useMethod: UseMethod, remaining: u64, total: u64)

  datatype TokenProgramVersion = Original | Token2022

  datatype TokenStandard = NonFungible | FungibleAsset | Fungible | NonFungibleEdition

  datatype MetadataArgs = MetadataArgs(
    name: string,
    symbol: string,
    uri: string,
    sellerFeeBasisPoints: u16,
    primarySaleHappened: bool,
    isMutable: bool,
    editionNonce: Option<u8>,
    tokenStandard: Option<TokenStandard>,
    collection: Option<Collection>,
    uses: Option<Uses>,
    tokenProgramVersion: TokenProgramVersion,
    creators: seq<Creator>)

  /** Accounts of the `CreateTreeConfig` instruction. */
  datatype CreateTreeConfig = CreateTreeConfig(
    treeConfig: Pubkey,
    merkleTree: Pubkey,
    payer: Pubkey,
    treeCreator: Pubkey,
    logWrapper: Pubkey,
    compressionProgram: Pubkey,
    systemProgram: Pubkey)

  datatype CreateTreeConfigInstructionArgs = CreateTreeConfigInstructionArgs(
    maxDepth: u32,
    maxBufferSize: u32,
    public: Option<bool>)

  /** Accounts of the `MintV1` instruction. */
  datatype MintV1 = MintV1(
    treeConfig: Pubkey,
    leafOwner: Pubkey,
    leafDelegate: Pubkey,
    merkleTree: Pubkey,
    payer: Pubkey,
    treeCreatorOrDelegate: Pubkey,
    logWrapper: Pubkey,
    compressionProgram: Pubkey,
    systemProgram: Pubkey)

  /** Accounts of the `MintToCollectionV1` instruction. */
  datatype MintToCollectionV1 = MintToCollectionV1(
    treeConfig: Pubkey,
    leafOwner: Pubkey,
    leafDelegate: Pubkey,
    merkleTree: Pubkey,
    payer: Pubkey,
    treeCreatorOrDelegate: Pubkey,
    collectionAuthority: Pubkey,
    collectionAuthorityRecordPda: Option<Pubkey>,
    collectionMint: Pubkey,
    collectionMetadata: Pubkey,
    collectionEdition: Pubkey,
    bubblegumSigner: Pubkey,
    logWrapper: Pubkey,
    compressionProgram: Pubkey,
    tokenMetadataProgram: Pubkey,
    systemProgram: Pubkey)

  /** Accounts of the `Transfer` instruction; `leafOwner` and `leafDelegate` carry their
      is-signer flag beside the key. */
  datatype Transfer = Transfer(
    treeConfig: Pubkey,
    leafOwner: (Pubkey, bool),
    leafDelegate: (Pubkey, bool),
    newLeafOwner: Pubkey,
    merkleTree: Pubkey,
    logWrapper: Pubkey,
    compressionProgram: Pubkey,
    systemProgram: Pubkey)

  datatype TransferInstructionArgs = TransferInstructionArgs(
    root: seq<u8>,
    dataHash: seq<u8>,
    creatorHash: seq<u8>,
    nonce: u64,
    index: u32)
}

/** Everything the native code calls but does not implement, as one record of functions.
    The model is proved for every library. The lemmas that print a key and parse it back
    also take as a hypothesis that base-58 parsing inverts printing (`Base58RoundTrip`).
    Beyond that, base-58, key derivation, the instruction byte layouts, signatures and
    bincode are known only by their types. A partial library call (a parse that can fail)
    returns an Option; a call that cannot fail returns its value. */
module Library {
  import opened Ints
  import opened Results
  import opened Ledger
  import opened Bubblegum

  /** Program ids: `spl_noop::ID`, `spl_account_compression::ID`,
      `solana_program::system_program::ID`, `mpl_token_metadata::ID`, `mpl_bubblegum::ID`. */
  datatype ProgramIds = ProgramIds(
    noop: Pubkey,
    accountCompression: Pubkey,
    system: Pubkey,
    tokenMetadata: Pubkey,
    bubblegum: Pubkey)

  datatype Lib = Lib(
    ids: ProgramIds,
    /** `Pubkey::from_str`, base-58 text to key */
    parsePubkey: string -> Option<Pubkey>,
    /** `Pubkey::to_string`, key to base-58 text */
    pubkeyToString: Pubkey -> string,
    /** `Hash::from_str` */
    parseHash: string -> Option<Hash>,
    /** `Keypair::from_bytes` */
    keypairFromBytes: seq<u8> -> Option<Keypair>,
    /** `TreeConfig::find_pda(..).0` */
    treeConfigPda: Pubkey -> Pubkey,
    /** `Metadata::find_pda(..).0` */
    metadataPda: Pubkey -> Pubkey,
    /** `MasterEdition::find_pda(..).0` */
    masterEditionPda: Pubkey -> Pubkey,
    /** `Pubkey::find_program_address(seeds, program).0` */
    findProgramAddress: (seq<seq<u8>>, Pubkey) -> Pubkey,
    /** `system_instruction::create_account(from, to, lamports, space, owner)` */
    createAccount: (Pubkey, Pubkey, u64, u64, Pubkey) -> Instruction,
    /** the `.instruction(args)` builders of `mpl_bubblegum` */
    createTreeConfig: (CreateTreeConfig, CreateTreeConfigInstructionArgs) -> Instruction,
    mintV1: (MintV1, MetadataArgs) -> Instruction,
    mintToCollectionV1: (MintToCollectionV1, MetadataArgs) -> Instruction,
    transfer: (Transfer, TransferInstructionArgs) -> Instruction,
    /** the signature list `Transaction::new_signed_with_payer` attaches to a message when given
        these keypairs (its length and order follow the message's required signers) */
    sign: (Message, seq<Keypair>) -> seq<seq<u8>>,
    /** `bincode::serialize` of a transaction and of a byte vector */
    serializeTransaction: Transaction -> Option<seq<u8>>,
    serializeBytes: seq<u8> -> Option<seq<u8>>)

  /** `Transaction::new_signed_with_payer(instructions, payer, signers, blockhash)`. */
  function NewSignedWithPayer(lib: Lib, instructions: seq<Instruction>, payer: Option<Pubkey>,
                              signers: seq<Keypair>, blockhash: Hash): Transaction
  {
    var message := Message(instructions, payer, blockhash);
    Transaction(message, lib.sign(message, signers))
  }
}
