/** `core.rs`: the native functions behind the Elixir client. Each one validates and parses
    its text and byte arguments in a fixed order, stopping at the first one that fails with
    that argument's message, fills in the `mpl_bubblegum` account and argument records,
    signs a transaction and hands back its bincode bytes with its signatures. */
module Core {
  import opened Ints
  import opened Results
  import opened Ledger
  import opened Bubblegum
  import opened Library
  import opened Utils

  // ---------------------------------------------------------------------------------------
  // The records the Elixir side passes in and receives (`#[derive(NifStruct)]`).

  datatype KeyPairInfo = KeyPairInfo(pubkey: string, secret: seq<u8>)

  datatype CreatorStruct = CreatorStruct(address: string, verified: bool, share: u8)

  datatype CollectionStruct = CollectionStruct(verified: bool, key: string)

  datatype UsesStruct = UsesStruct(useMethod: u8, remaining: u64, total: u64)

  datatype MetadataArgsStruct = MetadataArgsStruct(
    name: string,
    symbol: string,
    uri: string,
    sellerFeeBasisPoints: u16,
    primarySaleHappened: bool,
    isMutable: bool,
    editionNonce: Option<u8>,
    creators: seq<CreatorStruct>,
    collection: Option<CollectionStruct>,
    uses: Option<UsesStruct>)

  datatype TransactionStruct = TransactionStruct(message: seq<u8>, signatures: seq<seq<u8>>)

  /** The arguments of `create_tree_config_ix`, in the order the function declares them. */
  datatype CreateTreeConfigParams = CreateTreeConfigParams(
    payerInfo: KeyPairInfo,
    merkleTreeInfo: KeyPairInfo,
    maxDepth: u32,
    maxBufferSize: u32,
    recentBlockhash: string,
    public: bool,
    lamports: u64,
    accountSize: u64)

  /** The arguments of `mint_v1_ix`. */
  datatype MintV1Params = MintV1Params(
    treeAuthority: string,
    leafOwner: string,
    leafDelegate: string,
    merkleTree: string,
    payer: KeyPairInfo,
    metadataArgs: MetadataArgsStruct,
    recentBlockhash: string)

  /** The arguments of `mint_to_collection_v1_ix`. */
  datatype MintToCollectionV1Params = MintToCollectionV1Params(
    treeAuthority: string,
    leafOwner: string,
    leafDelegate: string,
    merkleTree: string,
    payer: KeyPairInfo,
    collectionAuthority: string,
    collectionMint: string,
    collectionMetadata: string,
    collectionMasterEdition: string,
    metadataArgs: MetadataArgsStruct,
    recentBlockhash: string)

  /** The arguments of `transfer_ix`; note `creatorHash` is declared before `dataHash`. */
  datatype TransferParams = TransferParams(
    treeAuthority: string,
    leafOwner: string,
    leafDelegate: string,
    newLeafOwner: string,
    merkleTree: string,
    rootHash: seq<u8>,
    creatorHash: seq<u8>,
    dataHash: seq<u8>,
    nonce: u64,
    index: u32,
    proofAddresses: seq<string>,
    recentBlockhash: string,
    payer: KeyPairInfo)

  // ---------------------------------------------------------------------------------------
  // Error messages, exactly as the native functions box them.

  const InvalidCreator := "Invalid pubkey format for creator"
  const InvalidCollection := "Invalid pubkey format for collection"
  const InvalidUseMethod := "Invalid use method"
  const InvalidPayerKeypair := "Invalid payer keypair"
  const InvalidMerkleTreeKeypair := "Invalid merkle tree keypair"
  const InvalidBlockhash := "Invalid blockhash"
  const InvalidTreeAuthority := "Invalid pubkey format for tree authority"
  const InvalidLeafOwner := "Invalid pubkey format for leaf owner"
  const InvalidLeafDelegate := "Invalid pubkey format for leaf delegate"
  const InvalidNewLeafOwner := "Invalid pubkey format for new leaf owner"
  const InvalidMerkleTree := "Invalid pubkey format for merkle tree"
  /** The mint builders report a bad payer keypair with this message. */
  const InvalidPayer := "Invalid pubkey format for payer"
  const InvalidCollectionAuthority := "Invalid pubkey format for collection authority"
  const InvalidCollectionMint := "Invalid pubkey format for collection mint"
  const InvalidCollectionMetadata := "Invalid pubkey format for collection metadata"
  const InvalidCollectionMasterEdition := "Invalid pubkey format for collection master edition"
  const InvalidProofAddress := "Invalid pubkey format for proof address"
  const SerializeTransactionFailed := "Failed to serialize transaction"
  /** The message the mint and transfer builders give when bincode fails on the transaction. */
  const SerializeInstructionFailedCreateTree := "Failed to serialize create tree config instruction"
  const SerializeInstructionFailed := "Failed to serialize instruction"

  /** The seed `"collection_cpi".as_bytes()` of the bubblegum signer address. */
  const CollectionCpiSeed: seq<u8> := [0x63, 0x6f, 0x6c, 0x6c, 0x65, 0x63, 0x74, 0x69, 0x6f, 0x6e, 0x5f, 0x63, 0x70, 0x69]

  // ---------------------------------------------------------------------------------------
  // One check of the fail-fast sequences: `None` when the argument is accepted, otherwise
  // the message that the `?` on it returns.

  function PubkeyCheck(lib: Lib, s: string, message: string): Option<string> {
    if lib.parsePubkey(s).Some? then None else Some(message)
  }

  function KeypairCheck(lib: Lib, info: KeyPairInfo, message: string): Option<string> {
    if lib.keypairFromBytes(info.secret).Some? then None else Some(message)
  }

  function BlockhashCheck(lib: Lib, s: string): Option<string> {
    if lib.parseHash(s).Some? then None else Some(InvalidBlockhash)
  }

  /** The check on a collection account that may be left empty: empty is accepted. */
  function OptionalPubkeyCheck(lib: Lib, s: string, message: string): Option<string> {
    if s == "" then None else PubkeyCheck(lib, s, message)
  }

  // ---------------------------------------------------------------------------------------
  // `to_rust_creator` and `to_rust_metadata_args`.

  /** `to_rust_creator`: parses the address and keeps `verified` and `share`. */
  function ToRustCreator(lib: Lib, c: CreatorStruct): (r: Result<Creator>)
    ensures r.Ok? <==> lib.parsePubkey(c.address).Some?
    ensures r.Ok? ==> r.value.address == lib.parsePubkey(c.address).value
    ensures r.Ok? ==> r.value.verified == c.verified && r.value.share == c.share
    ensures r.Err? ==> r.error == InvalidCreator
  {
    var address :- OrError(lib.parsePubkey(c.address), InvalidCreator);
    Ok(Creator(address, c.verified, c.share))
  }

  /** The element conversion of the creators loop. */
  function CreatorConversion(lib: Lib): CreatorStruct -> Result<Creator> {
    c => ToRustCreator(lib, c)
  }

  /** The `use_method` byte decoded: 0, 1 and 2 are Burn, Multiple and Single; anything else
      is rejected. */
  function UseMethodOf(code: u8): (r: Result<UseMethod>)
    ensures r.Ok? <==> code <= 2
    ensures code == 0 ==> r == Ok(Burn)
    ensures code == 1 ==> r == Ok(Multiple)
    ensures code == 2 ==> r == Ok(Single)
    ensures r.Err? ==> r.error == InvalidUseMethod
  {
    match code
    case 0 => Ok(Burn)
    case 1 => Ok(Multiple)
    case 2 => Ok(Single)
    case _ => Err(InvalidUseMethod)
  }

  /** The byte the Elixir side sends for a use method; the partner of UseMethodOf. */
  function UseMethodCode(m: UseMethod): u8 {
    match m
    case Burn => 0
    case Multiple => 1
    case Single => 2
  }

  /** Decoding is the inverse of the code table, on the three valid bytes and nowhere else. */
  lemma UseMethodRoundTrip(m: UseMethod, code: u8)
    ensures UseMethodOf(UseMethodCode(m)) == Ok(m)
    ensures UseMethodOf(code).Ok? ==> UseMethodCode(UseMethodOf(code).value) == code
  {
  }

  /** The `collection` field: absent stays absent; present keeps `verified` and parses `key`. */
  function CollectionOf(lib: Lib, col: Option<CollectionStruct>): (r: Result<Option<Collection>>)
    ensures col.None? ==> r == Ok(None)
    ensures col.Some? ==> (r.Ok? <==> lib.parsePubkey(col.value.key).Some?)
    ensures col.Some? && r.Ok? ==>
              r.value == Some(Collection(col.value.verified, lib.parsePubkey(col.value.key).value))
    ensures r.Err? ==> r.error == InvalidCollection
  {
    match col
    case None => Ok(None)
    case Some(c) =>
      var key :- OrError(lib.parsePubkey(c.key), InvalidCollection);
      Ok(Some(Collection(c.verified, key)))
  }

  /** The `uses` field: absent stays absent; present decodes the use method and keeps the
      counters as they are (no check that `remaining <= total`). */
  function UsesOf(uses: Option<UsesStruct>): (r: Result<Option<Uses>>)
    ensures uses.None? ==> r == Ok(None)
    ensures uses.Some? ==> (r.Ok? <==> uses.value.useMethod <= 2)
    ensures uses.Some? && r.Ok? ==>
              r.value == Some(Uses(UseMethodOf(uses.value.useMethod).value, uses.value.remaining, uses.value.total))
    ensures r.Err? ==> r.error == InvalidUseMethod
  {
    match uses
    case None => Ok(None)
    case Some(u) =>
      var m :- UseMethodOf(u.useMethod);
      Ok(Some(Uses(m, u.remaining, u.total)))
  }

  /** One check per creator address, in list order. */
  function CreatorChecks(lib: Lib, creators: seq<CreatorStruct>): seq<Option<string>> {
    seq(|creators|, i requires 0 <= i < |creators| => PubkeyCheck(lib, creators[i].address, InvalidCreator))
  }

  /** One check per proof address, in list order. */
  function ProofChecks(lib: Lib, proofAddresses: seq<string>): seq<Option<string>> {
    seq(|proofAddresses|, i requires 0 <= i < |proofAddresses| => PubkeyCheck(lib, proofAddresses[i], InvalidProofAddress))
  }

  /** What `to_rust_metadata_args` checks, in order: every creator address, then the
      collection key, then the use method; the first failure is reported. */
  function MetadataFirstError(lib: Lib, args: MetadataArgsStruct): Option<string> {
    FirstOf(FirstError(CreatorChecks(lib, args.creators)),
    FirstOf(if args.collection.Some? then PubkeyCheck(lib, args.collection.value.key, InvalidCollection) else None,
            if args.uses.Some? && args.uses.value.useMethod > 2 then Some(InvalidUseMethod) else None))
  }

  /** The value `to_rust_metadata_args` computes. It fails exactly when one of its checks
      fails, with the first failing check's message; on success the scalar fields are copied,
      the creators are converted one-to-one in order, the optional fields are mapped, the
      token program version is always Original and the token standard always NonFungible.
      No range or share-sum validation is done. */
  function MetadataArgsOf(lib: Lib, args: MetadataArgsStruct): (r: Result<MetadataArgs>)
    ensures r.Err? <==> MetadataFirstError(lib, args).Some?
    ensures r.Err? ==> Some(r.error) == MetadataFirstError(lib, args)
    ensures r.Ok? <==>
              && (forall i | 0 <= i < |args.creators| :: lib.parsePubkey(args.creators[i].address).Some?)
              && CollectionOf(lib, args.collection).Ok?
              && UsesOf(args.uses).Ok?
    ensures r.Ok? ==>
              && r.value.name == args.name
              && r.value.symbol == args.symbol
              && r.value.uri == args.uri
              && r.value.sellerFeeBasisPoints == args.sellerFeeBasisPoints
              && r.value.primarySaleHappened == args.primarySaleHappened
              && r.value.isMutable == args.isMutable
              && r.value.editionNonce == args.editionNonce
    ensures r.Ok? ==> r.value.tokenProgramVersion == Original && r.value.tokenStandard == Some(NonFungible)
    ensures r.Ok? ==>
              && |r.value.creators| == |args.creators|
              && forall i | 0 <= i < |args.creators| ::
                   r.value.creators[i] == Creator(lib.parsePubkey(args.creators[i].address).value,
                                                  args.creators[i].verified, args.creators[i].share)
    ensures r.Ok? ==> r.value.collection == CollectionOf(lib, args.collection).value
    ensures r.Ok? ==> r.value.uses == UsesOf(args.uses).value
  {
    CreatorChecksAgree(lib, args.creators);
    var creators :- MapAll(CreatorConversion(lib), args.creators);
    var collection :- CollectionOf(lib, args.collection);
    var uses :- UsesOf(args.uses);
    Ok(MetadataArgs(
      name := args.name,
      symbol := args.symbol,
      uri := args.uri,
      sellerFeeBasisPoints := args.sellerFeeBasisPoints,
      primarySaleHappened := args.primarySaleHappened,
      isMutable := args.isMutable,
      editionNonce := args.editionNonce,
      tokenStandard := Some(NonFungible),
      collection := collection,
      uses := uses,
      tokenProgramVersion := Original,
      creators := creators))
  }

  /** The creator checks fail exactly when the creator conversion does, and with its message. */
  lemma CreatorChecksAgree(lib: Lib, creators: seq<CreatorStruct>)
    ensures FirstError(CreatorChecks(lib, creators)).None? <==> MapAll(CreatorConversion(lib), creators).Ok?
    ensures FirstError(CreatorChecks(lib, creators)).Some? ==> FirstError(CreatorChecks(lib, creators)) == Some(InvalidCreator)
  {
    var f := CreatorConversion(lib);
    assert forall i | 0 <= i < |creators| :: CreatorChecks(lib, creators)[i] == ErrorOf(f(creators[i]));
    assert CreatorChecks(lib, creators) == seq(|creators|, i requires 0 <= i < |creators| => ErrorOf(f(creators[i])));
    MapAllFirstError(f, creators);
  }

  /** `to_rust_metadata_args` as written: a `for` loop pushes each converted creator onto a
      vector and returns at the first creator that does not convert; then the collection and
      uses fields are converted. */
  method ToRustMetadataArgs(lib: Lib, args: MetadataArgsStruct) returns (r: Result<MetadataArgs>)
    ensures r == MetadataArgsOf(lib, args)
  {
    ghost var f := CreatorConversion(lib);
    var creators: seq<Creator> := [];
    for i := 0 to |args.creators|
      invariant |creators| == i
      invariant forall j | 0 <= j < i :: ToRustCreator(lib, args.creators[j]) == Ok(creators[j])
    {
      var creator :- ToRustCreator(lib, args.creators[i]);
      creators := creators + [creator];
    }
    assert forall j | 0 <= j < |args.creators| :: f(args.creators[j]) == Ok(creators[j]);
    assert MapAll(f, args.creators).value == creators;
    var collection :- CollectionOf(lib, args.collection);
    var uses :- UsesOf(args.uses);
    r := Ok(MetadataArgs(
      name := args.name,
      symbol := args.symbol,
      uri := args.uri,
      sellerFeeBasisPoints := args.sellerFeeBasisPoints,
      primarySaleHappened := args.primarySaleHappened,
      isMutable := args.isMutable,
      editionNonce := args.editionNonce,
      tokenStandard := Some(NonFungible),
      collection := collection,
      uses := uses,
      tokenProgramVersion := Original,
      creators := creators));
  }

  // ---------------------------------------------------------------------------------------
  // Addresses derived rather than parsed.

  /** `TreeConfig::find_pda(tree).0`: the tree authority of a Merkle tree. Both
      `create_tree_config_ix` and `get_tree_authority_pda_address` derive it this way. */
  function TreeAuthority(lib: Lib, tree: Pubkey): Pubkey {
    lib.treeConfigPda(tree)
  }

  /** The bubblegum signer: the program address of the `collection_cpi` seed. */
  function BubblegumSigner(lib: Lib): Pubkey {
    lib.findProgramAddress([CollectionCpiSeed], lib.ids.bubblegum)
  }

  /** A collection account argument that may be left empty: empty means the address derived
      from the collection mint; anything else must parse, and a parse failure is an error,
      never a fallback. */
  function CollectionAccount(lib: Lib, s: string, derived: Pubkey, message: string): (r: Result<Pubkey>)
    ensures s == "" ==> r == Ok(derived)
    ensures s != "" ==> (r.Ok? <==> lib.parsePubkey(s).Some?)
    ensures s != "" && r.Ok? ==> r.value == lib.parsePubkey(s).value
    ensures r.Err? ==> r.error == message
  {
    if s == "" then Ok(derived) else OrError(lib.parsePubkey(s), message)
  }

  /** `get_tree_authority_pda_address`: the base-58 text of the tree authority of the given
      Merkle tree, or the merkle-tree message when the text is not a key. */
  function GetTreeAuthorityPdaAddress(lib: Lib, merkleTree: string): (r: Result<string>)
    ensures r.Ok? <==> lib.parsePubkey(merkleTree).Some?
    ensures r.Ok? ==> r.value == lib.pubkeyToString(TreeAuthority(lib, lib.parsePubkey(merkleTree).value))
    ensures r.Err? ==> r.error == InvalidMerkleTree
  {
    var tree :- OrError(lib.parsePubkey(merkleTree), InvalidMerkleTree);
    Ok(lib.pubkeyToString(TreeAuthority(lib, tree)))
  }

  // ---------------------------------------------------------------------------------------
  // The last step every builder shares: bincode the signed transaction and return its bytes
  // together with the signatures.

  function Encode(lib: Lib, tx: Transaction, failure: string): Result<TransactionStruct> {
    var bytes :- OrError(lib.serializeTransaction(tx), failure);
    Ok(TransactionStruct(bytes, tx.signatures))
  }

  /** The variant `transfer_ix` uses: the serialised transaction is serialised once more as a
      byte vector before it is returned. */
  function EncodeTwice(lib: Lib, tx: Transaction): Result<TransactionStruct> {
    var once :- OrError(lib.serializeTransaction(tx), SerializeInstructionFailedCreateTree);
    var twice :- OrError(lib.serializeBytes(once), SerializeInstructionFailed);
    Ok(TransactionStruct(twice, tx.signatures))
  }

  // ---------------------------------------------------------------------------------------
  // `create_tree_config_ix`.

  /** Its checks, in order: payer keypair, merkle tree keypair, blockhash. */
  function CreateTreeConfigFirstError(lib: Lib, p: CreateTreeConfigParams): Option<string> {
    FirstOf(KeypairCheck(lib, p.payerInfo, InvalidPayerKeypair),
    FirstOf(KeypairCheck(lib, p.merkleTreeInfo, InvalidMerkleTreeKeypair),
            BlockhashCheck(lib, p.recentBlockhash)))
  }

  /** The transaction `create_tree_config_ix` signs. It exists exactly when every check
      passes, and otherwise the first failing check names the error. It holds two
      instructions, in this order: the system program's create-account from the payer to the
      tree keypair's address with the given lamports and size, owned by the account
      compression program; then CreateTreeConfig with the derived tree authority, the tree,
      the payer as both payer and tree creator, and `public` wrapped in Some. The payer pays,
      and the payer and the tree keypair sign, in that order. */
  function CreateTreeConfigTx(lib: Lib, p: CreateTreeConfigParams): (r: Result<Transaction>)
    ensures r.Err? <==> CreateTreeConfigFirstError(lib, p).Some?
    ensures r.Err? ==> Some(r.error) == CreateTreeConfigFirstError(lib, p)
    ensures r.Ok? ==>
              var payer := lib.keypairFromBytes(p.payerInfo.secret).value;
              var tree := lib.keypairFromBytes(p.merkleTreeInfo.secret).value;
              && r.value.message.instructions ==
                   [ lib.createAccount(payer.pubkey, tree.pubkey, p.lamports, p.accountSize, lib.ids.accountCompression),
                     lib.createTreeConfig(
                       CreateTreeConfig(
                         treeConfig := TreeAuthority(lib, tree.pubkey),
                         merkleTree := tree.pubkey,
                         payer := payer.pubkey,
                         treeCreator := payer.pubkey,
                         logWrapper := lib.ids.noop,
                         compressionProgram := lib.ids.accountCompression,
                         systemProgram := lib.ids.system),
                       CreateTreeConfigInstructionArgs(p.maxDepth, p.maxBufferSize, Some(p.public))) ]
              && r.value.message.payer == Some(payer.pubkey)
              && r.value.message.recentBlockhash == lib.parseHash(p.recentBlockhash).value
              && r.value.signatures == lib.sign(r.value.message, [payer, tree])
  {
    var payer :- OrError(lib.keypairFromBytes(p.payerInfo.secret), InvalidPayerKeypair);
    var tree :- OrError(lib.keypairFromBytes(p.merkleTreeInfo.secret), InvalidMerkleTreeKeypair);
    var blockhash :- OrError(lib.parseHash(p.recentBlockhash), InvalidBlockhash);
    var treeAuthority := TreeAuthority(lib, tree.pubkey);
    var createAccount := lib.createAccount(payer.pubkey, tree.pubkey, p.lamports, p.accountSize, lib.ids.accountCompression);
    var createTree := lib.createTreeConfig(
      CreateTreeConfig(
        treeConfig := treeAuthority,
        merkleTree := tree.pubkey,
        payer := payer.pubkey,
        treeCreator := payer.pubkey,
        logWrapper := lib.ids.noop,
        compressionProgram := lib.ids.accountCompression,
        systemProgram := lib.ids.system),
      CreateTreeConfigInstructionArgs(p.maxDepth, p.maxBufferSize, Some(p.public)));
    Ok(NewSignedWithPayer(lib, [createAccount, createTree], Some(payer.pubkey), [payer, tree], blockhash))
  }

  /** `create_tree_config_ix`: the errors of CreateTreeConfigTx, then the bincode bytes of
      its transaction with its signatures, or "Failed to serialize transaction". */
  function CreateTreeConfigIx(lib: Lib, p: CreateTreeConfigParams): (r: Result<TransactionStruct>)
    ensures CreateTreeConfigTx(lib, p).Err? ==> r == Err(CreateTreeConfigTx(lib, p).error)
    ensures CreateTreeConfigTx(lib, p).Ok? ==>
              var tx := CreateTreeConfigTx(lib, p).value;
              && (r.Ok? <==> lib.serializeTransaction(tx).Some?)
              && (r.Ok? ==> r.value.message == lib.serializeTransaction(tx).value && r.value.signatures == tx.signatures)
              && (r.Err? ==> r.error == SerializeTransactionFailed)
  {
    var tx :- CreateTreeConfigTx(lib, p);
    Encode(lib, tx, SerializeTransactionFailed)
  }

  // ---------------------------------------------------------------------------------------
  // `mint_v1_ix`.

  /** Its checks, in order: tree authority, leaf owner, leaf delegate, merkle tree, payer
      keypair, metadata conversion, blockhash. */
  function MintV1FirstError(lib: Lib, p: MintV1Params): Option<string> {
    FirstOf(PubkeyCheck(lib, p.treeAuthority, InvalidTreeAuthority),
    FirstOf(PubkeyCheck(lib, p.leafOwner, InvalidLeafOwner),
    FirstOf(PubkeyCheck(lib, p.leafDelegate, InvalidLeafDelegate),
    FirstOf(PubkeyCheck(lib, p.merkleTree, InvalidMerkleTree),
    FirstOf(KeypairCheck(lib, p.payer, InvalidPayer),
    FirstOf(ErrorOf(MetadataArgsOf(lib, p.metadataArgs)),
            BlockhashCheck(lib, p.recentBlockhash)))))))
  }

  /** The transaction `mint_v1_ix` signs: exists exactly when every check passes (else the
      first failing check names the error), holds the one MintV1 instruction built from the
      parsed keys with the payer as both payer and tree creator, and is paid and signed by
      the payer alone. */
  function MintV1Tx(lib: Lib, p: MintV1Params): (r: Result<Transaction>)
    ensures r.Err? <==> MintV1FirstError(lib, p).Some?
    ensures r.Err? ==> Some(r.error) == MintV1FirstError(lib, p)
    ensures r.Ok? ==>
              var payer := lib.keypairFromBytes(p.payer.secret).value;
              && r.value.message.instructions ==
                   [ lib.mintV1(
                       MintV1(
                         treeConfig := lib.parsePubkey(p.treeAuthority).value,
                         leafOwner := lib.parsePubkey(p.leafOwner).value,
                         leafDelegate := lib.parsePubkey(p.leafDelegate).value,
                         merkleTree := lib.parsePubkey(p.merkleTree).value,
                         payer := payer.pubkey,
                         treeCreatorOrDelegate := payer.pubkey,
                         logWrapper := lib.ids.noop,
                         compressionProgram := lib.ids.accountCompression,
                         systemProgram := lib.ids.system),
                       MetadataArgsOf(lib, p.metadataArgs).value) ]
              && r.value.message.payer == Some(payer.pubkey)
              && r.value.message.recentBlockhash == lib.parseHash(p.recentBlockhash).value
              && r.value.signatures == lib.sign(r.value.message, [payer])
  {
    var treeAuthority :- OrError(lib.parsePubkey(p.treeAuthority), InvalidTreeAuthority);
    var leafOwner :- OrError(lib.parsePubkey(p.leafOwner), InvalidLeafOwner);
    var leafDelegate :- OrError(lib.parsePubkey(p.leafDelegate), InvalidLeafDelegate);
    var merkleTree :- OrError(lib.parsePubkey(p.merkleTree), InvalidMerkleTree);
    var payer :- OrError(lib.keypairFromBytes(p.payer.secret), InvalidPayer);
    var metadata :- MetadataArgsOf(lib, p.metadataArgs);
    var blockhash :- OrError(lib.parseHash(p.recentBlockhash), InvalidBlockhash);
    var mint := lib.mintV1(
      MintV1(
        treeConfig := treeAuthority,
        leafOwner := leafOwner,
        leafDelegate := leafDelegate,
        merkleTree := merkleTree,
        payer := payer.pubkey,
        treeCreatorOrDelegate := payer.pubkey,
        logWrapper := lib.ids.noop,
        compressionProgram := lib.ids.accountCompression,
        systemProgram := lib.ids.system),
      metadata);
    Ok(NewSignedWithPayer(lib, [mint], Some(payer.pubkey), [payer], blockhash))
  }

  /** `mint_v1_ix`: the errors of MintV1Tx, then the bincode bytes of its transaction with its
      signatures, or the (misnamed) create-tree-config serialisation message. */
  function MintV1Ix(lib: Lib, p: MintV1Params): (r: Result<TransactionStruct>)
    ensures MintV1Tx(lib, p).Err? ==> r == Err(MintV1Tx(lib, p).error)
    ensures MintV1Tx(lib, p).Ok? ==>
              var tx := MintV1Tx(lib, p).value;
              && (r.Ok? <==> lib.serializeTransaction(tx).Some?)
              && (r.Ok? ==> r.value.message == lib.serializeTransaction(tx).value && r.value.signatures == tx.signatures)
              && (r.Err? ==> r.error == SerializeInstructionFailedCreateTree)
  {
    var tx :- MintV1Tx(lib, p);
    Encode(lib, tx, SerializeInstructionFailedCreateTree)
  }

  // ---------------------------------------------------------------------------------------
  // `mint_to_collection_v1_ix`.

  /** Its checks, in order: tree authority, leaf owner, leaf delegate, merkle tree, payer
      keypair, collection authority, collection mint, collection metadata and collection
      master edition (each only when not empty), metadata conversion, blockhash. */
  function MintToCollectionV1FirstError(lib: Lib, p: MintToCollectionV1Params): Option<string> {
    FirstOf(PubkeyCheck(lib, p.treeAuthority, InvalidTreeAuthority),
    FirstOf(PubkeyCheck(lib, p.leafOwner, InvalidLeafOwner),
    FirstOf(PubkeyCheck(lib, p.leafDelegate, InvalidLeafDelegate),
    FirstOf(PubkeyCheck(lib, p.merkleTree, InvalidMerkleTree),
    FirstOf(KeypairCheck(lib, p.payer, InvalidPayer),
    FirstOf(PubkeyCheck(lib, p.collectionAuthority, InvalidCollectionAuthority),
    FirstOf(PubkeyCheck(lib, p.collectionMint, InvalidCollectionMint),
    FirstOf(OptionalPubkeyCheck(lib, p.collectionMetadata, InvalidCollectionMetadata),
    FirstOf(OptionalPubkeyCheck(lib, p.collectionMasterEdition, InvalidCollectionMasterEdition),
    FirstOf(ErrorOf(MetadataArgsOf(lib, p.metadataArgs)),
            BlockhashCheck(lib, p.recentBlockhash)))))))))))
  }

  /** The transaction `mint_to_collection_v1_ix` signs: exists exactly when every check passes
      (else the first failing check names the error); its one MintToCollectionV1 instruction
      takes the collection metadata and master edition from CollectionAccount (derived from
      the collection mint when left empty), no authority record, the bubblegum signer
      address and the payer as both payer and tree creator; paid and signed by the payer. */
  function MintToCollectionV1Tx(lib: Lib, p: MintToCollectionV1Params): (r: Result<Transaction>)
    ensures r.Err? <==> MintToCollectionV1FirstError(lib, p).Some?
    ensures r.Err? ==> Some(r.error) == MintToCollectionV1FirstError(lib, p)
    ensures r.Ok? ==>
              var payer := lib.keypairFromBytes(p.payer.secret).value;
              var mint := lib.parsePubkey(p.collectionMint).value;
              && r.value.message.instructions ==
                   [ lib.mintToCollectionV1(
                       MintToCollectionV1(
                         treeConfig := lib.parsePubkey(p.treeAuthority).value,
                         leafOwner := lib.parsePubkey(p.leafOwner).value,
                         leafDelegate := lib.parsePubkey(p.leafDelegate).value,
                         merkleTree := lib.parsePubkey(p.merkleTree).value,
                         payer := payer.pubkey,
                         treeCreatorOrDelegate := payer.pubkey,
                         collectionAuthority := lib.parsePubkey(p.collectionAuthority).value,
                         collectionAuthorityRecordPda := None,
                         collectionMint := mint,
                         collectionMetadata :=
                           CollectionAccount(lib, p.collectionMetadata, lib.metadataPda(mint), InvalidCollectionMetadata).value,
                         collectionEdition :=
                           CollectionAccount(lib, p.collectionMasterEdition, lib.masterEditionPda(mint), InvalidCollectionMasterEdition).value,
                         bubblegumSigner := BubblegumSigner(lib),
                         logWrapper := lib.ids.noop,
                         compressionProgram := lib.ids.accountCompression,
                         tokenMetadataProgram := lib.ids.tokenMetadata,
                         systemProgram := lib.ids.system),
                       MetadataArgsOf(lib, p.metadataArgs).value) ]
              && r.value.message.payer == Some(payer.pubkey)
              && r.value.message.recentBlockhash == lib.parseHash(p.recentBlockhash).value
              && r.value.signatures == lib.sign(r.value.message, [payer])
  {
    var treeAuthority :- OrError(lib.parsePubkey(p.treeAuthority), InvalidTreeAuthority);
    var leafOwner :- OrError(lib.parsePubkey(p.leafOwner), InvalidLeafOwner);
    var leafDelegate :- OrError(lib.parsePubkey(p.leafDelegate), InvalidLeafDelegate);
    var merkleTree :- OrError(lib.parsePubkey(p.merkleTree), InvalidMerkleTree);
    var payer :- OrError(lib.keypairFromBytes(p.payer.secret), InvalidPayer);
    var collectionAuthority :- OrError(lib.parsePubkey(p.collectionAuthority), InvalidCollectionAuthority);
    var collectionMint :- OrError(lib.parsePubkey(p.collectionMint), InvalidCollectionMint);
    var collectionMetadata :-
      CollectionAccount(lib, p.collectionMetadata, lib.metadataPda(collectionMint), InvalidCollectionMetadata);
    var collectionMasterEdition :-
      CollectionAccount(lib, p.collectionMasterEdition, lib.masterEditionPda(collectionMint), InvalidCollectionMasterEdition);
    var bubblegumSigner := BubblegumSigner(lib);
    var metadata :- MetadataArgsOf(lib, p.metadataArgs);
    var blockhash :- OrError(lib.parseHash(p.recentBlockhash), InvalidBlockhash);
    var mint := lib.mintToCollectionV1(
      MintToCollectionV1(
        treeConfig := treeAuthority,
        leafOwner := leafOwner,
        leafDelegate := leafDelegate,
        merkleTree := merkleTree,
        payer := payer.pubkey,
        treeCreatorOrDelegate := payer.pubkey,
        collectionAuthority := collectionAuthority,
        collectionAuthorityRecordPda := None,
        collectionMint := collectionMint,
        collectionMetadata := collectionMetadata,
        collectionEdition := collectionMasterEdition,
        bubblegumSigner := bubblegumSigner,
        logWrapper := lib.ids.noop,
        compressionProgram := lib.ids.accountCompression,
        tokenMetadataProgram := lib.ids.tokenMetadata,
        systemProgram := lib.ids.system),
      metadata);
    Ok(NewSignedWithPayer(lib, [mint], Some(payer.pubkey), [payer], blockhash))
  }

  /** `mint_to_collection_v1_ix`: the errors of MintToCollectionV1Tx, then the bincode bytes of
      its transaction with its signatures. */
  function MintToCollectionV1Ix(lib: Lib, p: MintToCollectionV1Params): (r: Result<TransactionStruct>)
    ensures MintToCollectionV1Tx(lib, p).Err? ==> r == Err(MintToCollectionV1Tx(lib, p).error)
    ensures MintToCollectionV1Tx(lib, p).Ok? ==>
              var tx := MintToCollectionV1Tx(lib, p).value;
              && (r.Ok? <==> lib.serializeTransaction(tx).Some?)
              && (r.Ok? ==> r.value.message == lib.serializeTransaction(tx).value && r.value.signatures == tx.signatures)
              && (r.Err? ==> r.error == SerializeInstructionFailedCreateTree)
  {
    var tx :- MintToCollectionV1Tx(lib, p);
    Encode(lib, tx, SerializeInstructionFailedCreateTree)
  }

  // ---------------------------------------------------------------------------------------
  // `transfer_ix`.

  /** One remaining account of a transfer: a readonly, non-signer reference to a proof node. */
  function ProofAccount(lib: Lib, address: string): (r: Result<AccountMeta>)
    ensures r.Ok? <==> lib.parsePubkey(address).Some?
    ensures r.Ok? ==> r.value == AccountMeta(lib.parsePubkey(address).value, false, false)
    ensures r.Err? ==> r.error == InvalidProofAddress
  {
    var key :- OrError(lib.parsePubkey(address), InvalidProofAddress);
    Ok(NewReadonly(key, false))
  }

  /** The element conversion of the proof-address loop. */
  function ProofAccountConversion(lib: Lib): string -> Result<AccountMeta> {
    a => ProofAccount(lib, a)
  }

  /** The loop of `transfer_ix` over the proof addresses, as a value: the instruction with one
      readonly non-signer account appended per proof address, in input order, the program,
      data and existing accounts unchanged; or the proof-address error at the first address
      that does not parse. */
  function WithProofAccounts(lib: Lib, ix: Instruction, proofAddresses: seq<string>): (r: Result<Instruction>)
    ensures ErrorOf(r) == FirstError(ProofChecks(lib, proofAddresses))
    ensures r.Ok? <==> forall i | 0 <= i < |proofAddresses| :: lib.parsePubkey(proofAddresses[i]).Some?
    ensures r.Err? ==> r.error == InvalidProofAddress
    ensures r.Ok? ==>
              && r.value.programId == ix.programId
              && r.value.data == ix.data
              && |r.value.accounts| == |ix.accounts| + |proofAddresses|
              && r.value.accounts[..|ix.accounts|] == ix.accounts
              && forall i | 0 <= i < |proofAddresses| ::
                   r.value.accounts[|ix.accounts| + i] == NewReadonly(lib.parsePubkey(proofAddresses[i]).value, false)
  {
    var f := ProofAccountConversion(lib);
    assert forall i | 0 <= i < |proofAddresses| :: ProofChecks(lib, proofAddresses)[i] == ErrorOf(f(proofAddresses[i]));
    assert ProofChecks(lib, proofAddresses) == seq(|proofAddresses|, i requires 0 <= i < |proofAddresses| => ErrorOf(f(proofAddresses[i])));
    MapAllFirstError(f, proofAddresses);
    var accounts :- MapAll(f, proofAddresses);
    Ok(ix.(accounts := ix.accounts + accounts))
  }

  /** Its checks, in order: tree authority, leaf owner, leaf delegate, new leaf owner, merkle
      tree, payer keypair, blockhash, the lengths of the root, data hash and creator hash (in
      that order, not the declaration order), then every proof address in list order. */
  function TransferFirstError(lib: Lib, p: TransferParams): Option<string> {
    FirstOf(PubkeyCheck(lib, p.treeAuthority, InvalidTreeAuthority),
    FirstOf(PubkeyCheck(lib, p.leafOwner, InvalidLeafOwner),
    FirstOf(PubkeyCheck(lib, p.leafDelegate, InvalidLeafDelegate),
    FirstOf(PubkeyCheck(lib, p.newLeafOwner, InvalidNewLeafOwner),
    FirstOf(PubkeyCheck(lib, p.merkleTree, InvalidMerkleTree),
    FirstOf(KeypairCheck(lib, p.payer, InvalidPayerKeypair),
    FirstOf(BlockhashCheck(lib, p.recentBlockhash),
    FirstOf(ErrorOf(Array32(p.rootHash)),
    FirstOf(ErrorOf(Array32(p.dataHash)),
    FirstOf(ErrorOf(Array32(p.creatorHash)),
            FirstError(ProofChecks(lib, p.proofAddresses))))))))))))
  }

  /** The Transfer instruction as `mpl_bubblegum` builds it from the parsed keys, before any
      proof account is added: leaf owner and leaf delegate flagged as signers, and each hash
      in the argument field of its own name. */
  function TransferBase(lib: Lib, p: TransferParams): Instruction
    requires lib.parsePubkey(p.treeAuthority).Some? && lib.parsePubkey(p.leafOwner).Some?
    requires lib.parsePubkey(p.leafDelegate).Some? && lib.parsePubkey(p.newLeafOwner).Some?
    requires lib.parsePubkey(p.merkleTree).Some?
  {
    lib.transfer(
      Transfer(
        treeConfig := lib.parsePubkey(p.treeAuthority).value,
        leafOwner := (lib.parsePubkey(p.leafOwner).value, true),
        leafDelegate := (lib.parsePubkey(p.leafDelegate).value, true),
        newLeafOwner := lib.parsePubkey(p.newLeafOwner).value,
        merkleTree := lib.parsePubkey(p.merkleTree).value,
        logWrapper := lib.ids.noop,
        compressionProgram := lib.ids.accountCompression,
        systemProgram := lib.ids.system),
      TransferInstructionArgs(
        root := p.rootHash,
        dataHash := p.dataHash,
        creatorHash := p.creatorHash,
        nonce := p.nonce,
        index := p.index))
  }

  /** The transaction `transfer_ix` signs. It exists exactly when every check passes (else
      the first failing check names the error), so all three hashes are 32 bytes long. Its
      one instruction is the Transfer instruction extended with the proof accounts
      (WithProofAccounts). The payer pays and alone signs. */
  function TransferTx(lib: Lib, p: TransferParams): (r: Result<Transaction>)
    ensures r.Err? <==> TransferFirstError(lib, p).Some?
    ensures r.Err? ==> Some(r.error) == TransferFirstError(lib, p)
    ensures r.Ok? ==> |p.rootHash| == 32 && |p.dataHash| == 32 && |p.creatorHash| == 32
    ensures r.Ok? ==>
              && lib.parsePubkey(p.treeAuthority).Some? && lib.parsePubkey(p.leafOwner).Some?
              && lib.parsePubkey(p.leafDelegate).Some? && lib.parsePubkey(p.newLeafOwner).Some?
              && lib.parsePubkey(p.merkleTree).Some?
              && WithProofAccounts(lib, TransferBase(lib, p), p.proofAddresses).Ok?
              && var payer := lib.keypairFromBytes(p.payer.secret).value;
                 && r.value.message.instructions == [WithProofAccounts(lib, TransferBase(lib, p), p.proofAddresses).value]
                 && r.value.message.payer == Some(payer.pubkey)
                 && r.value.message.recentBlockhash == lib.parseHash(p.recentBlockhash).value
                 && r.value.signatures == lib.sign(r.value.message, [payer])
  {
    var treeAuthority :- OrError(lib.parsePubkey(p.treeAuthority), InvalidTreeAuthority);
    var leafOwner :- OrError(lib.parsePubkey(p.leafOwner), InvalidLeafOwner);
    var leafDelegate :- OrError(lib.parsePubkey(p.leafDelegate), InvalidLeafDelegate);
    var newLeafOwner :- OrError(lib.parsePubkey(p.newLeafOwner), InvalidNewLeafOwner);
    var merkleTree :- OrError(lib.parsePubkey(p.merkleTree), InvalidMerkleTree);
    var payer :- OrError(lib.keypairFromBytes(p.payer.secret), InvalidPayerKeypair);
    var blockhash :- OrError(lib.parseHash(p.recentBlockhash), InvalidBlockhash);
    var _ :- Array32(p.rootHash);
    var _ :- Array32(p.dataHash);
    var _ :- Array32(p.creatorHash);
    var transfer :- WithProofAccounts(lib, TransferBase(lib, p), p.proofAddresses);
    Ok(NewSignedWithPayer(lib, [transfer], Some(payer.pubkey), [payer], blockhash))
  }

  /** What `transfer_ix` returns: the errors of TransferTx; then, unlike the other builders,
      the bincode bytes of the transaction serialised by bincode a second time (as a byte
      vector), with the transaction's signatures. */
  function TransferIxOf(lib: Lib, p: TransferParams): (r: Result<TransactionStruct>)
    ensures TransferTx(lib, p).Err? ==> r == Err(TransferTx(lib, p).error)
    ensures TransferTx(lib, p).Ok? ==>
              var tx := TransferTx(lib, p).value;
              && (r.Ok? <==> lib.serializeTransaction(tx).Some? && lib.serializeBytes(lib.serializeTransaction(tx).value).Some?)
              && (r.Ok? ==> r.value.message == lib.serializeBytes(lib.serializeTransaction(tx).value).value)
              && (r.Ok? ==> r.value.signatures == tx.signatures)
              && (lib.serializeTransaction(tx).None? ==> r == Err(SerializeInstructionFailedCreateTree))
              && (lib.serializeTransaction(tx).Some? && r.Err? ==> r.error == SerializeInstructionFailed)
  {
    var tx :- TransferTx(lib, p);
    EncodeTwice(lib, tx)
  }

  /** `transfer_ix` as written: parses and checks its arguments in order, copies each hash
      into a 32-byte array, then pushes one readonly account per proof address onto the
      Transfer instruction's accounts in a loop that returns at the first address that does
      not parse, signs, and serialises twice. */
  method TransferIx(lib: Lib, p: TransferParams) returns (r: Result<TransactionStruct>)
    ensures r == TransferIxOf(lib, p)
  {
    var treeAuthority :- OrError(lib.parsePubkey(p.treeAuthority), InvalidTreeAuthority);
    var leafOwner :- OrError(lib.parsePubkey(p.leafOwner), InvalidLeafOwner);
    var leafDelegate :- OrError(lib.parsePubkey(p.leafDelegate), InvalidLeafDelegate);
    var newLeafOwner :- OrError(lib.parsePubkey(p.newLeafOwner), InvalidNewLeafOwner);
    var merkleTree :- OrError(lib.parsePubkey(p.merkleTree), InvalidMerkleTree);
    var payer :- OrError(lib.keypairFromBytes(p.payer.secret), InvalidPayerKeypair);
    var blockhash :- OrError(lib.parseHash(p.recentBlockhash), InvalidBlockhash);
    var root :- VecToArray32(p.rootHash);
    var dataHash :- VecToArray32(p.dataHash);
    var creatorHash :- VecToArray32(p.creatorHash);
    var transfer := lib.transfer(
      Transfer(
        treeConfig := treeAuthority,
        leafOwner := (leafOwner, true),
        leafDelegate := (leafDelegate, true),
        newLeafOwner := newLeafOwner,
        merkleTree := merkleTree,
        logWrapper := lib.ids.noop,
        compressionProgram := lib.ids.accountCompression,
        systemProgram := lib.ids.system),
      TransferInstructionArgs(
        root := root,
        dataHash := dataHash,
        creatorHash := creatorHash,
        nonce := p.nonce,
        index := p.index));
    ghost var base := transfer;
    ghost var pushed: seq<AccountMeta> := [];
    for i := 0 to |p.proofAddresses|
      invariant |pushed| == i
      invariant forall j | 0 <= j < i :: ProofAccount(lib, p.proofAddresses[j]) == Ok(pushed[j])
      invariant transfer == base.(accounts := base.accounts + pushed)
    {
      var proofPubkey :- OrError(lib.parsePubkey(p.proofAddresses[i]), InvalidProofAddress);
      transfer := transfer.(accounts := transfer.accounts + [NewReadonly(proofPubkey, false)]);
      pushed := pushed + [NewReadonly(proofPubkey, false)];
    }
    ghost var f := ProofAccountConversion(lib);
    assert forall j | 0 <= j < |p.proofAddresses| :: f(p.proofAddresses[j]) == Ok(pushed[j]);
    assert MapAll(f, p.proofAddresses).value == pushed;
    var transaction := NewSignedWithPayer(lib, [transfer], Some(payer.pubkey), [payer], blockhash);
    var serialized :- OrError(lib.serializeTransaction(transaction), SerializeInstructionFailedCreateTree);
    var serializedTwice :- OrError(lib.serializeBytes(serialized), SerializeInstructionFailed);
    r := Ok(TransactionStruct(serializedTwice, transaction.signatures));
  }
}
