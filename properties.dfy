/** Properties that relate several calls of the native functions in `core.rs`. */
module CoreProperties {
  import opened Ints
  import opened Results
  import opened Ledger
  import opened Bubblegum
  import opened Library
  import opened Utils
  import opened Core

  /** Base-58 decoding inverts encoding for every key: what `Pubkey::to_string` prints,
      `Pubkey::from_str` reads back. */
  ghost predicate Base58RoundTrip(lib: Lib) {
    forall k: Pubkey {:trigger lib.pubkeyToString(k)} :: lib.parsePubkey(lib.pubkeyToString(k)) == Some(k)
  }

  // ---------------------------------------------------------------------------------------
  // Metadata conversion.

  /** The record the Elixir side sends for a given metadata value: keys as base-58 text and
      the use method as its byte. The partner of MetadataArgsOf. */
  function ToMetadataArgsStruct(lib: Lib, m: MetadataArgs): MetadataArgsStruct {
    MetadataArgsStruct(
      name := m.name,
      symbol := m.symbol,
      uri := m.uri,
      sellerFeeBasisPoints := m.sellerFeeBasisPoints,
      primarySaleHappened := m.primarySaleHappened,
      isMutable := m.isMutable,
      editionNonce := m.editionNonce,
      creators := seq(|m.creators|, i requires 0 <= i < |m.creators| =>
                        CreatorStruct(lib.pubkeyToString(m.creators[i].address), m.creators[i].verified, m.creators[i].share)),
      collection := match m.collection
                    case None => None
                    case Some(c) => Some(CollectionStruct(c.verified, lib.pubkeyToString(c.key))),
      uses := match m.uses
              case None => None
              case Some(u) => Some(UsesStruct(UseMethodCode(u.useMethod), u.remaining, u.total)))
  }

  /** Converting the record of any metadata value whose token program version and token
      standard are the two fixed ones gives that metadata value back, creators in order. */
  lemma MetadataArgsRoundTrip(lib: Lib, m: MetadataArgs)
    requires Base58RoundTrip(lib)
    requires m.tokenProgramVersion == Original && m.tokenStandard == Some(NonFungible)
    ensures MetadataArgsOf(lib, ToMetadataArgsStruct(lib, m)) == Ok(m)
  {
    var args := ToMetadataArgsStruct(lib, m);
    assert forall i | 0 <= i < |args.creators| :: lib.parsePubkey(args.creators[i].address) == Some(m.creators[i].address);
    if m.uses.Some? {
      UseMethodRoundTrip(m.uses.value.useMethod, 0);
    }
    var r := MetadataArgsOf(lib, args);
    assert r.Ok?;
    assert r.value.creators == m.creators;
  }

  /** No range or share-sum validation: changing the seller fee and every creator's share to
      any values of their widths never changes whether the conversion succeeds, nor any other
      field of the result. */
  lemma NoFeeOrShareValidation(lib: Lib, args: MetadataArgsStruct, fee: u16, shares: seq<u8>)
    requires |shares| == |args.creators|
    ensures var args' := args.(sellerFeeBasisPoints := fee,
                               creators := seq(|args.creators|, i requires 0 <= i < |args.creators| =>
                                                 args.creators[i].(share := shares[i])));
            && (MetadataArgsOf(lib, args').Ok? <==> MetadataArgsOf(lib, args).Ok?)
            && (MetadataArgsOf(lib, args).Ok? ==>
                  && MetadataArgsOf(lib, args').value.sellerFeeBasisPoints == fee
                  && (forall i | 0 <= i < |shares| :: MetadataArgsOf(lib, args').value.creators[i].share == shares[i])
                  && MetadataArgsOf(lib, args').value.collection == MetadataArgsOf(lib, args).value.collection
                  && MetadataArgsOf(lib, args').value.uses == MetadataArgsOf(lib, args).value.uses)
  {
    var args' := args.(sellerFeeBasisPoints := fee,
                       creators := seq(|args.creators|, i requires 0 <= i < |args.creators| =>
                                         args.creators[i].(share := shares[i])));
    assert forall i | 0 <= i < |args.creators| :: args'.creators[i].address == args.creators[i].address;
  }

  // ---------------------------------------------------------------------------------------
  // Tree authority.

  /** The tree authority `create_tree_config_ix` writes into CreateTreeConfig is the address
      `get_tree_authority_pda_address` returns for the new tree's address: that call succeeds
      on the tree's text, and its result parses back to the CreateTreeConfig's tree config. */
  lemma CreateTreeAuthorityMatchesPdaAddress(lib: Lib, p: CreateTreeConfigParams)
    requires Base58RoundTrip(lib)
    requires CreateTreeConfigTx(lib, p).Ok?
    ensures var payer := lib.keypairFromBytes(p.payerInfo.secret).value.pubkey;
            var tree := lib.keypairFromBytes(p.merkleTreeInfo.secret).value.pubkey;
            var authorityText := GetTreeAuthorityPdaAddress(lib, lib.pubkeyToString(tree));
            && authorityText.Ok?
            && lib.parsePubkey(authorityText.value).Some?
            && CreateTreeConfigTx(lib, p).value.message.instructions[1] ==
                 lib.createTreeConfig(
                   CreateTreeConfig(
                     treeConfig := lib.parsePubkey(authorityText.value).value,
                     merkleTree := tree,
                     payer := payer,
                     treeCreator := payer,
                     logWrapper := lib.ids.noop,
                     compressionProgram := lib.ids.accountCompression,
                     systemProgram := lib.ids.system),
                   CreateTreeConfigInstructionArgs(p.maxDepth, p.maxBufferSize, Some(p.public)))
  {
    var tree := lib.keypairFromBytes(p.merkleTreeInfo.secret).value.pubkey;
    assert lib.parsePubkey(lib.pubkeyToString(tree)) == Some(tree);
    assert lib.parsePubkey(lib.pubkeyToString(TreeAuthority(lib, tree))) == Some(TreeAuthority(lib, tree));
  }

  /** A mint that passes, as its tree authority, the text `get_tree_authority_pda_address`
      returned for its merkle tree gets past the tree-authority check and, when it succeeds,
      signs a MintV1 instruction whose tree config is that tree's authority. */
  lemma MintUsesDerivedAuthority(lib: Lib, p: MintV1Params)
    requires Base58RoundTrip(lib)
    requires GetTreeAuthorityPdaAddress(lib, p.merkleTree) == Ok(p.treeAuthority)
    ensures PubkeyCheck(lib, p.treeAuthority, InvalidTreeAuthority) == None
    ensures lib.parsePubkey(p.treeAuthority) == Some(TreeAuthority(lib, lib.parsePubkey(p.merkleTree).value))
    ensures MintV1Tx(lib, p).Ok? ==>
              var payer := lib.keypairFromBytes(p.payer.secret).value;
              MintV1Tx(lib, p).value.message.instructions[0] ==
                lib.mintV1(
                  MintV1(
                    treeConfig := TreeAuthority(lib, lib.parsePubkey(p.merkleTree).value),
                    leafOwner := lib.parsePubkey(p.leafOwner).value,
                    leafDelegate := lib.parsePubkey(p.leafDelegate).value,
                    merkleTree := lib.parsePubkey(p.merkleTree).value,
                    payer := payer.pubkey,
                    treeCreatorOrDelegate := payer.pubkey,
                    logWrapper := lib.ids.noop,
                    compressionProgram := lib.ids.accountCompression,
                    systemProgram := lib.ids.system),
                  MetadataArgsOf(lib, p.metadataArgs).value)
  {
  }

  // ---------------------------------------------------------------------------------------
  // Collection account fallback.

  /** Leaving the collection metadata empty builds the same transaction as passing the text
      of the metadata address derived from the collection mint. */
  lemma EmptyCollectionMetadataIsDerived(lib: Lib, p: MintToCollectionV1Params)
    requires Base58RoundTrip(lib)
    requires lib.parsePubkey(p.collectionMint).Some?
    ensures var derived := lib.pubkeyToString(lib.metadataPda(lib.parsePubkey(p.collectionMint).value));
            MintToCollectionV1Tx(lib, p.(collectionMetadata := "")) ==
            MintToCollectionV1Tx(lib, p.(collectionMetadata := derived))
  {
    var derived := lib.pubkeyToString(lib.metadataPda(lib.parsePubkey(p.collectionMint).value));
    var a := MintToCollectionV1Tx(lib, p.(collectionMetadata := ""));
    var b := MintToCollectionV1Tx(lib, p.(collectionMetadata := derived));
    assert a.Ok? <==> b.Ok?;
  }

  /** The same for the collection master edition. */
  lemma EmptyMasterEditionIsDerived(lib: Lib, p: MintToCollectionV1Params)
    requires Base58RoundTrip(lib)
    requires lib.parsePubkey(p.collectionMint).Some?
    ensures var derived := lib.pubkeyToString(lib.masterEditionPda(lib.parsePubkey(p.collectionMint).value));
            MintToCollectionV1Tx(lib, p.(collectionMasterEdition := "")) ==
            MintToCollectionV1Tx(lib, p.(collectionMasterEdition := derived))
  {
    var derived := lib.pubkeyToString(lib.masterEditionPda(lib.parsePubkey(p.collectionMint).value));
    var a := MintToCollectionV1Tx(lib, p.(collectionMasterEdition := ""));
    var b := MintToCollectionV1Tx(lib, p.(collectionMasterEdition := derived));
    assert a.Ok? <==> b.Ok?;
  }

  /** A non-empty collection metadata that does not parse is an error, never a fallback:
      whenever the checks before it pass, the mint fails with the collection-metadata message. */
  lemma BadCollectionMetadataIsAnError(lib: Lib, p: MintToCollectionV1Params)
    requires p.collectionMetadata != "" && lib.parsePubkey(p.collectionMetadata).None?
    requires lib.parsePubkey(p.treeAuthority).Some? && lib.parsePubkey(p.leafOwner).Some?
    requires lib.parsePubkey(p.leafDelegate).Some? && lib.parsePubkey(p.merkleTree).Some?
    requires lib.keypairFromBytes(p.payer.secret).Some?
    requires lib.parsePubkey(p.collectionAuthority).Some? && lib.parsePubkey(p.collectionMint).Some?
    ensures MintToCollectionV1Tx(lib, p) == Err(InvalidCollectionMetadata)
  {
  }

  // ---------------------------------------------------------------------------------------
  // Transfer.

  /** Pushing proof accounts one list after another is pushing the concatenated list: the
      step the loop in `transfer_ix` repeats. */
  lemma WithProofAccountsAppend(lib: Lib, ix: Instruction, ps: seq<string>, qs: seq<string>)
    requires WithProofAccounts(lib, ix, ps).Ok?
    ensures WithProofAccounts(lib, ix, ps + qs) == WithProofAccounts(lib, WithProofAccounts(lib, ix, ps).value, qs)
  {
    var mid := WithProofAccounts(lib, ix, ps).value;
    var whole := WithProofAccounts(lib, ix, ps + qs);
    var stepped := WithProofAccounts(lib, mid, qs);
    var xs := ps + qs;
    if whole.Ok? {
      forall i | 0 <= i < |qs| ensures lib.parsePubkey(qs[i]).Some? {
        assert xs[|ps| + i] == qs[i];
      }
      var n := |ix.accounts|;
      forall k | 0 <= k < |whole.value.accounts| ensures whole.value.accounts[k] == stepped.value.accounts[k] {
        if k < n {
          assert whole.value.accounts[k] == whole.value.accounts[..n][k];
          assert mid.accounts[k] == mid.accounts[..n][k];
          assert stepped.value.accounts[k] == stepped.value.accounts[..|mid.accounts|][k];
        } else if k < n + |ps| {
          assert xs[k - n] == ps[k - n];
          assert stepped.value.accounts[k] == stepped.value.accounts[..|mid.accounts|][k];
        } else {
          assert xs[k - n] == qs[k - n - |ps|];
        }
      }
      assert whole.value.accounts == stepped.value.accounts;
      assert whole.value == stepped.value;
    } else {
      var i :| 0 <= i < |xs| && lib.parsePubkey(xs[i]).None?;
      assert i >= |ps|;
      assert qs[i - |ps|] == xs[i];
    }
  }

  /** An empty proof list is accepted: the transfer succeeds exactly when the ten checks
      before the proof addresses pass, never fails with the proof-address message, and its
      instruction keeps exactly the builder's own accounts. */
  lemma EmptyProofListAccepted(lib: Lib, p: TransferParams)
    requires p.proofAddresses == []
    ensures TransferTx(lib, p).Ok? <==>
              && lib.parsePubkey(p.treeAuthority).Some? && lib.parsePubkey(p.leafOwner).Some?
              && lib.parsePubkey(p.leafDelegate).Some? && lib.parsePubkey(p.newLeafOwner).Some?
              && lib.parsePubkey(p.merkleTree).Some?
              && lib.keypairFromBytes(p.payer.secret).Some?
              && lib.parseHash(p.recentBlockhash).Some?
              && |p.rootHash| == 32 && |p.dataHash| == 32 && |p.creatorHash| == 32
    ensures TransferTx(lib, p).Err? ==> TransferTx(lib, p).error != InvalidProofAddress
    ensures TransferTx(lib, p).Ok? ==> TransferTx(lib, p).value.message.instructions == [TransferBase(lib, p)]
  {
    assert FirstError(ProofChecks(lib, p.proofAddresses)) == None;
    if TransferTx(lib, p).Ok? {
      var ix := WithProofAccounts(lib, TransferBase(lib, p), []).value;
      assert ix.accounts == TransferBase(lib, p).accounts;
    }
  }

  /** `transfer_ix` returns the bytes the mint builders would return for the same transaction,
      serialised once more. */
  lemma TransferMessageIsReserialised(lib: Lib, tx: Transaction, failure: string)
    requires EncodeTwice(lib, tx).Ok?
    ensures Encode(lib, tx, failure).Ok?
    ensures EncodeTwice(lib, tx).value.message == lib.serializeBytes(Encode(lib, tx, failure).value.message).value
    ensures EncodeTwice(lib, tx).value.signatures == Encode(lib, tx, failure).value.signatures
  {
  }

  // ---------------------------------------------------------------------------------------
  // Keypair records.

  /** Only the secret bytes of a keypair record are read: its `pubkey` text never changes
      what a builder returns. */
  lemma CreateTreeIgnoresKeyPairText(lib: Lib, p: CreateTreeConfigParams, s: string, t: string)
    ensures CreateTreeConfigIx(lib, p.(payerInfo := p.payerInfo.(pubkey := s),
                                       merkleTreeInfo := p.merkleTreeInfo.(pubkey := t)))
            == CreateTreeConfigIx(lib, p)
  {
  }

  lemma MintV1IgnoresKeyPairText(lib: Lib, p: MintV1Params, s: string)
    ensures MintV1Ix(lib, p.(payer := p.payer.(pubkey := s))) == MintV1Ix(lib, p)
  {
  }

  lemma MintToCollectionV1IgnoresKeyPairText(lib: Lib, p: MintToCollectionV1Params, s: string)
    ensures MintToCollectionV1Ix(lib, p.(payer := p.payer.(pubkey := s))) == MintToCollectionV1Ix(lib, p)
  {
  }

  lemma TransferIgnoresKeyPairText(lib: Lib, p: TransferParams, s: string)
    ensures TransferIxOf(lib, p.(payer := p.payer.(pubkey := s))) == TransferIxOf(lib, p)
  {
  }
}
