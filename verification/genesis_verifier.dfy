/**
 * `verify_genesis_block_fields(expected_height, expected_da_height, header)`: the
 * checks a genesis header must pass before the chain accepts it.
 */
module GenesisVerifier {
  import opened Wrappers
  import opened Primitives

  /** The header field a failed check names. */
  datatype GenesisField = PreviousRootField | TimeField | HeightField | DaHeightField

  /** The check on one field: zero previous root, UNIX-epoch time, and the expected heights. */
  predicate FieldHolds(f: GenesisField, expectedHeight: BlockHeight, expectedDaHeight: DaHeight, header: BlockHeader)
  {
    match f
    case PreviousRootField => header.previousRoot == ZERO_DIGEST
    case TimeField => header.time == UNIX_EPOCH
    case HeightField => header.height == expectedHeight
    case DaHeightField => header.daHeight == expectedDaHeight
  }

  /**
   * Accepts exactly the headers that pass all four checks; a rejection names a field
   * whose check fails (the first in the order previous root, time, height, DA height).
   */
  function VerifyGenesisBlockFields(expectedHeight: BlockHeight, expectedDaHeight: DaHeight, header: BlockHeader)
    : (r: Result<(), GenesisField>)
    ensures r.Ok? <==>
      && header.previousRoot == ZERO_DIGEST
      && header.time == UNIX_EPOCH
      && header.height == expectedHeight
      && header.daHeight == expectedDaHeight
    ensures r.Err? ==> !FieldHolds(r.error, expectedHeight, expectedDaHeight, header)
  {
    if header.previousRoot != ZERO_DIGEST then Err(PreviousRootField)
    else if header.time != UNIX_EPOCH then Err(TimeField)
    else if header.height != expectedHeight then Err(HeightField)
    else if header.daHeight != expectedDaHeight then Err(DaHeightField)
    else Ok(())
  }

  /** Breaking any one check alone gives an error naming that field. */
  lemma SingleFailureNamesField(
    f: GenesisField, expectedHeight: BlockHeight, expectedDaHeight: DaHeight, header: BlockHeader)
    requires !FieldHolds(f, expectedHeight, expectedDaHeight, header)
    requires forall g :: g != f ==> FieldHolds(g, expectedHeight, expectedDaHeight, header)
    ensures VerifyGenesisBlockFields(expectedHeight, expectedDaHeight, header) == Err(f)
  {
  }

  /**
   * The four accepted test headers. Each test starts from `BlockHeader::default()`,
   * whose height and DA height are zero, and sets the root, the time and the heights.
   */
  lemma AcceptedScenarios()
    ensures VerifyGenesisBlockFields(0, 0, BlockHeader(ZERO_DIGEST, UNIX_EPOCH, 0, 0)).Ok?
    ensures VerifyGenesisBlockFields(113, 0, BlockHeader(ZERO_DIGEST, UNIX_EPOCH, 113, 0)).Ok?
    ensures VerifyGenesisBlockFields(0, 1234, BlockHeader(ZERO_DIGEST, UNIX_EPOCH, 0, 1234)).Ok?
    ensures VerifyGenesisBlockFields(113, 1234, BlockHeader(ZERO_DIGEST, UNIX_EPOCH, 113, 1234)).Ok?
  {
  }

  /** `[1u8; 32]`. */
  const ONES_DIGEST: Bytes32 := [1, 1, 1, 1, 1, 1, 1, 1, 1, 1, 1, 1, 1, 1, 1, 1,
                                 1, 1, 1, 1, 1, 1, 1, 1, 1, 1, 1, 1, 1, 1, 1, 1]

  /** The five rejected test headers, each rejected for its one wrong field. */
  lemma RejectedScenarios()
    ensures VerifyGenesisBlockFields(10, 0, BlockHeader(ZERO_DIGEST, UNIX_EPOCH, 0, 0)) == Err(HeightField)
    ensures VerifyGenesisBlockFields(0, 0, BlockHeader(ZERO_DIGEST, UNIX_EPOCH, 5, 0)) == Err(HeightField)
    ensures VerifyGenesisBlockFields(0, 0, BlockHeader(ZERO_DIGEST, UNIX_EPOCH, 0, 1234)) == Err(DaHeightField)
    ensures VerifyGenesisBlockFields(0, 0, BlockHeader(ZERO_DIGEST, 0, 0, 0)) == Err(TimeField)
    ensures VerifyGenesisBlockFields(0, 0, BlockHeader(ONES_DIGEST, UNIX_EPOCH, 0, 0)) == Err(PreviousRootField)
  {
  }
}
