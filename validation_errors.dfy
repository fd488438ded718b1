/**
 * The validator's table of validation codes and the error it builds from
 * a code: no error for a valid transaction, otherwise an error whose
 * message is the code's name in the table, or empty when the table has no
 * entry for the code.
 */
module ValidationErrors {
  import opened Wrappers

  /** `ValidationCode`: an int32. */
  type ValidationCode = x: int | -0x8000_0000 <= x < 0x8000_0000

  const TX_VALIDATION_CODE_VALID: ValidationCode := 0
  const UNIT_STATE_INVALID_HEADER_NUMBER: ValidationCode := 109
  const UNIT_STATE_INVALID_HEADER_TXROOT: ValidationCode := 110
  const UNIT_STATE_INVALID_HEADER_TIME: ValidationCode := 111

  /** Every code the validator declares a constant for. */
  const DECLARED_CODES: set<ValidationCode> :=
    (set c: int | 0 <= c <= 34) + {254, 255, 256} + (set c: int | 101 <= c <= 111) + {125}

  /**
   * `validationCode_name`: the name of a code, or nothing for a code the
   * table has no entry for.
   */
  function CodeName(code: ValidationCode): Option<string>
  {
    match code
    case 0 => Some("VALID")
    case 1 => Some("INVALID_CONTRACT_TEMPLATE")
    case 2 => Some("INVALID_FEE")
    case 3 => Some("BAD_COMMON_HEADER")
    case 4 => Some("BAD_CREATOR_SIGNATURE")
    case 5 => Some("INVALID_ENDORSER_TRANSACTION")
    case 6 => Some("INVALID_CONFIG_TRANSACTION")
    case 7 => Some("UNSUPPORTED_TX_PAYLOAD")
    case 8 => Some("BAD_PROPOSAL_TXID")
    case 9 => Some("DUPLICATE_TXID")
    case 10 => Some("ENDORSEMENT_POLICY_FAILURE")
    case 11 => Some("MVCC_READ_CONFLICT")
    case 12 => Some("PHANTOM_READ_CONFLICT")
    case 13 => Some("UNKNOWN_TX_TYPE")
    case 14 => Some("TARGET_CHAIN_NOT_FOUND")
    case 15 => Some("MARSHAL_TX_ERROR")
    case 16 => Some("NIL_TXACTION")
    case 17 => Some("EXPIRED_CHAINCODE")
    case 18 => Some("CHAINCODE_VERSION_CONFLICT")
    case 19 => Some("BAD_HEADER_EXTENSION")
    case 20 => Some("BAD_CHANNEL_HEADER")
    case 21 => Some("BAD_RESPONSE_PAYLOAD")
    case 22 => Some("BAD_RWSET")
    case 23 => Some("ILLEGAL_WRITESET")
    case 24 => Some("INVALID_WRITESET")
    case 25 => Some("INVALID_MSG")
    case 26 => Some("INVALID_PAYMMENTLOAD")
    case 27 => Some("INVALID_PAYMMENT_INPUT")
    case 28 => Some("INVALID_PAYMMENT_OUTPUT")
    case 29 => Some("INVALID_PAYMMENT_LOCKTIME")
    case 30 => Some("INVALID_OUTPOINT")
    case 31 => Some("INVALID_AMOUNT")
    case 32 => Some("INVALID_ASSET")
    case 33 => Some("INVALID_CONTRACT")
    case 34 => Some("INVALID_DATAPAYLOAD")
    case 101 => Some("AUTHOR_SIGNATURE_PASSED")
    case 102 => Some("EMPTY")
    case 103 => Some("INVALID_AUTHOR_SIGNATURE")
    case 104 => Some("INVALID_GROUP_SIGNATURE")
    case 105 => Some("HAS_INVALID_TRANSACTIONS")
    case 106 => Some("INVALID_SIZE")
    case 107 => Some("INVALID_EXTRA_DATA")
    case 108 => Some("INVALID_HEADER")
    case 109 => Some("CHECK_HEADER_PASSED")
    case 110 => Some("UNIT_STATE_INVALID_HEADER_TXROOT")
    case 125 => Some("OTHER_ERROR")
    case 254 => Some("NOT_VALIDATED")
    case 255 => Some("NOT_COMPARE_SIZE")
    case 256 => Some("INVALID_OTHER_REASON")
    case _ => None
  }

  /** `NewValidateError`: nil for a valid code, otherwise an error carrying the code's name. */
  function NewValidateError(code: ValidationCode): (r: Option<string>)
    ensures r.None? <==> code == TX_VALIDATION_CODE_VALID
    ensures r.Some? && CodeName(code).Some? ==> r.value == CodeName(code).value
    ensures r.Some? && CodeName(code).None? ==> r.value == ""
  {
    if code == TX_VALIDATION_CODE_VALID then None
    else Some(match CodeName(code) case Some(name) => name case None => "")
  }

  /** The codes between the transaction and unit ranges, and 111, have no name: their error is empty. */
  lemma UnnamedCodesGiveEmptyMessage()
    ensures forall c: ValidationCode | 35 <= c <= 100 :: NewValidateError(c) == Some("")
    ensures NewValidateError(UNIT_STATE_INVALID_HEADER_TIME) == Some("")
  {
  }

  /** Of the declared codes, only 111 is missing from the table. */
  lemma OnlyHeaderTimeUnnamed()
    ensures forall c | c in DECLARED_CODES :: CodeName(c).None? <==> c == UNIT_STATE_INVALID_HEADER_TIME
    ensures forall c: ValidationCode | CodeName(c).Some? :: c in DECLARED_CODES
  {
  }

  /**
   * The invalid-header-number code is named as a passed check, and the
   * header-txroot code keeps the unit-state prefix the other unit names drop.
   */
  lemma MisnamedUnitCodes()
    ensures NewValidateError(UNIT_STATE_INVALID_HEADER_NUMBER) == Some("CHECK_HEADER_PASSED")
    ensures NewValidateError(UNIT_STATE_INVALID_HEADER_TXROOT) == Some("UNIT_STATE_INVALID_HEADER_TXROOT")
  {
  }

  /** Every transaction code, 0 to 34 and 254 to 256, has a non-empty name. */
  lemma TxCodesNamed()
    ensures forall c: ValidationCode | 0 <= c <= 34 || 254 <= c <= 256 :: CodeName(c).Some? && CodeName(c).value != ""
  {
  }
}
