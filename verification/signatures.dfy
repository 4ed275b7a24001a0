/*******************************************************************************
 *  Event signatures: the canonical Solidity signature strings of every event
 *  the decoders recognise and their keccak-256 hashes (`SIGNATURE_HASH`,
 *  which a log carries as `topics[0]`).
 *******************************************************************************/

module Signatures {
  import opened Primitives

  /** Every event kind declared by the Uniswap V3, Chainlink, Aave V3 and
      Morpho Blue `sol!` blocks. */
  datatype EventKind =
      UniV3Mint
    | UniV3Collect
    | UniV3Burn
    | UniV3Swap
    | UniV3Flash
    | AnswerUpdated
    | NewRound
    | AaveSupply
    | AaveWithdraw
    | AaveBorrow
    | AaveRepay
    | AaveLiquidationCall
    | MorphoSupply
    | MorphoWithdraw
    | MorphoBorrow
    | MorphoRepay
    | MorphoSupplyCollateral
    | MorphoWithdrawCollateral
    | MorphoLiquidate
    | MorphoCreateMarket

  /** The protocols whose events are decoded. */
  datatype Protocol = UniswapV3 | ChainlinkFeeds | AaveV3 | MorphoBlue

  /** The protocol that declares an event kind. */
  function ProtocolOf(k: EventKind): Protocol
  {
    match k
    case UniV3Mint | UniV3Collect | UniV3Burn | UniV3Swap | UniV3Flash => UniswapV3
    case AnswerUpdated | NewRound => ChainlinkFeeds
    case AaveSupply | AaveWithdraw | AaveBorrow | AaveRepay | AaveLiquidationCall => AaveV3
    case _ => MorphoBlue
  }

  /** The canonical signature string the hash is computed from: the event
      name and the types of ALL its parameters, indexed or not. */
  function Canonical(k: EventKind): string
  {
    match k
    case UniV3Mint => "Mint(address,address,int24,int24,uint128,uint256,uint256)"
    case UniV3Collect => "Collect(address,address,int24,int24,uint128,uint128)"
    case UniV3Burn => "Burn(address,int24,int24,uint128,uint256,uint256)"
    case UniV3Swap => "Swap(address,address,int256,int256,uint160,uint128,int24)"
    case UniV3Flash => "Flash(address,address,uint256,uint256,uint256,uint256)"
    case AnswerUpdated => "AnswerUpdated(int256,uint256,uint256)"
    case NewRound => "NewRound(uint256,address,uint256)"
    case AaveSupply => "Supply(address,address,address,uint256,uint16)"
    case AaveWithdraw => "Withdraw(address,address,address,uint256)"
    case AaveBorrow => "Borrow(address,address,address,uint256,uint8,uint256,uint16)"
    case AaveRepay => "Repay(address,address,address,uint256,bool)"
    case AaveLiquidationCall => "LiquidationCall(address,address,address,uint256,uint256,address,bool)"
    case MorphoSupply => "Supply(bytes32,address,address,uint256,uint256)"
    case MorphoWithdraw => "Withdraw(bytes32,address,address,address,uint256,uint256)"
    case MorphoBorrow => "Borrow(bytes32,address,address,address,uint256,uint256)"
    case MorphoRepay => "Repay(bytes32,address,address,uint256,uint256)"
    case MorphoSupplyCollateral => "SupplyCollateral(bytes32,address,address,uint256)"
    case MorphoWithdrawCollateral => "WithdrawCollateral(bytes32,address,address,address,uint256)"
    case MorphoLiquidate => "Liquidate(bytes32,address,address,uint256,uint256,uint256,uint256,uint256)"
    case MorphoCreateMarket => "CreateMarket(bytes32,address,address,address,address,uint256)"
  }

  /** `SIGNATURE_HASH`: keccak-256 of `Canonical(k)`, written out. */
  function SignatureHash(k: EventKind): B256
  {
    match k
    case UniV3Mint => UNIV3_MINT_HASH
    case UniV3Collect => UNIV3_COLLECT_HASH
    case UniV3Burn => UNIV3_BURN_HASH
    case UniV3Swap => UNIV3_SWAP_HASH
    case UniV3Flash => UNIV3_FLASH_HASH
    case AnswerUpdated => ANSWER_UPDATED_HASH
    case NewRound => NEW_ROUND_HASH
    case AaveSupply => AAVE_SUPPLY_HASH
    case AaveWithdraw => AAVE_WITHDRAW_HASH
    case AaveBorrow => AAVE_BORROW_HASH
    case AaveRepay => AAVE_REPAY_HASH
    case AaveLiquidationCall => AAVE_LIQUIDATION_CALL_HASH
    case MorphoSupply => MORPHO_SUPPLY_HASH
    case MorphoWithdraw => MORPHO_WITHDRAW_HASH
    case MorphoBorrow => MORPHO_BORROW_HASH
    case MorphoRepay => MORPHO_REPAY_HASH
    case MorphoSupplyCollateral => MORPHO_SUPPLY_COLLATERAL_HASH
    case MorphoWithdrawCollateral => MORPHO_WITHDRAW_COLLATERAL_HASH
    case MorphoLiquidate => MORPHO_LIQUIDATE_HASH
    case MorphoCreateMarket => MORPHO_CREATE_MARKET_HASH
  }

  const UNIV3_MINT_HASH: B256 :=
      [0x7a, 0x53, 0x08, 0x0b, 0xa4, 0x14, 0x15, 0x8b, 0xe7, 0xec, 0x69, 0xb9, 0x87, 0xb5, 0xfb, 0x7d]
    + [0x07, 0xde, 0xe1, 0x01, 0xfe, 0x85, 0x48, 0x8f, 0x08, 0x53, 0xae, 0x16, 0x23, 0x9d, 0x0b, 0xde]

  const UNIV3_COLLECT_HASH: B256 :=
      [0x70, 0x93, 0x53, 0x38, 0xe6, 0x97, 0x75, 0x45, 0x6a, 0x85, 0xdd, 0xef, 0x22, 0x6c, 0x39, 0x5f]
    + [0xb6, 0x68, 0xb6, 0x3f, 0xa0, 0x11, 0x5f, 0x5f, 0x20, 0x61, 0x0b, 0x38, 0x8e, 0x6c, 0xa9, 0xc0]

  const UNIV3_BURN_HASH: B256 :=
      [0x0c, 0x39, 0x6c, 0xd9, 0x89, 0xa3, 0x9f, 0x44, 0x59, 0xb5, 0xfa, 0x1a, 0xed, 0x6a, 0x9a, 0x8d]
    + [0xcd, 0xbc, 0x45, 0x90, 0x8a, 0xcf, 0xd6, 0x7e, 0x02, 0x8c, 0xd5, 0x68, 0xda, 0x98, 0x98, 0x2c]

  const UNIV3_SWAP_HASH: B256 :=
      [0xc4, 0x20, 0x79, 0xf9, 0x4a, 0x63, 0x50, 0xd7, 0xe6, 0x23, 0x5f, 0x29, 0x17, 0x49, 0x24, 0xf9]
    + [0x28, 0xcc, 0x2a, 0xc8, 0x18, 0xeb, 0x64, 0xfe, 0xd8, 0x00, 0x4e, 0x11, 0x5f, 0xbc, 0xca, 0x67]

  const UNIV3_FLASH_HASH: B256 :=
      [0xbd, 0xbd, 0xb7, 0x1d, 0x78, 0x60, 0x37, 0x6b, 0xa5, 0x2b, 0x25, 0xa5, 0x02, 0x8b, 0xee, 0xa2]
    + [0x35, 0x81, 0x36, 0x4a, 0x40, 0x52, 0x2f, 0x6b, 0xcf, 0xb8, 0x6b, 0xb1, 0xf2, 0xdc, 0xa6, 0x33]

  const ANSWER_UPDATED_HASH: B256 :=
      [0x05, 0x59, 0x88, 0x4f, 0xd3, 0xa4, 0x60, 0xdb, 0x30, 0x73, 0xb7, 0xfc, 0x89, 0x6c, 0xc7, 0x79]
    + [0x86, 0xf1, 0x6e, 0x37, 0x82, 0x10, 0xde, 0xd4, 0x31, 0x86, 0x17, 0x5b, 0xf6, 0x46, 0xfc, 0x5f]

  const NEW_ROUND_HASH: B256 :=
      [0x01, 0x09, 0xfc, 0x6f, 0x55, 0xcf, 0x40, 0x68, 0x9f, 0x02, 0xfb, 0xaa, 0xd7, 0xaf, 0x7f, 0xe7]
    + [0xbb, 0xac, 0x8a, 0x3d, 0x21, 0x86, 0x60, 0x0a, 0xfc, 0x7d, 0x3e, 0x10, 0xca, 0xc6, 0x02, 0x71]

  const AAVE_SUPPLY_HASH: B256 :=
      [0x2b, 0x62, 0x77, 0x36, 0xbc, 0xa1, 0x5c, 0xd5, 0x38, 0x1d, 0xcf, 0x80, 0xb0, 0xbf, 0x11, 0xfd]
    + [0x19, 0x7d, 0x01, 0xa0, 0x37, 0xc5, 0x2b, 0x92, 0x7a, 0x88, 0x1a, 0x10, 0xfb, 0x73, 0xba, 0x61]

  const AAVE_WITHDRAW_HASH: B256 :=
      [0x31, 0x15, 0xd1, 0x44, 0x9a, 0x7b, 0x73, 0x2c, 0x98, 0x6c, 0xba, 0x18, 0x24, 0x4e, 0x89, 0x7a]
    + [0x45, 0x0f, 0x61, 0xe1, 0xbb, 0x8d, 0x58, 0x9c, 0xd2, 0xe6, 0x9e, 0x6c, 0x89, 0x24, 0xf9, 0xf7]

  const AAVE_BORROW_HASH: B256 :=
      [0xb3, 0xd0, 0x84, 0x82, 0x0f, 0xb1, 0xa9, 0xde, 0xcf, 0xfb, 0x17, 0x64, 0x36, 0xbd, 0x02, 0x55]
    + [0x8d, 0x15, 0xfa, 0xc9, 0xb0, 0xdd, 0xfe, 0xd8, 0xc4, 0x65, 0xbc, 0x73, 0x59, 0xd7, 0xdc, 0xe0]

  const AAVE_REPAY_HASH: B256 :=
      [0xa5, 0x34, 0xc8, 0xdb, 0xe7, 0x1f, 0x87, 0x1f, 0x9f, 0x35, 0x30, 0xe9, 0x7a, 0x74, 0x60, 0x1f]
    + [0xea, 0x17, 0xb4, 0x26, 0xca, 0xe0, 0x2e, 0x1c, 0x5a, 0xee, 0x42, 0xc9, 0x6c, 0x78, 0x40, 0x51]

  const AAVE_LIQUIDATION_CALL_HASH: B256 :=
      [0xe4, 0x13, 0xa3, 0x21, 0xe8, 0x68, 0x1d, 0x83, 0x1f, 0x4d, 0xbc, 0xcb, 0xca, 0x79, 0x0d, 0x29]
    + [0x52, 0xb5, 0x6f, 0x97, 0x79, 0x08, 0xe4, 0x5b, 0xe3, 0x73, 0x35, 0x53, 0x3e, 0x00, 0x52, 0x86]

  const MORPHO_SUPPLY_HASH: B256 :=
      [0xed, 0xf8, 0x87, 0x04, 0x33, 0xc8, 0x38, 0x23, 0xeb, 0x07, 0x1d, 0x3d, 0xf1, 0xca, 0xa8, 0xd0]
    + [0x08, 0xf1, 0x2f, 0x64, 0x40, 0x91, 0x8c, 0x20, 0xd7, 0x5a, 0x36, 0x02, 0xcd, 0xa3, 0x0f, 0xe0]

  const MORPHO_WITHDRAW_HASH: B256 :=
      [0xa5, 0x6f, 0xc0, 0xad, 0x57, 0x02, 0xec, 0x05, 0xce, 0x63, 0x66, 0x62, 0x21, 0xf7, 0x96, 0xfb]
    + [0x62, 0x43, 0x7c, 0x32, 0xdb, 0x1a, 0xa1, 0xaa, 0x07, 0x5f, 0xc6, 0x48, 0x4c, 0xf5, 0x8f, 0xbf]

  const MORPHO_BORROW_HASH: B256 :=
      [0x57, 0x09, 0x54, 0x54, 0x0b, 0xed, 0x6b, 0x13, 0x04, 0xa8, 0x7d, 0xfe, 0x81, 0x5a, 0x5e, 0xda]
    + [0x4a, 0x64, 0x8f, 0x70, 0x97, 0xa1, 0x62, 0x40, 0xdc, 0xd8, 0x5c, 0x9b, 0x5f, 0xd4, 0x2a, 0x43]

  const MORPHO_REPAY_HASH: B256 :=
      [0x52, 0xac, 0xb0, 0x5c, 0xeb, 0xbd, 0x3c, 0xd3, 0x97, 0x15, 0x46, 0x9f, 0x22, 0xaf, 0xbf, 0x5a]
    + [0x17, 0x49, 0x62, 0x95, 0xef, 0x3b, 0xc9, 0xbb, 0x59, 0x44, 0x05, 0x6c, 0x63, 0xcc, 0xaa, 0x09]

  const MORPHO_SUPPLY_COLLATERAL_HASH: B256 :=
      [0xa3, 0xb9, 0x47, 0x2a, 0x13, 0x99, 0xe1, 0x7e, 0x12, 0x3f, 0x3c, 0x2e, 0x65, 0x86, 0xc2, 0x3e]
    + [0x50, 0x41, 0x84, 0xd5, 0x04, 0xde, 0x59, 0xcd, 0xaa, 0x2b, 0x37, 0x5e, 0x88, 0x0c, 0x61, 0x84]

  const MORPHO_WITHDRAW_COLLATERAL_HASH: B256 :=
      [0xe8, 0x0e, 0xbd, 0x7c, 0xc9, 0x22, 0x3d, 0x73, 0x82, 0xaa, 0xb2, 0xe0, 0xd1, 0xd6, 0x15, 0x5c]
    + [0x65, 0x65, 0x1f, 0x83, 0xd5, 0x3c, 0x8b, 0x9b, 0x06, 0x90, 0x1d, 0x16, 0x7e, 0x32, 0x11, 0x42]

  const MORPHO_LIQUIDATE_HASH: B256 :=
      [0xa4, 0x94, 0x6e, 0xde, 0x45, 0xd0, 0xc6, 0xf0, 0x6a, 0x0f, 0x5c, 0xe9, 0x2c, 0x9a, 0xd3, 0xb4]
    + [0x75, 0x14, 0x52, 0xd2, 0xfe, 0x0e, 0x25, 0x01, 0x07, 0x83, 0xbc, 0xab, 0x57, 0xa6, 0x7e, 0x41]

  const MORPHO_CREATE_MARKET_HASH: B256 :=
      [0x0c, 0x93, 0xf9, 0x8c, 0x4d, 0x95, 0x56, 0x73, 0x5b, 0x22, 0x5f, 0xc4, 0x37, 0x57, 0x54, 0x83]
    + [0x3d, 0x94, 0x21, 0x3d, 0xc4, 0x89, 0xcc, 0x5b, 0x49, 0x18, 0x03, 0x41, 0xbb, 0xae, 0x72, 0xe4]

  /** The first two bytes of a hash, big-endian. */
  function Prefix(h: B256): nat
  {
    h[0] as int * 256 + h[1] as int
  }

  /** The kind whose signature hash starts with the two bytes `p`, if any. */
  function KindOfPrefix(p: nat): Option<EventKind>
  {
    if p == 31315 then Some(UniV3Mint)
    else if p == 28819 then Some(UniV3Collect)
    else if p == 3129 then Some(UniV3Burn)
    else if p == 50208 then Some(UniV3Swap)
    else if p == 48573 then Some(UniV3Flash)
    else if p == 1369 then Some(AnswerUpdated)
    else if p == 265 then Some(NewRound)
    else if p == 11106 then Some(AaveSupply)
    else if p == 12565 then Some(AaveWithdraw)
    else if p == 46032 then Some(AaveBorrow)
    else if p == 42292 then Some(AaveRepay)
    else if p == 58387 then Some(AaveLiquidationCall)
    else if p == 60920 then Some(MorphoSupply)
    else if p == 42351 then Some(MorphoWithdraw)
    else if p == 22281 then Some(MorphoBorrow)
    else if p == 21164 then Some(MorphoRepay)
    else if p == 41913 then Some(MorphoSupplyCollateral)
    else if p == 59406 then Some(MorphoWithdrawCollateral)
    else if p == 42132 then Some(MorphoLiquidate)
    else if p == 3219 then Some(MorphoCreateMarket)
    else None
  }

  /** Two bytes of a signature hash already tell the kinds apart. */
  lemma PrefixIdentifiesKind(k: EventKind)
    ensures KindOfPrefix(Prefix(SignatureHash(k))) == Some(k)
  {
  }

  /** The twenty signature hashes are pairwise distinct, so a `topics[0]`
      matches the hash of at most one event kind. */
  lemma SignatureHashInjective(a: EventKind, b: EventKind)
    ensures SignatureHash(a) == SignatureHash(b) <==> a == b
  {
    PrefixIdentifiesKind(a);
    PrefixIdentifiesKind(b);
  }

  /** The kind whose canonical string is `s`, recognised from its length and
      at most two of its last characters. */
  function KindOfShape(s: string): Option<EventKind>
  {
    if |s| < 18 then None
    else match |s|
      case 33 => Some(NewRound)
      case 37 => Some(AnswerUpdated)
      case 41 => Some(AaveWithdraw)
      case 43 => Some(AaveRepay)
      case 46 => Some(if s[|s| - 3] == '1' then AaveSupply else MorphoRepay)
      case 47 => Some(MorphoSupply)
      case 49 => Some(if s[|s| - 10] == '6' then UniV3Burn else MorphoSupplyCollateral)
      case 52 => Some(UniV3Collect)
      case 54 => Some(UniV3Flash)
      case 55 => Some(MorphoBorrow)
      case 57 => Some(if s[|s| - 3] == '2' then UniV3Swap else if s[|s| - 18] == '8' then UniV3Mint else MorphoWithdraw)
      case 59 => Some(MorphoWithdrawCollateral)
      case 60 => Some(AaveBorrow)
      case 61 => Some(MorphoCreateMarket)
      case 69 => Some(AaveLiquidationCall)
      case 74 => Some(MorphoLiquidate)
      case _ => None
  }

  /** The shape of each canonical string identifies its kind (checked a few
      kinds at a time). */
  lemma ShapeIdentifiesKind(k: EventKind)
    ensures KindOfShape(Canonical(k)) == Some(k)
  {
    match k
    case UniV3Mint => ShapesOf1();
    case UniV3Collect => ShapesOf1();
    case UniV3Burn => ShapesOf1();
    case UniV3Swap => ShapesOf2();
    case UniV3Flash => ShapesOf2();
    case AnswerUpdated => ShapesOf2();
    case NewRound => ShapesOf3();
    case AaveSupply => ShapesOf3();
    case AaveWithdraw => ShapesOf3();
    case AaveBorrow => ShapesOf4();
    case AaveRepay => ShapesOf4();
    case AaveLiquidationCall => ShapesOf4();
    case MorphoSupply => ShapesOf5();
    case MorphoWithdraw => ShapesOf5();
    case MorphoBorrow => ShapesOf5();
    case MorphoRepay => ShapesOf6();
    case MorphoSupplyCollateral => ShapesOf6();
    case MorphoWithdrawCollateral => ShapesOf6();
    case MorphoLiquidate => ShapesOf7();
    case MorphoCreateMarket => ShapesOf7();
  }

  lemma ShapesOf1()
    ensures KindOfShape(Canonical(UniV3Mint)) == Some(UniV3Mint)
    ensures KindOfShape(Canonical(UniV3Collect)) == Some(UniV3Collect)
    ensures KindOfShape(Canonical(UniV3Burn)) == Some(UniV3Burn)
  {
  }

  lemma ShapesOf2()
    ensures KindOfShape(Canonical(UniV3Swap)) == Some(UniV3Swap)
    ensures KindOfShape(Canonical(UniV3Flash)) == Some(UniV3Flash)
    ensures KindOfShape(Canonical(AnswerUpdated)) == Some(AnswerUpdated)
  {
  }

  lemma ShapesOf3()
    ensures KindOfShape(Canonical(NewRound)) == Some(NewRound)
    ensures KindOfShape(Canonical(AaveSupply)) == Some(AaveSupply)
    ensures KindOfShape(Canonical(AaveWithdraw)) == Some(AaveWithdraw)
  {
  }

  lemma ShapesOf4()
    ensures KindOfShape(Canonical(AaveBorrow)) == Some(AaveBorrow)
    ensures KindOfShape(Canonical(AaveRepay)) == Some(AaveRepay)
    ensures KindOfShape(Canonical(AaveLiquidationCall)) == Some(AaveLiquidationCall)
  {
  }

  lemma ShapesOf5()
    ensures KindOfShape(Canonical(MorphoSupply)) == Some(MorphoSupply)
    ensures KindOfShape(Canonical(MorphoWithdraw)) == Some(MorphoWithdraw)
    ensures KindOfShape(Canonical(MorphoBorrow)) == Some(MorphoBorrow)
  {
  }

  lemma ShapesOf6()
    ensures KindOfShape(Canonical(MorphoRepay)) == Some(MorphoRepay)
    ensures KindOfShape(Canonical(MorphoSupplyCollateral)) == Some(MorphoSupplyCollateral)
    ensures KindOfShape(Canonical(MorphoWithdrawCollateral)) == Some(MorphoWithdrawCollateral)
  {
  }

  lemma ShapesOf7()
    ensures KindOfShape(Canonical(MorphoLiquidate)) == Some(MorphoLiquidate)
    ensures KindOfShape(Canonical(MorphoCreateMarket)) == Some(MorphoCreateMarket)
  {
  }

  /** The canonical strings are pairwise distinct too (Aave's and Morpho's
      `Supply`, `Withdraw`, `Borrow` and `Repay` differ in their types). */
  lemma CanonicalInjective(a: EventKind, b: EventKind)
    ensures Canonical(a) == Canonical(b) <==> a == b
  {
    ShapeIdentifiesKind(a);
    ShapeIdentifiesKind(b);
  }
}
