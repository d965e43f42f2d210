// Identifiers shared by the matching engine and the ledger (src/common/types/BasicTypes.ts).
module BasicTypes {

  type Address = string
  type Id = string
  type Round = nat

  datatype Intent = BuyAll | SellAll
}
