/** Identifiers shared by the contract's entry points. */
module ContractTypes {

  /** A Soroban `Address` (account or contract), kept abstract as a number. */
  type Address = nat

  /** A group's `BytesN<32>` id, kept abstract as a number. */
  type GroupId = nat
}
