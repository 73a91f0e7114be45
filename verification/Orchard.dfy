/** Shielded bundles, over any representation P of curve points. */
module Orchard {
  import opened BigEndian

  const MAX_ACTIONS: nat := 32

  /** One spend and one output, with the root its spend is proven against. */
  datatype Action<P> = Action(anchor: nat, nullifier: nat, commitment: nat, cv: P, ciphertext: seq<Byte>,
                              proof: seq<Byte>)

  /** Value of one asset leaving the pool. */
  datatype Balance = Balance(asset: nat, value: nat)

  datatype Bundle<P> = Bundle(actions: seq<Action<P>>, balances: seq<Balance>, bindingSig: seq<Byte>)
}
