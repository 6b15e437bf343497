/** Names, optional values and the small helpers every table model uses. */
module Common {
  // An account name; the chain's 64-bit value. The empty name is written None.
  type Name = nat

  // The system's own accounts, by their encoded names.
  const B1: Name := 0x3840000000000000
  const EOSIO: Name := 0x5530ea0000000000
  const EOSIO_STAKE: Name := 0x5530ea0319341400
  const EOSIO_RAM: Name := 0x5530ea02e6900000
  const EOSIO_BPAY: Name := 0x5530ea00f5378000
  const EOSIO_UPAY: Name := 0x5530ea0355378000
  const EOSIO_NAMES: Name := 0x5530ea026692b000

  // Asset amounts stay below this bound; wider sums abort the transaction.
  const MAX_AMOUNT: int := 0x3fff_ffff_ffff_ffff

  datatype Option<+T> = None | Some(value: T)

  function Abs(x: real): real {
    if x < 0.0 then -x else x
  }

  // Voter and proposer lists are ordered by name without repeats.
  ghost predicate StrictlySorted(s: seq<Name>) {
    forall i, j | 0 <= i < j < |s| :: s[i] < s[j]
  }
}
