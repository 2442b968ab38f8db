/** Small types and functions that several modules share. */
module Common {

  datatype Option<+T> = None | Some(value: T)

  /** Where an event of the client belongs: connection, attach epoch and session
      (`ClientEventContext` of crates/pacode-client/src/lib.rs). */
  datatype Context = Context(connectionEpoch: nat, sessionEpoch: nat, session: Option<string>)

  const U32_MAX: nat := 0xFFFF_FFFF
  const U64_MAX: nat := 0xFFFF_FFFF_FFFF_FFFF

  function SatAdd(a: nat, b: nat, max: nat): nat {
    if a + b > max then max else a + b
  }

  function SatSub(a: nat, b: nat): nat {
    if b > a then 0 else a - b
  }

  function Max(a: nat, b: nat): nat {
    if a > b then a else b
  }

  function Min(a: nat, b: nat): nat {
    if a < b then a else b
  }

  ghost predicate Increasing(s: seq<nat>) {
    forall i, j | 0 <= i < j < |s| :: s[i] < s[j]
  }
}
