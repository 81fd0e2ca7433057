/** `formatDisplayAddress` from app/lib/utils.ts: how a creator's wallet
    address is shortened for display. */
module DisplayUtils {
  import opened Wrappers

  const UnknownCreator: string := "Unknown Creator"

  /** An address that is `undefined` or empty shows as "Unknown Creator"; one of
      at most ten characters is shown whole; a longer one keeps its first six
      and last four characters around an ellipsis. */
  function FormatDisplayAddress(address: Option<string>): (r: string)
    ensures (address.None? || address.value == "") ==> r == UnknownCreator
    ensures address.Some? && 0 < |address.value| <= 10 ==> r == address.value
    ensures address.Some? && |address.value| > 10 ==>
      |r| == 13
      && r[..6] == address.value[..6]
      && r[6..9] == "..."
      && r[9..] == address.value[|address.value| - 4..]
  {
    if address.None? || address.value == "" then UnknownCreator
    else if |address.value| <= 10 then address.value
    else address.value[..6] + "..." + address.value[|address.value| - 4..]
  }
}
