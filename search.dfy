/** Linear searches as the renderer writes them: a range-for with an early
    `return`, `std::ranges::find_if`, `std::ranges::any_of` and
    `std::ranges::all_of`. Each scans front to back and stops at the first
    element that decides the answer. */
module Search {
  import opened Outcomes

  /** Index of the first element satisfying `p`, scanning from the front. */
  function FirstIndex<T>(s: seq<T>, p: T -> bool): (r: Option<nat>)
    ensures r.Some? ==> r.value < |s| && p(s[r.value])
    ensures r.Some? ==> forall j :: 0 <= j < r.value ==> !p(s[j])
    ensures r.None? <==> forall j :: 0 <= j < |s| ==> !p(s[j])
  {
    if |s| == 0 then None
    else if p(s[0]) then Some(0)
    else
      match FirstIndex(s[1..], p)
      case None => None
      case Some(i) => Some(i + 1)
  }

  /** No element appears twice. */
  ghost predicate Distinct<T>(s: seq<T>) {
    forall i, j :: 0 <= i < j < |s| ==> s[i] != s[j]
  }

  /** `std::ranges::any_of` */
  function AnyOf<T>(s: seq<T>, p: T -> bool): (b: bool)
    ensures b <==> exists i :: 0 <= i < |s| && p(s[i])
  {
    if |s| == 0 then false else p(s[0]) || AnyOf(s[1..], p)
  }

  /** `std::ranges::all_of` */
  function AllOf<T>(s: seq<T>, p: T -> bool): (b: bool)
    ensures b <==> forall i :: 0 <= i < |s| ==> p(s[i])
  {
    if |s| == 0 then true else p(s[0]) && AllOf(s[1..], p)
  }

  /** Every name in `required` equals some name in `available` (the
      `all_of(required, any_of(available, strcmp == 0))` subset test). */
  function AllAvailable(required: seq<string>, available: seq<string>): (b: bool)
    ensures b <==> forall i :: 0 <= i < |required| ==> required[i] in available
  {
    AllOf(required, (name: string) => AnyOf(available, (a: string) => a == name))
  }
}
