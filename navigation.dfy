/**
 * What a SvelteKit `load` function ends in, and the array membership test the
 * guards use to classify paths.
 */
module Navigation {

  /**
   * The result of a `load`: either it throws `redirect(status, location)`,
   * which is modelled as a returned `Redirect`, or it returns page data.
   */
  datatype Outcome<D> = Redirect(status: int, location: string) | Pass(data: D)

  /**
   * `list.includes(x)` for an array of strings. JavaScript compares strings
   * by SameValueZero, which for strings is exact, case-sensitive equality of
   * the whole string: there is no prefix or trailing-slash matching.
   */
  function Includes(list: seq<string>, x: string): (r: bool)
    ensures r <==> x in list
    ensures r <==> exists i :: 0 <= i < |list| && list[i] == x
  {
    if |list| == 0 then false
    else if list[0] == x then true
    else Includes(list[1..], x)
  }
}
