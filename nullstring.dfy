/** Nullable strings (gomodules/database/nullString.go). */
module NullStrings {

  /** `sql.NullString`: a string and whether it is non-NULL. */
  datatype NullString = NullString(str: string, valid: bool)

  /** `newNullableString`: the empty string becomes NULL. */
  function NewNullableString(x: string): (r: NullString)
    ensures r.valid <==> x != ""
    ensures r.valid ==> r.str == x
    ensures x == "" ==> r == NullString("", false)
  {
    if x == "" then NullString("", false) else NullString(x, true)
  }

  /** `getNullStringValue`: NULL reads as the empty string, whatever is stored. */
  function GetNullStringValue(x: NullString): (r: string)
    ensures !x.valid ==> r == ""
    ensures x.valid ==> r == x.str
  {
    if !x.valid then "" else x.str
  }

  /** Every string survives the trip through a nullable string. */
  lemma NullStringRoundTrip(x: string)
    ensures GetNullStringValue(NewNullableString(x)) == x
    ensures NewNullableString(x).valid <==> x != ""
  {
  }

  /** Reading and re-wrapping is the identity on every value the constructor can make. */
  lemma NullStringNormalForm(n: NullString)
    requires n.valid ==> n.str != ""
    requires !n.valid ==> n.str == ""
    ensures NewNullableString(GetNullStringValue(n)) == n
  {
  }
}
