/** The shared constants of values/const.go. */
module Values {
  const UserRoleUnknown := 0
  const UserRoleMember := 1
  const UserRoleLibrarian := 2

  /** The largest number of rows one listing may fetch. */
  const MaxRowLimit := 50

  const BookStatusUnknown := 0
  const BookStatusAvailable := 1
  const BookStatusBorrowed := 2
}
