/**
 * The book handlers of core/book.go: request validation and the decisions
 * taken around the data-layer calls. A decoded JSON body is an input (its
 * decoding error included), and each data-layer call is a function the
 * handler is given, so what the handler passes to it and what it makes of
 * the answer are both visible. An error built with `newError` wraps the
 * error it was given; where the source passes its still-nil `err`, that is
 * `None`.
 */
module Books {
  import opened Wrappers
  import opened Errors
  import opened NullStrings
  import opened Text
  import opened Values
  import opened Rfc3339

  const BadRequestType: Option<Error> := Some(SentinelError(BadRequest))
  const InternalType: Option<Error> := Some(SentinelError(Internal))
  const NotFoundType: Option<Error> := Some(SentinelError(ResourceNotFound))

  /** The status the HTTP layer reports for a handler's error. */
  function StatusOf(e: Error): int
  {
    MapErrorTypeToHTTPStatus(IsError(Some(e)).errorType)
  }

  // ----- createBook -----

  datatype CreateBookRequest = CreateBookRequest(bookName: string, authorName: string, publisher: string,
                                                 description: string)

  /** Whether the three required fields are non-empty once trimmed. */
  predicate CreateFieldsPresent(q: CreateBookRequest)
  {
    TrimSpace(q.bookName) != "" && TrimSpace(q.authorName) != "" && TrimSpace(q.publisher) != ""
  }

  /** `createBook`: trim and check name, author and publisher in that order, then create. */
  function CreateBook<T>(decoded: Result<CreateBookRequest, Error>,
                         create: (string, string, string, NullString) -> Result<T, Error>): (r: Result<T, Error>)
    ensures decoded.Failure? ==>
      r == Failure(NewError("Failed to decode JSON", ErrorCodeValidation, BadRequestType, Some(decoded.error)))
    ensures decoded.Success? && TrimSpace(decoded.value.bookName) == "" ==>
      r == Failure(NewError("Trying to create a book with empty name", ErrorCodeValidation, BadRequestType, None))
    ensures decoded.Success? && TrimSpace(decoded.value.bookName) != "" && TrimSpace(decoded.value.authorName) == "" ==>
      r == Failure(NewError("Trying to create a book with empty author name", ErrorCodeValidation, BadRequestType, None))
    ensures decoded.Success? && TrimSpace(decoded.value.bookName) != "" && TrimSpace(decoded.value.authorName) != ""
            && TrimSpace(decoded.value.publisher) == "" ==>
      r == Failure(NewError("Trying to create a book with empty publisher name", ErrorCodeValidation, BadRequestType, None))
    ensures decoded.Success? && CreateFieldsPresent(decoded.value) ==>
      var q := decoded.value;
      var res := create(TrimSpace(q.bookName), TrimSpace(q.authorName), TrimSpace(q.publisher),
                        NewNullableString(q.description));
      r == if res.Success? then res
           else Failure(NewError("Failed to create book", ErrorCodeInternal, InternalType, Some(res.error)))
  {
    match decoded
    case Failure(e) =>
      Failure(NewError("Failed to decode JSON", ErrorCodeValidation, BadRequestType, Some(e)))
    case Success(q) =>
      var name := TrimSpace(q.bookName);
      if name == "" then
        Failure(NewError("Trying to create a book with empty name", ErrorCodeValidation, BadRequestType, None))
      else
        var author := TrimSpace(q.authorName);
        if author == "" then
          Failure(NewError("Trying to create a book with empty author name", ErrorCodeValidation, BadRequestType, None))
        else
          var publisher := TrimSpace(q.publisher);
          if publisher == "" then
            Failure(NewError("Trying to create a book with empty publisher name", ErrorCodeValidation,
                             BadRequestType, None))
          else
            match create(name, author, publisher, NewNullableString(q.description))
            case Failure(e) => Failure(NewError("Failed to create book", ErrorCodeInternal, InternalType, Some(e)))
            case Success(book) => Success(book)
  }

  /** A rejected request is answered 400 and a failed creation 500; the data layer is consulted only for a valid request. */
  lemma CreateBookStatus<T>(decoded: Result<CreateBookRequest, Error>,
                            create: (string, string, string, NullString) -> Result<T, Error>,
                            other: (string, string, string, NullString) -> Result<T, Error>)
    ensures CreateBook(decoded, create).Failure? ==>
      ((StatusOf(CreateBook(decoded, create).error) == StatusBadRequest)
       <==> !(decoded.Success? && CreateFieldsPresent(decoded.value)))
    ensures CreateBook(decoded, create).Failure? ==>
      StatusOf(CreateBook(decoded, create).error) in {StatusBadRequest, StatusInternalServerError}
    ensures !(decoded.Success? && CreateFieldsPresent(decoded.value)) ==>
      CreateBook(decoded, create) == CreateBook(decoded, other)
  {
  }

  /** What the data layer is given is already trimmed and non-empty, and an empty description is NULL. */
  lemma CreateBookArguments(q: CreateBookRequest)
    requires CreateFieldsPresent(q)
    ensures TrimSpace(TrimSpace(q.bookName)) == TrimSpace(q.bookName) != ""
    ensures TrimSpace(TrimSpace(q.authorName)) == TrimSpace(q.authorName) != ""
    ensures TrimSpace(TrimSpace(q.publisher)) == TrimSpace(q.publisher) != ""
    ensures GetNullStringValue(NewNullableString(q.description)) == q.description
  {
    TrimSpaceIdempotent(q.bookName);
    TrimSpaceIdempotent(q.authorName);
    TrimSpaceIdempotent(q.publisher);
    NullStringRoundTrip(q.description);
  }

  // ----- getBook -----

  /** `getBook`: the id is checked as given, without trimming; no book is EntityNotFound. */
  function GetBook<T>(bookId: string, get: string -> Result<Option<T>, Error>): (r: Result<T, Error>)
    ensures bookId == "" ==>
      r == Failure(NewError("Invalid value for bookId parameter", ErrorCodeValidation, BadRequestType, None))
    ensures bookId != "" && get(bookId).Failure? ==>
      r == Failure(NewError("Failed to bget book", ErrorCodeInternal, InternalType, Some(get(bookId).error)))
    ensures bookId != "" && get(bookId) == Success(None) ==>
      r == Failure(NewError("Book not found", ErrorCodeEntityNotFound, NotFoundType, None))
    ensures r.Success? <==> bookId != "" && get(bookId).Success? && get(bookId).value.Some?
    ensures r.Success? ==> r.value == get(bookId).value.value
  {
    if bookId == "" then
      Failure(NewError("Invalid value for bookId parameter", ErrorCodeValidation, BadRequestType, None))
    else
      match get(bookId)
      case Failure(e) => Failure(NewError("Failed to bget book", ErrorCodeInternal, InternalType, Some(e)))
      case Success(None) => Failure(NewError("Book not found", ErrorCodeEntityNotFound, NotFoundType, None))
      case Success(Some(book)) => Success(book)
  }

  /** A missing book is answered 404, and an id of spaces is looked up as it is. */
  lemma GetBookMissing<T>(bookId: string, get: string -> Result<Option<T>, Error>)
    requires bookId != "" && get(bookId) == Success(None)
    ensures StatusOf(GetBook(bookId, get).error) == StatusNotFound
    ensures IsError(Some(GetBook(bookId, get).error)).code == ErrorCodeEntityNotFound
  {
  }

  // ----- getAllBooks -----

  datatype MetaData = MetaData(searchTerm: string, rowOffset: int, rowLimit: int)

  datatype AllBooks<T> = AllBooks(data: T, meta: MetaData)

  /**
   * `getAllBooks`: bound the offset and the limit, let a zero limit mean the
   * maximum, and ask members' or librarians' listing by the caller's role.
   */
  method GetAllBooks<T>(searchTerm: string, rowOffset: int, rowLimit: int, userRole: int,
                        forMember: (string, int, int) -> Result<T, Error>,
                        forLibrarian: (string, int, int) -> Result<T, Error>)
    returns (r: Result<AllBooks<T>, Error>)
    ensures rowOffset < 0 ==>
      r == Failure(NewError("Invalid value for row offset parameter", ErrorCodeValidation, BadRequestType, None))
    ensures rowOffset >= 0 && (rowLimit < 0 || rowLimit > MaxRowLimit) ==>
      r == Failure(NewError("Invalid value for row limit parameter", ErrorCodeValidation, BadRequestType, None))
    ensures r.Success? ==> 0 <= rowOffset && 0 <= rowLimit <= MaxRowLimit
    ensures r.Success? ==> r.value.meta == MetaData(searchTerm, rowOffset, r.value.meta.rowLimit)
    ensures r.Success? ==> 1 <= r.value.meta.rowLimit <= MaxRowLimit
    ensures r.Success? ==> (rowLimit == 0 <==> r.value.meta.rowLimit == MaxRowLimit && rowLimit != MaxRowLimit)
    ensures r.Success? && rowLimit != 0 ==> r.value.meta.rowLimit == rowLimit
    ensures 0 <= rowOffset && 0 <= rowLimit <= MaxRowLimit ==>
      var limit := if rowLimit == 0 then MaxRowLimit else rowLimit;
      var books := if userRole == UserRoleMember then forMember(searchTerm, rowOffset, limit)
                   else forLibrarian(searchTerm, rowOffset, limit);
      r == if books.Success? then Success(AllBooks(books.value, MetaData(searchTerm, rowOffset, limit)))
           else Failure(NewError("Failed to get all books", ErrorCodeInternal, InternalType, Some(books.error)))
  {
    if rowOffset < 0 {
      return Failure(NewError("Invalid value for row offset parameter", ErrorCodeValidation, BadRequestType, None));
    }
    if rowLimit < 0 || rowLimit > MaxRowLimit {
      return Failure(NewError("Invalid value for row limit parameter", ErrorCodeValidation, BadRequestType, None));
    }
    var limit := rowLimit;
    if limit == 0 {
      limit := MaxRowLimit;
    }
    var books;
    if userRole == UserRoleMember {
      books := forMember(searchTerm, rowOffset, limit);
    } else {
      books := forLibrarian(searchTerm, rowOffset, limit);
    }
    if books.Failure? {
      return Failure(NewError("Failed to get all books", ErrorCodeInternal, InternalType, Some(books.error)));
    }
    r := Success(AllBooks(books.value, MetaData(searchTerm, rowOffset, limit)));
  }

  // ----- updateBook -----

  datatype UpdateBookRequest = UpdateBookRequest(bookId: string, bookName: string, authorName: string,
                                                 publisher: string, description: string)

  /** The time `time.Date(1, time.January, 1, 0, 0, 0, 0, time.UTC)`, which the data layer returns when no row changed. */
  const ZeroTime := Time(1, 1, 1, 0, 0, 0, 0, 0)

  predicate UpdateFieldsPresent(q: UpdateBookRequest)
  {
    TrimSpace(q.bookId) != "" && TrimSpace(q.bookName) != "" && TrimSpace(q.authorName) != ""
    && TrimSpace(q.publisher) != ""
  }

  /** `updateBook`: trim and check id, name, author and publisher in that order, update, report the new time. */
  function UpdateBook(decoded: Result<UpdateBookRequest, Error>,
                      update: (string, string, string, string, NullString) -> Result<Time, Error>)
    : (r: Result<Time, Error>)
    ensures decoded.Failure? ==>
      r == Failure(NewError("Failed to decode JSON", ErrorCodeInvalidJSONBody, BadRequestType, Some(decoded.error)))
    ensures decoded.Success? && TrimSpace(decoded.value.bookId) == "" ==>
      r == Failure(NewError("Invalid value for book id parameter", ErrorCodeValidation, BadRequestType, None))
    ensures decoded.Success? && TrimSpace(decoded.value.bookId) != "" && TrimSpace(decoded.value.bookName) == "" ==>
      r == Failure(NewError("Invalid value for book name parameter", ErrorCodeValidation, BadRequestType, None))
    ensures decoded.Success? && TrimSpace(decoded.value.bookId) != "" && TrimSpace(decoded.value.bookName) != ""
            && TrimSpace(decoded.value.authorName) == "" ==>
      r == Failure(NewError("Invalid value for author name parameter", ErrorCodeValidation, BadRequestType, None))
    ensures decoded.Success? && TrimSpace(decoded.value.bookId) != "" && TrimSpace(decoded.value.bookName) != ""
            && TrimSpace(decoded.value.authorName) != "" && TrimSpace(decoded.value.publisher) == "" ==>
      r == Failure(NewError("Invalid value for publisher name parameter", ErrorCodeValidation, BadRequestType, None))
    ensures decoded.Success? && UpdateFieldsPresent(decoded.value) ==>
      var q := decoded.value;
      var res := update(TrimSpace(q.bookId), TrimSpace(q.bookName), TrimSpace(q.authorName), TrimSpace(q.publisher),
                        NewNullableString(q.description));
      r == if res.Failure? then Failure(NewError("Failed to update book", ErrorCodeInternal, InternalType, Some(res.error)))
           else if res.value == ZeroTime then Failure(NewError("Book not found", ErrorCodeEntityNotFound, NotFoundType, None))
           else res
    ensures r.Success? ==> r.value != ZeroTime
  {
    match decoded
    case Failure(e) =>
      Failure(NewError("Failed to decode JSON", ErrorCodeInvalidJSONBody, BadRequestType, Some(e)))
    case Success(q) =>
      var id := TrimSpace(q.bookId);
      if id == "" then
        Failure(NewError("Invalid value for book id parameter", ErrorCodeValidation, BadRequestType, None))
      else
        var name := TrimSpace(q.bookName);
        if name == "" then
          Failure(NewError("Invalid value for book name parameter", ErrorCodeValidation, BadRequestType, None))
        else
          var author := TrimSpace(q.authorName);
          if author == "" then
            Failure(NewError("Invalid value for author name parameter", ErrorCodeValidation, BadRequestType, None))
          else
            var publisher := TrimSpace(q.publisher);
            if publisher == "" then
              Failure(NewError("Invalid value for publisher name parameter", ErrorCodeValidation, BadRequestType, None))
            else
              match update(id, name, author, publisher, NewNullableString(q.description))
              case Failure(e) => Failure(NewError("Failed to update book", ErrorCodeInternal, InternalType, Some(e)))
              case Success(updatedAt) =>
                if updatedAt == ZeroTime then
                  Failure(NewError("Book not found", ErrorCodeEntityNotFound, NotFoundType, None))
                else
                  Success(updatedAt)
  }

  /** For a valid request, the answer is 404 exactly when the data layer reports the zero time. */
  lemma UpdateBookNotFoundIff(q: UpdateBookRequest,
                              update: (string, string, string, string, NullString) -> Result<Time, Error>)
    requires UpdateFieldsPresent(q)
    ensures var r := UpdateBook(Success(q), update);
      (r.Failure? && StatusOf(r.error) == StatusNotFound)
      <==> update(TrimSpace(q.bookId), TrimSpace(q.bookName), TrimSpace(q.authorName), TrimSpace(q.publisher),
                  NewNullableString(q.description)) == Success(ZeroTime)
  {
  }

  // ----- deleteBook -----

  /** `deleteBook`: trim and check the id, delete, and report no affected row as EntityNotFound. */
  function DeleteBook(bookId: string, delete: string -> Result<int, Error>): (err: Option<Error>)
    ensures TrimSpace(bookId) == "" ==>
      err == Some(NewError("Invalid value for book id parameter", ErrorCodeValidation, BadRequestType, None))
    ensures TrimSpace(bookId) != "" && delete(TrimSpace(bookId)).Failure? ==>
      err == Some(NewError("Failed to delete book", ErrorCodeInternal, InternalType, Some(delete(TrimSpace(bookId)).error)))
    ensures TrimSpace(bookId) != "" && delete(TrimSpace(bookId)) == Success(0) ==>
      err == Some(NewError("Book not found", ErrorCodeEntityNotFound, NotFoundType, None))
    ensures err.None? <==> TrimSpace(bookId) != "" && delete(TrimSpace(bookId)).Success?
                           && delete(TrimSpace(bookId)).value != 0
  {
    var id := TrimSpace(bookId);
    if id == "" then
      Some(NewError("Invalid value for book id parameter", ErrorCodeValidation, BadRequestType, None))
    else
      match delete(id)
      case Failure(e) => Some(NewError("Failed to delete book", ErrorCodeInternal, InternalType, Some(e)))
      case Success(rowsAffected) =>
        if rowsAffected == 0 then Some(NewError("Book not found", ErrorCodeEntityNotFound, NotFoundType, None))
        else None
  }

  /** The id is trimmed once: deleting by a padded id is deleting by the trimmed one. */
  lemma DeleteBookTrimmed(bookId: string, delete: string -> Result<int, Error>)
    ensures DeleteBook(bookId, delete) == DeleteBook(TrimSpace(bookId), delete)
  {
    TrimSpaceIdempotent(bookId);
  }

  // ----- borrowOrReturnBook -----

  datatype BookIdRequest = BookIdRequest(bookId: string)

  /** The arguments of the one `ChangeBookStatus` call. */
  datatype StatusChange = StatusChange(bookId: string, status: int, borrower: NullString)

  /**
   * The status a borrow or a return moves a book to, with its new borrower:
   * an available book is borrowed by the caller; any other book can only be
   * returned by its borrower.
   */
  function Transition(status: int, userId: string, borrowerId: string): (r: Result<(int, NullString), Error>)
    ensures r.Success? ==> r.value.0 in {BookStatusAvailable, BookStatusBorrowed}
    ensures r.Success? && r.value.0 == BookStatusBorrowed <==> status == BookStatusAvailable
    ensures r.Failure? <==> status != BookStatusAvailable && borrowerId != userId
    ensures r.Failure? ==> r.error == NewError("Book not available", ErrorCodeEntityNotFound, NotFoundType, None)
    ensures r.Success? && r.value.0 == BookStatusBorrowed ==> r.value.1 == NewNullableString(userId)
    ensures r.Success? && r.value.0 == BookStatusAvailable ==> r.value.1 == NullString("", false)
  {
    if status == BookStatusAvailable then Success((BookStatusBorrowed, NewNullableString(userId)))
    else if borrowerId != userId then
      Failure(NewError("Book not available", ErrorCodeEntityNotFound, NotFoundType, None))
    else Success((BookStatusAvailable, NewNullableString("")))
  }

  /** A borrower can return what they borrowed, which makes the book available and unowned again. */
  lemma {:induction false} BorrowThenReturn(userId: string)
    requires userId != ""
    ensures Transition(BookStatusAvailable, userId, "") == Success((BookStatusBorrowed, NullString(userId, true)))
    ensures var borrower := GetNullStringValue(Transition(BookStatusAvailable, userId, "").value.1);
      Transition(BookStatusBorrowed, userId, borrower) == Success((BookStatusAvailable, NullString("", false)))
  {
    NullStringRoundTrip(userId);
  }

  /** Nobody but the borrower can return a borrowed book. */
  lemma OnlyBorrowerReturns(borrowerId: string, userId: string)
    requires borrowerId != userId
    ensures Transition(BookStatusBorrowed, userId, borrowerId).Failure?
    ensures StatusOf(Transition(BookStatusBorrowed, userId, borrowerId).error) == StatusNotFound
  {
  }

  /**
   * `borrowOrReturnBook`: read the book's status and the caller's id, decide
   * the transition, and record it; `change` is the `ChangeBookStatus` call
   * made, if one was.
   */
  method BorrowOrReturnBook(token: string, decoded: Result<BookIdRequest, Error>,
                            getBookStatus: string -> Result<int, Error>,
                            getUserId: string -> Result<string, Error>,
                            getBorrowerId: string -> Result<string, Error>,
                            changeBookStatus: StatusChange -> Option<Error>)
    returns (err: Option<Error>, change: Option<StatusChange>)
    ensures decoded.Failure? ==>
      err == Some(NewError("Failed to decode JSON", ErrorCodeValidation, BadRequestType, Some(decoded.error)))
    ensures decoded.Success? && TrimSpace(decoded.value.bookId) == "" ==>
      err == Some(NewError("Invalid value for book id parameter", ErrorCodeValidation, BadRequestType, None))
    ensures decoded.Success? && TrimSpace(decoded.value.bookId) != "" ==>
      var id := TrimSpace(decoded.value.bookId);
      && (getBookStatus(id).Failure? ==>
            err == Some(NewError("Failed to get book status", ErrorCodeInternal, InternalType,
                                 Some(getBookStatus(id).error))))
      && (getBookStatus(id) == Success(UserRoleUnknown) ==>
            err == Some(NewError("Book not found", ErrorCodeEntityNotFound, NotFoundType, None)))
      && (getBookStatus(id).Success? && getBookStatus(id).value != UserRoleUnknown && getUserId(token).Failure? ==>
            err == Some(NewError("Failed to get user id", ErrorCodeInternal, InternalType, Some(getUserId(token).error))))
      && (getBookStatus(id).Success? && getBookStatus(id).value !in {UserRoleUnknown, BookStatusAvailable}
          && getUserId(token).Success? && getBorrowerId(id).Failure? ==>
            err == Some(NewError("Failed to get borrower id", ErrorCodeInternal, InternalType,
                                 Some(getBorrowerId(id).error))))
      && (getBookStatus(id).Success? && getBookStatus(id).value !in {UserRoleUnknown, BookStatusAvailable}
          && getUserId(token).Success? && getBorrowerId(id).Success? && getBorrowerId(id).value != getUserId(token).value ==>
            err == Some(NewError("Book not available", ErrorCodeEntityNotFound, NotFoundType, None)))
    ensures change.Some? ==>
      && decoded.Success? && change.value.bookId == TrimSpace(decoded.value.bookId) != ""
      && getBookStatus(change.value.bookId).Success?
      && getBookStatus(change.value.bookId).value != UserRoleUnknown
      && getUserId(token).Success?
      && var status := getBookStatus(change.value.bookId).value;
         && (status != BookStatusAvailable ==> getBorrowerId(change.value.bookId).Success?)
         && var borrowerId := if status == BookStatusAvailable then "" else getBorrowerId(change.value.bookId).value;
            Transition(status, getUserId(token).value, borrowerId)
            == Success((change.value.status, change.value.borrower))
    ensures err.None? <==> change.Some? && changeBookStatus(change.value).None?
    ensures change.Some? && err.Some? ==>
      err == Some(NewError("Failed to change book status", ErrorCodeInternal, InternalType, changeBookStatus(change.value)))
    ensures (&& decoded.Success? && TrimSpace(decoded.value.bookId) != ""
             && getBookStatus(TrimSpace(decoded.value.bookId)).Success?
             && getBookStatus(TrimSpace(decoded.value.bookId)).value !in {UserRoleUnknown, BookStatusAvailable}
             && getUserId(token).Success?
             && getBorrowerId(TrimSpace(decoded.value.bookId)) == Success(getUserId(token).value))
            ==> change.Some?
    ensures (&& decoded.Success? && TrimSpace(decoded.value.bookId) != ""
             && getBookStatus(TrimSpace(decoded.value.bookId)) == Success(BookStatusAvailable)
             && getUserId(token).Success?)
            ==> change.Some?
  {
    change := None;
    if decoded.Failure? {
      return Some(NewError("Failed to decode JSON", ErrorCodeValidation, BadRequestType, Some(decoded.error))), None;
    }
    var bookId := TrimSpace(decoded.value.bookId);
    if bookId == "" {
      return Some(NewError("Invalid value for book id parameter", ErrorCodeValidation, BadRequestType, None)), None;
    }
    var status := getBookStatus(bookId);
    if status.Failure? {
      return Some(NewError("Failed to get book status", ErrorCodeInternal, InternalType, Some(status.error))), None;
    }
    // the status is compared with the role constant, whose value is that of BookStatusUnknown
    if status.value == UserRoleUnknown {
      return Some(NewError("Book not found", ErrorCodeEntityNotFound, NotFoundType, None)), None;
    }
    var userIdResult := getUserId(token);
    if userIdResult.Failure? {
      return Some(NewError("Failed to get user id", ErrorCodeInternal, InternalType, Some(userIdResult.error))), None;
    }
    var userId := userIdResult.value;
    var newStatus := BookStatusAvailable;
    if status.value == BookStatusAvailable {
      newStatus := BookStatusBorrowed;
    } else {
      var borrowerId := getBorrowerId(bookId);
      if borrowerId.Failure? {
        return Some(NewError("Failed to get borrower id", ErrorCodeInternal, InternalType, Some(borrowerId.error))), None;
      }
      if borrowerId.value != userId {
        return Some(NewError("Book not available", ErrorCodeEntityNotFound, NotFoundType, None)), None;
      }
      userId := "";
      newStatus := BookStatusAvailable;
    }
    change := Some(StatusChange(bookId, newStatus, NewNullableString(userId)));
    var changeErr := changeBookStatus(change.value);
    if changeErr.Some? {
      err := Some(NewError("Failed to change book status", ErrorCodeInternal, InternalType, changeErr));
      return;
    }
    err := None;
  }
}
