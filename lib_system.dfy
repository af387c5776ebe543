/**
 * The library exercise of libSystem.cc: a `Book` whose availability flag is a
 * two-state machine driven by `borrowItem`/`returnItem`, users of three kinds,
 * and a `Library` that appends books (copied by value into its vector) and
 * users (kept by pointer).
 */
module LibSystem {

  /** The value of a `Book` object, as the library's vector holds a copy of it. */
  datatype BookInfo = BookInfo(title: string, author: string, bookID: int, isAvailable: bool)

  class Book {
    const title: string
    const author: string
    const bookID: int
    var isAvailable: bool

    /** `Book(title, author, bookID)`: the given details, and available. */
    constructor (title: string, author: string, bookID: int)
      ensures this.title == title && this.author == author && this.bookID == bookID
      ensures isAvailable
    {
      this.title := title;
      this.author := author;
      this.bookID := bookID;
      isAvailable := true;
    }

    function Info(): BookInfo
      reads this
    {
      BookInfo(title, author, bookID, isAvailable)
    }

    /** `checkAvailability`: a read of the flag. */
    function CheckAvailability(): (available: bool)
      reads this
      ensures available == Info().isAvailable
    {
      isAvailable
    }

    /**
     * `borrowItem`: an available book becomes unavailable; an unavailable one
     * stays as it is. `borrowed` says which message is printed.
     */
    method BorrowItem() returns (borrowed: bool)
      modifies this`isAvailable
      ensures borrowed == old(isAvailable)
      ensures !isAvailable
    {
      if isAvailable {
        isAvailable := false;
        borrowed := true;
      } else {
        borrowed := false;
      }
    }

    /** `returnItem`: the book is available afterwards, whatever it was before. */
    method ReturnItem()
      modifies this`isAvailable
      ensures isAvailable
    {
      isAvailable := true;
    }
  }

  /** Which of `User`, `Student` and `Teacher` a user object was created as. */
  datatype Role = Member | Student | Teacher

  class User {
    const name: string
    const userID: int
    const role: Role

    constructor (name: string, userID: int, role: Role)
      ensures this.name == name && this.userID == userID && this.role == role
    {
      this.name := name;
      this.userID := userID;
      this.role := role;
    }
  }

  class Library {
    var books: seq<BookInfo>
    var users: seq<User>

    /** The implicit default constructor: no books, no users. */
    constructor ()
      ensures books == [] && users == []
    {
      books := [];
      users := [];
    }

    /** `addBook`: a copy of the book goes at the end; earlier books stay as they were. */
    method AddBook(book: Book)
      modifies this`books
      ensures books == old(books) + [book.Info()]
    {
      books := books + [book.Info()];
    }

    /** `addUser`: the pointer goes at the end; earlier users stay as they were. */
    method AddUser(user: User)
      modifies this`users
      ensures users == old(users) + [user]
    {
      users := users + [user];
    }
  }

  /**
   * The program's `main`: two books and two users (a student and a teacher)
   * are added; the library then holds both books, available, in that order,
   * and both users in order.
   */
  method LibraryDemo() returns (books: seq<BookInfo>, userIDs: seq<int>, roles: seq<Role>)
    ensures books == [BookInfo("C++ Primer", "Lippman", 101, true),
                      BookInfo("Effective C++", "Scott Meyers", 102, true)]
    ensures userIDs == [1, 2] && roles == [Student, Teacher]
  {
    var lib := new Library();
    var b1 := new Book("C++ Primer", "Lippman", 101);
    lib.AddBook(b1);
    var b2 := new Book("Effective C++", "Scott Meyers", 102);
    lib.AddBook(b2);
    var alice := new User("Alice", 1, Student);
    lib.AddUser(alice);
    var smith := new User("Dr. Smith", 2, Teacher);
    lib.AddUser(smith);
    books := lib.books;
    userIDs := [lib.users[0].userID, lib.users[1].userID];
    roles := [lib.users[0].role, lib.users[1].role];
  }

  /**
   * Borrowing and returning with a book kept in a library: the second borrow
   * is refused, returning twice leaves the book available, the book's details
   * never change, and the library's copy is not affected by any of it.
   */
  method BorrowTwiceReturnTwice(lib: Library, book: Book)
      returns (first: bool, second: bool, available: bool)
    requires book.isAvailable
    modifies lib, book
    ensures first && !second && available
    ensures book.Info() == old(book.Info())
    ensures lib.books == old(lib.books) + [old(book.Info())]
  {
    lib.AddBook(book);
    first := book.BorrowItem();
    second := book.BorrowItem();
    book.ReturnItem();
    book.ReturnItem();
    available := book.CheckAvailability();
  }
}
