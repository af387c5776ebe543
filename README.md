# Bounded integer stacks, a complex-number class and a toy library, in Dafny

This project models the object-oriented teaching programs of a small C++
collection.

- **The array-backed bounded integer stack.** It comes in three programs.
  Each class keeps a heap buffer `stk` of capacity `size`, a top index `TOS`
  (-1 when empty) and a static count `stk_Num` of live stacks.
  - StackV0.3_OperatorOverloading adds a deep-copying copy constructor and
    `operator=`.
  - StackV0.1_ByRef prints a stack through a `const stack&`.
  - StackV0.0_Shallow has no copy operations of its own. The compiler-generated
    memberwise ones make two stacks share one buffer. This program is in the
    collection twice, as `00.OOP/.../StackV0.0_Shallow/stack.cc` and
    `05.OOP/.../StackV0.0_Shallow/stack.cc`. The two texts are identical line
    for line, so it is modelled once. Each row below cites one of the two
    paths, and the same line numbers hold in the other.
- **`complex`**: integer parts, setters, componentwise add and subtract, and the
  choice of output line in `printComplex`.
- **`Book`/`Library`**: a book's availability flag, switched by `borrowItem` and
  `returnItem`, and a library that appends books and users.

Module layout:

- `StackSpec` (stack_spec.dfy) holds what the three stack programs share.
  - `PushResult` and `PopResult` say what one push or pop does to the stored
    elements (buffer slots 0..TOS, bottom to top).
  - `PushAll` and `PopMany` say what a run of pushes or pops does.
  - `InstanceCounter` is an explicit object standing for the static `stk_Num`.
- `StackDeepCopy`, `StackByRef` and `StackShallow` each hold one program's
  `stack` class.
  - Each class has `Valid()`, the index invariant -1 <= TOS <= size-1 over a
    buffer of `size` slots.
  - Each class has `Contents()`, the slots 0..TOS.
  - Its methods change `tos` and the `stk` array in place. Their postconditions
    give both the new buffer and TOS, and the new `Contents()` in terms of
    `StackSpec`.
  - Each program's `main` is a method. It allocates its own counter (which
    starts at 0, like `stk_Num`) and its own stacks. It returns what the
    program prints, as data, plus values `main` never prints: the live-stack
    counter (`live`) and, in StackShallow, the final TOS and whether the two
    stacks share a buffer.
- `ComplexClass` (complex_class.dfy) has a `Complex` class with mutable parts,
  plus its value as the datatype `ComplexNum`.
- `LibSystem` (lib_system.dfy) has the `Book`, `User` and `Library` classes.

On a full push or an empty pop the code prints a message. An empty `pop`
returns the sentinel -1, and the size is never checked. The model follows
the code.
- A full `push` changes nothing.
- An empty `pop` returns `EmptySentinel` (-1) and changes nothing.
- A sized constructor requires `size > 0` (see Left out).

## Model

| member | source | states |
|---|---|---|
| `StackSpec.InstanceCounter.constructor` | 05.OOP/01.Classes/01.Stack/StackV0.3_OperatorOverloading/stack.cc:108 | the live-stack counter starts at 0 |
| `StackSpec.InstanceCounter.GetStkNum` | 05.OOP/01.Classes/01.Stack/StackV0.3_OperatorOverloading/stack.cc:82-85 | `getSTKnum` reads the counter and changes nothing |
| `StackSpec.PushKeepsBound` | 05.OOP/01.Classes/01.Stack/StackV0.3_OperatorOverloading/stack.cc:69-79 | a push never takes a stack past its capacity; it adds exactly one element when there is room and none otherwise, so 0 <= TOS+1 <= size is kept |
| `StackSpec.PushThenPop` | 05.OOP/01.Classes/01.Stack/StackV0.3_OperatorOverloading/stack.cc:57-79 | LIFO: a push onto a non-full stack followed by a pop returns the pushed item and restores the previous contents (and so the previous TOS) |
| `StackSpec.PopShrinks` | 05.OOP/01.Classes/01.Stack/StackV0.3_OperatorOverloading/stack.cc:57-68 | a pop on an empty stack returns -1 and leaves it empty; on a non-empty stack the returned value is the top and the rest is what remains below it |
| `StackSpec.PushAllKeepsFirst` | 05.OOP/01.Classes/01.Stack/StackV0.1_ByRef/stack.cc:100-103 | pushing a run of items keeps exactly the first `size - count` of them, in order; every push made while full is lost |
| `StackSpec.PopManyReturnsTopReversed` | 05.OOP/01.Classes/01.Stack/StackV0.1_ByRef/stack.cc:106-111 | `k` pops in a row return the top `k` elements top first (reverse order of insertion) and leave the bottom ones |
| `StackSpec.DemoRun` | 05.OOP/01.Classes/01.Stack/StackV0.1_ByRef/stack.cc:100-111 | the unguarded loops of StackV0.1 (and StackV0.3, stack.cc:115-126): on a size-10 stack, pushing 1..12 keeps 1..10, and five pops then return 10, 9, 8, 7, 6 and leave 1..5 |
| `StackDeepCopy.Stack.Default` | 05.OOP/01.Classes/01.Stack/StackV0.3_OperatorOverloading/stack.cc:11-17 | an empty stack (TOS -1) with a fresh 10-slot buffer; the counter goes up by one |
| `StackDeepCopy.Stack.Sized` | 05.OOP/01.Classes/01.Stack/StackV0.3_OperatorOverloading/stack.cc:18-24 | an empty stack with a fresh buffer of the requested size; the counter goes up by one |
| `StackDeepCopy.Stack.CopyOf` | 05.OOP/01.Classes/01.Stack/StackV0.3_OperatorOverloading/stack.cc:25-35 | the copy has the source's size and TOS and a fresh buffer. All `size` slots are equal to the source's, so the contents are equal. The source is untouched and the counter goes up by one |
| `StackDeepCopy.Stack.Assign` | 05.OOP/01.Classes/01.Stack/StackV0.3_OperatorOverloading/stack.cc:37-55 | self-assignment changes nothing. Otherwise the stack takes the source's size and TOS and gets a fresh buffer holding the source's elements 0..TOS. The source and the counter are untouched, and the result is this object |
| `StackDeepCopy.Stack.Pop` | 05.OOP/01.Classes/01.Stack/StackV0.3_OperatorOverloading/stack.cc:57-68 | when TOS >= 0, returns `stk[TOS]` and decrements TOS. When empty, returns -1 and TOS stays. The buffer is never written, and the result and new contents agree with `PopResult` |
| `StackDeepCopy.Stack.Push` | 05.OOP/01.Classes/01.Stack/StackV0.3_OperatorOverloading/stack.cc:69-79 | when TOS < size-1, writes the item at TOS+1, increments TOS and leaves every other slot alone. When full, the buffer and TOS are unchanged. The new contents agree with `PushResult`, and the invariant is kept |
| `StackDeepCopy.Stack.PrintStack` | 05.OOP/01.Classes/01.Stack/StackV0.3_OperatorOverloading/stack.cc:87-98 | the elements listed are exactly slots 0..TOS bottom to top (none when empty); read-only |
| `StackDeepCopy.Stack.Destroy` | 05.OOP/01.Classes/01.Stack/StackV0.3_OperatorOverloading/stack.cc:100-105 | the destructor takes one off the counter |
| `StackDeepCopy.DeepCopyDemo` | 05.OOP/01.Classes/01.Stack/StackV0.3_OperatorOverloading/stack.cc:109-137 | `main` pops 10, 9, 8, 7, 6. After `s2 = s1` both stacks print 1..5, and the counter is still 2 |
| `StackDeepCopy.AssignThenMutate` | 05.OOP/01.Classes/01.Stack/StackV0.3_OperatorOverloading/stack.cc:37-55 | after `s2 = s1` the buffers differ. A push on s1 changes only s1, and a pop on s2 sees s1's old contents |
| `StackDeepCopy.CopyThenPush` | 05.OOP/01.Classes/01.Stack/StackV0.3_OperatorOverloading/stack.cc:25-35 | after copy-construction, a push on the original leaves the copy's contents as they were when copied |
| `StackByRef.Stack.Default` | 05.OOP/01.Classes/01.Stack/StackV0.1_ByRef/stack.cc:11-17 | an empty stack with a fresh 10-slot buffer; the counter goes up by one |
| `StackByRef.Stack.Sized` | 05.OOP/01.Classes/01.Stack/StackV0.1_ByRef/stack.cc:18-24 | an empty stack with a fresh buffer of length `size`; the counter goes up by one |
| `StackByRef.Stack.Pop` | 05.OOP/01.Classes/01.Stack/StackV0.1_ByRef/stack.cc:27-38 | returns the top and decrements TOS when TOS >= 0; returns -1 with no change when empty |
| `StackByRef.Stack.Push` | 05.OOP/01.Classes/01.Stack/StackV0.1_ByRef/stack.cc:39-49 | succeeds exactly when TOS < size-1, writing slot TOS+1; otherwise TOS and the buffer are unchanged |
| `StackByRef.Stack.PrintStack` | 05.OOP/01.Classes/01.Stack/StackV0.1_ByRef/stack.cc:57-68 | lists exactly slots 0..TOS bottom to top; read-only |
| `StackByRef.Stack.Destroy` | 05.OOP/01.Classes/01.Stack/StackV0.1_ByRef/stack.cc:72-77 | the destructor takes one off the counter |
| `StackByRef.PrintStackObj` | 05.OOP/01.Classes/01.Stack/StackV0.1_ByRef/stack.cc:80-91 | through the `const stack&` it lists exactly the caller's slots 0..TOS. It makes no copy and changes neither the stack nor the counter |
| `StackByRef.ByRefDemo` | 05.OOP/01.Classes/01.Stack/StackV0.1_ByRef/stack.cc:94-120 | `main` makes 12 pushes into a size-10 stack, and only 1..10 are kept. Five pops return 10, 9, 8, 7, 6, `printStackObj` then lists 1..5, and the counter is 2 |
| `StackShallow.Stack.Default` | 05.OOP/01.Classes/01.Stack/StackV0.0_Shallow/stack.cc:11-17 | an empty stack of size 10; the counter goes up by one |
| `StackShallow.Stack.Sized` | 05.OOP/01.Classes/01.Stack/StackV0.0_Shallow/stack.cc:18-24 | an empty stack of the given size; the counter goes up by one |
| `StackShallow.Stack.Pop` | 05.OOP/01.Classes/01.Stack/StackV0.0_Shallow/stack.cc:26-37 | when non-empty, returns `stk[TOS]` and decrements TOS; when empty, returns -1 with no change; keeps -1 <= TOS <= size-1 |
| `StackShallow.Stack.Push` | 05.OOP/01.Classes/01.Stack/StackV0.0_Shallow/stack.cc:39-49 | when not full, writes at TOS+1 and increments TOS; when full nothing changes; keeps -1 <= TOS <= size-1 |
| `StackShallow.Stack.GetTos` | 05.OOP/01.Classes/01.Stack/StackV0.0_Shallow/stack.cc:57-60 | `getTOS` is a read of TOS. It lies in -1..size-1 and is one less than the number of stored elements |
| `StackShallow.Stack.GetStkSize` | 05.OOP/01.Classes/01.Stack/StackV0.0_Shallow/stack.cc:62-65 | `getStkSize` is a read of the size, which is positive and equal to the buffer's length |
| `StackShallow.Stack.PrintStack` | 00.OOP/01.Classes/01.Stack/StackV0.0_Shallow/stack.cc:67-78 | lists exactly slots 0..TOS bottom to top; read-only |
| `StackShallow.Stack.ShallowCopy` | 00.OOP/01.Classes/01.Stack/StackV0.0_Shallow/stack.cc:80 | the compiler-generated copy constructor behind the by-value parameter. It copies size and TOS, shares the same `stk` array, and leaves the counter alone |
| `StackShallow.Stack.ShallowAssign` | 00.OOP/01.Classes/01.Stack/StackV0.0_Shallow/stack.cc:128-129 | after the implicit `s2 = s1`, s2's size, TOS and buffer reference equal s1's; the counter is not touched |
| `StackShallow.Stack.Destroy` | 00.OOP/01.Classes/01.Stack/StackV0.0_Shallow/stack.cc:83-88 | the destructor takes one off the counter, for memberwise copies too |
| `StackShallow.PrintStackObj` | 00.OOP/01.Classes/01.Stack/StackV0.0_Shallow/stack.cc:93-104 | the by-value parameter aliases the caller's buffer and lists the caller's slots 0..TOS. Its destructor at the end of the call leaves the counter one lower |
| `StackShallow.ShallowDemo` | 05.OOP/01.Classes/01.Stack/StackV0.0_Shallow/stack.cc:105-136 | the guard `getTOS() < getStkSize()-1` is push's success condition, so 10 pushes are made and each succeeds. Five pops return 10..6 and leave TOS at 4. After `s2 = s1` the stacks share one buffer and both print 1..5, and the counter ends at 1 with two stacks in scope |
| `StackShallow.AssignThenOverwrite` | 00.OOP/01.Classes/01.Stack/StackV0.0_Shallow/stack.cc:128-129 | after the memberwise `s2 = s1`, a pop and a push on s1 rewrite the slot s2 reads as its top. The new value is visible through s2 |
| `ComplexClass.Complex.Default` | 00.OOP/01.Classes/00.ComplexClass/complexClass.cc:10-14 | `complex()` is 0 + 0i |
| `ComplexClass.Complex.FromNum` | 00.OOP/01.Classes/00.ComplexClass/complexClass.cc:17-21 | `complex(num)` has both parts equal to `num` |
| `ComplexClass.Complex.FromParts` | 00.OOP/01.Classes/00.ComplexClass/complexClass.cc:23 | `complex(r, i)` is r + ii |
| `ComplexClass.Complex.SetReal` | 00.OOP/01.Classes/00.ComplexClass/complexClass.cc:26 | sets the real part; the imaginary part is unchanged |
| `ComplexClass.Complex.SetImg` | 00.OOP/01.Classes/00.ComplexClass/complexClass.cc:27 | sets the imaginary part; the real part is unchanged |
| `ComplexClass.Complex.SetComplex` | 00.OOP/01.Classes/00.ComplexClass/complexClass.cc:28 | sets both parts |
| `ComplexClass.Complex.GetReal` | 00.OOP/01.Classes/00.ComplexClass/complexClass.cc:31 | a read of the real part |
| `ComplexClass.Complex.GetImg` | 00.OOP/01.Classes/00.ComplexClass/complexClass.cc:32 | a read of the imaginary part |
| `ComplexClass.Complex.PrintComplex` | 00.OOP/01.Classes/00.ComplexClass/complexClass.cc:35-45 | the if-chain always picks a line. Each format holds exactly on its region: re != 0 and im > 0; re != 0 and im == 0; im < 0; re == 0 and im >= 0. So 0 + 0i falls in the last case |
| `ComplexClass.Complex.AddComplex` | 00.OOP/01.Classes/00.ComplexClass/complexClass.cc:47-53 | returns a new object holding the componentwise sum; neither the receiver nor the argument changes |
| `ComplexClass.Complex.SubComplex` | 00.OOP/01.Classes/00.ComplexClass/complexClass.cc:55-61 | returns a new object holding the componentwise difference; neither operand changes |
| `ComplexClass.PlusCommutes` | 00.OOP/01.Classes/00.ComplexClass/complexClass.cc:50-51 | addition is commutative |
| `ComplexClass.ZeroIsIdentity` | 00.OOP/01.Classes/00.ComplexClass/complexClass.cc:47-53 | adding the default-constructed 0 + 0i on either side changes nothing |
| `ComplexClass.MinusSelfIsZero` | 00.OOP/01.Classes/00.ComplexClass/complexClass.cc:55-61 | sub(a, a) is 0 + 0i |
| `ComplexClass.MinusPlusCancel` | 00.OOP/01.Classes/00.ComplexClass/complexClass.cc:47-61 | add(sub(a, b), b) = a and sub(add(a, b), b) = a |
| `ComplexClass.ComplexDemo` | 00.OOP/01.Classes/00.ComplexClass/complexClass.cc:75-99 | `main` prints c1, c2 and c3 as "r + ii". `subComplex((7,8),(7,8))` is 0 + 0i, which prints as "0i" |
| `LibSystem.Book.constructor` | 05.OOP/03.OOP_Project/libSystem.cc:21-22 | a new book keeps the given title, author and ID and is available |
| `LibSystem.Book.CheckAvailability` | 05.OOP/03.OOP_Project/libSystem.cc:27 | returns the availability flag and changes nothing |
| `LibSystem.Book.BorrowItem` | 05.OOP/03.OOP_Project/libSystem.cc:28-35 | the book is unavailable afterwards. The success branch is taken exactly when it was available, and an unavailable book is left as it was. Title, author and ID are constants |
| `LibSystem.Book.ReturnItem` | 05.OOP/03.OOP_Project/libSystem.cc:36-39 | the book is available afterwards, whatever it was before, so a second return changes nothing |
| `LibSystem.User.constructor` | 05.OOP/03.OOP_Project/libSystem.cc:48 | a user keeps the given name and ID; `Student` and `Teacher` are recorded as a role |
| `LibSystem.Library.constructor` | 05.OOP/03.OOP_Project/libSystem.cc:74-78 | a new library holds no books and no users |
| `LibSystem.Library.AddBook` | 05.OOP/03.OOP_Project/libSystem.cc:79-81 | appends a copy of the book at the end; the earlier books are unchanged and in order |
| `LibSystem.Library.AddUser` | 05.OOP/03.OOP_Project/libSystem.cc:82-84 | appends the user reference at the end; the earlier users are unchanged and in order |
| `LibSystem.LibraryDemo` | 05.OOP/03.OOP_Project/libSystem.cc:99-108 | `main` leaves two available books in insertion order, and a student (ID 1) and a teacher (ID 2) in that order |
| `LibSystem.BorrowTwiceReturnTwice` | 05.OOP/03.OOP_Project/libSystem.cc:28-39 | the first borrow succeeds and a second is refused, and after two returns the book is available. The book's details come back as they were, and the library's copy made before the borrows is unaffected |

## Left out

- Console output: no message text is modelled. This covers "Stack is Full/Empty", the lines of `printStack`, `printComplex` and `displayInfo`, and the borrow and return messages. The model keeps only the listed elements, the chosen `Format`, or a flag for which message is chosen.
- Memory management: `new[]`/`delete[]`, the destructors freeing `stk`, and the leak and double free that follow from the shallow copy are not modelled. Neither is `~Library` deleting its users. Dafny's heap is garbage-collected. `Destroy` models only the counter decrement, and the demos do not run the destructors at the end of `main`.
- The static `stk_Num` is an explicit `InstanceCounter` object. Constructors and `Destroy` take it as a parameter, and each program's demo makes its own.
- StackDeepCopy.Stack.Sized: requires `size > 0`; the source does not check the size. With size 0, `new int[0]` is a valid empty array and the stack is at once full and empty: every `push` takes the full branch (-1 < -1 is false) and every `pop` returns -1. A negative size makes `new` throw `std::bad_array_new_length`. The model excludes both cases.
- StackByRef.Stack.Sized: requires `size > 0`; the source does not check the size. With size 0, `new int[0]` is a valid empty array and the stack is at once full and empty: every `push` takes the full branch (-1 < -1 is false) and every `pop` returns -1. A negative size makes `new` throw `std::bad_array_new_length`. The model excludes both cases.
- StackShallow.Stack.Sized: requires `size > 0`; the source does not check the size. With size 0, `new int[0]` is a valid empty array and the stack is at once full and empty: every `push` takes the full branch (-1 < -1 is false) and every `pop` returns -1. A negative size makes `new` throw `std::bad_array_new_length`. The model excludes both cases.
- Uninitialised slots: the slots above TOS start uninitialised in C++. The model proves nothing about their values. The copy constructor copies them as they are.
- ComplexClass.Complex.AddComplex: the sum is over unbounded integers. Overflow of C++ `int` is undefined behaviour and is not modelled. The same holds for `SubComplex` and the lemmas about `Plus` and `Minus`.
- Virtual dispatch: there is no `Borrowable` interface and no `User`/`Student`/`Teacher` hierarchy. Their only behaviour is `displayInfo` printing. A `Role` tag on `User` records which constructor was used.
- 05.OOP/genEx.cc (`GPIO`/`LED`, print only) is not part of this model. Neither is 00.Variables/examples.cc (reads stdin, no logic).
- The headers under 05.OOP/03.OOP_Project/LibManagmentSys/include/ only declare functions, and their bodies are not part of this model. The same goes for that directory's main.cc.
