/** The pieces of the JVM that the benchmark's logic leans on: object identity,
    nullable references, the two exceptions the code can raise, and the atomic
    compare-and-set of `AtomicReference`. */
module Runtime {

  /** An object reference. Two references are identical (Kotlin's `===`)
      exactly when their handles are equal; `Object()` yields a handle that no
      earlier reference of the same owner uses. */
  type Handle = nat

  /** A Kotlin nullable value `T?`: `None` is `null`. */
  datatype Option<+T> = None | Some(value: T)

  /** The exceptions the modelled code can raise. */
  datatype Exception =
    | NullPointerException   // `x!!` on a null `x`
    | ArithmeticException    // `Long` division by zero

  /** A call that either returns a value or throws. */
  datatype Outcome<+T> = Returned(value: T) | Threw(exception: Exception)

  /** The result of one `compareAndSet`: whether it swapped, and the cell afterwards. */
  datatype Cas<T> = Cas(succeeded: bool, cell: T)

  /** `AtomicReference.compareAndSet(expected, update)` on a cell holding `cell`,
      as one atomic step. The comparison is by identity, which for handles and
      `Option<Handle>` is equality. */
  function CompareAndSet<T(==)>(cell: T, expected: T, update: T): (r: Cas<T>)
  {
    if cell == expected then Cas(true, update) else Cas(false, cell)
  }
}
