/** Failure-compatible wrappers and the value types every other module shares. */
module Wrappers {

  datatype Option<+T> = None | Some(value: T)

  datatype Result<+T, +E> = Success(value: T) | Failure(error: E)

  /** One UTF-16 code unit: what a JavaScript string is a sequence of. */
  newtype CodeUnit = x: int | 0 <= x < 0x1_0000

  type Text = seq<CodeUnit>

  /** A calendar day as the program writes it: year, month and day of the month. */
  datatype Date = Date(year: int, month: int, day: int)

  /** One line of a statement, as the transactions table stores it. */
  datatype Transaction = Transaction(
    line: nat,
    date: Date,
    merchantRaw: Text,
    merchantName: Text,
    amount: int,
    category: Text,
    subcategory: Option<Text>)
}
