/**
 * The records the core moves around. The core never looks inside a
 * transaction; it only decides which lists of them are kept and shown.
 */
module Types {

  datatype Employee = Employee(id: string, firstName: string, lastName: string)

  /** `amount` is a JavaScript number in the application; the core never reads it. */
  datatype Transaction = Transaction(
    id: string,
    amount: int,
    employee: Employee,
    merchant: string,
    date: string,
    approved: bool)

  /** The "All Employees" selector entry: not a real roster member, told apart by its id. */
  const EmptyEmployee: Employee := Employee("", "All", "Employees")
}
