/** std::promise as a write-once cell whose future can be taken once. */
module Promises {
  import opened Faults

  datatype Cell<+T> = Unset | Value(value: T) | Failed(fault: Fault)

  datatype Promise<+T> = Promise(cell: Cell<T>, retrieved: bool)

  function Fresh<T>(): Promise<T> {
    Promise(Unset, false)
  }

  /** set_value and set_exception: the second write throws and changes nothing. */
  function Write<T>(p: Promise<T>, c: Cell<T>): (r: Result<Promise<T>>)
    requires !c.Unset?
  {
    if p.cell.Unset? then Ok(p.(cell := c)) else Err(PromiseAlreadySatisfied)
  }

  function TakeFuture<T>(p: Promise<T>): (r: Result<Promise<T>>) {
    if p.retrieved then Err(FutureAlreadyRetrieved) else Ok(p.(retrieved := true))
  }
}
