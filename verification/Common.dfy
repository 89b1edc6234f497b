/** Types shared by every module: optional values, results, error kinds and money. */
module Common {
  datatype Option<+T> = None | Some(value: T)

  datatype Result<+T> = Ok(value: T) | Err(error: Error)

  /** The error kinds a caller can tell apart (internal/platform/errs, internal/apperror).
      `DatabaseError` is any error the database itself raises: a violated check or an
      aborted transaction. */
  datatype Error =
    | NotFound
    | Conflict
    | BadRequest
    | CartEmpty
    | InsufficientStock
    | CouponExhausted
    | AmountMismatch
    | AlreadyFinalized
    | NotRefundable
    | OrderCharging
    | OrderNotPayable
    | PaymentDeclined
    | GatewayFailed
    | DatabaseError

  /** internal/money/money.go. Amounts are unbounded here; the source's are int64. */
  datatype Money = Money(amount: int, currency: string) {
    function Add(other: Money): Result<Money> {
      if currency != other.currency then Err(BadRequest) else Ok(Money(amount + other.amount, currency))
    }

    function MulQty(qty: int): Money {
      Money(amount * qty, currency)
    }
  }
}
