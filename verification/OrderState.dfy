/** The order transition table of internal/features/order/domain/state.go and the
    compare-and-set that applies it to a row. */
module OrderState {
  datatype Status =
    | AwaitingPayment
    | PaymentProcessing
    | Paid
    | Processing
    | Shipped
    | Delivered
    | Cancelled
    | Expired
    | Refunded
    | FulfillmentFailed

  /** One entry of the table: the status it sets, the statuses it accepts, its stock effect. */
  datatype Transition =
    | ToAwaitingPayment
    | ToPaymentProcessing
    | ToPaymentAttempt
    | ToPaid
    | ToProcessing
    | ToShipped
    | ToDelivered
    | ToFulfillmentFailedAfterCharge
    | ToFulfillmentFailedCompensating
    | ToCancelled
    | ToExpired
    | ToRefunded
  {
    function To(): Status {
      match this
      case ToAwaitingPayment => AwaitingPayment
      case ToPaymentProcessing => PaymentProcessing
      case ToPaymentAttempt => PaymentProcessing
      case ToPaid => Paid
      case ToProcessing => Processing
      case ToShipped => Shipped
      case ToDelivered => Delivered
      case ToFulfillmentFailedAfterCharge => FulfillmentFailed
      case ToFulfillmentFailedCompensating => FulfillmentFailed
      case ToCancelled => Cancelled
      case ToExpired => Expired
      case ToRefunded => Refunded
    }

    predicate From(s: Status) {
      match this
      case ToAwaitingPayment => s.PaymentProcessing?
      case ToPaymentProcessing => s.AwaitingPayment? || s.PaymentProcessing?
      case ToPaymentAttempt => s.AwaitingPayment?
      case ToPaid => s.AwaitingPayment? || s.PaymentProcessing?
      case ToProcessing => s.Paid?
      case ToShipped => s.Paid? || s.Processing?
      case ToDelivered => s.Shipped?
      case ToFulfillmentFailedAfterCharge => s.Paid? || s.Cancelled? || s.Expired?
      case ToFulfillmentFailedCompensating =>
        s.AwaitingPayment? || s.PaymentProcessing? || s.Paid? || s.Cancelled? || s.Expired?
      case ToCancelled => s.AwaitingPayment? || s.PaymentProcessing? || s.FulfillmentFailed?
      case ToExpired => s.AwaitingPayment?
      case ToRefunded => s.Paid? || s.Processing? || s.Shipped? || s.Delivered? || s.FulfillmentFailed?
    }

    predicate DeductsStock() {
      ToPaid?
    }

    predicate ReversesStock() {
      ToCancelled? || ToExpired? || ToRefunded?
    }
  }

  /** The transitions that ChangeStatus, the payment claim, its release and the housekeeping
      sweep apply on their own, outside any other write. */
  predicate Plain(t: Transition) {
    t.ToAwaitingPayment? || t.ToPaymentProcessing? || t.ToPaymentAttempt? ||
    t.ToProcessing? || t.ToShipped? || t.ToDelivered?
  }

  predicate Payable(s: Status) {
    s == AwaitingPayment || s == PaymentProcessing
  }

  predicate Dispatched(s: Status) {
    s == Shipped || s == Delivered
  }

  /** The part of an order row that Apply reads and writes. */
  datatype Progress = Progress(status: Status, deducted: bool, reversed: bool)

  /** UPDATE orders SET status, stock_deducted OR .., stock_reversed OR .. WHERE status = ANY(from). */
  function Applied(r: Progress, t: Transition): Progress {
    Progress(t.To(), r.deducted || t.DeductsStock(), r.reversed || t.ReversesStock())
  }

  const FRESH := Progress(AwaitingPayment, false, false)

  /** The flag pairs each status admits. */
  predicate Fits(r: Progress) {
    match r.status
    case AwaitingPayment | PaymentProcessing => !r.deducted && !r.reversed
    case Paid | Processing | Shipped | Delivered => r.deducted && !r.reversed
    case Expired => !r.deducted && r.reversed
    case Cancelled | Refunded => r.reversed
    case FulfillmentFailed => true
  }

  /** A path of accepted compare-and-sets, in table entries, from one row value to another. */
  predicate Path(r: Progress, ts: seq<Transition>, r': Progress)
    decreases |ts|
  {
    if ts == [] then r == r'
    else ts[0].From(r.status) && Path(Applied(r, ts[0]), ts[1..], r')
  }

  ghost predicate Reached(r: Progress) {
    exists ts :: Path(FRESH, ts, r)
  }

  function Rank(s: Status): nat {
    match s
    case AwaitingPayment | PaymentProcessing => 0
    case Paid => 1
    case Processing => 2
    case Shipped => 3
    case Delivered | Expired => 4
    case Cancelled | FulfillmentFailed => 5
    case Refunded => 6
  }

  /** The statuses one transition leads to, as the state graph of the design lists them. */
  function Successors(s: Status): set<Status> {
    match s
    case AwaitingPayment => {Cancelled, Expired, FulfillmentFailed, Paid, PaymentProcessing}
    case PaymentProcessing => {AwaitingPayment, Cancelled, FulfillmentFailed, Paid, PaymentProcessing}
    case Paid => {FulfillmentFailed, Processing, Refunded, Shipped}
    case Processing => {Refunded, Shipped}
    case Shipped => {Delivered, Refunded}
    case Delivered => {Refunded}
    case Cancelled => {FulfillmentFailed}
    case Expired => {FulfillmentFailed}
    case FulfillmentFailed => {Cancelled, Refunded}
    case Refunded => {}
  }

  /** The transitions are exactly that graph. */
  lemma TableIsGraph(a: Status, b: Status)
    ensures b in Successors(a) <==> exists t: Transition :: t.From(a) && t.To() == b
  {
    if b in Successors(a) {
      var t := match b
        case AwaitingPayment => ToAwaitingPayment
        case PaymentProcessing => ToPaymentProcessing
        case Paid => ToPaid
        case Processing => ToProcessing
        case Shipped => ToShipped
        case Delivered => ToDelivered
        case Cancelled => ToCancelled
        case Expired => ToExpired
        case Refunded => ToRefunded
        case FulfillmentFailed => if a == AwaitingPayment || a == PaymentProcessing then ToFulfillmentFailedCompensating
                                  else ToFulfillmentFailedAfterCharge;
      assert t.From(a) && t.To() == b;
    }
  }

  /** Transitions that share a target differ only as the design says: a payment attempt refuses an
      order already being charged, and failing after a charge refuses an order never charged. */
  lemma NarrowerTransitions(s: Status)
    ensures ToPaymentAttempt.From(s) <==> ToPaymentProcessing.From(s) && !s.PaymentProcessing?
    ensures ToFulfillmentFailedAfterCharge.From(s) <==>
            ToFulfillmentFailedCompensating.From(s) && !s.AwaitingPayment? && !s.PaymentProcessing?
  {
  }

  lemma AppliedFits(r: Progress, t: Transition)
    requires t.From(r.status) && Fits(r)
    ensures Fits(Applied(r, t))
    ensures r.deducted ==> Applied(r, t).deducted
    ensures r.reversed ==> Applied(r, t).reversed
    ensures Payable(t.To()) ==> Payable(r.status)
    ensures t.DeductsStock() ==> !r.deducted && !r.reversed
    ensures Rank(r.status) <= Rank(t.To())
    ensures Rank(r.status) == Rank(t.To()) ==>
              (Payable(r.status) && Payable(t.To())) ||
              (t.To() in {Cancelled, FulfillmentFailed} && r.status in {Cancelled, FulfillmentFailed})
  {
  }

  lemma {:induction false} PathKeepsFit(r: Progress, ts: seq<Transition>, r': Progress)
    requires Fits(r) && Path(r, ts, r')
    ensures Fits(r') && Rank(r.status) <= Rank(r'.status)
    ensures r.deducted ==> r'.deducted
    ensures r.reversed ==> r'.reversed
    ensures Payable(r'.status) ==> Payable(r.status)
    decreases |ts|
  {
    if ts != [] {
      AppliedFits(r, ts[0]);
      PathKeepsFit(Applied(r, ts[0]), ts[1..], r');
    }
  }

  /** A path that returns to its first status never left one of the two cycles of the graph:
      the payment attempt, or a cancelled order charged late. */
  lemma {:induction false} CyclesAreConfined(r: Progress, ts: seq<Transition>, r': Progress, k: nat)
    requires Fits(r) && Path(r, ts, r') && r.status == r'.status && k < |ts|
    ensures (Payable(r.status) && Payable(ts[k].To())) ||
            (r.status in {Cancelled, FulfillmentFailed} && ts[k].To() in {Cancelled, FulfillmentFailed})
  {
    ConfinedFrom(r, ts, r', k, Rank(r'.status));
  }

  lemma {:induction false} ConfinedFrom(r: Progress, ts: seq<Transition>, r': Progress, k: nat, n: nat)
    requires Fits(r) && Path(r, ts, r') && Rank(r.status) == Rank(r'.status) == n && k < |ts|
    ensures (Payable(r.status) && Payable(ts[k].To())) ||
            (r.status in {Cancelled, FulfillmentFailed} && ts[k].To() in {Cancelled, FulfillmentFailed})
    decreases |ts|
  {
    AppliedFits(r, ts[0]);
    PathKeepsFit(Applied(r, ts[0]), ts[1..], r');
    if k > 0 {
      ConfinedFrom(Applied(r, ts[0]), ts[1..], r', k - 1, n);
    }
  }

  /** `Fits` is exact: a row value is reached from a freshly placed order by some run of the
      table if and only if its status admits its flag pair. */
  lemma FlagsReachedExactly(r: Progress)
    ensures Fits(r) <==> Reached(r)
  {
    if Fits(r) {
      WitnessReaches(r);
    } else if ts :| Path(FRESH, ts, r) {
      PathKeepsFit(FRESH, ts, r);
    }
  }

  function Witness(r: Progress): seq<Transition> {
    match r.status
    case AwaitingPayment => []
    case PaymentProcessing => [ToPaymentAttempt]
    case Paid => [ToPaid]
    case Processing => [ToPaid, ToProcessing]
    case Shipped => [ToPaid, ToShipped]
    case Delivered => [ToPaid, ToShipped, ToDelivered]
    case Expired => [ToExpired]
    case Cancelled =>
      if r.deducted then [ToPaid, ToFulfillmentFailedAfterCharge, ToCancelled] else [ToCancelled]
    case Refunded =>
      if r.deducted then [ToPaid, ToRefunded] else [ToFulfillmentFailedCompensating, ToRefunded]
    case FulfillmentFailed =>
      if r.reversed then
        if r.deducted
        then [ToPaid, ToFulfillmentFailedAfterCharge, ToCancelled, ToFulfillmentFailedAfterCharge]
        else [ToCancelled, ToFulfillmentFailedAfterCharge]
      else if r.deducted then [ToPaid, ToFulfillmentFailedAfterCharge]
      else [ToFulfillmentFailedCompensating]
  }

  lemma WitnessReaches(r: Progress)
    requires Fits(r)
    ensures Path(FRESH, Witness(r), r)
  {
    var ts := Witness(r);
    if |ts| > 0 {
      var r1 := Applied(FRESH, ts[0]);
      if |ts| > 1 {
        var r2 := Applied(r1, ts[1]);
        assert ts[1..][0] == ts[1];
        if |ts| > 2 {
          var r3 := Applied(r2, ts[2]);
          assert ts[1..][1..] == ts[2..] && ts[2..][0] == ts[2];
          if |ts| > 3 {
            assert ts[2..][1..] == ts[3..] && ts[3..][0] == ts[3];
            assert Path(Applied(r3, ts[3]), ts[3..][1..], r);
            assert Path(r3, ts[3..], r);
          }
          assert Path(r3, ts[2..][1..], r);
          assert Path(r2, ts[2..], r);
        }
        assert Path(r2, ts[1..][1..], r);
      }
      assert Path(r1, ts[1..], r);
    }
  }
}
