/** The request, state and market vocabulary shared by the journal, the risk policy and the venue. */
module Domain {
  import opened Wrappers

  datatype Side = Buy | Sell

  datatype TimeInForce = Gtc | Gtd | Fok | Fak

  datatype ServiceState = Starting | Reconciling | Ready | Degraded | Halted | ShuttingDown

  datatype IntentState =
    | Received | Validating | Rejected | Approved | Preparing | Prepared
    | Submitting | Submitted | Unknown

  datatype OrderState =
    | Prepared | Submitting | Live | PartiallyFilled | Filled | CancelPending
    | Cancelled | Expired | Rejected | Unknown
  {
    /** The states whose remaining quantity the risk queries still count. */
    predicate Active() {
      Prepared? || Submitting? || Live? || PartiallyFilled? || CancelPending? || Unknown?
    }

    predicate Terminal() {
      Filled? || Cancelled? || Expired? || Rejected?
    }

    /** The states in which an order rests at the venue as far as the journal knows. */
    predicate Open() {
      Live? || PartiallyFilled? || CancelPending?
    }
  }

  function Min(a: real, b: real): real {
    if a <= b then a else b
  }

  function Max(a: real, b: real): real {
    if a >= b then a else b
  }

  function Abs(a: real): real {
    if a < 0.0 then -a else a
  }

  /** What shares are worth at a price. Named, as are fees, so that proofs need not multiply. */
  function QuoteOf(shares: real, price: real): real {
    shares * price
  }

  function FeeOf(quote: real, feeRate: real): real {
    quote * feeRate
  }

  /** `quantity` and `price` are None when the decimal string does not parse. */
  datatype Request = Request(
    conditionId: string,
    tokenId: string,
    side: Side,
    timeInForce: TimeInForce,
    quantity: Option<real>,
    price: Option<real>)
  {
    predicate Immediate() {
      timeInForce.Fok? || timeInForce.Fak?
    }

    function QuantityDecimal(): Option<real> {
      if quantity.Some? && quantity.value > 0.0 then quantity else None
    }

    function ProtectionPrice(): Option<real> {
      if price.Some? && 0.0 < price.value < 1.0 then price else None
    }
  }

  datatype MarketRules = MarketRules(
    active: bool,
    closed: bool,
    acceptingOrders: bool,
    tickSize: real,
    makerFeeRate: real,
    takerFeeRate: real)
  {
    function LargerFee(): real {
      Max(makerFeeRate, takerFeeRate)
    }
  }

  datatype PriceLevel = PriceLevel(price: real, size: real)

  datatype OrderBook = OrderBook(bids: seq<PriceLevel>, asks: seq<PriceLevel>)
}
