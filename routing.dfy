/**
 * The venue capability (quote and swap replies, classified failures) and
 * the best-execution routing choice between the two venues.
 */
module Routing {

  /** The two liquidity venues. */
  datatype Dex = Raydium | Meteora

  /** The name stored in an execution's `chosen_dex` column. */
  function DexName(d: Dex): string
  {
    match d
    case Raydium => "raydium"
    case Meteora => "meteora"
  }

  /** The venue a stored `chosen_dex` value selects: "raydium" picks Raydium,
      anything else Meteora. */
  function DexFromName(name: string): (d: Dex)
    ensures d == Raydium <==> name == "raydium"
  {
    if name == "raydium" then Raydium else Meteora
  }

  lemma DexNameRoundTrip(d: Dex)
    ensures DexFromName(DexName(d)) == d
  {
  }

  /** A quote: price of one input unit and the fee rate. */
  datatype Quote = Quote(price: real, fee: real)

  /** The outcome of a successful swap. */
  datatype SwapResult = SwapResult(txHash: string, executedPrice: real)

  /** The two kinds of error: `Fatal` is a `FatalError` (a business-rule
      violation); `Retriable` is every other error. */
  datatype Failure = Fatal(message: string) | Retriable(message: string)

  /** What a venue call gives back: a value, or a classified error. */
  datatype Reply<T> = Ok(value: T) | Err(failure: Failure)

  /** The human-readable justification of a routing decision; the formatted
      number in the source's text is kept as the net price it formats. */
  datatype Justification = BetterNetPrice(dex: Dex, netPrice: real)

  /** The routing decision persisted on an execution and announced with the
      `building` event. */
  datatype RoutingDecision = RoutingDecision(
    dex: Dex,
    raydiumPrice: real,
    meteoraPrice: real,
    raydiumFee: real,
    meteoraFee: real,
    reason: Justification)

  /** Price after the venue's fee. */
  function NetPrice(q: Quote): real
  {
    q.price * (1.0 - q.fee)
  }

  /** The quote of the venue a decision names. */
  function QuoteOf(d: Dex, raydium: Quote, meteora: Quote): Quote
  {
    if d == Raydium then raydium else meteora
  }

  /** Picks Raydium only when its net price is strictly greater, so ties go to
      Meteora, and records both quotes exactly as given. */
  function ChooseRoute(raydium: Quote, meteora: Quote): (d: RoutingDecision)
    ensures d.dex == Raydium <==> NetPrice(raydium) > NetPrice(meteora)
    ensures d.raydiumPrice == raydium.price && d.raydiumFee == raydium.fee
    ensures d.meteoraPrice == meteora.price && d.meteoraFee == meteora.fee
    ensures d.reason == BetterNetPrice(d.dex, NetPrice(QuoteOf(d.dex, raydium, meteora)))
  {
    var raydiumNet := NetPrice(raydium);
    var meteoraNet := NetPrice(meteora);
    var best := if raydiumNet > meteoraNet then Raydium else Meteora;
    RoutingDecision(best, raydium.price, meteora.price, raydium.fee, meteora.fee,
                    BetterNetPrice(best, if best == Raydium then raydiumNet else meteoraNet))
  }

  /** The chosen venue's net price is at least the other venue's. */
  lemma ChoiceIsBest(raydium: Quote, meteora: Quote)
    ensures var d := ChooseRoute(raydium, meteora);
      NetPrice(QuoteOf(d.dex, raydium, meteora)) >= NetPrice(raydium)
      && NetPrice(QuoteOf(d.dex, raydium, meteora)) >= NetPrice(meteora)
  {
  }

  /** Equal net prices pick Meteora. */
  lemma TieGoesToMeteora(raydium: Quote, meteora: Quote)
    requires NetPrice(raydium) == NetPrice(meteora)
    ensures ChooseRoute(raydium, meteora).dex == Meteora
  {
  }

  /** Raydium at 100 with fee 0.003 (net 99.7) beats Meteora at 99.5 with
      fee 0.002 (net 99.301); both raw prices and fees are recorded. */
  lemma FeesDecideTheRoute()
    ensures NetPrice(Quote(100.0, 0.003)) == 99.7
    ensures NetPrice(Quote(99.5, 0.002)) == 99.301
    ensures ChooseRoute(Quote(100.0, 0.003), Quote(99.5, 0.002))
         == RoutingDecision(Raydium, 100.0, 99.5, 0.003, 0.002, BetterNetPrice(Raydium, 99.7))
  {
  }
}
