/** The Strategy pattern: a payment context delegating to a replaceable
    payment method. */
module Payment {
  import opened Output

  /** How Java renders a double in string concatenation (Double.toString);
      the model leaves it as a parameter. */
  type DoubleText = real -> string

  const PaidPrefix := "Pago R$"

  /** The two payment strategies; both are stateless. */
  datatype PaymentStrategy = CreditCard | PayPal
  {
    function Label(): string
    {
      match this
      case CreditCard => "Cartão de Crédito"
      case PayPal => "PayPal"
    }

    /** Prints the confirmation; the amount is not checked for sign or range. */
    method Pay(out: Console, amount: real, show: DoubleText)
      modifies out
      ensures out.lines == old(out.lines) + [PaymentLine(this, show(amount))]
    {
      out.PrintLine(PaidPrefix + show(amount) + Suffix(this));
    }
  }

  function Suffix(s: PaymentStrategy): string
  {
    " via " + s.Label()
  }

  /** The confirmation line strategy `s` prints for an amount rendered as
      `amountText`. */
  function PaymentLine(s: PaymentStrategy, amountText: string): string
  {
    PaidPrefix + amountText + Suffix(s)
  }

  /** Recovers the strategy and the rendered amount from a confirmation line. */
  function ParsePaymentLine(line: string): Option<(PaymentStrategy, string)>
  {
    if !StartsWith(line, PaidPrefix) then None
    else if |line| >= |PaidPrefix| + |Suffix(PayPal)| && EndsWith(line, Suffix(PayPal)) then
      Some((PayPal, line[|PaidPrefix|..|line| - |Suffix(PayPal)|]))
    else if |line| >= |PaidPrefix| + |Suffix(CreditCard)| && EndsWith(line, Suffix(CreditCard)) then
      Some((CreditCard, line[|PaidPrefix|..|line| - |Suffix(CreditCard)|]))
    else None
  }

  lemma PaymentLineSplits(s: PaymentStrategy, amountText: string)
    ensures var l := PaymentLine(s, amountText);
      |l| == |PaidPrefix| + |amountText| + |Suffix(s)| &&
      l[..|PaidPrefix|] == PaidPrefix &&
      l[|PaidPrefix|..|l| - |Suffix(s)|] == amountText &&
      l[|l| - |Suffix(s)|..] == Suffix(s) &&
      l[|l| - 1] == Suffix(s)[|Suffix(s)| - 1]
  {
  }

  /** A confirmation line names its strategy by its label and carries the
      rendered amount unchanged; no other line reads as that confirmation. */
  lemma PaymentLineRoundTrip(s: PaymentStrategy, amountText: string, line: string)
    ensures ParsePaymentLine(PaymentLine(s, amountText)) == Some((s, amountText))
    ensures ParsePaymentLine(line) == Some((s, amountText)) <==> line == PaymentLine(s, amountText)
  {
    PaymentLineSplits(s, amountText);
    var l := PaymentLine(s, amountText);
    if s == CreditCard {
      // the two labels end in different letters
      assert !EndsWith(l, Suffix(PayPal)) by {
        assert l[|l| - 1] == 'o';
      }
    }
    if ParsePaymentLine(line) == Some((s, amountText)) {
      var m := line[|PaidPrefix|..|line| - |Suffix(s)|];
      assert line == line[..|PaidPrefix|] + m + line[|line| - |Suffix(s)|..];
    }
  }

  /** Holds the payment strategy currently in force. */
  class PaymentContext {
    var strategy: PaymentStrategy

    constructor (strategy: PaymentStrategy)
      ensures this.strategy == strategy
    {
      this.strategy := strategy;
    }

    /** Replaces the strategy; nothing else changes. */
    method SetStrategy(strategy: PaymentStrategy)
      modifies this
      ensures this.strategy == strategy
    {
      this.strategy := strategy;
    }

    /** Delegates to the strategy current at the time of the call: exactly
        one confirmation line, with that strategy's label and the amount as
        given, and the context itself unchanged. */
    method Pay(out: Console, amount: real, show: DoubleText)
      modifies out
      ensures out.lines == old(out.lines) + [PaymentLine(strategy, show(amount))]
    {
      strategy.Pay(out, amount, show);
    }
  }
}
