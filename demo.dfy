/** The demo driver as one scenario over the output, and the fact that the
    three components' lines cannot be mistaken for one another. */
module Demo {
  import opened Output
  import opened Singleton
  import opened Factory
  import opened Payment

  /** How Java prints a boolean in string concatenation. */
  function BoolText(b: bool): string
  {
    if b then "true" else "false"
  }

  /** The lines the driver prints, given how the two amounts are rendered. */
  function Transcript(amount1: string, amount2: string): seq<string>
  {
    [ "=== Basic Patterns Demo ===",
      "Same instance? " + BoolText(true),
      LogLine("Teste de log via Singleton"),
      NotifyLine(Email, "Olá por Email!"),
      NotifyLine(SMS, "Olá por SMS!"),
      PaymentLine(CreditCard, amount1),
      PaymentLine(PayPal, amount2) ]
  }

  lemma LogLiteral()
    ensures "Same instance? " + BoolText(true) == "Same instance? true"
    ensures LogLine("Teste de log via Singleton") == "[LOG] Teste de log via Singleton"
  {
  }

  lemma NotifyLiterals()
    ensures NotifyLine(Email, "Olá por Email!") == "[EMAIL] Olá por Email!"
    ensures NotifyLine(SMS, "Olá por SMS!") == "[SMS] Olá por SMS!"
  {
  }

  lemma PaymentLiterals()
    ensures PaymentLine(CreditCard, "150.0") == "Pago R$150.0 via Cartão de Crédito"
    ensures PaymentLine(PayPal, "200.0") == "Pago R$200.0 via PayPal"
  {
  }

  /** With Java's renderings of 150.0 and 200.0 the transcript is the seven
      lines `main` prints. */
  lemma TranscriptLiteral(show: DoubleText)
    requires show(150.0) == "150.0" && show(200.0) == "200.0"
    ensures Transcript(show(150.0), show(200.0)) ==
      [ "=== Basic Patterns Demo ===",
        "Same instance? true",
        "[LOG] Teste de log via Singleton",
        "[EMAIL] Olá por Email!",
        "[SMS] Olá por SMS!",
        "Pago R$150.0 via Cartão de Crédito",
        "Pago R$200.0 via PayPal" ]
  {
    LogLiteral();
    NotifyLiterals();
    PaymentLiterals();
    var t := Transcript(show(150.0), show(200.0));
    assert t[5] == "Pago R$150.0 via Cartão de Crédito";
    assert t[6] == "Pago R$200.0 via PayPal";
  }

  /** The Singleton part of the driver: the two getInstance calls give the
      same reference, whatever the registry held before. */
  method DemoSingleton(out: Console, registry: LoggerRegistry)
    requires registry.Valid()
    modifies out, registry
    ensures registry.Valid() && registry.constructed == 1
    ensures out.lines == old(out.lines) +
      ["Same instance? " + BoolText(true), LogLine("Teste de log via Singleton")]
  {
    var logger1 := registry.GetInstance();
    var logger2 := registry.GetInstance();
    out.PrintLine("Same instance? " + BoolText(logger1 == logger2));
    logger1.Log(out, "Teste de log via Singleton");
  }

  /** The Factory Method part: both tags are accepted, so nothing is thrown. */
  method DemoFactory(out: Console)
    modifies out
    ensures out.lines == old(out.lines) +
      [NotifyLine(Email, "Olá por Email!"), NotifyLine(SMS, "Olá por SMS!")]
  {
    CreateEmailIff("EMAIL");
    CreateSmsIff("SMS");
    var email := Create("EMAIL").value;
    var sms := Create("SMS").value;
    email.Notify(out, "Olá por Email!");
    sms.Notify(out, "Olá por SMS!");
  }

  /** The Strategy part: the payment before setStrategy uses the old strategy,
      the one after it the new one. */
  method DemoStrategy(out: Console, show: DoubleText)
    modifies out
    ensures out.lines == old(out.lines) +
      [PaymentLine(CreditCard, show(150.0)), PaymentLine(PayPal, show(200.0))]
  {
    var context := new PaymentContext(CreditCard);
    context.Pay(out, 150.0, show);
    context.SetStrategy(PayPal);
    context.Pay(out, 200.0, show);
  }

  /** The whole driver, from any state of the logger registry. */
  method RunDemo(out: Console, registry: LoggerRegistry, show: DoubleText)
    requires registry.Valid()
    modifies out, registry
    ensures registry.Valid() && registry.constructed == 1
    ensures out.lines == old(out.lines) + Transcript(show(150.0), show(200.0))
  {
    out.PrintLine("=== Basic Patterns Demo ===");
    DemoSingleton(out, registry);
    DemoFactory(out);
    DemoStrategy(out, show);
  }

  lemma PrefixesDiffer(line: string, p: string, q: string, k: nat)
    requires k < |p| && k < |q| && p[k] != q[k]
    requires StartsWith(line, p)
    ensures !StartsWith(line, q)
  {
    assert line[k] == p[k];
  }

  /** Each kind of line is recognised only by its own parser: a log line is
      never read as a notification or a payment confirmation, and so on. */
  lemma LineKindsDisjoint(msg: string, c: Channel, s: PaymentStrategy, amountText: string)
    ensures ParseNotifyLine(LogLine(msg)).None? && ParsePaymentLine(LogLine(msg)).None?
    ensures ParseLogLine(NotifyLine(c, msg)).None? && ParsePaymentLine(NotifyLine(c, msg)).None?
    ensures ParseLogLine(PaymentLine(s, amountText)).None? && ParseNotifyLine(PaymentLine(s, amountText)).None?
  {
    var log, note, paid := LogLine(msg), NotifyLine(c, msg), PaymentLine(s, amountText);
    assert StartsWith(log, LogPrefix) by { assert log[..|LogPrefix|] == LogPrefix; }
    assert StartsWith(note, c.Prefix()) by { assert note[..|c.Prefix()|] == c.Prefix(); }
    PaymentLineSplits(s, amountText);
    PrefixesDiffer(log, LogPrefix, Email.Prefix(), 1);
    PrefixesDiffer(log, LogPrefix, SMS.Prefix(), 1);
    PrefixesDiffer(log, LogPrefix, PaidPrefix, 0);
    PrefixesDiffer(note, c.Prefix(), LogPrefix, 1);
    PrefixesDiffer(note, c.Prefix(), PaidPrefix, 0);
    PrefixesDiffer(paid, PaidPrefix, LogPrefix, 0);
    PrefixesDiffer(paid, PaidPrefix, Email.Prefix(), 0);
    PrefixesDiffer(paid, PaidPrefix, SMS.Prefix(), 0);
  }
}
