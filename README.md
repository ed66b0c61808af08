# BasicPatternsDemo in Dafny

A model of the three design-pattern demonstrations in
`src/com/example/patterns/BasicPatternsDemo.java`, and proofs about them:

- **Singleton** (`singleton.dfy`, module `Singleton`): the Logger's static
  `instance` slot becomes the class `LoggerRegistry`, with a ghost count of the
  Logger objects constructed. `GetInstance` builds the logger on the first
  call and hands back the same one on every later call, constructing nothing.
  `Logger.Log` prints `"[LOG] "` followed by the message.
- **Factory Method** (`factory.dfy`, module `Factory`): `Create` upper-cases the
  tag (with the ASCII mapping of `ascii.dfy`, module `Ascii`), maps `EMAIL` to
  the Email channel and `SMS` to the SMS channel, and returns an
  `IllegalArgument` error for anything else. The error message is
  `"Tipo não suportado: "` followed by the tag exactly as the caller passed it.
  `Channel.Notify` prints `"[EMAIL] "` or `"[SMS] "` followed by the message.
- **Strategy** (`payment.dfy`, module `Payment`): `PaymentContext` holds the
  current `PaymentStrategy` (`CreditCard` or `PayPal`). The constructor and
  `SetStrategy` replace it, and `Pay` delegates to whichever strategy is
  current. Each strategy prints `"Pago R$" + amount + " via " + label`, where
  the label is `"Cartão de Crédito"` or `"PayPal"`.
- **Output** (`output.dfy`, module `Output`): `System.out` becomes a `Console`
  object whose ghost field `lines` is the sequence of lines printed so far.
  Each `println` appends one line.
- **Driver** (`demo.dfy`, module `Demo`): the `main` method is restated as the
  scenario `RunDemo`, and its output is proved to be the seven expected lines.

Each line format has a parser beside it (`ParseLogLine`, `ParseNotifyLine`,
`ParsePaymentLine`). The round-trip lemmas show that a printed line gives back
its channel or strategy, and its message or rendered amount, unchanged.
`LineKindsDisjoint` shows that no component's line can be read as another's.

- `create` throws `IllegalArgumentException` for an unsupported tag. The model
  returns it as the error value `IllegalArgument`.
- The credit-card label is the Portuguese `"Cartão de Crédito"`.

Amounts are `real`. Java's `Double.toString`, which renders the amount inside
the confirmation line, is a function parameter `show: real -> string`
(`Payment.DoubleText`). The driver scenario assumes only that `show` renders
150.0 as `"150.0"` and 200.0 as `"200.0"`.

## Model

| member | source | states |
|---|---|---|
| `Output.Console.PrintLine` | src/com/example/patterns/BasicPatternsDemo.java:37 | printing a line appends exactly that line to the output and changes nothing else |
| `Ascii.Upper` | src/com/example/patterns/BasicPatternsDemo.java:57 | upper-casing keeps the length and upper-cases each character in place (ASCII letters only) |
| `Ascii.UpperIdempotent` | src/com/example/patterns/BasicPatternsDemo.java:57 | upper-casing an upper-cased tag changes nothing |
| `Ascii.UpperIsWordIff` | src/com/example/patterns/BasicPatternsDemo.java:57-59 | a tag upper-cases to an upper-case word exactly when it spells that word in some mix of cases |
| `Factory.CreateEmailIff` | src/com/example/patterns/BasicPatternsDemo.java:56-58 | `create` yields the Email notifier if and only if the tag is "email" in some mix of cases |
| `Factory.CreateSmsIff` | src/com/example/patterns/BasicPatternsDemo.java:56-59 | `create` yields the SMS notifier if and only if the tag is "sms" in some mix of cases |
| `Factory.CreateRejectsIff` | src/com/example/patterns/BasicPatternsDemo.java:56-61 | `create` fails exactly for the tags that spell neither word; then no notifier is produced and the message is "Tipo não suportado: " followed by the original, un-normalised tag |
| `Factory.CreateCaseInsensitive` | src/com/example/patterns/BasicPatternsDemo.java:57 | tags that upper-case alike get the same outcome, and a tag and its upper-cased form select the same channel |
| `Factory.CreateExamples` | src/com/example/patterns/BasicPatternsDemo.java:56-62 | "email", "Email" and "EMAIL" give Email, "sms" and "SMS" give SMS, "FAX" fails with "Tipo não suportado: FAX" |
| `Factory.Channel.Notify` | src/com/example/patterns/BasicPatternsDemo.java:45-53 | notifying appends exactly one line, the channel's prefix ("[EMAIL] " or "[SMS] ") followed by the message unchanged |
| `Factory.NotifyLineRoundTrip` | src/com/example/patterns/BasicPatternsDemo.java:46-53 | a notification line gives back its channel and its message, and only that line reads as that notification |
| `Singleton.Logger.Log` | src/com/example/patterns/BasicPatternsDemo.java:36-38 | logging appends exactly one line, "[LOG] " followed by the message unchanged |
| `Singleton.ParseLogLine` | src/com/example/patterns/BasicPatternsDemo.java:36-38 | any message recovered from a line is one whose log line is exactly that line |
| `Singleton.LogLineRoundTrip` | src/com/example/patterns/BasicPatternsDemo.java:36-38 | a log line gives back its message, and only that line reads as that log entry |
| `Singleton.LoggerRegistry.constructor` | src/com/example/patterns/BasicPatternsDemo.java:28 | before the first request the instance slot is empty and no Logger has been constructed |
| `Singleton.LoggerRegistry.GetInstance` | src/com/example/patterns/BasicPatternsDemo.java:30-35 | the first call constructs one fresh Logger and stores it; a later call returns the stored Logger and changes nothing; afterwards exactly one Logger has been constructed and the result is the stored one |
| `Singleton.LoggerRegistry.GetInstanceTwice` | src/com/example/patterns/BasicPatternsDemo.java:8-10 | two successive calls return the identical reference, from any state of the registry |
| `Payment.PaymentStrategy.Pay` | src/com/example/patterns/BasicPatternsDemo.java:69-77 | paying appends exactly one line naming the rendered amount and the strategy's label, with no check on the amount |
| `Payment.PaymentLineRoundTrip` | src/com/example/patterns/BasicPatternsDemo.java:70-77 | a confirmation line gives back its strategy and rendered amount, and only that line reads as that confirmation |
| `Payment.PaymentContext.constructor` | src/com/example/patterns/BasicPatternsDemo.java:81-83 | a new context holds the strategy it was given |
| `Payment.PaymentContext.SetStrategy` | src/com/example/patterns/BasicPatternsDemo.java:84-86 | after the call the context holds the new strategy, and nothing else changes |
| `Payment.PaymentContext.Pay` | src/com/example/patterns/BasicPatternsDemo.java:87-89 | paying appends the confirmation of the strategy current at the time of the call, passes the amount through unchanged and leaves the context as it was |
| `Demo.DemoSingleton` | src/com/example/patterns/BasicPatternsDemo.java:7-11 | the driver's two `getInstance` calls compare equal, so it prints "Same instance? true" and then the log line |
| `Demo.DemoFactory` | src/com/example/patterns/BasicPatternsDemo.java:13-17 | the factory accepts "EMAIL" and "SMS", and the driver prints one line on each channel |
| `Demo.DemoStrategy` | src/com/example/patterns/BasicPatternsDemo.java:19-23 | the payment before `setStrategy` is confirmed by the credit card, the one after it by PayPal |
| `Demo.RunDemo` | src/com/example/patterns/BasicPatternsDemo.java:4-24 | the driver prints exactly the transcript lines, in order, and leaves one Logger constructed |
| `Demo.TranscriptLiteral` | src/com/example/patterns/BasicPatternsDemo.java:4-24 | with Java's renderings of 150.0 and 200.0, the transcript is the seven literal lines of the demo |
| `Demo.LineKindsDisjoint` | src/com/example/patterns/BasicPatternsDemo.java:36-77 | a log line, a notification line and a payment confirmation are each recognised only by their own parser |

## Left out

- The `synchronized` modifier on `getInstance`, that is, mutual exclusion when several threads make the first request at once. Only the sequential once-only behaviour is modelled.
- The privacy of Logger's constructor cannot be stated in Dafny. Only `LoggerRegistry.GetInstance` calls it.
- The static slot is a field of an explicit `LoggerRegistry` object passed to its callers. Dafny has no mutable static fields.
- The construction counter `constructed` is ghost bookkeeping for the proofs. The source has no such counter.
- `System.out.println` as a real stream (buffering, encoding, I/O errors). Output is the ghost sequence `Console.lines`.
- `double` amounts and Java's `Double.toString` (for example `150.0`, NaN, infinities, exponent notation). Amounts are `real`, and the text of an amount is the parameter `show`.
- Java's `String.toUpperCase` is Unicode-aware and locale-sensitive. The model upper-cases ASCII letters only. So the model rejects tags that Java would accept, such as "emaıl" with a dotless i or "ſms" with a long s. It also accepts "email" where a Turkish default locale would make Java reject it.
- Null arguments, because Dafny values cannot be null. In Java, `create(null)` throws a NullPointerException. So does `pay` on a context whose strategy is null, whether it was set by `new PaymentContext(null)` or by `setStrategy(null)`. By contrast, `log(null)` and `notify(null)` do not throw: they print `"[LOG] null"`, `"[EMAIL] null"` or `"[SMS] null"`.
- `Demo.RunDemo` restates the `main` driver as a scenario over the output sequence. It is not an entry point.
