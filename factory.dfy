/** The Factory Method pattern: a notification channel chosen by a string tag. */
module Factory {
  import opened Output
  import opened Ascii

  /** The two notifier implementations; both are stateless. */
  datatype Channel = Email | SMS
  {
    function Prefix(): string
    {
      match this
      case Email => "[EMAIL] "
      case SMS => "[SMS] "
    }

    method Notify(out: Console, message: string)
      modifies out
      ensures out.lines == old(out.lines) + [NotifyLine(this, message)]
    {
      out.PrintLine(Prefix() + message);
    }
  }

  /** The line `notify(message)` prints on channel `c`. */
  function NotifyLine(c: Channel, message: string): string
  {
    c.Prefix() + message
  }

  /** Recovers the channel and the message from a printed notification. */
  function ParseNotifyLine(line: string): Option<(Channel, string)>
  {
    if StartsWith(line, Email.Prefix()) then Some((Email, line[|Email.Prefix()|..]))
    else if StartsWith(line, SMS.Prefix()) then Some((SMS, line[|SMS.Prefix()|..]))
    else None
  }

  /** A notification line names its channel by its prefix and carries the
      message unchanged; no other line reads as that notification. */
  lemma NotifyLineRoundTrip(c: Channel, message: string, line: string)
    ensures ParseNotifyLine(NotifyLine(c, message)) == Some((c, message))
    ensures ParseNotifyLine(line) == Some((c, message)) <==> line == NotifyLine(c, message)
  {
    var l := NotifyLine(c, message);
    assert l[..|c.Prefix()|] == c.Prefix();
    assert l[|c.Prefix()|..] == message;
    if c == SMS {
      assert l[1] == 'S';
    }
    if ParseNotifyLine(line) == Some((c, message)) {
      assert line == line[..|c.Prefix()|] + line[|c.Prefix()|..];
    }
  }

  /** The exception the factory throws: IllegalArgumentException(message). */
  datatype Error = IllegalArgument(message: string)

  datatype Result<+T> = Ok(value: T) | Err(error: Error)

  const UnsupportedPrefix := "Tipo não suportado: "

  /** NotifierFactory.create: the tag is compared upper-cased; anything other
      than EMAIL or SMS is refused with a message quoting the tag as given. */
  function Create(tag: string): Result<Channel>
  {
    var key := Upper(tag);
    if key == "EMAIL" then Ok(Email)
    else if key == "SMS" then Ok(SMS)
    else Err(IllegalArgument(UnsupportedPrefix + tag))
  }

  lemma WordsAreUpper()
    ensures IsUpperWord("EMAIL") && IsUpperWord("SMS")
  {
  }

  /** `create` gives an Email notifier exactly for the spellings of "email"
      in any mix of cases. */
  lemma CreateEmailIff(tag: string)
    ensures Create(tag) == Ok(Email) <==> IsCaseVariant(tag, "EMAIL")
  {
    WordsAreUpper();
    UpperIsWordIff(tag, "EMAIL");
    UpperIsWordIff(tag, "SMS");
  }

  /** `create` gives an SMS notifier exactly for the spellings of "sms" in any
      mix of cases. */
  lemma CreateSmsIff(tag: string)
    ensures Create(tag) == Ok(SMS) <==> IsCaseVariant(tag, "SMS")
  {
    WordsAreUpper();
    UpperIsWordIff(tag, "EMAIL");
    UpperIsWordIff(tag, "SMS");
  }

  /** Every other tag is refused, no channel is produced, and the message is
      the fixed text followed by the tag exactly as the caller wrote it. */
  lemma CreateRejectsIff(tag: string)
    ensures Create(tag).Err? <==> !IsCaseVariant(tag, "EMAIL") && !IsCaseVariant(tag, "SMS")
    ensures Create(tag).Err? ==> Create(tag).error.message == UnsupportedPrefix + tag
  {
    WordsAreUpper();
    UpperIsWordIff(tag, "EMAIL");
    UpperIsWordIff(tag, "SMS");
  }

  /** Tags that upper-case alike are treated alike; in particular a tag and
      its upper-cased form select the same channel. */
  lemma CreateCaseInsensitive(tag1: string, tag2: string)
    requires Upper(tag1) == Upper(tag2)
    ensures Create(tag1).Ok? == Create(tag2).Ok?
    ensures Create(tag1).Ok? ==> Create(tag1).value == Create(tag2).value
    ensures Create(Upper(tag1)).Ok? == Create(tag1).Ok?
  {
    UpperIdempotent(tag1);
  }

  /** Sample tags: "email", "Email" and "EMAIL" all give
      Email, "sms" gives SMS, "FAX" is refused. */
  lemma CreateExamples()
    ensures Create("email") == Create("Email") == Create("EMAIL") == Ok(Email)
    ensures Create("sms") == Create("SMS") == Ok(SMS)
    ensures Create("FAX") == Err(IllegalArgument("Tipo não suportado: FAX"))
  {
    CreateEmailIff("email");
    CreateEmailIff("Email");
    CreateEmailIff("EMAIL");
    CreateSmsIff("sms");
    CreateSmsIff("SMS");
    CreateRejectsIff("FAX");
  }
}
