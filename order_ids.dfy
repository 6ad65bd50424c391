/** The order identifier format `ORD-<milliseconds>-<four-digit suffix>`, which both the checkout
    handler and the order store generate from the clock and a random draw. */
module OrderIds {
  import opened Wrappers
  import opened Seqs
  import opened Text

  /** `Math.floor(Math.random() * 9000) + 1000`, given the drawn `Math.floor(Math.random() * 9000)`. */
  function RandomSuffix(draw: nat): (r: nat)
    requires draw < 9000
    ensures 1000 <= r <= 9999
    ensures |NatToString(r)| == 4
  {
    FourDigits(draw + 1000);
    draw + 1000
  }

  /** `` `ORD-${ts}-${suffix}` ``. */
  function FormatOrderId(ts: nat, suffix: nat): (id: string)
    ensures |id| >= 7 && id[..4] == "ORD-"
  {
    "ORD-" + NatToString(ts) + "-" + NatToString(suffix)
  }

  /** Reads an identifier of the form `ORD-<digits>-<digits>` back into its two numbers; each
      number must be written as `${n}` writes it, without a leading zero. */
  function ParseOrderId(id: string): Option<(nat, nat)> {
    if |id| < 4 || id[..4] != "ORD-" then None
    else
      var rest := id[4..];
      match IndexOf(rest, '-')
      case None => None
      case Some(k) =>
        var ts := rest[..k];
        var suffix := rest[k + 1..];
        if IsCanonical(ts) && IsCanonical(suffix)
        then Some((DigitsValue(ts), DigitsValue(suffix)))
        else None
  }

  /** An identifier carries its time stamp and suffix recoverably. */
  lemma ParseFormatted(ts: nat, suffix: nat)
    ensures ParseOrderId(FormatOrderId(ts, suffix)) == Some((ts, suffix))
  {
    var a, b := NatToString(ts), NatToString(suffix);
    var id := FormatOrderId(ts, suffix);
    assert id == "ORD-" + (a + "-" + b);
    assert id[..4] == "ORD-";
    var rest := id[4..];
    assert rest == a + "-" + b;
    assert rest[|a|] == '-';
    match IndexOf(rest, '-')
    case None =>
    case Some(k) =>
      assert rest[..k] == a;
      assert rest[k + 1..] == b;
      NatToStringRoundTrip(ts);
      NatToStringRoundTrip(suffix);
  }

  /** The two digit runs of an identifier that parses, and the text around them. */
  lemma ParsedParts(id: string) returns (a: string, b: string)
    requires ParseOrderId(id).Some?
    ensures IsCanonical(a) && IsCanonical(b)
    ensures ParseOrderId(id).value == (DigitsValue(a), DigitsValue(b))
    ensures id == "ORD-" + a + "-" + b
  {
    var rest := id[4..];
    var k := IndexOf(rest, '-').value;
    a, b := rest[..k], rest[k + 1..];
    assert rest == a + "-" + b by {
      assert rest[k] == '-';
    }
    assert id == id[..4] + rest;
  }

  /** An identifier that parses is exactly the one formatted from its two numbers, so parsing
      pins the spelling and not only the values. */
  lemma FormattedParsed(id: string)
    requires ParseOrderId(id).Some?
    ensures id == FormatOrderId(ParseOrderId(id).value.0, ParseOrderId(id).value.1)
  {
    var a, b := ParsedParts(id);
    CanonicalRoundTrip(a);
    CanonicalRoundTrip(b);
  }

  /** Two identifiers are equal only if they were formed from the same time stamp and suffix;
      uniqueness beyond that rests on the clock and the random draw. */
  lemma FormatInjective(ts1: nat, s1: nat, ts2: nat, s2: nat)
    requires FormatOrderId(ts1, s1) == FormatOrderId(ts2, s2)
    ensures ts1 == ts2 && s1 == s2
  {
    ParseFormatted(ts1, s1);
    ParseFormatted(ts2, s2);
  }
}
