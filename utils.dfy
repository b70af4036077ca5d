/** `src/lib/utils.ts`: the digit filter every phone field goes through. */
module Utils {
  import opened Strings

  /** `value.replace(/\D+/g, "")`: drop every character that is not a decimal digit. */
  function OnlyDigits(s: string): (r: string)
    ensures AllDigits(r)
    ensures |r| <= |s|
    ensures AllDigits(s) ==> r == s
  {
    if |s| == 0 then ""
    else
      assert s == [s[0]] + s[1..];
      (if IsDigit(s[0]) then [s[0]] else []) + OnlyDigits(s[1..])
  }

  /** Filtering distributes over concatenation, so the digits stay in their original order. */
  lemma {:induction false} OnlyDigitsAppend(a: string, b: string)
    ensures OnlyDigits(a + b) == OnlyDigits(a) + OnlyDigits(b)
    decreases |a|
  {
    if |a| > 0 {
      assert (a + b)[1..] == a[1..] + b;
      OnlyDigitsAppend(a[1..], b);
    } else {
      assert a + b == b;
    }
  }

  /** Every digit of the input is kept as often as it occurs, and nothing else is. */
  lemma {:induction false} OnlyDigitsCounts(s: string)
    ensures forall c :: IsDigit(c) ==> multiset(OnlyDigits(s))[c] == multiset(s)[c]
    ensures forall c :: !IsDigit(c) ==> multiset(OnlyDigits(s))[c] == 0
  {
    if |s| > 0 {
      OnlyDigitsCounts(s[1..]);
      assert s == [s[0]] + s[1..];
      assert multiset(s) == multiset([s[0]]) + multiset(s[1..]);
    }
  }

  /** Filtering twice is filtering once. */
  lemma OnlyDigitsIdempotent(s: string)
    ensures OnlyDigits(OnlyDigits(s)) == OnlyDigits(s)
  {
  }

  /** A string without digits filters to the empty string. */
  lemma {:induction false} OnlyDigitsNone(s: string)
    requires forall i :: 0 <= i < |s| ==> !IsDigit(s[i])
    ensures OnlyDigits(s) == ""
  {
    if |s| > 0 {
      OnlyDigitsNone(s[1..]);
    }
  }

  /**
   * The business WhatsApp number the chat widget, the floating button and
   * the call-to-action bar fall back to.
   */
  const BUSINESS_WHATSAPP := "917498369191"

  /** A `https://wa.me/<recipient>?text=<text>` link, before the text is URL-encoded. */
  datatype WaLink = WaLink(recipient: string, text: string)

  /**
   * The recipient rule the three WhatsApp builders share: the visitor's own
   * number with the country code when the phone holds exactly ten digits,
   * the business number otherwise.
   */
  function WaRecipient(phone10: string): (r: string)
    ensures |OnlyDigits(phone10)| == 10 ==> r == "91" + OnlyDigits(phone10)
    ensures |OnlyDigits(phone10)| != 10 ==> r == BUSINESS_WHATSAPP
  {
    var cleaned := OnlyDigits(phone10);
    if |cleaned| == 10 then "91" + cleaned else BUSINESS_WHATSAPP
  }

  /** Every recipient is twelve digits starting with the country code 91. */
  lemma WaRecipientShape(phone10: string)
    ensures |WaRecipient(phone10)| == 12 && AllDigits(WaRecipient(phone10)) && WaRecipient(phone10)[..2] == "91"
  {
    var cleaned := OnlyDigits(phone10);
    if |cleaned| == 10 {
      assert WaRecipient(phone10) == "91" + cleaned;
      assert forall i :: 2 <= i < 12 ==> ("91" + cleaned)[i] == cleaned[i - 2];
    } else {
      BusinessNumberShape();
    }
  }

  lemma BusinessNumberShape()
    ensures |BUSINESS_WHATSAPP| == 12 && AllDigits(BUSINESS_WHATSAPP) && BUSINESS_WHATSAPP[..2] == "91"
  {
    var b := BUSINESS_WHATSAPP;
    assert forall i :: 0 <= i < 12 ==> '0' <= b[i] <= '9';
  }
}
