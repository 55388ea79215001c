/** The payment method value object: a method name normalised by trimming
    and upper-casing, accepted only from a closed set. */
module PaymentMethods {
  import opened Exceptions
  import opened Text

  datatype PaymentMethod = PaymentMethod(name: string)

  /** Membership in VALID_METHODS. */
  predicate IsValidMethod(n: string) {
    n == "CARD" || n == "BANK_TRANSFER" || n == "DIGITAL_WALLET" || n == "CASH"
  }

  /** The set as Kotlin prints it in the error message. */
  const ValidMethodsText := "[CARD, BANK_TRANSFER, DIGITAL_WALLET, CASH]"

  function Normalize(name: string): string {
    Uppercase(Trim(name))
  }

  /** of: a blank method is refused; otherwise the normalised name must be
      one of the four methods, and it is what is stored. */
  function Of(name: string): (r: Try<PaymentMethod, IllegalArgument>)
    ensures r.Return? <==> !IsBlank(name) && IsValidMethod(Normalize(name))
    ensures r.Return? ==> r.value.name == Normalize(name) && IsValidMethod(r.value.name)
    ensures IsBlank(name) ==> r == Throw(IllegalArgument("Payment method cannot be blank"))
    ensures !IsBlank(name) && !IsValidMethod(Normalize(name))
            ==> r == Throw(IllegalArgument("Invalid payment method: " + name + ". Valid methods: " + ValidMethodsText))
  {
    if IsBlank(name) then Throw(IllegalArgument("Payment method cannot be blank"))
    else
      var normalized := Normalize(name);
      if !IsValidMethod(normalized)
      then Throw(IllegalArgument("Invalid payment method: " + name + ". Valid methods: " + ValidMethodsText))
      else Return(PaymentMethod(normalized))
  }

  predicate IsCard(m: PaymentMethod) { m.name == "CARD" }
  predicate IsBankTransfer(m: PaymentMethod) { m.name == "BANK_TRANSFER" }
  predicate IsDigitalWallet(m: PaymentMethod) { m.name == "DIGITAL_WALLET" }
  predicate IsCash(m: PaymentMethod) { m.name == "CASH" }

  /** The four method names are already in normal form. */
  lemma ValidMethodNormal(n: string)
    requires IsValidMethod(n)
    ensures !IsBlank(n) && Normalize(n) == n
  {
    if n == "CARD" {
      assert IsUpperWord("CARD");
    } else if n == "BANK_TRANSFER" {
      assert IsUpperWord("BANK_TRANSFER");
    } else if n == "DIGITAL_WALLET" {
      assert IsUpperWord("DIGITAL_WALLET");
    } else {
      assert IsUpperWord("CASH");
    }
    UpperWordNormal(n);
  }

  /** Upper-case letters and underscores, at least one. */
  predicate IsUpperWord(n: string) {
    |n| > 0 && forall k :: 0 <= k < |n| ==> 'A' <= n[k] <= 'Z' || n[k] == '_'
  }

  lemma UpperWordNormal(n: string)
    requires IsUpperWord(n)
    ensures !IsBlank(n) && Normalize(n) == n
  {
    UpperWordIsUpper(n);
    UppercaseOfUpper(n);
    TrimOfTrimmed(n);
  }

  lemma UpperWordIsUpper(n: string)
    requires IsUpperWord(n)
    ensures forall k :: 0 <= k < |n| ==> UpperChar(n[k]) == n[k]
  {
  }

  /** of is idempotent: building a method again from its stored name gives
      the same method. */
  lemma OfIdempotent(name: string)
    requires Of(name).Return?
    ensures Of(Of(name).value.name) == Of(name)
  {
    ValidMethodNormal(Of(name).value.name);
  }

  /** Every accepted method is exactly one of card, bank transfer, digital
      wallet and cash. */
  lemma ExactlyOneKind(name: string)
    requires Of(name).Return?
    ensures var m := Of(name).value;
            && (IsCard(m) || IsBankTransfer(m) || IsDigitalWallet(m) || IsCash(m))
            && !(IsCard(m) && IsBankTransfer(m)) && !(IsCard(m) && IsDigitalWallet(m))
            && !(IsCard(m) && IsCash(m)) && !(IsBankTransfer(m) && IsDigitalWallet(m))
            && !(IsBankTransfer(m) && IsCash(m)) && !(IsDigitalWallet(m) && IsCash(m))
  {
  }

  lemma NormalizeLowerCaseCard()
    ensures Normalize(" card ") == "CARD" && !IsBlank(" card ")
  {
    var s := " card ";
    assert IsWhitespace(s[0]) && !IsWhitespace(s[1..][0]);
    assert TrimStart(s) == TrimStart(s[1..]) == s[1..];
    var t := s[1..];
    assert IsWhitespace(t[|t| - 1]) && !IsWhitespace(t[..|t| - 1][3]);
    assert TrimEnd(t) == TrimEnd(t[..|t| - 1]) == t[..|t| - 1];
    assert t[..|t| - 1] == "card";
    var u := Uppercase("card");
    assert u[0] == 'C' && u[1] == 'A' && u[2] == 'R' && u[3] == 'D';
    assert u == "CARD";
    assert !IsWhitespace(s[1]);
  }

  /** Surrounding whitespace and lower case do not matter: " card " is CARD. */
  lemma LowerCaseCardAccepted()
    ensures Of(" card ") == Return(PaymentMethod("CARD"))
  {
    NormalizeLowerCaseCard();
    assert IsValidMethod("CARD");
  }
}
