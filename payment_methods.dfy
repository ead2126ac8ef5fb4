/** The payment panel: the checks `handlePaymentSubmit` runs, in order, before
    it starts a payment, and the panel's processing flag. */
module PaymentMethods {
  import opened Seqs
  import opened Text

  /** The check that rejected a submission, in the order the checks run. */
  datatype PayError = InvalidUpi | InvalidCardNumber | InvalidName | InvalidExpiry | InvalidCvv

  datatype Check = Accepted | Rejected(error: PayError)

  function Rank(e: PayError): nat {
    match e
    case InvalidUpi => 0
    case InvalidCardNumber => 1
    case InvalidName => 2
    case InvalidExpiry => 3
    case InvalidCvv => 4
  }

  /** `/^\d+$/`: one or more ASCII digits and nothing else. */
  predicate AllDigits(s: string) {
    |s| > 0 && forall i :: 0 <= i < |s| ==> IsDigit(s[i])
  }

  /** `/^\d{2}\/\d{2}$/`: two digits, a slash, two digits. No month range. */
  predicate ExpiryShape(s: string) {
    |s| == 5 && IsDigit(s[0]) && IsDigit(s[1]) && s[2] == '/' && IsDigit(s[3]) && IsDigit(s[4])
  }

  /** The panel's input fields. */
  datatype Fields = Fields(
    method_: string, upiId: string, cardNumber: string, cardName: string, cardExpiry: string, cardCvv: string)

  /** Whether the check that reports `e` fails on these fields. UPI is checked
      only for the 'upi' method, the card checks only for 'card', and any other
      method (cash on delivery) is checked for nothing. */
  predicate Fails(e: PayError, f: Fields) {
    match e
    case InvalidUpi => f.method_ == "upi" && (f.upiId == "" || '@' !in f.upiId)
    case InvalidCardNumber => f.method_ == "card" && !(|f.cardNumber| == 16 && AllDigits(f.cardNumber))
    case InvalidName => f.method_ == "card" && f.cardName == ""
    case InvalidExpiry => f.method_ == "card" && !ExpiryShape(f.cardExpiry)
    case InvalidCvv => f.method_ == "card" && !(|f.cardCvv| >= 3 && AllDigits(f.cardCvv))
  }

  /** `handlePaymentSubmit`'s checks: a submission is accepted exactly when no
      check fails, and a rejection names the first check that fails. */
  function Validate(f: Fields): (r: Check)
    ensures r == Accepted <==> forall e :: !Fails(e, f)
    ensures r.Rejected? ==> Fails(r.error, f)
    ensures r.Rejected? ==> forall e :: Rank(e) < Rank(r.error) ==> !Fails(e, f)
  {
    if f.method_ == "upi" then
      assert f.method_[0] != "card"[0];
      if f.upiId == "" || '@' !in f.upiId then assert Fails(InvalidUpi, f); Rejected(InvalidUpi)
      else assert forall e :: !Fails(e, f); Accepted
    else if f.method_ == "card" then
      if |f.cardNumber| != 16 || !AllDigits(f.cardNumber) then assert Fails(InvalidCardNumber, f); Rejected(InvalidCardNumber)
      else if f.cardName == "" then assert Fails(InvalidName, f); Rejected(InvalidName)
      else if !ExpiryShape(f.cardExpiry) then assert Fails(InvalidExpiry, f); Rejected(InvalidExpiry)
      else if |f.cardCvv| < 3 || !AllDigits(f.cardCvv) then assert Fails(InvalidCvv, f); Rejected(InvalidCvv)
      else assert forall e :: !Fails(e, f); Accepted
    else
      assert forall e :: !Fails(e, f);
      Accepted
  }

  /** Cash on delivery is accepted whatever the other fields hold. */
  lemma CashOnDeliveryAlwaysAccepted(upi: string, number: string, name: string, expiry: string, cvv: string)
    ensures Validate(Fields("cod", upi, number, name, expiry, cvv)) == Accepted
  {
    var f := Fields("cod", upi, number, name, expiry, cvv);
    assert forall e :: !Fails(e, f);
  }

  /** The expiry check is a shape check only: month 13 passes. */
  lemma ExpiryHasNoMonthRange()
    ensures ExpiryShape("13/99")
  {
  }

  class Panel {
    var fields: Fields
    var isProcessing: bool

    /** The panel opens on UPI with empty fields. */
    constructor ()
      ensures fields == Fields("upi", "", "", "", "", "") && !isProcessing
    {
      fields := Fields("upi", "", "", "", "", "");
      isProcessing := false;
    }

    /** The radio group and the inputs set the fields. */
    method Edit(f: Fields)
      modifies this`fields
      ensures fields == f
    {
      fields := f;
    }

    /** `handlePaymentSubmit`, from a pay button that is disabled while a
        payment is processing: a rejected submission changes nothing; an
        accepted one starts processing. */
    method Submit() returns (r: Option<Check>)
      modifies this`isProcessing
      ensures old(isProcessing) ==> r == None && isProcessing
      ensures !old(isProcessing) ==> r == Some(Validate(fields)) && isProcessing == (r == Some(Accepted))
    {
      if isProcessing {
        return None;
      }
      var c := Validate(fields);
      r := Some(c);
      if c == Accepted {
        isProcessing := true;
      }
    }

    /** The payment timer firing: processing stops and the `onSuccess`
        callback the panel was given runs. */
    method Complete()
      modifies this`isProcessing
      ensures !isProcessing
    {
      isProcessing := false;
    }
  }
}
