/** The payment-method cell of the "my orders" table. */
module MyOrders {
  import opened JsText
  import opened OrderModel
  import opened OrderController
  import opened PaymentController

  /** `"Cod"` reads "Cash on delivery"; any other method shows its first
      character upper-cased and the rest lower-cased. */
  function PaymentMethodLabel(m: string): (shown: string)
    ensures m == "Cod" ==> shown == "Cash on delivery"
    ensures m != "Cod" ==> |shown| == |m|
    ensures m != "Cod" && m != [] ==> shown[0] == UpperChar(m[0]) && shown[1..] == Lower(m[1..])
  {
    if m == "Cod" then "Cash on delivery"
    else
      var cut := if m == [] then 0 else 1;
      Upper(m[..cut]) + Lower(m[cut..])
  }

  /** Formatting a label again gives it back, unless the label is itself
      "Cod" — which happens exactly for the other spellings of "cod". */
  lemma LabelIdempotent(m: string)
    requires m == "Cod" || Lower(m) != "cod"
    ensures PaymentMethodLabel(PaymentMethodLabel(m)) == PaymentMethodLabel(m)
  {
    if m == "Cod" {
      CashOnDeliveryStable();
    } else {
      LabelFixed(m);
    }
  }

  lemma LabelFixed(m: string)
    requires m != "Cod" && Lower(m) != "cod"
    ensures PaymentMethodLabel(PaymentMethodLabel(m)) == PaymentMethodLabel(m)
  {
    if m != [] {
      var shown := PaymentMethodLabel(m);
      LabelIsNotCod(m);
      assert shown[0] == UpperChar(m[0]) && shown[1..] == Lower(m[1..]);
      LowerIdempotent(m[1..]);
      LabelOfCapitalized(shown);
    }
  }

  /** A method other than "Cod" whose tail is already lower case and whose
      first character is not a lower-case letter is its own label. */
  lemma LabelOfCapitalized(m: string)
    requires m != "Cod" && m != [] && !IsLower(m[0]) && Lower(m[1..]) == m[1..]
    ensures PaymentMethodLabel(m) == m
  {
    var shown := PaymentMethodLabel(m);
    assert |shown| == |m|;
    assert shown[0] == UpperChar(m[0]) == m[0];
    assert shown[1..] == m[1..];
    forall i | 1 <= i < |m|
      ensures shown[i] == m[i]
    {
      assert shown[i] == shown[1..][i - 1] && m[i] == m[1..][i - 1];
    }
  }

  /** "Cash on delivery" is its own label: its tail is already lower case. */
  lemma CashOnDeliveryStable()
    ensures PaymentMethodLabel("Cash on delivery") == "Cash on delivery"
  {
    var c := "Cash on delivery";
    assert forall i :: 0 <= i < |c[1..]| ==> !IsUpper(c[1..][i]);
    assert Lower(c[1..]) == c[1..];
    LabelOfCapitalized(c);
  }

  /** A label reads "Cod" only when the method lower-cases to "cod". */
  lemma LabelIsNotCod(m: string)
    requires m != "Cod" && m != [] && Lower(m) != "cod"
    ensures PaymentMethodLabel(m) != "Cod"
  {
  }

  /** The excluded case: "cod" is labelled "Cod", which is labelled
      "Cash on delivery". */
  lemma LowercaseCodLabel()
    ensures PaymentMethodLabel("cod") == "Cod"
    ensures PaymentMethodLabel(PaymentMethodLabel("cod")) == "Cash on delivery"
  {
    var shown := PaymentMethodLabel("cod");
    assert shown[0] == 'C' && shown[1..] == Lower("od");
    assert Lower("od") == "od";
    assert shown == [shown[0]] + shown[1..];
  }

  lemma CodConfirmedIsCod(db: Db, cod: CodRequest, verify: (string, string) -> ProviderReply, sms: ProviderReply)
    ensures CodVerification(db, cod, verify, sms).1.Ok? ==>
      CodVerification(db, cod, verify, sms).0.orders[cod.orderId.value].paymentMethod == "Cod"
  {
  }

  /** The two methods the server stores: an order placed through newOrder
      reads "Online", and the order a successful COD verification updates
      reads "Cash on delivery". */
  lemma StoredMethodLabels(user: UserId, req: NewOrderRequest, now: int,
                           db: Db, cod: CodRequest, verify: (string, string) -> ProviderReply, sms: ProviderReply)
    requires ValidOrderRequest(req)
    ensures PaymentMethodLabel(CreatedOrder(user, req, now).paymentMethod) == "Online"
    ensures CodVerification(db, cod, verify, sms).1.Ok? ==>
      PaymentMethodLabel(CodVerification(db, cod, verify, sms).0.orders[cod.orderId.value].paymentMethod)
        == "Cash on delivery"
  {
    assert "Online"[1..] == "nline" && Lower("nline") == "nline";
    LabelOfCapitalized("Online");
    CodConfirmedIsCod(db, cod, verify, sms);
  }
}
