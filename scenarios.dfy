/**
 * Example clients of the adapter that rely on its contracts alone
 * (a loaded window, an offline order followed by a capture, a capture with no order, swapped
 * configuration bounds, a negative price).
 */
module Scenarios {
  import opened Wrappers
  import opened ConfigWindow
  import opened AfterpayFactory

  /** Window 50.00..500.00, 4 payments: 100.00 is accepted and split into 25.00 instalments. */
  method LoadedWindowScenario(answer: Result<seq<ProviderConfig>, ApiError>)
  {
    var fixtures := Fixtures(None, None, None);
    var api := new SilverstripeMerchantApi(Settings("42", "secret", 4), fixtures);
    api.SetIsServerAvailable(true);
    api.SetMinAndMaxPrice(5000, 50000);
    var ok := api.CanProcessPayment(10000, answer);
    assert ok;
    var amount := api.GetAmountPerPayment(10000, answer);
    assert amount * 4 >= 10000 && amount * 4 - 10000 < 4;
    assert amount == 2500;
    var tooDear := api.CanProcessPayment(50001, answer);
    assert !tooDear;
  }

  /** Offline order from the fixture "abc123", then an online capture without a token uses it. */
  method OfflineOrderThenCaptureScenario(details: OrderDetails, orderAnswer: Result<OrderToken, ApiError>,
                                         payment: Payment)
  {
    var fixtures := Fixtures(None, Some(OrderToken("abc123")), None);
    var api := new SilverstripeMerchantApi(Settings("42", "secret", 4), fixtures);
    var order := api.CreateOrder(details, orderAnswer);
    assert order == Success(OrderToken("abc123"));
    api.SetIsServerAvailable(true);
    assert api.notices == [];
    var captured := api.CreatePayment("", "ref-1", Success(payment));
    assert api.calls == [CaptureCall("abc123", "ref-1")];
    assert captured == Success(Some(payment));
  }

  /** A capture with neither a token nor a prior order reports it and calls nobody. */
  method CaptureWithoutOrderScenario(answer: Result<Payment, ApiError>)
  {
    var fixtures := Fixtures(None, None, None);
    var api := new SilverstripeMerchantApi(Settings("", "secret", 4), fixtures);
    api.SetIsServerAvailable(true);
    assert api.isServerAvailable && api.notices == [SettingMissing("merchant_id")];
    var captured := api.CreatePayment("", "", answer);
    assert api.calls == [] && api.notices == [SettingMissing("merchant_id"), NoOrderToken];
    assert captured == Success(None);
  }

  /** A provider configuration with minimum 50.00 below maximum 500.00 opens no window. */
  method SwappedConfigurationScenario()
  {
    var config := [ProviderConfig(PayByInstallment, 5000, 50000)];
    var fixtures := Fixtures(Some(config), None, None);
    var api := new SilverstripeMerchantApi(Settings("42", "secret", 4), fixtures);
    api.SetIsServerAvailable(true);
    var ok := api.CanProcessPayment(10000, Failure(ApiError(500, "unused")));
    assert api.minPrice == 50000 && api.maxPrice == 5000;
    assert !ok;
  }

  /** The gate refuses only a zero price: a negative price is compared against the window. */
  method NegativePriceScenario(answer: Result<seq<ProviderConfig>, ApiError>)
  {
    var fixtures := Fixtures(None, None, None);
    var api := new SilverstripeMerchantApi(Settings("42", "secret", 4), fixtures);
    api.SetIsServerAvailable(true);
    api.SetMinAndMaxPrice(-500, -100);
    var ok := api.CanProcessPayment(-200, answer);
    assert ok;
    var zero := api.CanProcessPayment(0, answer);
    assert !zero;
  }
}
