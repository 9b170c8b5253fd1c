/**
 * The merchant-side Afterpay adapter: an object that remembers whether the provider is
 * reachable, the eligibility window, the provider's configuration list, the last order token
 * and the last payment. When the provider is not reachable it reads canned responses
 * ("fixtures") instead.
 *
 * Outside inputs are explicit:
 * - the CMS settings and the fixture files are fixed values given to the constructor;
 * - each provider call's answer is a `Result` parameter of the method that may make the call;
 * - every call the adapter actually makes is appended to the `calls` log;
 * - every PHP `user_error` is appended to the `notices` log. It is a notice, so execution
 *   carries on after it.
 */
module AfterpayFactory {
  import opened Wrappers
  import opened Instalments
  import opened ConfigWindow

  const ConfigurationFixture: string := "configuration_details.json"
  const OrderFixture: string := "order_create_response.json"
  const PaymentFixture: string := "payments_get_response.json"

  /** The settings that must be non-empty before the provider may be used. */
  const RequiredSettings: seq<string> := ["merchant_id", "secret_key"]

  /** The order token handed back by the provider; a default-constructed token holds "". */
  datatype OrderToken = OrderToken(token: string)

  /** The captured payment handed back by the provider. */
  datatype Payment = Payment(id: string, status: string, merchantReference: string, amountCents: int)

  /** The order details sent to the provider (only the fields this model tells apart). */
  datatype OrderDetails = OrderDetails(merchantReference: string, totalCents: int)

  /** The provider's ApiException. */
  datatype ApiError = ApiError(httpStatus: int, message: string)

  /** What a PHP `user_error` call reports. */
  datatype Notice =
    | SettingMissing(name: string)
    | BadFixtureFile(fileName: string)
    | FixtureNotLoaded
    | NoOrderToken

  /** A call made to the provider. */
  datatype ProviderCall =
    | ConfigurationCall
    | CreateOrderCall(details: OrderDetails)
    | CaptureCall(token: string, merchantReference: string)

  /** The CMS settings read by the core. */
  datatype Settings = Settings(merchantId: string, secretKey: string, numberOfPayments: int)

  /** The fixture files: `None` when the file does not exist, else its deserialised contents. */
  datatype Fixtures = Fixtures(
    configuration: Option<seq<ProviderConfig>>,
    order: Option<OrderToken>,
    payment: Option<Payment>)

  const DefaultToken: OrderToken := OrderToken("")
  const DefaultPayment: Payment := Payment("", "", "", 0)

  /** PHP's falsiness of a string: the empty string and "0". */
  predicate IsFalsy(s: string)
  {
    s == "" || s == "0"
  }

  /** The value of a named setting; names the core never asks for read as "". */
  function Setting(settings: Settings, name: string): string
  {
    if name == "merchant_id" then settings.merchantId
    else if name == "secret_key" then settings.secretKey
    else ""
  }

  /** The notices raised, in order, for those of `names` whose setting is empty. */
  function MissingSettings(settings: Settings, names: seq<string>): seq<Notice>
    decreases |names|
  {
    if names == [] then []
    else
      var name := names[|names| - 1];
      MissingSettings(settings, names[..|names| - 1])
        + (if IsFalsy(Setting(settings, name)) then [SettingMissing(name)] else [])
  }

  /** A setting is reported missing exactly when it is one of the names checked and is empty. */
  lemma {:induction false} MissingSettingsExactly(settings: Settings, names: seq<string>, name: string)
    ensures SettingMissing(name) in MissingSettings(settings, names)
            <==> name in names && IsFalsy(Setting(settings, name))
    decreases |names|
  {
    if names != [] {
      var init := names[..|names| - 1];
      MissingSettingsExactly(settings, init, name);
      assert names == init + [names[|names| - 1]];
    }
  }

  /** Enabling the provider is silent exactly when both credentials are set. */
  lemma CredentialsChecked(settings: Settings)
    ensures MissingSettings(settings, RequiredSettings) == []
            <==> !IsFalsy(settings.merchantId) && !IsFalsy(settings.secretKey)
  {
    MissingSettingsExactly(settings, RequiredSettings, "merchant_id");
    MissingSettingsExactly(settings, RequiredSettings, "secret_key");
  }

  /** The notices a fixture load raises: both the lookup's and the loader's when it is missing. */
  function FixtureNotices<T>(fixture: Option<T>, fileName: string): seq<Notice>
  {
    if fixture.Some? then [] else [BadFixtureFile(fileName), FixtureNotLoaded]
  }

  /** What one configuration refresh produces. `failed` marks a provider exception. */
  datatype Refresh = Refresh(config: seq<ProviderConfig>, notices: seq<Notice>, calls: seq<ProviderCall>, failed: bool)

  /**
   * A configuration refresh. It reloads only when nothing is cached or a reload is forced;
   * a fixture wins over the provider; the provider is asked only when it is reachable; and a
   * provider exception keeps the cached list.
   */
  function RefreshConfig(
    cached: seq<ProviderConfig>, force: bool, fixture: Option<seq<ProviderConfig>>,
    available: bool, answer: Result<seq<ProviderConfig>, ApiError>): (r: Refresh)
    ensures !(cached == [] || force) ==> r == Refresh(cached, [], [], false)
    ensures (cached == [] || force) && fixture.Some? ==> r == Refresh(fixture.value, [], [], false)
    ensures r.notices == (if (cached == [] || force) && fixture.None? then [BadFixtureFile(ConfigurationFixture)] else [])
    ensures r.calls == (if (cached == [] || force) && fixture.None? && available then [ConfigurationCall] else [])
    ensures r.failed <==> r.calls != [] && answer.Failure?
    ensures r.failed ==> r.config == cached
    ensures r.calls == [] && fixture.None? ==> r.config == cached
    ensures r.calls != [] && answer.Success? ==> r.config == answer.value
  {
    if !(cached == [] || force) then Refresh(cached, [], [], false)
    else if fixture.Some? then Refresh(fixture.value, [], [], false)
    else if !available then Refresh(cached, [BadFixtureFile(ConfigurationFixture)], [], false)
    else match answer
      case Success(list) => Refresh(list, [BadFixtureFile(ConfigurationFixture)], [ConfigurationCall], false)
      case Failure(_) => Refresh(cached, [BadFixtureFile(ConfigurationFixture)], [ConfigurationCall], true)
  }

  /**
   * Refreshing and scanning twice without forcing leaves the window where the first round put
   * it, provided the first round cached something or a configuration fixture exists: the
   * second refresh then reuses the same list, and a repeated scan of one list is stable.
   */
  lemma RefreshTwiceIsStable(
    cached: seq<ProviderConfig>, fixture: Option<seq<ProviderConfig>>, available: bool,
    first: Result<seq<ProviderConfig>, ApiError>, second: Result<seq<ProviderConfig>, ApiError>, w: Window)
    requires fixture.Some? || RefreshConfig(cached, false, fixture, available, first).config != []
    ensures var r1 := RefreshConfig(cached, false, fixture, available, first);
      var r2 := RefreshConfig(r1.config, false, fixture, available, second);
      r2.config == r1.config && r2.calls == [] && Scan(r2.config, Scan(r1.config, w)) == Scan(r1.config, w)
  {
    var r1 := RefreshConfig(cached, false, fixture, available, first);
    ScanIdempotent(r1.config, w);
  }

  /** The token a capture uses: the argument, else the stored order token's. */
  function EffectiveToken(argument: string, stored: Option<OrderToken>): string
  {
    if !IsFalsy(argument) then argument
    else if stored.Some? then stored.value.token
    else argument
  }

  class SilverstripeMerchantApi {
    const settings: Settings
    const fixtures: Fixtures

    var isServerAvailable: bool
    var minPrice: int
    var maxPrice: int
    var configurationInfo: seq<ProviderConfig>
    var orderToken: Option<OrderToken>
    var paymentInfo: Option<Payment>
    var notices: seq<Notice>
    var calls: seq<ProviderCall>

    /** A fresh adapter: offline, no window, nothing cached, no order, no payment. */
    constructor (settings: Settings, fixtures: Fixtures)
      ensures this.settings == settings && this.fixtures == fixtures
      ensures !isServerAvailable && minPrice == 0 && maxPrice == 0
      ensures configurationInfo == [] && orderToken == None && paymentInfo == None
      ensures notices == [] && calls == []
    {
      this.settings := settings;
      this.fixtures := fixtures;
      isServerAvailable := false;
      minPrice, maxPrice := 0, 0;
      configurationInfo := [];
      orderToken, paymentInfo := None, None;
      notices, calls := [], [];
    }

    /**
     * Sets the flag to `available` whatever the settings say; when enabling, reports each
     * required credential that is empty.
     */
    method SetIsServerAvailable(available: bool)
      modifies this`isServerAvailable, this`notices
      ensures isServerAvailable == available
      ensures notices == old(notices) + (if available then MissingSettings(settings, RequiredSettings) else [])
    {
      isServerAvailable := available;
      if available {
        var i := 0;
        while i < |RequiredSettings|
          invariant 0 <= i <= |RequiredSettings|
          invariant isServerAvailable == available
          invariant notices == old(notices) + MissingSettings(settings, RequiredSettings[..i])
        {
          var name := RequiredSettings[i];
          if IsFalsy(Setting(settings, name)) {
            notices := notices + [SettingMissing(name)];
          }
          assert RequiredSettings[..i + 1][..i] == RequiredSettings[..i];
          i := i + 1;
        }
        assert RequiredSettings[..i] == RequiredSettings;
      }
    }

    /** Overrides the eligibility window; nothing else changes. */
    method SetMinAndMaxPrice(newMin: int, newMax: int)
      modifies this`minPrice, this`maxPrice
      ensures minPrice == newMin && maxPrice == newMax
    {
      minPrice := newMin;
      maxPrice := newMax;
    }

    method GetIsServerAvailable() returns (available: bool)
      ensures available == isServerAvailable
    {
      available := isServerAvailable;
    }

    /**
     * Loads a fixture (localExpecationFileToClass): its contents when the file exists, else
     * the default-constructed value after two notices.
     */
    method LoadFixture<T>(fixture: Option<T>, fileName: string, default: T) returns (value: T)
      modifies this`notices
      ensures value == (if fixture.Some? then fixture.value else default)
      ensures notices == old(notices) + FixtureNotices(fixture, fileName)
    {
      if fixture.Some? {
        value := fixture.value;
      } else {
        notices := notices + [BadFixtureFile(fileName), FixtureNotLoaded];
        value := default;
      }
    }

    /**
     * Refreshes the cached configuration list. Returns `None` on a provider exception, else
     * the (possibly unchanged) cached list.
     */
    method RetrieveConfig(force: bool, answer: Result<seq<ProviderConfig>, ApiError>)
      returns (result: Option<seq<ProviderConfig>>)
      modifies this`configurationInfo, this`notices, this`calls
      ensures var r := RefreshConfig(old(configurationInfo), force, fixtures.configuration, isServerAvailable, answer);
        configurationInfo == r.config
        && notices == old(notices) + r.notices
        && calls == old(calls) + r.calls
        && result == (if r.failed then None else Some(r.config))
    {
      result := Some(configurationInfo);
      if configurationInfo == [] || force {
        if fixtures.configuration.Some? {
          configurationInfo := fixtures.configuration.value;
          result := Some(configurationInfo);
        } else {
          notices := notices + [BadFixtureFile(ConfigurationFixture)];
          if isServerAvailable {
            calls := calls + [ConfigurationCall];
            match answer {
              case Success(list) =>
                configurationInfo := list;
                result := Some(configurationInfo);
              case Failure(_) =>
                result := None;
            }
          }
        }
      }
    }

    /**
     * Refreshes the configuration (without forcing) and walks it, letting every
     * PAY_BY_INSTALLMENT entry overwrite the window with its (maximum, minimum) amounts.
     */
    method RetrieveMinAndMaxFromConfig(answer: Result<seq<ProviderConfig>, ApiError>)
      modifies this`minPrice, this`maxPrice, this`configurationInfo, this`notices, this`calls
      ensures var r := RefreshConfig(old(configurationInfo), false, fixtures.configuration, isServerAvailable, answer);
        configurationInfo == r.config
        && notices == old(notices) + r.notices
        && calls == old(calls) + r.calls
        && Window(minPrice, maxPrice) == Scan(r.config, old(Window(minPrice, maxPrice)))
    {
      var _ := RetrieveConfig(false, answer);
      ghost var refreshed := (configurationInfo, notices, calls);
      var i := 0;
      while i < |configurationInfo|
        invariant 0 <= i <= |configurationInfo|
        invariant (configurationInfo, notices, calls) == refreshed
        invariant Window(minPrice, maxPrice) == Scan(configurationInfo[..i], old(Window(minPrice, maxPrice)))
      {
        var config := configurationInfo[i];
        if config.kind == PayByInstallment {
          minPrice := config.maximumAmount;
          maxPrice := config.minimumAmount;
        }
        assert configurationInfo[..i + 1][..i] == configurationInfo[..i];
        i := i + 1;
      }
      assert configurationInfo[..i] == configurationInfo;
    }

    /**
     * The eligibility gate. A zero price or an unreachable provider is refused without touching
     * anything. A loaded window (both bounds non-zero) is used as it is. Otherwise the window
     * is refreshed from the configuration first, and a bound still zero refuses the price.
     */
    method CanProcessPayment(price: int, answer: Result<seq<ProviderConfig>, ApiError>) returns (ok: bool)
      modifies this`minPrice, this`maxPrice, this`configurationInfo, this`notices, this`calls
      ensures price == 0 || !isServerAvailable ==> unchanged(this)
      ensures old(minPrice != 0 && maxPrice != 0) ==> unchanged(this)
      ensures price != 0 && isServerAvailable && old(minPrice == 0 || maxPrice == 0) ==>
        var r := RefreshConfig(old(configurationInfo), false, fixtures.configuration, isServerAvailable, answer);
        configurationInfo == r.config
        && notices == old(notices) + r.notices
        && calls == old(calls) + r.calls
        && Window(minPrice, maxPrice) == Scan(r.config, old(Window(minPrice, maxPrice)))
      ensures ok <==> price != 0 && isServerAvailable && Admits(Window(minPrice, maxPrice), price)
    {
      ok := false;
      if price != 0 {
        if isServerAvailable {
          if minPrice == 0 || maxPrice == 0 {
            RetrieveMinAndMaxFromConfig(answer);
          }
          if minPrice == 0 || maxPrice == 0 {
            return false;
          }
          if minPrice <= price <= maxPrice {
            return true;
          }
        }
      }
      return false;
    }

    /**
     * The amount of one instalment, in cents: the price split over the configured number of
     * payments and rounded up to a whole cent; 0 when the gate refuses the price or the number
     * of payments is 0.
     */
    method GetAmountPerPayment(price: int, answer: Result<seq<ProviderConfig>, ApiError>) returns (amount: int)
      modifies this`minPrice, this`maxPrice, this`configurationInfo, this`notices, this`calls
      ensures price == 0 || !isServerAvailable ==> unchanged(this) && amount == 0
      ensures old(minPrice != 0 && maxPrice != 0) ==> unchanged(this)
      ensures price != 0 && isServerAvailable && old(minPrice == 0 || maxPrice == 0) ==>
        var r := RefreshConfig(old(configurationInfo), false, fixtures.configuration, isServerAvailable, answer);
        configurationInfo == r.config
        && notices == old(notices) + r.notices
        && calls == old(calls) + r.calls
        && Window(minPrice, maxPrice) == Scan(r.config, old(Window(minPrice, maxPrice)))
      ensures !Admits(Window(minPrice, maxPrice), price) || settings.numberOfPayments == 0 ==> amount == 0
      ensures price != 0 && isServerAvailable && Admits(Window(minPrice, maxPrice), price)
              && settings.numberOfPayments > 0 ==>
        amount * settings.numberOfPayments >= price
        && amount * settings.numberOfPayments - price < settings.numberOfPayments
      ensures price != 0 && isServerAvailable && Admits(Window(minPrice, maxPrice), price)
              && settings.numberOfPayments < 0 ==>
        amount * settings.numberOfPayments <= price
        && price - amount * settings.numberOfPayments < -settings.numberOfPayments
    {
      var ok := CanProcessPayment(price, answer);
      if ok {
        var n := settings.numberOfPayments;
        if n != 0 {
          return CeilDiv(price, n);
        }
      }
      return 0;
    }

    /**
     * Creates an order. Online, the provider's token is stored and returned, or its exception
     * returned with the stored token kept. Offline, the order fixture's token is stored and
     * returned.
     */
    method CreateOrder(details: OrderDetails, answer: Result<OrderToken, ApiError>)
      returns (result: Result<OrderToken, ApiError>)
      modifies this`orderToken, this`notices, this`calls
      ensures isServerAvailable ==>
        calls == old(calls) + [CreateOrderCall(details)]
        && notices == old(notices)
        && result == answer
        && orderToken == (if answer.Success? then Some(answer.value) else old(orderToken))
      ensures !isServerAvailable ==>
        calls == old(calls)
        && notices == old(notices) + FixtureNotices(fixtures.order, OrderFixture)
        && orderToken == Some(if fixtures.order.Some? then fixtures.order.value else DefaultToken)
        && result == Success(orderToken.value)
    {
      if isServerAvailable {
        calls := calls + [CreateOrderCall(details)];
        match answer {
          case Success(token) =>
            orderToken := Some(token);
          case Failure(e) =>
            return Failure(e);
        }
      } else {
        var token := LoadFixture(fixtures.order, OrderFixture, DefaultToken);
        orderToken := Some(token);
      }
      return Success(orderToken.value);
    }

    /**
     * Captures the payment. Online, the token is the argument or else the stored order's; with
     * neither, "create an order first" is reported, the provider is not called and the previous
     * payment is returned. Offline, the token is ignored and the payment fixture is loaded.
     */
    method CreatePayment(tokenArgument: string, merchantReference: string, answer: Result<Payment, ApiError>)
      returns (result: Result<Option<Payment>, ApiError>)
      modifies this`paymentInfo, this`notices, this`calls
      ensures var token := EffectiveToken(tokenArgument, orderToken);
        isServerAvailable && !IsFalsy(token) ==>
          calls == old(calls) + [CaptureCall(token, merchantReference)]
          && notices == old(notices)
          && paymentInfo == (if answer.Success? then Some(answer.value) else old(paymentInfo))
          && result == (if answer.Success? then Success(paymentInfo) else Failure(answer.error))
      ensures isServerAvailable && IsFalsy(EffectiveToken(tokenArgument, orderToken)) ==>
        calls == old(calls)
        && notices == old(notices) + [NoOrderToken]
        && paymentInfo == old(paymentInfo)
        && result == Success(paymentInfo)
      ensures !isServerAvailable ==>
        calls == old(calls)
        && notices == old(notices) + FixtureNotices(fixtures.payment, PaymentFixture)
        && paymentInfo == Some(if fixtures.payment.Some? then fixtures.payment.value else DefaultPayment)
        && result == Success(paymentInfo)
    {
      if isServerAvailable {
        var token := tokenArgument;
        if IsFalsy(token) {
          if orderToken.Some? {
            token := orderToken.value.token;
          }
        }
        if !IsFalsy(token) {
          calls := calls + [CaptureCall(token, merchantReference)];
          match answer {
            case Success(payment) =>
              paymentInfo := Some(payment);
            case Failure(e) =>
              return Failure(e);
          }
        } else {
          notices := notices + [NoOrderToken];
        }
      } else {
        var payment := LoadFixture(fixtures.payment, PaymentFixture, DefaultPayment);
        paymentInfo := Some(payment);
      }
      return Success(paymentInfo);
    }
  }
}
