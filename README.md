# Afterpay merchant adapter — Dafny model

This project models the decision logic of `SilverstripeMerchantApi`, the merchant-side adapter
that a SilverStripe e-commerce site uses to offer Afterpay "pay in instalments". The model
covers four parts of the adapter:

- **Eligibility gate.** `CanProcessPayment` decides whether a price lies in the
  `[minPrice, maxPrice]` window. When the window is not loaded yet, it first fills it from the
  provider's configuration list.
- **Configuration refresh.** `RetrieveConfig` and `RetrieveMinAndMaxFromConfig` load that
  configuration list, from a local fixture file or from the provider. They then take the window
  from the last `PAY_BY_INSTALLMENT` entry.
- **Instalment arithmetic.** `GetAmountPerPayment` splits the price over the configured number
  of payments and rounds up to whole cents.
- **Order and payment flow.** `CreateOrder` stores an order token. `CreatePayment` captures the
  payment with the token it is given, or else with the stored token.

The adapter is a class (`AfterpayFactory.SilverstripeMerchantApi`) whose methods update the
same fields as the PHP object:

- `isServerAvailable`;
- `minPrice` and `maxPrice`;
- `configurationInfo`, `orderToken` and `paymentInfo`.

Two log fields make the adapter's outside effects visible:

- `calls` records every call made to the provider.
- `notices` records every PHP `user_error`.

Outside inputs are explicit:

- The CMS settings (`merchant_id`, `secret_key`, `number_of_payments`) and the fixture files
  are constant values given to the constructor. A fixture is `None` when its file does not
  exist.
- Each provider answer is a `Result` parameter of the method that may make the call.

The pure parts are specification functions with lemmas:

- `Instalments`: the cent ceiling division.
- `ConfigWindow`: the configuration scan.
- `AfterpayFactory.RefreshConfig`: the refresh decision.

Money is in integer cents throughout. A PHP string is "falsy" (`empty()` or `if ($s)`) when it
is `""` or `"0"`; `IsFalsy` models that.

Four places where the code does something a reader might not expect. The model follows the code:

- **Price check.** The gate refuses only a zero price (`if ($price)`). A negative price still
  goes on to the window comparison. One might expect every non-positive price to be refused.
- **Errors do not stop execution.** `user_error` raises a notice, so execution carries on. This
  covers missing credentials, a capture with no token and a missing fixture. After a capture
  with no token, `createPayment` returns the previous payment. A missing fixture gives a
  default-constructed token or payment. One might expect these errors to stop the call.
- **Swapped bounds.** `retrieveMinAndMaxFromConfig` puts the configuration's *maximum* amount
  into `minPrice` and its *minimum* amount into `maxPrice`. The model reproduces this.
  `ConfigWindow.SwappedWindowAdmitsNothing` proves the consequence: after a refresh from a
  configuration whose minimum is below its maximum, no price passes the gate.
- **Extra notice.** A configuration refresh with no fixture file raises a "bad file specified"
  notice before it asks the provider.

`scenarios.dfy` holds this project's own example clients, which use only the contracts:

- a 50.00–500.00 window with 4 payments splits 100.00 into 25.00 instalments;
- an offline order token `abc123` is then used by a capture without a token;
- a capture with no order reports the error and calls nobody;
- a configuration with correctly ordered amounts opens no window;
- a negative price passes a window of negative bounds set with `SetMinAndMaxPrice`.

## Model

| member | source | states |
|---|---|---|
| `Instalments.CeilDiv` | src/Factory/SilverstripeMerchantApi.php:271-278 | The per-instalment amount in cents, `ceil(cents / n)`. For `n > 0`: n instalments cover the price (`r*n >= cents`) and overshoot it by less than one cent per instalment (`r*n - cents < n`). The mirrored bounds hold for `n < 0`. |
| `Instalments.CeilDivUnique` | src/Factory/SilverstripeMerchantApi.php:276 | Those bounds determine the result: any integer that meets them is the rounded-up quotient. |
| `Instalments.CeilDivExact` | src/Factory/SilverstripeMerchantApi.php:271-278 | When the price divides evenly, the instalments add up to exactly the price. |
| `Instalments.WorkedExamples` | src/Factory/SilverstripeMerchantApi.php:271-278 | 100.00 over 4 payments is 25.00 each. Over 3 payments it is 33.34 each, which totals 100.02. |
| `ConfigWindow.LastInstallment` | src/Factory/SilverstripeMerchantApi.php:450-455 | Finds the last `PAY_BY_INSTALLMENT` entry: no later entry has that type. `None` means no entry has it. |
| `ConfigWindow.ScanIsLastInstallment` | src/Factory/SilverstripeMerchantApi.php:446-457 | The loop's result depends only on the last `PAY_BY_INSTALLMENT` entry. Without one the bounds are unchanged. With one they become `(maximumAmount, minimumAmount)` of that entry. |
| `ConfigWindow.ScanIdempotent` | src/Factory/SilverstripeMerchantApi.php:446-457 | Scanning the same list a second time leaves the window unchanged. |
| `ConfigWindow.SwappedWindowAdmitsNothing` | src/Factory/SilverstripeMerchantApi.php:452-453 | Because the amounts are swapped, a last entry with minimum < maximum gives a window that admits no price. |
| `ConfigWindow.SwappedWindowAdmits` | src/Factory/SilverstripeMerchantApi.php:220-225 | After a scan that found an entry, a price passes the window check exactly when both amounts are non-zero and `maximumAmount <= price <= minimumAmount`. |
| `AfterpayFactory.MissingSettingsExactly` | src/Factory/SilverstripeMerchantApi.php:164-172 | A setting is reported missing exactly when it is one of the checked names and its value is empty. |
| `AfterpayFactory.CredentialsChecked` | src/Factory/SilverstripeMerchantApi.php:164-172 | Enabling the server raises no notice exactly when both `merchant_id` and `secret_key` are non-empty. |
| `AfterpayFactory.RefreshConfig` | src/Factory/SilverstripeMerchantApi.php:422-444 | The refresh reloads only when the cache is empty or a reload is forced. A present fixture is used and the provider is not asked. A missing fixture raises a notice, and then the provider is asked only if it is available. A provider exception keeps the cached list; a provider answer replaces it. |
| `AfterpayFactory.RefreshTwiceIsStable` | src/Factory/SilverstripeMerchantApi.php:424-457 | Refresh-and-scan twice without forcing, with a fixture or a non-empty first result: the second refresh calls nobody, keeps the list and leaves the window where the first put it. |
| `AfterpayFactory.SilverstripeMerchantApi.constructor` | src/Factory/SilverstripeMerchantApi.php:60-124 | A new adapter is offline, with a zero window and an empty configuration cache. It holds no order token and no payment. |
| `AfterpayFactory.SilverstripeMerchantApi.SetIsServerAvailable` | src/Factory/SilverstripeMerchantApi.php:160-176 | Sets the flag to the argument even when validation fails. When enabling, it appends one notice per empty credential, in order `merchant_id`, `secret_key`. Nothing else changes. |
| `AfterpayFactory.SilverstripeMerchantApi.SetMinAndMaxPrice` | src/Factory/SilverstripeMerchantApi.php:183-189 | Sets exactly `minPrice` and `maxPrice`; no other field changes. |
| `AfterpayFactory.SilverstripeMerchantApi.GetIsServerAvailable` | src/Factory/SilverstripeMerchantApi.php:200-203 | Returns the availability flag and changes nothing. |
| `AfterpayFactory.SilverstripeMerchantApi.LoadFixture` | src/Factory/SilverstripeMerchantApi.php:468-498 | Returns the fixture's contents if the file exists. Otherwise it raises a "bad file" notice and a "could not create" notice and returns the default-constructed value. |
| `AfterpayFactory.SilverstripeMerchantApi.RetrieveConfig` | src/Factory/SilverstripeMerchantApi.php:422-444 | The new cache, notices and provider calls are those `RefreshConfig` gives for the old cache. It returns `None` exactly on a provider exception, otherwise the cached list. |
| `AfterpayFactory.SilverstripeMerchantApi.RetrieveMinAndMaxFromConfig` | src/Factory/SilverstripeMerchantApi.php:446-457 | Refreshes without forcing, then walks the list in a loop. The new bounds are the scan of the refreshed list from the old bounds. |
| `AfterpayFactory.SilverstripeMerchantApi.CanProcessPayment` | src/Factory/SilverstripeMerchantApi.php:212-230 | A zero price or an unavailable server gives false and changes nothing. A loaded window (both bounds non-zero) is used as is, with no refresh. Otherwise the window is refreshed first. The result is true exactly when price ≠ 0, the server is available, both bounds are non-zero and `minPrice <= price <= maxPrice`. |
| `AfterpayFactory.SilverstripeMerchantApi.GetAmountPerPayment` | src/Factory/SilverstripeMerchantApi.php:265-284 | Returns 0 when the gate refuses the price or the number of payments is 0. Otherwise the result in cents covers the price when multiplied by the number of payments, and overshoots it by less than one cent per payment. Its effect on the state is the gate's. |
| `AfterpayFactory.SilverstripeMerchantApi.CreateOrder` | src/Factory/SilverstripeMerchantApi.php:296-315 | Online, it calls the provider once. It stores and returns the token on success. On an exception it returns the error and keeps the old token. Offline, it stores and returns the fixture token, or the default token with two notices when the fixture file is missing. |
| `AfterpayFactory.SilverstripeMerchantApi.CreatePayment` | src/Factory/SilverstripeMerchantApi.php:324-355 | Online, it captures with the argument token, or else the stored order's token. It stores the payment on success and returns the error on an exception. With no usable token it raises "create an order first", calls nobody and returns the previous payment unchanged. Offline, it ignores the token and loads the payment fixture. |

## Left out

- `getAmountPerPaymentForCurrentOrder` (lines 242-256) is not modelled: it needs the
  shopping-cart, order and currency-field classes of other packages, which are not part of this
  model.
- `getNumberOfPayments` (lines 232-235) is a plain settings read. The model reads
  `settings.numberOfPayments` directly.
- HTTP transport and framework plumbing are not modelled: the singleton `inst()`, the
  constructor's `user_error`, `setupAuthorization`, `setupGuzzleClient`, `getUserAgentString`,
  `getConnectionURL`, `ping_end_point`, `isTest` and the connection URLs.
- The provider SDK is not modelled. Each call is a logged `ProviderCall` whose answer is a
  given `Result`.
- Prices are modelled as integer cents, so floating point is not modelled: `floatval`,
  `$price * 100` and the division's rounding error are out. A non-numeric price is modelled as
  price 0, which is what `floatval` makes of it.
- `GetAmountPerPayment` returns cents, not the PHP's float in dollars (`cents / 100`).
- Configuration amounts are modelled as cents, where 0 is PHP-`empty`. The SDK's amount strings
  (where `"0.00"` is not `empty`) are not modelled.
- JSON deserialisation is not modelled: an existing fixture is given as its deserialised value.
  A fixture file that exists but is empty is not modelled. For the configuration list, PHP
  would then try to instantiate a class named `array<...>`.
- The order details, token and payment keep only the fields this model tells apart. The
  remaining SDK fields are not modelled.
- `user_error` severity is modelled as a logged `Notice` after which execution continues
  (PHP's default `E_USER_NOTICE`). A site that turns notices into exceptions would stop at the
  first one; that is not modelled.
- Settings and fixture files are constant for the lifetime of one adapter. Files changing while
  the adapter runs are not modelled.
