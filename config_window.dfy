/**
 * The eligibility window read from the provider's configuration list. The adapter walks the
 * list in order and, for every entry of type PAY_BY_INSTALLMENT, overwrites its window; so the
 * last such entry wins. As written, the window's lower bound is taken from the entry's MAXIMUM
 * amount and its upper bound from the entry's MINIMUM amount. All amounts are in cents.
 */
module ConfigWindow {
  import opened Wrappers

  /** The configuration type whose amounts bound the window. */
  const PayByInstallment: string := "PAY_BY_INSTALLMENT"

  /** One entry of the provider's configuration list. */
  datatype ProviderConfig = ProviderConfig(kind: string, minimumAmount: int, maximumAmount: int)

  /** The adapter's [minPrice, maxPrice] pair; a zero bound means "not loaded". */
  datatype Window = Window(minPrice: int, maxPrice: int)

  /** The effect of one loop iteration over the configuration list. */
  function Step(w: Window, c: ProviderConfig): Window
  {
    if c.kind == PayByInstallment then Window(c.maximumAmount, c.minimumAmount) else w
  }

  /** The window after walking `configs` from the first entry to the last, starting from `w`. */
  function Scan(configs: seq<ProviderConfig>, w: Window): Window
    decreases |configs|
  {
    if configs == [] then w else Step(Scan(configs[..|configs| - 1], w), configs[|configs| - 1])
  }

  /** The index of the last PAY_BY_INSTALLMENT entry, if there is one. */
  function LastInstallment(configs: seq<ProviderConfig>): (r: Option<nat>)
    ensures r.Some? ==> r.value < |configs| && configs[r.value].kind == PayByInstallment
    ensures r.Some? ==> forall j :: r.value < j < |configs| ==> configs[j].kind != PayByInstallment
    ensures r.None? ==> forall j :: 0 <= j < |configs| ==> configs[j].kind != PayByInstallment
    decreases |configs|
  {
    if configs == [] then None
    else if configs[|configs| - 1].kind == PayByInstallment then Some(|configs| - 1)
    else LastInstallment(configs[..|configs| - 1])
  }

  /** Whether the gate lets `price` through a loaded window. */
  predicate Admits(w: Window, price: int)
  {
    w.minPrice != 0 && w.maxPrice != 0 && w.minPrice <= price <= w.maxPrice
  }

  /**
   * The scan is decided by the last PAY_BY_INSTALLMENT entry alone: without one the window is
   * left as it was, with one the window is that entry's (maximum, minimum) pair.
   */
  lemma {:induction false} ScanIsLastInstallment(configs: seq<ProviderConfig>, w: Window)
    ensures LastInstallment(configs).None? ==> Scan(configs, w) == w
    ensures LastInstallment(configs).Some? ==>
      var c := configs[LastInstallment(configs).value];
      Scan(configs, w) == Window(c.maximumAmount, c.minimumAmount)
    decreases |configs|
  {
    if configs != [] {
      var init := configs[..|configs| - 1];
      ScanIsLastInstallment(init, w);
      if configs[|configs| - 1].kind != PayByInstallment {
        assert LastInstallment(configs) == LastInstallment(init);
        if LastInstallment(init).Some? {
          assert init[LastInstallment(init).value] == configs[LastInstallment(init).value];
        }
      }
    }
  }

  /** Walking the same list a second time changes nothing (a repeated refresh is stable). */
  lemma {:induction false} ScanIdempotent(configs: seq<ProviderConfig>, w: Window)
    ensures Scan(configs, Scan(configs, w)) == Scan(configs, w)
  {
    ScanIsLastInstallment(configs, w);
    ScanIsLastInstallment(configs, Scan(configs, w));
  }

  /**
   * Because the amounts are swapped, a PAY_BY_INSTALLMENT entry with minimum below maximum
   * yields a window whose lower bound exceeds its upper bound, so the gate admits no price.
   */
  lemma {:induction false} SwappedWindowAdmitsNothing(configs: seq<ProviderConfig>, w: Window, price: int)
    requires LastInstallment(configs).Some?
    requires configs[LastInstallment(configs).value].minimumAmount
             < configs[LastInstallment(configs).value].maximumAmount
    ensures !Admits(Scan(configs, w), price)
  {
    ScanIsLastInstallment(configs, w);
  }

  /**
   * After a scan that found a PAY_BY_INSTALLMENT entry, the window admits exactly the prices
   * from that entry's maximum amount up to its minimum amount (both non-zero). For an entry with
   * minimum <= maximum that is at most the one price where they are equal; for an entry whose
   * amounts are stored the other way round it is the whole range between them.
   */
  lemma {:induction false} SwappedWindowAdmits(configs: seq<ProviderConfig>, w: Window, price: int)
    requires LastInstallment(configs).Some?
    ensures Admits(Scan(configs, w), price) <==>
      var c := configs[LastInstallment(configs).value];
      c.maximumAmount != 0 && c.minimumAmount != 0 && c.maximumAmount <= price <= c.minimumAmount
  {
    ScanIsLastInstallment(configs, w);
  }
}
