/**
 * The cost reducer: a pure function from a configuration to the four cost
 * components (compute, storage, services, support) of a monthly estimate,
 * and the properties of the estimate.
 */
module CostReducer {
  import opened Pricing
  import opened Configuration

  /** The itemised monthly estimate, in cents. */
  datatype Costs = Costs(compute: Cents, storage: Cents, services: Cents, support: Cents)
  {
    /** The estimate's total: the four components added up. */
    function Total(): Cents {
      compute + storage + services + support
    }

    predicate NonNegative() {
      compute >= 0 && storage >= 0 && services >= 0 && support >= 0
    }
  }

  /** Per-core and per-GB rates plus the flat GPU fee. */
  function ComputeCost(c: Compute): (r: Cents)
    ensures c.cpuCores >= 0 && c.ram >= 0 ==> r >= GpuFee(c.gpuType)
  {
    c.cpuCores * CpuRate + GpuFee(c.gpuType) + c.ram * RamRate
  }

  /** Per-GB rates of the two storage kinds. */
  function StorageCost(s: Storage): (r: Cents)
    ensures s.ssd >= 0 && s.hdd >= 0 ==> r >= 0
    ensures s.ssd > 0 && s.hdd >= 0 ==> r > 0
  {
    s.ssd * SsdRate + s.hdd * HddRate
  }

  /** The reduce over the service entries: left to right, adding the fee of each ticked entry to `acc`. */
  function Reduce(entries: seq<(Service, bool)>, acc: Cents): (r: Cents)
    ensures r >= acc
    decreases |entries|
  {
    if entries == [] then acc
    else
      var (key, enabled) := entries[0];
      Reduce(entries[1..], if enabled then acc + ServiceFee(key) else acc)
  }

  /** The fee of `k` if it is ticked, and nothing otherwise. */
  function FeeIf(enabled: bool, k: Service): Cents {
    if enabled then ServiceFee(k) else 0
  }

  /** Reference definition: the sum of the fees of the ticked entries. */
  function EnabledFeeSum(entries: seq<(Service, bool)>): (r: Cents)
    ensures r >= 0
    ensures r == 0 <==> forall i :: 0 <= i < |entries| ==> !entries[i].1
    decreases |entries|
  {
    if entries == [] then 0
    else FeeIf(entries[0].1, entries[0].0) + EnabledFeeSum(entries[1..])
  }

  /** The services component: the reduce over the record's entries, from 0. */
  function ServicesCost(s: Services): (r: Cents)
    ensures r >= 0
  {
    Reduce(s.Entries(), 0)
  }

  /** The whole estimate of a configuration. */
  function Breakdown(c: Config): (r: Costs)
    ensures QuantitiesNonNegative(c) ==> r.NonNegative()
    ensures r.services <= AllServicesFee
  {
    ServicesCostBounded(c.services);
    Costs(ComputeCost(c.compute), StorageCost(c.storage), ServicesCost(c.services), SupportFee(c.support))
  }

  // ---------------------------------------------------------------------------
  // The services fold

  /** The left fold with an accumulator adds the reference sum to the accumulator. */
  lemma {:induction false} ReduceIsSum(entries: seq<(Service, bool)>, acc: Cents)
    ensures Reduce(entries, acc) == acc + EnabledFeeSum(entries)
    decreases |entries|
  {
    if entries != [] {
      var (key, enabled) := entries[0];
      ReduceIsSum(entries[1..], if enabled then acc + ServiceFee(key) else acc);
    }
  }

  /** The services component is the sum of the fees of exactly the ticked services. */
  lemma ServicesCostIsSumOfEnabledFees(s: Services)
    ensures ServicesCost(s) == FeeIf(s.mlOps, MlOps) + FeeIf(s.dataProcessing, DataProcessing)
                               + FeeIf(s.monitoring, Monitoring) + FeeIf(s.security, Security)
  {
    var es := s.Entries();
    ReduceIsSum(es, 0);
    assert EnabledFeeSum(es[3..]) == FeeIf(s.security, Security) by {
      assert es[3..][1..] == [];
    }
    assert EnabledFeeSum(es[2..]) == FeeIf(s.monitoring, Monitoring) + EnabledFeeSum(es[3..]) by {
      assert es[2..][1..] == es[3..];
    }
    assert EnabledFeeSum(es[1..]) == FeeIf(s.dataProcessing, DataProcessing) + EnabledFeeSum(es[2..]) by {
      assert es[1..][1..] == es[2..];
    }
  }

  /** No ticked service costs nothing, and a ticked one always costs something. */
  lemma ServicesCostZeroIffNoneEnabled(s: Services)
    ensures ServicesCost(s) == 0 <==> s.EnabledSet() == {}
  {
    ServicesCostIsSumOfEnabledFees(s);
    if s.EnabledSet() == {} {
      assert s == NoServices by {
        assert !s.Enabled(MlOps) && !s.Enabled(DataProcessing);
        assert !s.Enabled(Monitoring) && !s.Enabled(Security);
      }
    }
  }

  /** The services component never exceeds the fees of all four services together. */
  lemma ServicesCostBounded(s: Services)
    ensures 0 <= ServicesCost(s) <= AllServicesFee
  {
    ServicesCostIsSumOfEnabledFees(s);
  }

  /** All four services cost exactly $5,500. */
  lemma AllServicesCost()
    ensures ServicesCost(AllServices) == AllServicesFee
  {
    ServicesCostIsSumOfEnabledFees(AllServices);
  }

  /** Setting one box moves the services component by that service's fee only. */
  lemma ServicesCostOfWith(s: Services, k: Service, checked: bool)
    ensures ServicesCost(s.With(k, checked)) == ServicesCost(s) - FeeIf(s.Enabled(k), k) + FeeIf(checked, k)
  {
    ServicesCostIsSumOfEnabledFees(s);
    ServicesCostIsSumOfEnabledFees(s.With(k, checked));
  }

  /** Ticking a service and then unticking it returns the services component to its prior value. */
  lemma ServicesCostOnThenOff(s: Services, k: Service)
    requires !s.Enabled(k)
    ensures ServicesCost(s.With(k, true)) == ServicesCost(s) + ServiceFee(k)
    ensures ServicesCost(s.With(k, true).With(k, false)) == ServicesCost(s)
  {
    ServicesCostOfWith(s, k, true);
    ServicesCostOfWith(s.With(k, true), k, false);
  }

  // ---------------------------------------------------------------------------
  // The whole estimate

  /** Turning on all four services adds exactly $5,500 to the services component and to the total, whatever else is chosen. */
  lemma AllServicesAddFixedAmount(c: Config)
    requires c.services == NoServices
    ensures var before, after := Breakdown(c), Breakdown(c.(services := AllServices));
      after.compute == before.compute && after.storage == before.storage && after.support == before.support
      && after.services == before.services + AllServicesFee
      && after.Total() == before.Total() + AllServicesFee
  {
    ServicesCostZeroIffNoneEnabled(NoServices);
    AllServicesCost();
  }

  /** The initial configuration costs $528 compute, $175 storage, nothing else: $703 in all. */
  lemma DefaultBreakdown()
    ensures Breakdown(Default()) == Costs(52800, 17500, 0, 0)
    ensures Breakdown(Default()).Total() == 70300
  {
    ServicesCostZeroIffNoneEnabled(NoServices);
  }

  /** The GPU fee is flat: it is added once, independent of cores and RAM. */
  lemma GpuFeeIsFlat(c: Compute, g: GpuType)
    ensures ComputeCost(c.(gpuType := g)) == ComputeCost(c.(gpuType := NoGpu)) + GpuFee(g)
  {
  }

  /** More cores never lower the compute component. */
  lemma ComputeCostMonotoneInCores(c: Compute, cores: int)
    requires c.cpuCores <= cores
    ensures ComputeCost(c) <= ComputeCost(c.(cpuCores := cores))
  {
  }

  /** More RAM never lowers the compute component. */
  lemma ComputeCostMonotoneInRam(c: Compute, ram: int)
    requires c.ram <= ram
    ensures ComputeCost(c) <= ComputeCost(c.(ram := ram))
  {
  }

  /** More SSD never lowers the storage component. */
  lemma StorageCostMonotoneInSsd(s: Storage, ssd: int)
    requires s.ssd <= ssd
    ensures StorageCost(s) <= StorageCost(s.(ssd := ssd))
  {
  }

  /** More HDD never lowers the storage component. */
  lemma StorageCostMonotoneInHdd(s: Storage, hdd: int)
    requires s.hdd <= hdd
    ensures StorageCost(s) <= StorageCost(s.(hdd := hdd))
  {
  }
}
