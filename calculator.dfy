/**
 * The estimator's state: the current configuration and the estimate last
 * derived from it. Every edit replaces the configuration with a copy that
 * differs in one field and then recomputes the whole estimate before it
 * returns, so no stale estimate is ever observable.
 */
module Calculator {
  import opened Pricing
  import opened Configuration
  import opened CostReducer

  class Estimator {
    var config: Config
    var costs: Costs
    var totalCost: Cents

    /** The estimate is that of the current configuration, and the total is its exact sum. */
    ghost predicate Valid()
      reads this
    {
      costs == Breakdown(config) && totalCost == costs.Total()
    }

    /** Initial state (all costs zero), then the recomputation that follows it. */
    constructor ()
      ensures Valid() && config == Default()
      ensures costs == Costs(52800, 17500, 0, 0) && totalCost == 70300
    {
      config := Default();
      costs := Costs(0, 0, 0, 0);
      totalCost := 0;
      new;
      Recompute();
      DefaultBreakdown();
    }

    /** Derive the four components from the configuration, then their total. */
    method Recompute()
      modifies this`costs, this`totalCost
      ensures Valid()
    {
      var computeCost := ComputeCost(config.compute);
      var storageCost := StorageCost(config.storage);
      var servicesCost := ServicesCost(config.services);
      var supportCost := SupportFee(config.support);
      costs := Costs(computeCost, storageCost, servicesCost, supportCost);
      totalCost := computeCost + storageCost + servicesCost + supportCost;
    }

    /** The CPU cores slider. */
    method SetCpuCores(cores: int)
      requires Valid()
      modifies this
      ensures Valid()
      ensures config == old(config).(compute := old(config).compute.(cpuCores := cores))
      ensures costs == old(costs).(compute := old(costs).compute + (cores - old(config).compute.cpuCores) * CpuRate)
      ensures old(config).compute.cpuCores <= cores ==> old(totalCost) <= totalCost
      ensures old(InRange(config)) && CoresSlider(cores) ==> InRange(config)
    {
      config := config.(compute := config.compute.(cpuCores := cores));
      Recompute();
    }

    /** The GPU selector. */
    method SetGpuType(gpu: GpuType)
      requires Valid()
      modifies this
      ensures Valid()
      ensures config == old(config).(compute := old(config).compute.(gpuType := gpu))
      ensures costs == old(costs).(compute := old(costs).compute - GpuFee(old(config).compute.gpuType) + GpuFee(gpu))
      ensures totalCost == old(totalCost) - GpuFee(old(config).compute.gpuType) + GpuFee(gpu)
      ensures old(InRange(config)) ==> InRange(config)
    {
      config := config.(compute := config.compute.(gpuType := gpu));
      Recompute();
    }

    /** The RAM slider. */
    method SetRam(ram: int)
      requires Valid()
      modifies this
      ensures Valid()
      ensures config == old(config).(compute := old(config).compute.(ram := ram))
      ensures costs == old(costs).(compute := old(costs).compute + (ram - old(config).compute.ram) * RamRate)
      ensures old(config).compute.ram <= ram ==> old(totalCost) <= totalCost
      ensures old(InRange(config)) && RamSlider(ram) ==> InRange(config)
    {
      config := config.(compute := config.compute.(ram := ram));
      Recompute();
    }

    /** The SSD slider. */
    method SetSsd(ssd: int)
      requires Valid()
      modifies this
      ensures Valid()
      ensures config == old(config).(storage := old(config).storage.(ssd := ssd))
      ensures costs == old(costs).(storage := old(costs).storage + (ssd - old(config).storage.ssd) * SsdRate)
      ensures old(config).storage.ssd <= ssd ==> old(totalCost) <= totalCost
      ensures old(InRange(config)) && SsdSlider(ssd) ==> InRange(config)
    {
      config := config.(storage := config.storage.(ssd := ssd));
      Recompute();
    }

    /** The HDD slider. */
    method SetHdd(hdd: int)
      requires Valid()
      modifies this
      ensures Valid()
      ensures config == old(config).(storage := old(config).storage.(hdd := hdd))
      ensures costs == old(costs).(storage := old(costs).storage + (hdd - old(config).storage.hdd) * HddRate)
      ensures old(config).storage.hdd <= hdd ==> old(totalCost) <= totalCost
      ensures old(InRange(config)) && HddSlider(hdd) ==> InRange(config)
    {
      config := config.(storage := config.storage.(hdd := hdd));
      Recompute();
    }

    /** The check box of one enterprise service. */
    method SetService(k: Service, checked: bool)
      requires Valid()
      modifies this
      ensures Valid()
      ensures config == old(config).(services := old(config).services.With(k, checked))
      ensures costs == old(costs).(services := old(costs).services
                                   - FeeIf(old(config).services.Enabled(k), k) + FeeIf(checked, k))
      ensures totalCost == old(totalCost) - FeeIf(old(config).services.Enabled(k), k) + FeeIf(checked, k)
      ensures checked == old(config).services.Enabled(k) ==>
                config == old(config) && costs == old(costs) && totalCost == old(totalCost)
      ensures old(InRange(config)) ==> InRange(config)
    {
      ServicesCostOfWith(config.services, k, checked);
      WithSameIsIdentity(config.services, k);
      config := config.(services := config.services.With(k, checked));
      Recompute();
    }

    /** The support level selector. */
    method SetSupport(level: Support)
      requires Valid()
      modifies this
      ensures Valid()
      ensures config == old(config).(support := level)
      ensures costs == old(costs).(support := SupportFee(level))
      ensures totalCost == old(totalCost) - SupportFee(old(config).support) + SupportFee(level)
      ensures old(InRange(config)) ==> InRange(config)
    {
      config := config.(support := level);
      Recompute();
    }
  }
}
