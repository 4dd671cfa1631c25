/**
 * The estimator's resource configuration: a record of compute, storage,
 * service and support choices, its initial value, and the value ranges
 * that the form's sliders produce.
 */
module Configuration {
  import opened Pricing

  datatype Compute = Compute(cpuCores: int, gpuType: GpuType, ram: int)

  datatype Storage = Storage(ssd: int, hdd: int)

  /** One check box per enterprise service. */
  datatype Services = Services(mlOps: bool, dataProcessing: bool, monitoring: bool, security: bool)
  {
    /** Whether service `k` is ticked. */
    predicate Enabled(k: Service) {
      match k
      case MlOps => mlOps
      case DataProcessing => dataProcessing
      case Monitoring => monitoring
      case Security => security
    }

    /** The record with the box of `k` set to `checked`, every other box as before. */
    function With(k: Service, checked: bool): (r: Services)
      ensures r.Enabled(k) == checked
      ensures forall j :: j != k ==> r.Enabled(j) == Enabled(j)
    {
      match k
      case MlOps => this.(mlOps := checked)
      case DataProcessing => this.(dataProcessing := checked)
      case Monitoring => this.(monitoring := checked)
      case Security => this.(security := checked)
    }

    /** The entries of the record in declaration order, as the fold over them sees them. */
    function Entries(): (es: seq<(Service, bool)>)
      ensures |es| == 4
      ensures forall i :: 0 <= i < |es| ==> es[i].1 == Enabled(es[i].0)
      ensures forall i :: 0 <= i < |es| ==> es[i].0 == ServiceOrder[i]
    {
      [(MlOps, mlOps), (DataProcessing, dataProcessing), (Monitoring, monitoring), (Security, security)]
    }

    /** The ticked services, as a set. */
    function EnabledSet(): (ks: set<Service>)
      ensures forall k :: k in ks <==> Enabled(k)
    {
      set k: Service | Enabled(k)
    }
  }

  datatype Config = Config(compute: Compute, storage: Storage, services: Services, support: Support)

  const NoServices := Services(false, false, false, false)
  const AllServices := Services(true, true, true, true)

  /** The configuration a session starts with. */
  function Default(): (c: Config)
    ensures InRange(c)
    ensures c.services.EnabledSet() == {}
  {
    Config(Compute(8, NoGpu, 32), Storage(500, 2000), NoServices, Basic)
  }

  /** `v` is a value a range slider from `lo` to `hi` in steps of `step` can produce. */
  predicate OnSlider(v: int, lo: int, hi: int, step: int)
    requires step > 0
  {
    lo <= v <= hi && (v - lo) % step == 0
  }

  predicate CoresSlider(v: int) { OnSlider(v, 4, 96, 1) }
  predicate RamSlider(v: int) { OnSlider(v, 16, 512, 16) }
  predicate SsdSlider(v: int) { OnSlider(v, 100, 10000, 100) }
  predicate HddSlider(v: int) { OnSlider(v, 1000, 50000, 1000) }

  /** Every numeric field holds a value its slider can produce. */
  predicate InRange(c: Config) {
    CoresSlider(c.compute.cpuCores) && RamSlider(c.compute.ram)
    && SsdSlider(c.storage.ssd) && HddSlider(c.storage.hdd)
  }

  /** No quantity is negative. */
  predicate QuantitiesNonNegative(c: Config) {
    c.compute.cpuCores >= 0 && c.compute.ram >= 0 && c.storage.ssd >= 0 && c.storage.hdd >= 0
  }

  /** Slider-range configurations have no negative quantity. */
  lemma InRangeIsNonNegative(c: Config)
    requires InRange(c)
    ensures QuantitiesNonNegative(c)
  {
  }

  /** Setting one box to the value it already has changes nothing. */
  lemma WithSameIsIdentity(s: Services, k: Service)
    ensures s.With(k, s.Enabled(k)) == s
  {
  }

  /** Ticking an unticked box and unticking it again restores the record. */
  lemma OnThenOffRestores(s: Services, k: Service)
    requires !s.Enabled(k)
    ensures s.With(k, true).With(k, false) == s
  {
  }
}
