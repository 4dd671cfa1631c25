/**
 * The estimator's constant price list. Every amount is an exact integer
 * number of cents (hundredths of a dollar) per month, so the decimal rates
 * of the price list (6.50 per GB of RAM, 0.15 per GB of SSD, 0.05 per GB of
 * HDD) need no floating point.
 */
module Pricing {

  /** Money, in cents per month. */
  type Cents = int

  /** The GPU selector: no GPU, an NVIDIA V100 or an NVIDIA A100. */
  datatype GpuType = NoGpu | V100 | A100

  /** The support level selector. */
  datatype Support = Basic | Business | Enterprise

  /** The four optional enterprise services, each a flat monthly fee. */
  datatype Service = MlOps | DataProcessing | Monitoring | Security

  /** The services in the order the price list and the configuration declare them. */
  const ServiceOrder: seq<Service> := [MlOps, DataProcessing, Monitoring, Security]

  /** Per CPU core: $40. */
  const CpuRate: Cents := 4000
  /** Per GB of RAM: $6.50. */
  const RamRate: Cents := 650
  /** Per GB of SSD storage: $0.15. */
  const SsdRate: Cents := 15
  /** Per GB of HDD storage: $0.05. */
  const HddRate: Cents := 5

  /** Flat monthly fee of a GPU selection; it does not depend on any quantity. */
  function GpuFee(g: GpuType): (fee: Cents)
    ensures fee == 0 <==> g == NoGpu
    ensures 0 <= fee <= 400000
  {
    match g
    case NoGpu => 0
    case V100 => 250000
    case A100 => 400000
  }

  /** Flat monthly fee of one enterprise service. */
  function ServiceFee(s: Service): (fee: Cents)
    ensures fee > 0
  {
    match s
    case MlOps => 200000
    case DataProcessing => 150000
    case Monitoring => 80000
    case Security => 120000
  }

  /** Flat monthly fee of a support level; basic support is included. */
  function SupportFee(t: Support): (fee: Cents)
    ensures fee == 0 <==> t == Basic
    ensures 0 <= fee <= 500000
  {
    match t
    case Basic => 0
    case Business => 100000
    case Enterprise => 500000
  }

  /** The four service fees together: $2,000 + $1,500 + $800 + $1,200. */
  const AllServicesFee: Cents :=
    ServiceFee(MlOps) + ServiceFee(DataProcessing) + ServiceFee(Monitoring) + ServiceFee(Security)
}
