/**
 * The accelerator descriptors that GPU discovery hands to the launch policy.
 * Only the two fields the policy reads are modelled; how devices are
 * enumerated is not part of this model.
 */
module Discover {

  /** One detected device: its runtime library ("cuda", "rocm", "metal", "cpu", ...)
      and the major version reported in its `DriverMajor` field. */
  datatype GpuInfo = GpuInfo(library: string, driverMajor: int)

  /** The ordered device list (`GpuInfoList`). */
  type GpuInfoList = seq<GpuInfo>
}
