/** Which attribute carries which metric (app/constants_native.py). */
module Projections {
  import opened Constants
  import opened NativeProjection

  const SHARED_PROJECTION: seq<Row<MetricKey>> := [
    Row(WorstVm(VcpuReady), "Contention", "Worst vCPU Ready Pct"),
    Row(P90Vm(VcpuReady), "Contention", "P90 vCPU Ready Pct"),
    Row(WorstVm(VcpuCostop), "Contention", "Worst vCPU Co-Stop Pct"),
    Row(P90Vm(VcpuCostop), "Contention", "P90 vCPU Co-Stop Pct"),
    Row(WorstVm(MemoryContention), "Contention", "Worst VM Memory Contention Pct"),
    Row(P90Vm(MemoryContention), "Contention", "P90 VM Memory Contention Pct"),
    Row(HostMemoryContention, "Contention", "Host Memory Contention Pct"),
    Row(WorstVm(DiskLatency), "Storage", "Worst Disk Latency Ms"),
    Row(P90Vm(DiskLatency), "Storage", "P90 Disk Latency Ms"),
    Row(HostDroppedPackets, "Network", "Host Dropped Packets Pct"),
    Row(HostMemoryZipSwap, "Memory", "Host Zip Swap Pct"),
    Row(HostCpuImbalanceRatio, "Balance", "Host CPU Imbalance Ratio"),
    Row(CpuMonsterVmSizeRatio, "CPU", "Monster VM Size Ratio"),
    Row(MemoryMonsterVmSizeRatio, "Memory", "Monster VM Size Ratio")
  ]

  const CLUSTER_ROWS: seq<Row<MetricKey>> := [
    Row(CpuThreadUtilization, "CPU", "Max Host Thread Utilization Pct"),
    Row(ClusterCpuOvercommitRatio, "CPU", "Overcommit Ratio"),
    Row(ClusterCpuImbalance, "Balance", "DRS CPU Imbalance"),
    Row(VmotionPct, "Balance", "vMotion Pct"),
    Row(MemoryBallooned, "Memory", "Max Host Ballooned Pct"),
    Row(ClusterMemoryOvercommitRatio, "Memory", "Overcommit Ratio"),
    Row(NetworkThroughput, "Network", "Max Host Throughput Pct"),
    Row(DiskIops, "Storage", "Max Host Disk IOPS")
  ]

  const HOST_ROWS: seq<Row<MetricKey>> := [
    Row(HostCpuThreadUtilization, "CPU", "Thread Utilization Pct"),
    Row(HostCpuReservation, "CPU", "Reservation Pct"),
    Row(HostCpuOvercommitRatio, "CPU", "Overcommit Ratio"),
    Row(HostMemoryConsumed, "Memory", "Consumed Pct"),
    Row(HostMemoryBallooned, "Memory", "Ballooned Pct"),
    Row(HostMemoryReservation, "Memory", "Reservation Pct"),
    Row(HostMemoryOvercommitRatio, "Memory", "Overcommit Ratio")
  ]

  const CLUSTER_PROJECTION: seq<Row<MetricKey>> := SHARED_PROJECTION + CLUSTER_ROWS
  const HOST_PROJECTION: seq<Row<MetricKey>> := SHARED_PROJECTION + HOST_ROWS
}
