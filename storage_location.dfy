/** Where a node's backups live: the provider, the bucket (container) and
    the cluster, datacenter and node ids that prefix every remote key. */
module StorageLocation {
  datatype StorageLocation = StorageLocation(storageProvider: string, bucket: string, clusterId: string, datacenterId: string, nodeId: string)
}
