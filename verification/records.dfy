/** The records the EC2, RDS and Route53 clients hand to the inventory, the settings
    read from the ini file and the command line, and the ways a run can abort. The
    provider itself is a value: what each region returns, and the DNS zones. */
module Records {
  import opened Strings

  datatype SecurityGroup = SecurityGroup(id: string, name: string)

  /** A value of one attribute of an instance object, as the host-detail flatten sees it
      (playbooks/ec2.py:528-549). `Other` stands for every type it does not handle. */
  datatype AttrValue =
    | Int(i: int)
    | Bool(b: bool)
    | Str(s: string)
    | Null
    | Region(name: string)
    | Tags(tags: seq<(string, string)>)
    | Groups(groups: seq<SecurityGroup>)
    | Other

  /** The address attributes a destination variable may name. */
  datatype AddressAttribute = PublicDnsName | PrivateDnsName | IpAddress | PrivateIpAddress

  /** An EC2 instance. `subnetId` is "" when the instance has no subnet (`None`, outside
      a VPC); the address attributes and `keyName` are `None` when unset. `groups` is
      `None` when the client exposes no `groups` accessor (an outdated boto).
      `attributes` is the object's own attribute dictionary, in iteration order. */
  datatype Instance = Instance(
    id: string,
    state: string,
    subnetId: string,
    publicDnsName: Option<string>,
    privateDnsName: Option<string>,
    ipAddress: Option<string>,
    privateIpAddress: Option<string>,
    placement: string,
    instanceType: string,
    keyName: Option<string>,
    groups: Option<seq<SecurityGroup>>,
    tags: seq<(string, string)>,
    attributes: seq<(string, AttrValue)>)

  /** The `security_group` of an RDS instance: no such accessor, `None`, or a group. */
  datatype DbSecurityGroup = NoAccessor | NoGroup | DbGroup(name: string)

  /** An RDS instance. `endpoint` is the address half of the endpoint pair, `None` when
      the instance has no endpoint pair at all. */
  datatype DbInstance = DbInstance(
    id: string,
    status: string,
    endpoint: Option<string>,
    availabilityZone: string,
    instanceClass: string,
    securityGroup: DbSecurityGroup,
    engine: string,
    parameterGroup: string)

  datatype RecordSet = RecordSet(name: string, resourceRecords: seq<string>)

  datatype Zone = Zone(id: string, name: string, recordSets: seq<RecordSet>)

  /** What the cloud answers. `ec2` maps each region EC2 can connect to onto its
      reservations (each already in the order the client sorts it); `rds` maps each region
      RDS can connect to onto its database instances; `zones` are the Route53 zones with
      their record sets. */
  datatype Provider = Provider(
    ec2: map<string, seq<seq<Instance>>>,
    rds: map<string, seq<DbInstance>>,
    zones: seq<Zone>)

  /** The ini-file settings the core uses (`read_settings`). */
  datatype Settings = Settings(
    regions: seq<string>,
    destinationVariable: AddressAttribute,
    vpcDestinationVariable: AddressAttribute,
    route53Enabled: bool,
    route53ExcludedZones: seq<string>,
    cacheMaxAge: int)

  /** The command-line arguments the core uses (`parse_cli_args`); `--list` is always on. */
  datatype Args = Args(tagsOnly: bool, host: Option<string>, refreshCache: bool)

  /** Why a run stops: the process exits or an exception escapes the inventory. */
  datatype Fault =
    | RegionUnsupported(region: string)   // EC2 cannot connect to the region
    | OutdatedClient                      // a record lacks its security-group accessor
    | MissingEndpoint                     // an available RDS instance has no endpoint pair
    | IndexUnreadable                     // the index cache file is missing or holds a list
    | CacheUnreadable                     // the inventory cache file is missing
    | HostRecordMissing                   // the indexed instance is no longer returned

  /** The outcome of an operation that may stop the run. */
  datatype Result<T> = Ok(value: T) | Err(fault: Fault)

  /** One entry of the index: `[region, instance id]`. */
  datatype IndexEntry = IndexEntry(region: string, id: string)
}
