/**
 * The cloud SDK as the command handlers see it: the request records they build,
 * the calls they issue, and the snapshots the SDK hands back. The SDK itself is
 * opaque; `Cloud` stands for whatever answers it gives.
 */
module Aws {
  import opened Wrappers

  /** A Python value of a request field: argparse defaults are ints and bools, user input stays a string. */
  datatype Value = Null | Int(i: int) | Bool(b: bool) | Str(s: string)

  datatype Tag = Tag(key: string, value: string)

  /** `{'Name': name, 'Values': values}` in `Filters=[...]`. */
  datatype Filter = Filter(name: string, values: seq<string>)

  /** `{'ResourceType': ..., 'Tags': [...]}`. */
  datatype TagSpecification = TagSpecification(resourceType: string, tags: seq<Tag>)

  /** Keyword arguments of `create_instances`. */
  datatype CreateInstancesRequest = CreateInstancesRequest(
    imageId: string,
    instanceType: string,
    maxCount: Value,
    minCount: Value,
    tagSpecifications: seq<TagSpecification>)

  /** Keyword arguments of `create_db_instance`. */
  datatype CreateDbInstanceRequest = CreateDbInstanceRequest(
    dbName: Value,
    dbInstanceIdentifier: string,
    allocatedStorage: Value,
    dbInstanceClass: string,
    engine: string,
    masterUsername: string,
    masterUserPassword: string,
    backupRetentionPeriod: Value,
    multiAz: Value,
    tags: seq<Tag>)

  /** How the compute instance collection is asked for. */
  datatype InstanceQuery = AllInstances | LimitInstances(count: int) | FilterInstances(filters: seq<Filter>)

  /** A compute instance; `tags` is `None` when the instance has no tags. */
  datatype Instance = Instance(instanceId: string, instanceType: string, stateName: string, tags: Option<seq<Tag>>)

  /** An entry of `DBInstances` in the `describe_db_instances` response. */
  datatype DbInstance = DbInstance(identifier: string, instanceClass: string, engine: string, allocatedStorage: int)

  datatype Vpc = Vpc(vpcId: string, state: string, isDefault: bool, tags: Option<seq<Tag>>)

  datatype Subnet = Subnet(
    subnetId: string, vpcId: string, cidrBlock: string, defaultForAz: bool,
    availabilityZone: string, tags: Option<seq<Tag>>)

  /** A request sent to the SDK. */
  datatype Call =
    | CreateInstances(request: CreateInstancesRequest)
    | WaitUntilExists(instanceId: string)
    | DescribeInstances(query: InstanceQuery)
    | StopInstance(instanceId: string)
    | TerminateInstance(instanceId: string)
    | DescribeDbInstances
    | CreateDbInstance(dbRequest: CreateDbInstanceRequest)
    | DescribeVpcs
    | DescribeSubnets

  /** What a command does that can be observed: a line on standard output, or an SDK call. */
  datatype Effect = Print(line: string) | Issue(call: Call)

  /** The exceptions that escape a command. */
  datatype Failure =
    | MalformedTag(index: nat, length: nat)  // ValueError from dict(): entry `index` split into `length` parts
    | TagsNotIterable(instanceId: string)     // TypeError iterating an instance's None tags
    | MissingAttribute(name: string)          // AttributeError: the namespace has no such argument
    | UnknownSubnetCommand(key: Option<string>)  // KeyError from the subnet command map
    | NoOperation                             // TypeError: getattr with a None attribute name
    | NoResource                              // AttributeError: None has no lower()
    | UnmodelledMember(name: string)          // a handler attribute that is not an operation was called

  /** The effects of a command, in order, and the exception that ended it, if any. */
  datatype Run = Run(effects: seq<Effect>, failure: Option<Failure>)

  /** The SDK's answers. */
  datatype Cloud = Cloud(
    instances: InstanceQuery -> seq<Instance>,
    launch: CreateInstancesRequest -> seq<Instance>,
    dbInstances: seq<DbInstance>,
    dbCreated: CreateDbInstanceRequest -> string,
    vpcs: seq<Vpc>,
    subnets: seq<Subnet>)

  /** Runs one after the other; the second runs only when the first raised nothing. */
  function Then(a: Run, b: Run): (r: Run)
    ensures a.failure.Some? ==> r == a
    ensures a.failure.None? ==> r.effects == a.effects + b.effects && r.failure == b.failure
  {
    if a.failure.Some? then a else Run(a.effects + b.effects, b.failure)
  }

  /** Sequencing groups either way: a failure stops the rest wherever it occurs. */
  lemma ThenAssoc(a: Run, b: Run, c: Run)
    ensures Then(Then(a, b), c) == Then(a, Then(b, c))
  {
    if a.failure.None? && b.failure.None? {
      assert (a.effects + b.effects) + c.effects == a.effects + (b.effects + c.effects);
    }
  }
}
