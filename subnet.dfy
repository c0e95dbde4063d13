/**
 * `subnet.py`: the subnet commands, written as module functions with a command map.
 * The module lies outside the resources package, so the entry point never loads it.
 */
module Subnet {
  import opened Wrappers
  import opened Text
  import opened Aws
  import opened Args
  import opened Table

  /** `command_map[args.subnet]`: only `list` is mapped; any other key raises `KeyError`. */
  function ParseArgumentsRun(args: Namespace, cloud: Cloud): Run {
    if args.subnet == Some("list") then ListInstancesRun(cloud)
    else Run([], Some(UnknownSubnetCommand(args.subnet)))
  }

  function Header(): string {
    Line(["Id", "VPC", "CIDR", "Default", "Zone"], "Tags")
  }

  /** One row; `None` tags are taken as no tags. */
  function Row(s: Subnet): (r: string)
    ensures s.subnetId <= r
  {
    Line([s.subnetId, s.vpcId, s.cidrBlock, BoolStr(s.defaultForAz), s.availabilityZone],
         OptionalTagsColumn(s.tags))
  }

  function Rows(subnets: seq<Subnet>): (r: seq<Result<string, Failure>>)
    ensures |r| == |subnets|
    ensures forall i :: 0 <= i < |r| ==> r[i] == Ok(Row(subnets[i]))
  {
    seq(|subnets|, i requires 0 <= i < |subnets| => Ok(Row(subnets[i])))
  }

  /** The header: `Id`, `VPC`, `CIDR`, `Default`, `Zone` in 25-character columns, then `Tags`. */
  lemma HeaderColumns()
    ensures |Header()| == 129
    ensures Header()[0..2] == "Id" && Header()[25..28] == "VPC" && Header()[50..54] == "CIDR"
    ensures Header()[75..82] == "Default" && Header()[100..104] == "Zone"
    ensures Header()[125..] == "Tags"
  {
    var cells := ["Id", "VPC", "CIDR", "Default", "Zone"];
    LineColumns(cells, "Tags", 0);
    LineColumns(cells, "Tags", 1);
    LineColumns(cells, "Tags", 2);
    LineColumns(cells, "Tags", 3);
    LineColumns(cells, "Tags", 4);
  }

  /**
   * A row with short cells: subnet id, network id, CIDR block, default flag and zone
   * at columns 0, 25, 50, 75 and 100, then the tags, nothing when they are `None`.
   */
  lemma RowColumns(s: Subnet)
    requires |s.subnetId| <= 25 && |s.vpcId| <= 25 && |s.cidrBlock| <= 25 && |s.availabilityZone| <= 25
    ensures var row := Row(s);
      && row[0..|s.subnetId|] == s.subnetId
      && row[25..25 + |s.vpcId|] == s.vpcId
      && row[50..50 + |s.cidrBlock|] == s.cidrBlock
      && row[75..75 + |BoolStr(s.defaultForAz)|] == BoolStr(s.defaultForAz)
      && row[100..100 + |s.availabilityZone|] == s.availabilityZone
      && row[125..] == (if s.tags.None? then "" else TagsColumn(s.tags.value))
  {
    var cells := [s.subnetId, s.vpcId, s.cidrBlock, BoolStr(s.defaultForAz), s.availabilityZone];
    var last := OptionalTagsColumn(s.tags);
    LineColumns(cells, last, 0);
    LineColumns(cells, last, 1);
    LineColumns(cells, last, 2);
    LineColumns(cells, last, 3);
    LineColumns(cells, last, 4);
  }

  const ListMessage: string := "Listing Subnet instances..."

  /** `list_instances`: every subnet, whatever the limit. */
  function ListInstancesRun(cloud: Cloud): Run {
    Then(Run([Print(ListMessage)], None), Listing(Header(), [Issue(DescribeSubnets)], Rows(cloud.subnets)))
  }

  /** The listing asks for all subnets, never raises, and prints one row per subnet in order. */
  lemma {:induction false} ListPrintsEveryRow(cloud: Cloud)
    ensures ListInstancesRun(cloud).failure.None?
    ensures |ListInstancesRun(cloud).effects| == 3 + |cloud.subnets|
    ensures ListInstancesRun(cloud).effects[..3] ==
      [Print("Listing Subnet instances..."), Print(Header()), Issue(DescribeSubnets)]
    ensures forall i :: 0 <= i < |cloud.subnets| ==>
      ListInstancesRun(cloud).effects[3 + i] == Print(Row(cloud.subnets[i]))
  {
    var rows := Rows(cloud.subnets);
    ListingAfterPrint(ListMessage, Header(), Issue(DescribeSubnets), rows);
    forall i | 0 <= i < |cloud.subnets| ensures ListInstancesRun(cloud).effects[3 + i] == Print(Row(cloud.subnets[i])) {
      assert rows[i].value == Row(cloud.subnets[i]);
    }
  }

  /**
   * The command fails exactly when the operation is not `list`, with `KeyError` on that
   * key and nothing printed; it is not reported the way the handlers' `__call__` reports it.
   */
  lemma OnlyListIsMapped(args: Namespace, cloud: Cloud)
    ensures ParseArgumentsRun(args, cloud).failure.Some? <==> args.subnet != Some("list")
    ensures args.subnet != Some("list") ==>
      ParseArgumentsRun(args, cloud) == Run([], Some(UnknownSubnetCommand(args.subnet)))
  {
    ListPrintsEveryRow(cloud);
  }

  method ListInstances(cloud: Cloud) returns (run: Run)
    ensures run == ListInstancesRun(cloud)
  {
    var table := PrintListing(Header(), [Issue(DescribeSubnets)], Rows(cloud.subnets));
    run := Then(Run([Print(ListMessage)], None), table);
  }

  /** `parse_arguments`. */
  method ParseArguments(args: Namespace, cloud: Cloud) returns (run: Run)
    ensures run == ParseArgumentsRun(args, cloud)
  {
    if args.subnet == Some("list") {
      run := ListInstances(cloud);
    } else {
      run := Run([], Some(UnknownSubnetCommand(args.subnet)));
    }
  }
}
