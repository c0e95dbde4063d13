/** The network handler: class `VPC` of `resources/vpc.py`. */
module Vpc {
  import opened Wrappers
  import opened Text
  import opened Aws
  import opened Args
  import opened Table
  import ServiceBase

  const Command: string := "vpc"

  /** The only operation; its `--limit` is declared but never read. */
  const Operations: seq<string> := ["list"]

  /** The handler's other attributes: its helpers and what `Resource.__init__` sets. */
  const Members: seq<string> := [
    "__init__", "__call__", "_build_list_command", "can_parse", "_list_details", "session", "resource"]

  /** `can_parse`: `'vpc' == command.lower()`. */
  predicate CanParse(command: string): (r: bool)
    ensures command == Command ==> r
    ensures r ==> |command| == |Command|
  {
    Lower(command) == Command
  }

  /** The resource verb is matched regardless of case, and nothing else matches. */
  lemma CanParseIff(command: string)
    ensures CanParse(command) <==> command in {"vpc", "vpC", "vPc", "vPC", "Vpc", "VpC", "VPc", "VPC"}
  {
    if CanParse(command) {
      LowerCharIs(command[0], 'v');
      LowerCharIs(command[1], 'p');
      LowerCharIs(command[2], 'c');
      assert command == [command[0], command[1], command[2]];
    }
  }

  function Header(): string {
    Line(["Id", "State", "Default"], "Tags")
  }

  /** One row; `None` tags are taken as no tags. */
  function Row(v: Vpc): (r: string)
    ensures v.vpcId <= r
  {
    Line([v.vpcId, v.state, BoolStr(v.isDefault)], OptionalTagsColumn(v.tags))
  }

  function Rows(vpcs: seq<Vpc>): (r: seq<Result<string, Failure>>)
    ensures |r| == |vpcs|
    ensures forall i :: 0 <= i < |r| ==> r[i] == Ok(Row(vpcs[i]))
  {
    seq(|vpcs|, i requires 0 <= i < |vpcs| => Ok(Row(vpcs[i])))
  }

  /** The header: `Id`, `State`, `Default` in 25-character columns, then `Tags`. */
  lemma HeaderColumns()
    ensures |Header()| == 79
    ensures Header()[0..2] == "Id" && Header()[25..30] == "State" && Header()[50..57] == "Default"
    ensures Header()[75..] == "Tags"
  {
    LineColumns(["Id", "State", "Default"], "Tags", 0);
    LineColumns(["Id", "State", "Default"], "Tags", 1);
    LineColumns(["Id", "State", "Default"], "Tags", 2);
  }

  /**
   * A row with short cells: id at 0, state at 25, `True`/`False` at 50, and from 75
   * the tags as `K=V` joined by `, `, nothing at all when the tags are `None`.
   */
  lemma RowColumns(v: Vpc)
    requires |v.vpcId| <= 25 && |v.state| <= 25
    ensures var row := Row(v);
      && row[0..|v.vpcId|] == v.vpcId
      && row[25..25 + |v.state|] == v.state
      && row[50..50 + |BoolStr(v.isDefault)|] == BoolStr(v.isDefault)
      && row[75..] == (if v.tags.None? then "" else TagsColumn(v.tags.value))
      && (v.tags.None? ==> |row| == 75)
  {
    var cells := [v.vpcId, v.state, BoolStr(v.isDefault)];
    LineColumns(cells, OptionalTagsColumn(v.tags), 0);
    LineColumns(cells, OptionalTagsColumn(v.tags), 1);
    LineColumns(cells, OptionalTagsColumn(v.tags), 2);
  }

  const ListMessage: string := "Listing VPC instances..."

  /** `list`: every network, whatever the limit. */
  function ListRun(cloud: Cloud): Run {
    Then(Run([Print(ListMessage)], None), Listing(Header(), [Issue(DescribeVpcs)], Rows(cloud.vpcs)))
  }

  /** The listing asks for all networks, never raises, and prints one row per network in order. */
  lemma {:induction false} ListPrintsEveryRow(cloud: Cloud)
    ensures ListRun(cloud).failure.None?
    ensures |ListRun(cloud).effects| == 3 + |cloud.vpcs|
    ensures ListRun(cloud).effects[..3] == [Print("Listing VPC instances..."), Print(Header()), Issue(DescribeVpcs)]
    ensures forall i :: 0 <= i < |cloud.vpcs| ==> ListRun(cloud).effects[3 + i] == Print(Row(cloud.vpcs[i]))
  {
    var rows := Rows(cloud.vpcs);
    ListingAfterPrint(ListMessage, Header(), Issue(DescribeVpcs), rows);
    forall i | 0 <= i < |cloud.vpcs| ensures ListRun(cloud).effects[3 + i] == Print(Row(cloud.vpcs[i])) {
      assert rows[i].value == Row(cloud.vpcs[i]);
    }
  }

  /** `VPC.__call__`, inherited from `Resource`; `list` ignores the arguments. */
  function CallRun(args: Namespace, cloud: Cloud): Run {
    ServiceBase.Call(Operations, Members, args.func, op => ListRun(cloud))
  }

  /** `--limit` is never read: two namespaces naming `list` give the same run. */
  lemma LimitIgnored(a: Namespace, b: Namespace, cloud: Cloud)
    requires a.func == Some("list") && b.func == Some("list")
    ensures CallRun(a, cloud) == CallRun(b, cloud) == ListRun(cloud)
  {
  }

  method List(cloud: Cloud) returns (run: Run)
    ensures run == ListRun(cloud)
  {
    var table := PrintListing(Header(), [Issue(DescribeVpcs)], Rows(cloud.vpcs));
    run := Then(Run([Print(ListMessage)], None), table);
  }

  /** `__call__` on the network handler. */
  method Call(args: Namespace, cloud: Cloud) returns (run: Run)
    ensures run == CallRun(args, cloud)
  {
    match args.func
    case None =>
      run := Run([], Some(NoOperation));
    case Some(name) =>
      if name == "list" {
        run := List(cloud);
      } else if name in Members {
        run := Run([], Some(UnmodelledMember(name)));
      } else {
        run := Run([Print(ServiceBase.NotRecognized(name))], None);
      }
  }
}
