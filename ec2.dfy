/** The compute handler: class `EC2` of `resources/ec2.py`. */
module Ec2 {
  import opened Wrappers
  import opened Text
  import opened Tags
  import opened Aws
  import opened Args
  import opened Table
  import ServiceBase

  const Command: string := "ec2"
  const DefaultAmi: string := "ami-0e34e7b9ca0ace12d"
  const DefaultType: string := "t2.micro"
  const DefaultCount: int := 1

  /** The operation sub-commands, in the order the constructor declares them. */
  const Operations: seq<string> := ["create", "start", "stop", "terminate", "list"]

  /** The handler's other attributes: its helpers and what `Resource.__init__` sets. */
  const Members: seq<string> := [
    "__init__", "__call__", "_build_create_command", "_build_start_command",
    "_build_stop_command", "_build_terminate_command", "_build_list_command",
    "can_parse", "_list_details", "session", "resource"]

  /** `can_parse`: `'ec2' == command.lower()`. */
  predicate CanParse(command: string): (r: bool)
    ensures command == Command ==> r
    ensures r ==> |command| == |Command|
  {
    Lower(command) == Command
  }

  /** The resource verb is matched regardless of case, and nothing else matches. */
  lemma CanParseIff(command: string)
    ensures CanParse(command) <==> command in {"ec2", "eC2", "Ec2", "EC2"}
  {
    if CanParse(command) {
      LowerCharIs(command[0], 'e');
      LowerCharIs(command[1], 'c');
      LowerCharIs(command[2], '2');
      assert command == [command[0], command[1], command[2]];
    }
  }

  // ----- create -----

  /** `tags = dict(t.split('=') for t in args.tags)` followed by `tags['Name'] = args.name`. */
  function NamedTags(entries: seq<string>, name: string): (r: Result<Dict, Failure>)
    ensures r.Ok? <==> forall i :: 0 <= i < |entries| ==> WellFormed(entries[i])
    ensures r.Ok? ==> Valid(r.value) && "Name" in r.value.values && r.value.values["Name"] == name
    ensures r.Err? ==> var e := SplitEntries(entries).error; r.error == MalformedTag(e.index, e.length)
  {
    match ParseTags(entries)
    case Err(e) => Err(MalformedTag(e.index, e.length))
    case Ok(d) => Ok(Put(d, "Name", name))
  }

  /** `--max` and `--min`: the user's string as given (no `type=int`), or the integer default. */
  function CountValue(v: Option<string>): (r: Value)
    ensures v.Some? ==> r == Str(v.value)
    ensures v.None? ==> r == Int(1)
  {
    match v
    case Some(s) => Str(s)
    case None => Int(DefaultCount)
  }

  /** `create_params`. */
  function CreateRequest(f: Fields): (r: Result<CreateInstancesRequest, Failure>)
    requires f.Ec2Create?
    ensures r.Ok? <==> forall i :: 0 <= i < |f.tags| ==> WellFormed(f.tags[i])
    ensures r.Err? ==> var e := SplitEntries(f.tags).error; r.error == MalformedTag(e.index, e.length)
    ensures r.Ok? ==> |r.value.tagSpecifications| == 1 && r.value.tagSpecifications[0].resourceType == "instance"
  {
    match NamedTags(f.tags, f.name)
    case Err(e) => Err(e)
    case Ok(tags) =>
      Ok(CreateInstancesRequest(
        f.ami.GetOr(DefaultAmi),
        f.instanceType.GetOr(DefaultType),
        CountValue(f.maxCount),
        CountValue(f.minCount),
        [TagSpecification("instance", TagList(tags))]))
  }

  /**
   * The request is built exactly when every tag entry holds a single `=`; it carries
   * the image, type and counts given or their defaults, and one tag specification
   * for resource type `instance`.
   */
  lemma CreateRequestFields(f: Fields)
    requires f.Ec2Create?
    ensures CreateRequest(f).Ok? <==> forall i :: 0 <= i < |f.tags| ==> Count(f.tags[i], '=') == 1
    ensures CreateRequest(f).Ok? ==>
      var r := CreateRequest(f).value;
      && r.imageId == (if f.ami.Some? then f.ami.value else "ami-0e34e7b9ca0ace12d")
      && r.instanceType == (if f.instanceType.Some? then f.instanceType.value else "t2.micro")
      && r.maxCount == (if f.maxCount.Some? then Str(f.maxCount.value) else Int(1))
      && r.minCount == (if f.minCount.Some? then Str(f.minCount.value) else Int(1))
      && |r.tagSpecifications| == 1
      && r.tagSpecifications[0].resourceType == "instance"
  {
    forall i | 0 <= i < |f.tags| { WellFormedIff(f.tags[i]); }
  }

  /** The tags of the single tag specification, when the request is built. */
  function RequestTags(f: Fields): seq<Tag>
    requires f.Ec2Create? && CreateRequest(f).Ok?
  {
    CreateRequest(f).value.tagSpecifications[0].tags
  }

  /**
   * Every tag key appears once; `Name` carries the positional name; every other key
   * comes from an entry and carries the value of the last entry with that key.
   */
  lemma {:induction false} RequestTagsSpec(f: Fields)
    requires f.Ec2Create? && CreateRequest(f).Ok?
    ensures var tags := RequestTags(f);
      && (forall i, j :: 0 <= i < j < |tags| ==> tags[i].key != tags[j].key)
      && Tag("Name", f.name) in tags
      && (forall t :: t in tags && t.key != "Name" ==> HasKey(f.tags, t.key))
  {
    var d := Put(ParseTags(f.tags).value, "Name", f.name);
    var tags := RequestTags(f);
    assert tags == TagList(d);
    var i :| 0 <= i < |d.keys| && d.keys[i] == "Name";
    assert tags[i] == Tag("Name", f.name);
    forall t | t in tags && t.key != "Name" ensures HasKey(f.tags, t.key) {
      ParseTagsKeys(f.tags, t.key);
    }
  }

  /** An entry whose key is not `Name` and that no later entry repeats gives its tag as written. */
  lemma LastEntryWins(f: Fields, i: nat)
    requires f.Ec2Create? && CreateRequest(f).Ok?
    requires i < |f.tags| && KeyOf(f.tags[i]) != "Name"
    requires forall j :: i < j < |f.tags| ==> KeyOf(f.tags[j]) != KeyOf(f.tags[i])
    ensures Tag(KeyOf(f.tags[i]), Split(f.tags[i], '=')[1]) in RequestTags(f)
  {
    var p := ParseTags(f.tags).value;
    ParseTagsLastWins(f.tags, i);
    var d := Put(p, "Name", f.name);
    assert RequestTags(f) == TagList(d);
    var k := KeyOf(f.tags[i]);
    assert d.values[k] == Split(f.tags[i], '=')[1];
    TagListHas(d, k);
  }

  /**
   * The `Name` tag: a user-supplied `Name` entry keeps its place and takes the
   * positional name; otherwise `Name` comes last, after the parsed tags.
   */
  lemma NameTagPlacement(f: Fields)
    requires f.Ec2Create? && CreateRequest(f).Ok?
    ensures var p := ParseTags(f.tags).value; var tags := RequestTags(f);
      && (HasKey(f.tags, "Name") ==>
            |tags| == |p.keys| && forall i :: 0 <= i < |tags| ==> tags[i].key == p.keys[i])
      && (!HasKey(f.tags, "Name") ==>
            tags == TagList(p) + [Tag("Name", f.name)])
  {
    var p := ParseTags(f.tags).value;
    ParseTagsKeys(f.tags, "Name");
    assert RequestTags(f) == TagList(Put(p, "Name", f.name));
    if !HasKey(f.tags, "Name") {
      TagListPutNew(p, "Name", f.name);
    }
  }

  /** A malformed entry fails the command before any request is sent, naming the first such entry. */
  lemma MalformedTagFails(f: Fields, cloud: Cloud, k: nat)
    requires f.Ec2Create?
    requires k < |f.tags| && Count(f.tags[k], '=') != 1
    requires forall i :: 0 <= i < k ==> Count(f.tags[i], '=') == 1
    ensures CreateRun(f, cloud) == Run([], Some(MalformedTag(k, Count(f.tags[k], '=') + 1)))
  {
    WellFormedIff(f.tags[k]);
    forall i | 0 <= i < k ensures WellFormed(f.tags[i]) {
      WellFormedIff(f.tags[i]);
    }
    var e := SplitEntries(f.tags);
    assert e.Err?;
    assert e.error.index == k;
    var err := MalformedTag(k, Count(f.tags[k], '=') + 1);
    assert NamedTags(f.tags, f.name) == Err(err);
    assert CreateRequest(f) == Err(err);
  }

  // ----- start, stop, terminate -----

  /** `if args.ids:` — given and non-empty. */
  predicate IdsGiven(ids: Option<seq<string>>) {
    ids.Some? && ids.value != []
  }

  /** `if args.name:` — given and non-empty. */
  predicate NameGiven(name: Option<string>) {
    name.Some? && name.value != []
  }

  /**
   * The filter list: at most two filters, an `instance-id` filter carrying the ids
   * first when they are given, a `tag:Name` filter carrying the name last when it
   * is given, and nothing when neither is.
   */
  function Filters(ids: Option<seq<string>>, name: Option<string>): (r: seq<Filter>)
    ensures |r| == (if IdsGiven(ids) then 1 else 0) + (if NameGiven(name) then 1 else 0)
    ensures IdsGiven(ids) ==> r[0] == Filter("instance-id", ids.value)
    ensures NameGiven(name) ==> r[|r| - 1] == Filter("tag:Name", [name.value])
  {
    (if IdsGiven(ids) then [Filter("instance-id", ids.value)] else [])
      + (if NameGiven(name) then [Filter("tag:Name", [name.value])] else [])
  }

  /** Builds the filter list by appending, as `start`, `stop` and `terminate` do. */
  method BuildFilters(ids: Option<seq<string>>, name: Option<string>) returns (filters: seq<Filter>)
    ensures filters == Filters(ids, name)
  {
    filters := [];
    if ids.Some? && ids.value != [] {
      filters := filters + [Filter("instance-id", ids.value)];
    }
    if name.Some? && name.value != [] {
      filters := filters + [Filter("tag:Name", [name.value])];
    }
  }

  /** What is done to each instance: waited for after `create`, stopped, or terminated. */
  datatype PerInstance = WaitFor | StopIt | TerminateIt

  function ActionCall(action: PerInstance, instanceId: string): Call {
    match action
    case WaitFor => WaitUntilExists(instanceId)
    case StopIt => StopInstance(instanceId)
    case TerminateIt => TerminateInstance(instanceId)
  }

  /** `for i in instances: i.<action>()`. */
  function Each(instances: seq<Instance>, action: PerInstance): (r: seq<Effect>)
    ensures |r| == |instances|
    ensures forall i :: 0 <= i < |r| ==> r[i] == Issue(ActionCall(action, instances[i].instanceId))
  {
    seq(|instances|, i requires 0 <= i < |instances| => Issue(ActionCall(action, instances[i].instanceId)))
  }

  method IssueEach(instances: seq<Instance>, action: PerInstance) returns (effects: seq<Effect>)
    ensures effects == Each(instances, action)
  {
    effects := [];
    for i := 0 to |instances|
      invariant effects == Each(instances[..i], action)
    {
      effects := effects + [Issue(ActionCall(action, instances[i].instanceId))];
    }
    assert instances[..|instances|] == instances;
  }

  // ----- the table -----

  function Header(): string {
    Line(["Id", "Type", "Status"], "Tags")
  }

  /** One row: an instance whose tags are `None` raises `TypeError` when they are iterated. */
  function Row(i: Instance): (r: Result<string, Failure>)
    ensures r.Err? <==> i.tags.None?
    ensures r.Err? ==> r.error == TagsNotIterable(i.instanceId)
    ensures r.Ok? ==> i.instanceId <= r.value
  {
    match i.tags
    case None => Err(TagsNotIterable(i.instanceId))
    case Some(ts) => Ok(Line([i.instanceId, i.instanceType, i.stateName], TagsColumn(ts)))
  }

  function Rows(instances: seq<Instance>): (r: seq<Result<string, Failure>>)
    ensures |r| == |instances|
    ensures forall i :: 0 <= i < |r| ==> r[i] == Row(instances[i])
  {
    seq(|instances|, i requires 0 <= i < |instances| => Row(instances[i]))
  }

  /** The header: `Id`, `Type`, `Status` in 25-character columns, then `Tags`. */
  lemma HeaderColumns()
    ensures |Header()| == 79
    ensures Header()[0..2] == "Id" && Header()[25..29] == "Type" && Header()[50..56] == "Status"
    ensures Header()[75..] == "Tags"
  {
    LineColumns(["Id", "Type", "Status"], "Tags", 0);
    LineColumns(["Id", "Type", "Status"], "Tags", 1);
    LineColumns(["Id", "Type", "Status"], "Tags", 2);
  }

  /** A row puts id, type and state at columns 0, 25 and 50 and the tags at 75, when each fits. */
  lemma RowColumns(i: Instance)
    requires i.tags.Some?
    requires |i.instanceId| <= 25 && |i.instanceType| <= 25 && |i.stateName| <= 25
    ensures var row := Row(i).value;
      && |row| == 75 + |TagsColumn(i.tags.value)|
      && row[0..|i.instanceId|] == i.instanceId
      && row[25..25 + |i.instanceType|] == i.instanceType
      && row[50..50 + |i.stateName|] == i.stateName
      && row[75..] == TagsColumn(i.tags.value)
  {
    var cells := [i.instanceId, i.instanceType, i.stateName];
    LineColumns(cells, TagsColumn(i.tags.value), 0);
    LineColumns(cells, TagsColumn(i.tags.value), 1);
    LineColumns(cells, TagsColumn(i.tags.value), 2);
  }

  // ----- the operations -----

  /** `create`: build the request, launch, wait for each instance, list them. */
  function CreateRun(f: Fields, cloud: Cloud): Run {
    if !f.Ec2Create? then Run([], Some(MissingAttribute("tags")))
    else match CreateRequest(f)
      case Err(e) => Run([], Some(e))
      case Ok(request) =>
        var launched := cloud.launch(request);
        Then(Run([Issue(CreateInstances(request))] + Each(launched, WaitFor), None),
             Listing(Header(), [], Rows(launched)))
  }

  /** `if args.limit:` — the collection is limited only by a given, non-zero limit. */
  function ListQuery(limit: Option<int>): (q: InstanceQuery)
    ensures q.LimitInstances? <==> limit.Some? && limit.value != 0
    ensures q.LimitInstances? ==> q.count == limit.value
    ensures !q.FilterInstances?
  {
    if limit.Some? && limit.value != 0 then LimitInstances(limit.value) else AllInstances
  }

  /** `list`: the instances are fetched into a list before the table is printed. */
  function ListRun(f: Fields, cloud: Cloud): Run {
    if !f.ListLimit? then Run([Print("Listing EC2 instances...")], Some(MissingAttribute("limit")))
    else
      var q := ListQuery(f.limit);
      Then(Run([Print("Listing EC2 instances..."), Issue(DescribeInstances(q))], None),
           Listing(Header(), [], Rows(cloud.instances(q))))
  }

  /**
   * `start`, `stop` and `terminate`: the filtered collection is iterated twice, once
   * to print the table and once to act on each instance, and each iteration sends
   * the query.
   */
  function TargetRun(message: string, action: PerInstance, f: Fields, cloud: Cloud): Run {
    if !f.Ec2Target? then Run([Print(message)], Some(MissingAttribute("ids")))
    else
      var q := FilterInstances(Filters(f.ids, f.nameFilter));
      var found := cloud.instances(q);
      Then(Run([Print(message)], None),
        Then(Listing(Header(), [Issue(DescribeInstances(q))], Rows(found)),
             Run([Issue(DescribeInstances(q))] + Each(found, action), None)))
  }

  const StartMessage: string := "Starting EC2 instances..."
  const StopMessage: string := "Stopping EC2 instances..."
  const TerminateMessage: string := "Terminating EC2 instances..."

  /** `start` calls `stop()` on each instance: after its first line it does what `stop` does. */
  lemma StartStops(f: Fields, cloud: Cloud)
    requires f.Ec2Target?
    ensures TargetRun(StartMessage, StopIt, f, cloud).effects[0] == Print("Starting EC2 instances...")
    ensures TargetRun(StopMessage, StopIt, f, cloud).effects[0] == Print("Stopping EC2 instances...")
    ensures TargetRun(StartMessage, StopIt, f, cloud).effects[1..] == TargetRun(StopMessage, StopIt, f, cloud).effects[1..]
    ensures TargetRun(StartMessage, StopIt, f, cloud).failure == TargetRun(StopMessage, StopIt, f, cloud).failure
  {
  }

  /**
   * When every matched instance has tags: the message, the table over the matched
   * instances, then one action per instance, in order, and no exception.
   */
  lemma {:induction false} TargetRunActs(message: string, action: PerInstance, f: Fields, cloud: Cloud)
    requires f.Ec2Target?
    requires var found := cloud.instances(FilterInstances(Filters(f.ids, f.nameFilter)));
      forall i :: 0 <= i < |found| ==> found[i].tags.Some?
    ensures var q := FilterInstances(Filters(f.ids, f.nameFilter)); var found := cloud.instances(q);
      TargetRun(message, action, f, cloud) ==
        Run([Print(message), Print(Header()), Issue(DescribeInstances(q))] + Lines(Rows(found))
            + [Issue(DescribeInstances(q))] + Each(found, action), None)
  {
    var q := FilterInstances(Filters(f.ids, f.nameFilter));
    var found := cloud.instances(q);
    var fetch := [Issue(DescribeInstances(q))];
    ListingAllRows(Header(), fetch, Rows(found));
    var table := Listing(Header(), fetch, Rows(found));
    var tableEffects := [Print(Header())] + fetch + Lines(Rows(found));
    assert table == Run(tableEffects, None);
    var acts := fetch + Each(found, action);
    var rest := Then(table, Run(acts, None));
    assert rest == Run(tableEffects + acts, None);
    calc {
      TargetRun(message, action, f, cloud);
      Then(Run([Print(message)], None), rest);
      Run([Print(message)] + (tableEffects + acts), None);
      { Regroup(Print(message), Print(Header()), Issue(DescribeInstances(q)), Lines(Rows(found)), acts); }
      Run([Print(message), Print(Header()), Issue(DescribeInstances(q))] + Lines(Rows(found))
          + [Issue(DescribeInstances(q))] + Each(found, action), None);
    }
  }

  /** Regrouping the effects of `TargetRunActs`, kept apart so that proof stays small. */
  lemma Regroup(a: Effect, b: Effect, c: Effect, lines: seq<Effect>, rest: seq<Effect>)
    ensures [a] + ([b] + [c] + lines + rest) == [a, b, c] + lines + rest
  {
  }

  /** A table that stops after printing only lines: the rest of the command never runs, so nothing is acted on. */
  lemma StoppedBeforeActing(message: string, action: PerInstance, q: InstanceQuery, lines: seq<Effect>, error: Failure, rest: Run)
    requires forall i :: 0 <= i < |lines| ==> lines[i].Print?
    ensures var run := Then(Run([Print(message)], None),
                            Then(Run([Print(Header())] + [Issue(DescribeInstances(q))] + lines, Some(error)), rest));
      && run.failure == Some(error)
      && |run.effects| == 3 + |lines|
      && forall id :: Issue(ActionCall(action, id)) !in run.effects
  {
    var effects := [Print(message)] + ([Print(Header())] + [Issue(DescribeInstances(q))] + lines);
    forall id ensures Issue(ActionCall(action, id)) !in effects {
      forall j | 0 <= j < |effects| ensures effects[j] != Issue(ActionCall(action, id)) {
        if j >= 3 {
          assert effects[j] == lines[j - 3];
        }
      }
    }
  }

  /** An instance without tags ends the command in the table, before any instance is acted on. */
  lemma {:induction false} UntaggedStopsBeforeActing(message: string, action: PerInstance, f: Fields, cloud: Cloud, k: nat)
    requires f.Ec2Target?
    requires var found := cloud.instances(FilterInstances(Filters(f.ids, f.nameFilter)));
      k < |found| && found[k].tags.None? && forall i :: 0 <= i < k ==> found[i].tags.Some?
    ensures var found := cloud.instances(FilterInstances(Filters(f.ids, f.nameFilter)));
      var run := TargetRun(message, action, f, cloud);
      && run.failure == Some(TagsNotIterable(found[k].instanceId))
      && |run.effects| == 3 + k
      && forall id :: Issue(ActionCall(action, id)) !in run.effects
  {
    var q := FilterInstances(Filters(f.ids, f.nameFilter));
    var found := cloud.instances(q);
    var rows := Rows(found);
    assert rows[k].Err? && rows[k].error == TagsNotIterable(found[k].instanceId);
    assert forall i :: 0 <= i < k ==> rows[i].Ok?;
    ListingStopsAt(Header(), [Issue(DescribeInstances(q))], rows, k);
    StoppedBeforeActing(message, action, q, Lines(rows[..k]), rows[k].error,
                        Run([Issue(DescribeInstances(q))] + Each(found, action), None));
  }

  /** Runs the operation `op`; any name other than the first four runs `list`. */
  function OperationRun(op: string, f: Fields, cloud: Cloud): Run {
    if op == "create" then CreateRun(f, cloud)
    else if op == "start" then TargetRun(StartMessage, StopIt, f, cloud)
    else if op == "stop" then TargetRun(StopMessage, StopIt, f, cloud)
    else if op == "terminate" then TargetRun(TerminateMessage, TerminateIt, f, cloud)
    else ListRun(f, cloud)
  }

  /** `EC2.__call__`, inherited from `Resource`. */
  function CallRun(args: Namespace, cloud: Cloud): Run {
    ServiceBase.Call(Operations, Members, args.func, op => OperationRun(op, args.fields, cloud))
  }

  // ----- the operations as they run -----

  method Create(f: Fields, cloud: Cloud) returns (run: Run)
    ensures run == CreateRun(f, cloud)
  {
    if !f.Ec2Create? {
      return Run([], Some(MissingAttribute("tags")));
    }
    var request := CreateRequest(f);
    if request.Err? {
      return Run([], Some(request.error));
    }
    var launched := cloud.launch(request.value);
    var waits := IssueEach(launched, WaitFor);
    var table := PrintListing(Header(), [], Rows(launched));
    run := Then(Run([Issue(CreateInstances(request.value))] + waits, None), table);
  }

  method List(f: Fields, cloud: Cloud) returns (run: Run)
    ensures run == ListRun(f, cloud)
  {
    if !f.ListLimit? {
      return Run([Print("Listing EC2 instances...")], Some(MissingAttribute("limit")));
    }
    var q := ListQuery(f.limit);
    var table := PrintListing(Header(), [], Rows(cloud.instances(q)));
    run := Then(Run([Print("Listing EC2 instances..."), Issue(DescribeInstances(q))], None), table);
  }

  method Target(message: string, action: PerInstance, f: Fields, cloud: Cloud) returns (run: Run)
    ensures run == TargetRun(message, action, f, cloud)
  {
    if !f.Ec2Target? {
      return Run([Print(message)], Some(MissingAttribute("ids")));
    }
    var filters := BuildFilters(f.ids, f.nameFilter);
    var q := FilterInstances(filters);
    var found := cloud.instances(q);
    var table := PrintListing(Header(), [Issue(DescribeInstances(q))], Rows(found));
    var actions := IssueEach(found, action);
    run := Then(Run([Print(message)], None), Then(table, Run([Issue(DescribeInstances(q))] + actions, None)));
  }

  /** `__call__` on the compute handler. */
  method Call(args: Namespace, cloud: Cloud) returns (run: Run)
    ensures run == CallRun(args, cloud)
  {
    match args.func
    case None =>
      run := Run([], Some(NoOperation));
    case Some(name) =>
      if name == "create" {
        run := Create(args.fields, cloud);
      } else if name == "start" {
        run := Target(StartMessage, StopIt, args.fields, cloud);
      } else if name == "stop" {
        run := Target(StopMessage, StopIt, args.fields, cloud);
      } else if name == "terminate" {
        run := Target(TerminateMessage, TerminateIt, args.fields, cloud);
      } else if name == "list" {
        run := List(args.fields, cloud);
      } else if name in Members {
        run := Run([], Some(UnmodelledMember(name)));
      } else {
        run := Run([Print(ServiceBase.NotRecognized(name))], None);
      }
  }
}
