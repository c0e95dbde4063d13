/** The database handler: class `RDS` of `resources/rds.py`. */
module Rds {
  import opened Wrappers
  import opened Text
  import opened Tags
  import opened Aws
  import opened Args
  import opened Table
  import ServiceBase

  const Command: string := "rds"
  const DefaultInstanceClass: string := "db.t3.small"
  const DefaultMultiAz: bool := false
  const DefaultBackupDays: int := 0
  const DefaultStorage: int := 20

  /** The operation sub-commands, in the order the constructor declares them. */
  const Operations: seq<string> := ["list", "create"]

  /** The handler's other attributes: its helpers and what `Client.__init__` sets. */
  const Members: seq<string> := [
    "__init__", "__call__", "can_parse", "_build_create_command", "_build_list_command",
    "_list_details", "session", "client"]

  /** `can_parse`: `'rds' == command.lower()`. */
  predicate CanParse(command: string): (r: bool)
    ensures command == Command ==> r
    ensures r ==> |command| == |Command|
  {
    Lower(command) == Command
  }

  /** The resource verb is matched regardless of case, and nothing else matches. */
  lemma CanParseIff(command: string)
    ensures CanParse(command) <==> command in {"rds", "rdS", "rDs", "rDS", "Rds", "RdS", "RDs", "RDS"}
  {
    if CanParse(command) {
      LowerCharIs(command[0], 'r');
      LowerCharIs(command[1], 'd');
      LowerCharIs(command[2], 's');
      assert command == [command[0], command[1], command[2]];
    }
  }

  /** An optional flag without `type=`: the user's string as given, or the typed default. */
  function FlagValue(v: Option<string>, default: Value): (r: Value)
    ensures v.Some? ==> r == Str(v.value)
    ensures v.None? ==> r == default
  {
    match v
    case Some(s) => Str(s)
    case None => default
  }

  /** `create_params`; unlike the compute handler, no `Name` tag is added. */
  function CreateRequest(f: Fields): (r: Result<CreateDbInstanceRequest, Failure>)
    requires f.RdsCreate?
    ensures r.Ok? <==> forall i :: 0 <= i < |f.tags| ==> WellFormed(f.tags[i])
    ensures r.Ok? ==> r.value.dbInstanceIdentifier == f.instanceId && r.value.engine == f.engine
    ensures r.Ok? ==> r.value.masterUsername == f.username && r.value.masterUserPassword == f.password
  {
    match ParseTags(f.tags)
    case Err(e) => Err(MalformedTag(e.index, e.length))
    case Ok(tags) =>
      Ok(CreateDbInstanceRequest(
        FlagValue(f.dbname, Null),
        f.instanceId,
        FlagValue(f.storage, Int(DefaultStorage)),
        f.instanceClass.GetOr(DefaultInstanceClass),
        f.engine,
        f.username,
        f.password,
        FlagValue(f.backupDays, Int(DefaultBackupDays)),
        FlagValue(f.multiAz, Bool(DefaultMultiAz)),
        TagList(tags)))
  }

  /**
   * The request is built exactly when every tag entry holds a single `=`. Each field
   * comes from its argument; `DBName` is always present and `None` when `--dbname` is
   * not given; the defaults are `db.t3.small`, `False`, `0` and `20`.
   */
  lemma CreateRequestFields(f: Fields)
    requires f.RdsCreate?
    ensures CreateRequest(f).Ok? <==> forall i :: 0 <= i < |f.tags| ==> Count(f.tags[i], '=') == 1
    ensures CreateRequest(f).Ok? ==>
      var r := CreateRequest(f).value;
      && r.dbName == (if f.dbname.Some? then Str(f.dbname.value) else Null)
      && r.dbInstanceIdentifier == f.instanceId
      && r.allocatedStorage == (if f.storage.Some? then Str(f.storage.value) else Int(20))
      && r.dbInstanceClass == (if f.instanceClass.Some? then f.instanceClass.value else "db.t3.small")
      && r.engine == f.engine
      && r.masterUsername == f.username
      && r.masterUserPassword == f.password
      && r.backupRetentionPeriod == (if f.backupDays.Some? then Str(f.backupDays.value) else Int(0))
      && r.multiAz == (if f.multiAz.Some? then Str(f.multiAz.value) else Bool(false))
  {
    forall i | 0 <= i < |f.tags| { WellFormedIff(f.tags[i]); }
  }

  /**
   * The request's tags: each key once, only keys the entries name (no `Name` is
   * added), each with the value of the last entry carrying it.
   */
  lemma CreateRequestTags(f: Fields, i: nat)
    requires f.RdsCreate? && CreateRequest(f).Ok?
    requires i < |f.tags|
    requires forall j :: i < j < |f.tags| ==> KeyOf(f.tags[j]) != KeyOf(f.tags[i])
    ensures var tags := CreateRequest(f).value.tags;
      && (forall a, b :: 0 <= a < b < |tags| ==> tags[a].key != tags[b].key)
      && (forall t :: t in tags ==> HasKey(f.tags, t.key))
      && Tag(KeyOf(f.tags[i]), Split(f.tags[i], '=')[1]) in tags
  {
    var d := ParseTags(f.tags).value;
    var tags := CreateRequest(f).value.tags;
    assert tags == TagList(d);
    forall t | t in tags ensures HasKey(f.tags, t.key) {
      ParseTagsKeys(f.tags, t.key);
    }
    ParseTagsLastWins(f.tags, i);
    var k := KeyOf(f.tags[i]);
    ParseTagsKeys(f.tags, k);
    var j :| 0 <= j < |d.keys| && d.keys[j] == k;
    assert tags[j] == Tag(k, Split(f.tags[i], '=')[1]);
  }

  // ----- the table -----

  function Header(): string {
    Line(["Id", "Class", "Engine"], "Storage")
  }

  function Row(db: DbInstance): (r: string)
    ensures db.identifier <= r
  {
    Line([db.identifier, db.instanceClass, db.engine], IntStr(db.allocatedStorage))
  }

  function Rows(dbs: seq<DbInstance>): (r: seq<Result<string, Failure>>)
    ensures |r| == |dbs|
    ensures forall i :: 0 <= i < |r| ==> r[i] == Ok(Row(dbs[i]))
  {
    seq(|dbs|, i requires 0 <= i < |dbs| => Ok(Row(dbs[i])))
  }

  /** The header: `Id`, `Class`, `Engine` in 25-character columns, then `Storage`. */
  lemma HeaderColumns()
    ensures |Header()| == 82
    ensures Header()[0..2] == "Id" && Header()[25..30] == "Class" && Header()[50..56] == "Engine"
    ensures Header()[75..] == "Storage"
  {
    LineColumns(["Id", "Class", "Engine"], "Storage", 0);
    LineColumns(["Id", "Class", "Engine"], "Storage", 1);
    LineColumns(["Id", "Class", "Engine"], "Storage", 2);
  }

  /**
   * A row with short cells: identifier at 0, class at 25, engine at 50, and from
   * 75 `str(AllocatedStorage)`.
   */
  lemma RowColumns(db: DbInstance)
    requires |db.identifier| <= 25 && |db.instanceClass| <= 25 && |db.engine| <= 25
    ensures var row := Row(db);
      && |row| == 75 + |IntStr(db.allocatedStorage)|
      && row[0..|db.identifier|] == db.identifier
      && row[25..25 + |db.instanceClass|] == db.instanceClass
      && row[50..50 + |db.engine|] == db.engine
      && row[75..] == IntStr(db.allocatedStorage)
  {
    var cells := [db.identifier, db.instanceClass, db.engine];
    LineColumns(cells, IntStr(db.allocatedStorage), 0);
    LineColumns(cells, IntStr(db.allocatedStorage), 1);
    LineColumns(cells, IntStr(db.allocatedStorage), 2);
  }

  // ----- the operations -----

  /** `list`: one SDK call, then the header and one row per `DBInstances` entry. */
  function ListRun(cloud: Cloud): Run {
    Then(Run([Issue(DescribeDbInstances)], None), Listing(Header(), [], Rows(cloud.dbInstances)))
  }

  /** Listing never raises and prints one row per database, in response order. */
  lemma {:induction false} ListPrintsEveryRow(cloud: Cloud)
    ensures ListRun(cloud).failure.None?
    ensures |ListRun(cloud).effects| == 2 + |cloud.dbInstances|
    ensures ListRun(cloud).effects[..2] == [Issue(DescribeDbInstances), Print(Header())]
    ensures forall i :: 0 <= i < |cloud.dbInstances| ==>
      ListRun(cloud).effects[2 + i] == Print(Row(cloud.dbInstances[i]))
  {
    var rows := Rows(cloud.dbInstances);
    ListingAfterCall(Issue(DescribeDbInstances), Header(), rows);
    forall i | 0 <= i < |cloud.dbInstances| ensures ListRun(cloud).effects[2 + i] == Print(Row(cloud.dbInstances[i])) {
      assert rows[i].value == Row(cloud.dbInstances[i]);
    }
  }

  const CreateMessage: string := "Creating DB instance..."

  /** `create`: the message, then the request, then the SDK's response printed. */
  function CreateRun(f: Fields, cloud: Cloud): (r: Run)
    ensures |r.effects| >= 1 && r.effects[0] == Print(CreateMessage)
    ensures r.failure.None? <==> f.RdsCreate? && forall i :: 0 <= i < |f.tags| ==> WellFormed(f.tags[i])
  {
    if !f.RdsCreate? then Run([Print(CreateMessage)], Some(MissingAttribute("tags")))
    else match CreateRequest(f)
      case Err(e) => Run([Print(CreateMessage)], Some(e))
      case Ok(request) =>
        Run([Print(CreateMessage), Issue(CreateDbInstance(request)), Print(cloud.dbCreated(request))], None)
  }

  /**
   * With every tag entry well-formed, `create` prints its message, sends one
   * `create_db_instance` with the built request, prints the response and raises
   * nothing.
   */
  lemma CreateSucceeds(f: Fields, cloud: Cloud)
    requires f.RdsCreate?
    requires forall i :: 0 <= i < |f.tags| ==> Count(f.tags[i], '=') == 1
    ensures CreateRequest(f).Ok?
    ensures var request := CreateRequest(f).value;
      CreateRun(f, cloud) ==
        Run([Print("Creating DB instance..."), Issue(CreateDbInstance(request)), Print(cloud.dbCreated(request))], None)
  {
    forall i | 0 <= i < |f.tags| ensures WellFormed(f.tags[i]) {
      WellFormedIff(f.tags[i]);
    }
  }

  /** A malformed entry fails after the message and before any request is sent. */
  lemma MalformedTagFails(f: Fields, cloud: Cloud, k: nat)
    requires f.RdsCreate?
    requires k < |f.tags| && Count(f.tags[k], '=') != 1
    requires forall i :: 0 <= i < k ==> Count(f.tags[i], '=') == 1
    ensures CreateRun(f, cloud) == Run([Print("Creating DB instance...")], Some(MalformedTag(k, Count(f.tags[k], '=') + 1)))
  {
    WellFormedIff(f.tags[k]);
    forall i | 0 <= i < k { WellFormedIff(f.tags[i]); }
  }

  /** Runs the operation `op`; any name other than `list` runs `create`. */
  function OperationRun(op: string, f: Fields, cloud: Cloud): Run {
    if op == "list" then ListRun(cloud) else CreateRun(f, cloud)
  }

  /** `RDS.__call__`, inherited from `Client`. */
  function CallRun(args: Namespace, cloud: Cloud): Run {
    ServiceBase.Call(Operations, Members, args.func, op => OperationRun(op, args.fields, cloud))
  }

  // ----- the operations as they run -----

  method List(cloud: Cloud) returns (run: Run)
    ensures run == ListRun(cloud)
  {
    var table := PrintListing(Header(), [], Rows(cloud.dbInstances));
    run := Then(Run([Issue(DescribeDbInstances)], None), table);
  }

  /** `__call__` on the database handler; `create` has no loop and is its function. */
  method Call(args: Namespace, cloud: Cloud) returns (run: Run)
    ensures run == CallRun(args, cloud)
  {
    match args.func
    case None =>
      run := Run([], Some(NoOperation));
    case Some(name) =>
      if name == "list" {
        run := List(cloud);
      } else if name == "create" {
        run := CreateRun(args.fields, cloud);
      } else if name in Members {
        run := Run([], Some(UnmodelledMember(name)));
      } else {
        run := Run([Print(ServiceBase.NotRecognized(name))], None);
      }
  }
}
