/**
 * The parsed command line, and the shared sub-command parser that every handler
 * registers its grammar with. The grammar itself belongs to argparse.
 */
module Args {
  import opened Wrappers

  /**
   * Arguments of the chosen operation. An `Option` field is `None` when the flag
   * was not given, in which case the declared default applies.
   */
  datatype Fields =
    | NoFields
    | Ec2Create(name: string, ami: Option<string>, instanceType: Option<string>,
                maxCount: Option<string>, minCount: Option<string>, tags: seq<string>)
    | Ec2Target(ids: Option<seq<string>>, nameFilter: Option<string>)
    | ListLimit(limit: Option<int>)
    | RdsCreate(engine: string, username: string, password: string, dbname: Option<string>,
                instanceId: string, instanceClass: Option<string>, multiAz: Option<string>,
                backupDays: Option<string>, storage: Option<string>, tags: seq<string>)

  /**
   * `parser.parse_args()`: `command` is the resource sub-command, `func` the operation
   * of a handler in the resources package, `subnet` the operation of the subnet module.
   */
  datatype Namespace = Namespace(command: Option<string>, func: Option<string>, subnet: Option<string>, fields: Fields)

  /** A resource sub-command and the operations declared under it, in declaration order. */
  datatype Registration = Registration(command: string, operations: seq<string>)

  /** The object returned by `add_subparsers`, which every handler's constructor extends. */
  class SubParsers {
    var registered: seq<Registration>

    constructor ()
      ensures registered == []
    {
      registered := [];
    }

    /** `add_parser(command)` followed by the operation parsers added beneath it. */
    method AddParser(r: Registration)
      modifies this
      ensures registered == old(registered) + [r]
    {
      registered := registered + [r];
    }
  }
}
