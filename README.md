# Cloud resource CLI: argument translation, tables and dispatch

This project models the logic of a small command-line tool that manages EC2
instances, RDS databases, VPCs and subnets through the AWS SDK (boto3). The model
covers the part of the tool that sits between the parsed command line and the SDK:

- **Tag parsing.** `--tags` entries are read with `dict(t.split('=') for t in tags)`.
  An entry must split into exactly two parts. A repeated key takes the value of its
  last entry and keeps the position of its first.
- **Request building.**
  - The EC2 `create` request gets its defaults and a forced `Name` tag.
  - The RDS `create` request gets its defaults, and `DBName` is `None` when `--dbname` is not given.
  - `start`, `stop` and `terminate` build an EC2 filter list.
- **Tables.** Each listing prints `ljust(25)` columns, which pad and never truncate.
  The last column is unpadded, and tags print as `K=V` joined by `, `.
- **Dispatch.**
  - Every handler class that a `resources` module defines itself is instantiated once with the shared sub-command parser.
  - Every handler whose `can_parse` accepts the resource verb (compared case-insensitively) is called.
  - A handler's `__call__` looks the operation up by name and reports an unknown one instead of raising.
  - The separate `subnet.py` module raises `KeyError` for an unknown operation, and the entry point never loads it.

The SDK is a value, `Aws.Cloud`, that holds its answers. A command's observable
behaviour is an `Aws.Run`: the printed lines and the SDK calls in order (`Effect`),
plus the exception that ended the command, if one did (`Failure`). Each
operation has a specification function (`…Run`). A method with the source's loops
is proved equal to that function, and lemmas state what the source promises about it.

Modules: `Wrappers`, `Text` (Python string operations), `Tags` (the ordered dict and
tag parsing), `Aws` (SDK records, effects, failures), `Args` (the namespace and the
shared parser), `Table`, `ServiceBase`, `Ec2`, `Rds`, `Vpc`, `Subnet`, and `Cli`
(`main.py`).

Some behaviours of the code are easy to misread. The model follows the code:
- Tags are split on every `=`, not only the first, so `a=b=c` is an error.
- `DBName` is sent as `None` when `--dbname` is absent, rather than left out of the request.
- The resource verbs are `ec2`, `rds` and `vpc`, the lower-cased handler names.
- `--limit` is ignored for VPCs and subnets.
- `start` stops instances.
- The subnet commands are never reached from the entry point.

## Model

| member | source | states |
|---|---|---|
| Text.Lower | src/resources/ec2.py:48 | `command.lower()` keeps the length and lower-cases each character |
| Text.Split | src/resources/ec2.py:52 | `split('=')` gives one more part than there are `=`, and no part contains `=` |
| Text.JoinSplit | src/resources/ec2.py:52 | joining the parts of a split with the separator gives the string back |
| Text.SplitJoin | src/resources/ec2.py:52 | splitting a join of separator-free parts gives the parts back |
| Text.LJust | src/resources/vpc.py:36-39 | a padded cell has length `max(len(s), 25)`, starts with `s` unchanged and is padded with spaces |
| Text.JoinWith | src/resources/vpc.py:40 | `', '.join` of no items is empty, and of one item is that item |
| Text.JoinWithAppend | src/resources/vpc.py:40 | joining two non-empty runs of items is joining each, with one separator between; with the one-item case this fixes the join for any number of items |
| Text.JoinWithLength | src/resources/vpc.py:40 | a join is as long as its items plus one separator between each two |
| Text.BoolStr | src/resources/vpc.py:39 | `str()` of a bool is `True` exactly when the bool is true, else `False` |
| Text.IntStr | src/resources/rds.py:76 | `str()` of an int is non-empty, all digits when not negative, and starts with `-` when negative |
| Text.NatStrValue | src/resources/rds.py:76 | the decimal digits of `str(n)` denote `n`, with no leading zero |
| Text.IntStrValue | src/resources/rds.py:76 | `str(n)` denotes `n`: its digits give `n`, or `-` followed by the digits of `-n` when negative; no leading zero |
| Tags.Put | src/resources/ec2.py:53 | `d[k] = v` sets `k` to `v` and changes no other key; a new key goes last, an existing key keeps its place |
| Tags.Items | src/resources/ec2.py:63 | `items()` lists each key once, in insertion order, with its current value |
| Tags.TagList | src/resources/ec2.py:63 | the `Tags` list has one `{Key, Value}` per dict key, in insertion order |
| Tags.TagListHas | src/resources/ec2.py:63 | every key of the dict appears in the `Tags` list with its current value |
| Tags.TagListPutNew | src/resources/ec2.py:53-63 | after `d[k] = v` with a new key, the `Tags` list is the old list followed by `{k, v}` |
| Tags.FromPairs | src/resources/ec2.py:52 | `dict(pairs)` holds exactly the keys of the pairs |
| Tags.FromPairsLastWins | src/resources/ec2.py:52 | the last pair with a key decides its value |
| Tags.FromPairsOrder | src/resources/ec2.py:52 | the keys stand in the order of their first occurrence |
| Tags.SplitEntries | src/resources/ec2.py:52 | all entries split in two exactly when no error occurs; otherwise the error names the first bad entry and its part count |
| Tags.WellFormedIff | src/resources/ec2.py:52 | an entry splits in two exactly when it holds a single `=` (no `=`, or two or more, is an error) |
| Tags.WellFormedParts | src/resources/ec2.py:52 | a well-formed entry is `key=value` with no `=` in either part |
| Tags.EntryRoundTrip | src/resources/ec2.py:52 | any key and value without `=` make an entry that parses back to them |
| Tags.ParseTags | src/resources/rds.py:44 | parsing succeeds exactly when every entry holds a single `=` |
| Tags.ParseTagsKeys | src/resources/rds.py:44 | the parsed dict has a key exactly when some entry names it |
| Tags.ParseTagsLastWins | src/resources/rds.py:44 | for a repeated key, the value of its last entry wins |
| Tags.ParseTagsOrder | src/resources/rds.py:44 | keys are ordered by their first entry |
| Table.Line | src/resources/vpc.py:36-40 | a row is at least 25 characters per padded cell, plus the last cell, and starts with its first cell |
| Table.LineEnds | src/resources/rds.py:72-77 | whatever the cells' lengths, a row is as long as its cells each padded to `max(len, 25)` plus the last cell, and ends with the last cell |
| Table.LineLayout | src/resources/rds.py:72-77 | whatever the cells' lengths (`ljust` never truncates), cell `k` starts where the padded cells before it end, and spaces follow it up to the next cell |
| Table.LineColumns | src/resources/vpc.py:27-32 | when cells fit, cell `k` starts at column `25k` and is followed by spaces, and the last cell starts at `25·n` |
| Table.TagText | src/resources/vpc.py:40 | a rendered tag is the key, then `=`, then the value |
| Table.TagTextSplits | src/resources/vpc.py:40 | a tag whose key and value hold no `=` renders as text that splits on `=` back into key and value |
| Table.TagsColumn | src/resources/ec2.py:175 | the tags column is empty exactly when there are no tags, is the one tag's `K=V` for a single tag, and starts with the first tag's `K=V` |
| Table.TagsColumnAppend | src/resources/ec2.py:175 | the column of two non-empty runs of tags is each run's column joined by `, `, so every tag appears as `K=V` in order |
| Table.OptionalTagsColumn | src/resources/vpc.py:35-40 | `None` tags and an empty tag list both render as an empty column; otherwise the tags render |
| Table.Listing | src/resources/ec2.py:162-176 | a listing begins with the header and then the fetch calls, adds at most one line per row, and raises nothing exactly when no row raises |
| Table.ListingAllRows | src/resources/ec2.py:162-176 | the header, then one line per row in order, when no row raises |
| Table.ListingStopsAt | src/resources/ec2.py:170-176 | the rows before the first raising row are printed, and that row's exception ends the listing |
| Table.ListingAfter | src/resources/vpc.py:26-41 | after earlier effects, row `i` is the effect at `before + 1 + fetch + i`, and nothing is raised |
| Table.ListingAfterCall | src/resources/rds.py:35-39 | after one SDK call, the header, then row `i` at position `2 + i`, nothing raised |
| Table.ListingAfterPrint | src/resources/vpc.py:21-41 | after one printed line, the header and one fetch call, then row `i` at position `3 + i`, nothing raised |
| Table.PrintListing | src/resources/ec2.py:162-176 | the `_list_details` loop produces exactly the listing's effects and exception |
| ServiceBase.NotRecognized | src/service_base.py:12 | the message is exactly `Command <func> was not recognized` |
| ServiceBase.Call | src/service_base.py:8-14 | `__call__` (the same in `Resource` and `Client`, lines 21-27): a `None` name raises `TypeError`; an operation runs once with the same arguments; an unknown name prints the message, runs nothing and raises nothing |
| Ec2.CanParse | src/resources/ec2.py:47-48 | `can_parse` accepts `ec2` itself and only verbs of its length |
| Ec2.CanParseIff | src/resources/ec2.py:47-48 | `can_parse(v)` holds exactly when `v` is `ec2` in some mix of cases |
| Ec2.NamedTags | src/resources/ec2.py:52-53 | parsed tags plus `Name` set to the positional name; the first malformed entry is the error |
| Ec2.CountValue | src/resources/ec2.py:24-25 | a user-supplied `--max`/`--min` stays a string; the default is the integer 1 |
| Ec2.CreateRequest | src/resources/ec2.py:55-66 | the request is built exactly when every tag entry is well formed; otherwise the error names the first malformed entry and its part count; a built request has exactly one tag specification, for `instance` |
| Ec2.CreateRequestFields | src/resources/ec2.py:22-66 | the request is built exactly when every tag entry holds one `=`; it carries the image, type and counts given or their defaults, and one tag specification for `instance` |
| Ec2.RequestTagsSpec | src/resources/ec2.py:52-63 | every tag key appears once, `Name` carries the name, and every other key comes from an entry |
| Ec2.LastEntryWins | src/resources/ec2.py:52-63 | a non-`Name` key's tag carries the value of its last entry |
| Ec2.NameTagPlacement | src/resources/ec2.py:52-63 | a user-supplied `Name` is overwritten in place; otherwise `Name` is appended after the parsed tags |
| Ec2.MalformedTagFails | src/resources/ec2.py:51-68 | a malformed entry raises before any SDK call, naming the first such entry and its part count |
| Ec2.Filters | src/resources/ec2.py:91-103 | at most two filters: `instance-id` with the ids unchanged first when ids are given, `tag:Name` with `[name]` last when a name is given, none otherwise |
| Ec2.BuildFilters | src/resources/ec2.py:116-128 | building by appends yields exactly that filter list |
| Ec2.Each | src/resources/ec2.py:159-160 | one call per instance, in order, on that instance's id |
| Ec2.IssueEach | src/resources/ec2.py:134-135 | the loop issues exactly one call per instance, in order |
| Ec2.Row | src/resources/ec2.py:170-176 | a row raises `TypeError` exactly when the instance's tags are `None`; otherwise it starts with the instance id |
| Ec2.HeaderColumns | src/resources/ec2.py:163-168 | header `Id`, `Type`, `Status` at columns 0, 25, 50, then `Tags` at 75 |
| Ec2.RowColumns | src/resources/ec2.py:171-176 | with short cells, id, type and state at columns 0, 25, 50, and the tags from 75 |
| Ec2.ListQuery | src/resources/ec2.py:80-83 | `limit(N)` exactly when `N` is given and non-zero, else `all()` |
| Ec2.StartStops | src/resources/ec2.py:88-110 | `start` differs from `stop` only in its first printed line: it stops the instances |
| Ec2.TargetRunActs | src/resources/ec2.py:138-160 | message, header, query, one row per instance, the query again, then one action per matched instance, nothing raised |
| Ec2.UntaggedStopsBeforeActing | src/resources/ec2.py:130-135 | an instance with `None` tags raises in the table, and no instance is stopped or terminated |
| Ec2.StoppedBeforeActing | src/resources/ec2.py:130-135 | a table that raises after printing only lines leaves the command with that exception, three effects before the lines, and no stop or terminate call |
| Ec2.Create | src/resources/ec2.py:51-73 | `create` runs as its specification: request, launch, a wait per instance, table |
| Ec2.List | src/resources/ec2.py:77-85 | `list` runs as its specification |
| Ec2.Target | src/resources/ec2.py:113-135 | `start`/`stop`/`terminate` run as their specification |
| Ec2.Call | src/service_base.py:8-14 | the compute handler's `__call__` runs as `ServiceBase.Call` over its five operations |
| Rds.CanParse | src/resources/rds.py:15-16 | `can_parse` accepts `rds` itself and only verbs of its length |
| Rds.CanParseIff | src/resources/rds.py:15-16 | `can_parse(v)` holds exactly when `v` is `rds` in some mix of cases |
| Rds.FlagValue | src/resources/rds.py:23-28 | a given flag is its string; an absent one is its typed default |
| Rds.CreateRequest | src/resources/rds.py:46-57 | the request is built exactly when every tag entry is well formed; a built request carries the identifier, engine, user name and password given |
| Rds.CreateRequestFields | src/resources/rds.py:21-57 | the request is built exactly when every tag entry holds one `=`; each field maps from its argument, `DBName` is `None` when absent, and the defaults are `db.t3.small`, `False`, `0`, `20` |
| Rds.CreateRequestTags | src/resources/rds.py:44-56 | tag keys appear once, only keys the entries name (no `Name` added), with the last entry's value |
| Rds.Row | src/resources/rds.py:72-77 | a row starts with the database identifier |
| Rds.RowColumns | src/resources/rds.py:72-77 | with short cells, identifier, class and engine at columns 0, 25, 50, and `str(AllocatedStorage)` from 75 to the end |
| Rds.HeaderColumns | src/resources/rds.py:64-69 | header `Id`, `Class`, `Engine` at columns 0, 25, 50, then `Storage` at 75 |
| Rds.ListPrintsEveryRow | src/resources/rds.py:35-39 | one describe call, the header, then one row per `DBInstances` entry in response order, nothing raised |
| Rds.CreateRun | src/resources/rds.py:41-61 | `create` always prints its message first, and raises nothing exactly when the namespace is a `create` one and every tag entry is well formed |
| Rds.CreateSucceeds | src/resources/rds.py:41-61 | with one `=` per tag entry, `create` prints its message, makes one `create_db_instance` call with the built request, prints the answer, and raises nothing |
| Rds.MalformedTagFails | src/resources/rds.py:41-59 | a malformed entry raises after the message and before any SDK call |
| Rds.List | src/resources/rds.py:35-39 | `list` runs as its specification |
| Rds.Call | src/service_base.py:21-27 | the database handler's `__call__` runs as `ServiceBase.Call` over `list` and `create` |
| Vpc.CanParse | src/resources/vpc.py:18-19 | `can_parse` accepts `vpc` itself and only verbs of its length |
| Vpc.CanParseIff | src/resources/vpc.py:18-19 | `can_parse(v)` holds exactly when `v` is `vpc` in some mix of cases |
| Vpc.Row | src/resources/vpc.py:34-41 | a row starts with the VPC id |
| Vpc.HeaderColumns | src/resources/vpc.py:27-32 | header `Id`, `State`, `Default` at columns 0, 25, 50, then `Tags` at 75 |
| Vpc.RowColumns | src/resources/vpc.py:35-41 | with short cells, id, state and `True`/`False` at columns 0, 25, 50, then the tags; `None` tags leave the row at 75 characters |
| Vpc.ListPrintsEveryRow | src/resources/vpc.py:21-24 | the message, the header, one request for all VPCs, then one row per VPC in order, nothing raised |
| Vpc.LimitIgnored | src/resources/vpc.py:16-24 | `--limit` is never read: any two namespaces naming `list` run identically |
| Vpc.List | src/resources/vpc.py:21-24 | `list` runs as its specification |
| Vpc.Call | src/service_base.py:8-14 | the network handler's `__call__` runs as `ServiceBase.Call` over `list` |
| Subnet.OnlyListIsMapped | src/subnet.py:14-20 | the command fails exactly when the operation is not `list`, with `KeyError` on that key and nothing printed |
| Subnet.Row | src/subnet.py:37-46 | a row starts with the subnet id |
| Subnet.HeaderColumns | src/subnet.py:28-35 | header `Id`, `VPC`, `CIDR`, `Default`, `Zone` at columns 0 to 100, then `Tags` at 125 |
| Subnet.RowColumns | src/subnet.py:39-45 | with short cells, subnet id, VPC id, CIDR, default flag and zone at columns 0 to 100, then the tags; `None` tags give an empty column |
| Subnet.ListPrintsEveryRow | src/subnet.py:22-25 | the message, the header, one request for all subnets (no limit), then one row per subnet in order, nothing raised |
| Subnet.ListInstances | src/subnet.py:22-25 | `list_instances` runs as its specification |
| Subnet.ParseArguments | src/subnet.py:14-20 | `parse_arguments` runs as its specification |
| Cli.OwnClasses | src/main.py:16-21 | a module contributes exactly the classes whose `__module__` is its own name |
| Cli.DefinedIn | src/main.py:20 | the filter keeps exactly the classes whose `__module__` is the module's name, and never more classes than it was given |
| Cli.DefinedInAppend | src/main.py:16-21 | the filter keeps `getmembers` order: the own classes of two runs of classes are each run's own classes, in turn |
| Cli.DefinedInOne | src/main.py:16-21 | a single class is kept once exactly when its `__module__` is the module's name, and dropped otherwise |
| Cli.Instantiate | src/main.py:17 | a handler's constructor adds its command and operations to the shared parser |
| Cli.Discover | src/main.py:16-21 | each own class is instantiated exactly once, in order, with the shared parser, which gains one registration per handler |
| Cli.Claimants | src/main.py:25-26 | a handler is kept exactly when it accepts the verb |
| Cli.ClaimantsAppend | src/main.py:25-26 | claimants keep discovery order: the claimants of two runs of handlers are each run's claimants, in turn |
| Cli.ClaimantsOne | src/main.py:25-26 | a single handler is a claimant once exactly when its `can_parse` accepts the verb |
| Cli.InvokeAllAppend | src/main.py:25-27 | calling two runs of handlers calls the first run, then, unless one raised, the second; two claimants give two calls |
| Cli.DispatchCallsClaimants | src/main.py:25-27 | dispatch calls exactly the accepting handlers, in order, each once with the arguments unchanged |
| Cli.NoClaimantNoRun | src/main.py:25-27 | when no handler accepts the verb, nothing runs and nothing is raised |
| Cli.DispatchRun | src/main.py:25-27 | with no handlers nothing runs; a missing verb with handlers present raises `AttributeError` from `None.lower()` before any call; any exception for a given verb comes from a handler that accepts it |
| Cli.Dispatch | src/main.py:25-27 | the loop runs as its specification |
| Cli.Invoke | src/main.py:27 | `handler(args)` runs that handler's `__call__` |
| Cli.Program | src/main.py:10-27 | discovery then dispatch; the parser holds exactly the handlers' registrations |
| Cli.PackageHandlers | src/main.py:13-21 | the resources package yields the handlers EC2, RDS and VPC, with the imported bases excluded |
| Cli.SubnetNeverDispatched | src/main.py:25-27 | the verb `subnet` is accepted by no discovered handler, so the dispatch loop calls nothing for it |
| Cli.OneClaimantPerVerb | src/main.py:25-26 | no verb is accepted by two of the package's handlers |
| Args.SubParsers.AddParser | src/resources/ec2.py:7-14 | registering appends one command with its operations to the shared parser |

## Left out

- The SDK calls are not modelled. `create_instances`, `wait_until_exists`, the instance collections, `stop`, `terminate`, `describe_db_instances`, `create_db_instance`, `vpcs.all` and `subnets.all` become `Aws.Call` effects, and their answers come from `Aws.Cloud`.
- Errors raised by the SDK are not modelled.
- Pagination is not modelled: one collection iteration is one request.
- Iterating the same filtered collection twice gives the same instances.
- Session and region setup (`service_base.py` lines 5-6 and 18-19, `subnet.py` line 4) is SDK configuration. Handlers are values without those fields.
- The argparse grammar is not modelled. The parsed namespace is an input, and what argparse enforces (sub-command choices, required flags, `nargs='+'`) is assumed rather than checked. A registration records only a command and its operation names.
- When an operation receives another operation's namespace (argparse never produces one), the model raises at once on the first attribute the operation reads, even if that attribute exists in the other shape.
- Reflection-based discovery (`pkgutil`, `importlib`, `inspect`) is not modelled. The modules and their classes are inputs, in the order those functions return them. `Cli.PackageModules` records the repository's own layout.
- Console output is a sequence of `Print` effects.
- SDK attribute values are taken as already rendered by `str()`, except booleans and `AllocatedStorage`.
- `getattr` on names that are not operations is not modelled:
  - A handler's helper methods or fields (`can_parse`, `_list_details`, `session`, …) end the run with `UnmodelledMember`.
  - Python's built-in object attributes (`__class__`, `__dict__`, …) are treated as unknown names.
- Text.Lower: only ASCII letters are lower-cased, whereas Python's `str.lower()` folds all of Unicode. For the three resource verbs this makes no difference.
- The parsing of the whole argument vector (`parse_args`, main.py line 23) is not modelled. In particular, no `subnet` sub-command is ever registered, so on the command line `parse_args` rejects the verb `subnet` (usage message, exit status 2) before the dispatch loop. `Cli.SubnetNeverDispatched` states only that the loop would call nothing for it.
