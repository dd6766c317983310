/** The agent Redis seeding script (agentDB/seed_agent_data.py): seed-file
    lines are parsed into commands, the commands are checked and queued on
    a non-transactional pipeline, the version key is queued last, and the
    pipeline is executed. Reading the file and shell-style splitting
    (`shlex.split`, a parameter) are outside the model; the Redis server
    is the `KeyValue` keyspace. */
module SeedData {
  import opened PyValue
  import opened KeyValue

  /** A parsed seed line: the upper-cased command, the key and the remaining tokens. */
  datatype Command = Command(name: string, key: string, args: seq<string>)

  /** An operation queued on the pipeline. */
  datatype Op = HSetOp(key: string, mapping: map<string, string>) | SetOp(key: string, value: string)

  /** How a seeding run ends: skipped because the version key exists,
      refused before anything was sent (a parse or validation error),
      executed with some command failing on the server, or seeded. */
  datatype Outcome = AlreadySeeded | Refused | ExecuteFailed | Seeded(applied: nat)

  const VersionKey := "agent_seed:version"

  /** `shlex.split`: the tokens of a line, `None` when it raises (an unclosed quote). */
  type Splitter = string -> Option<seq<string>>

  // ---------------------------------------------------------------------
  // Parsing
  // ---------------------------------------------------------------------

  /** One line: nothing for a blank or comment line, an error for a line
      without a key. */
  function ParseLine(line: string, split: Splitter): Result<Option<Command>> {
    var stripped := Strip(line);
    if stripped == "" || stripped[0] == '#' then Ok(None)
    else match split(stripped)
      case None => Fault
      case Some(parts) =>
        if parts == [] then Ok(None)
        else if |parts| < 2 then Fault
        else Ok(Some(Command(Upper(parts[0]), parts[1], parts[2..])))
  }

  /** What each line gives, in order. */
  function LineResults(lines: seq<string>, split: Splitter): (rs: seq<Result<Option<Command>>>)
    ensures |rs| == |lines|
  {
    if lines == [] then [] else LineResults(lines[..|lines| - 1], split) + [ParseLine(lines[|lines| - 1], split)]
  }

  /** The commands of a run of line results, in order; the first error stops it. */
  function Collect(rs: seq<Result<Option<Command>>>): Result<seq<Command>> {
    if rs == [] then Ok([])
    else match Collect(rs[..|rs| - 1])
      case Fault => Fault
      case Ok(cmds) =>
        match rs[|rs| - 1]
        case Fault => Fault
        case Ok(c) => Ok(if c.Some? then cmds + [c.value] else cmds)
  }

  /** `_parse_seed_commands`. */
  function ParseSpec(lines: seq<string>, split: Splitter): Result<seq<Command>> {
    Collect(LineResults(lines, split))
  }

  /** Collecting distributes over concatenation: the commands of two runs
      are those of the first followed by those of the second, and an error
      anywhere is an error of the whole. */
  lemma {:induction false} CollectConcat(xs: seq<Result<Option<Command>>>, ys: seq<Result<Option<Command>>>)
    ensures Collect(xs + ys) ==
      if Collect(xs).Ok? && Collect(ys).Ok? then Ok(Collect(xs).value + Collect(ys).value) else Fault
  {
    if ys == [] {
      assert xs + ys == xs;
      if Collect(xs).Ok? {
        assert Collect(xs).value + [] == Collect(xs).value;
      }
    } else {
      var n := |ys| - 1;
      CollectConcat(xs, ys[..n]);
      assert (xs + ys)[..|xs + ys| - 1] == xs + ys[..n];
      assert (xs + ys)[|xs + ys| - 1] == ys[n];
      if Collect(xs).Ok? && Collect(ys[..n]).Ok? && ys[n].Ok? && ys[n].value.Some? {
        var a, b, c := Collect(xs).value, Collect(ys[..n]).value, ys[n].value.value;
        assert (a + b) + [c] == a + (b + [c]);
      }
    }
  }

  /** Parsing two runs of lines is parsing each and concatenating, so order
      is preserved and an error in any line fails the whole file. */
  lemma ParseConcat(xs: seq<string>, ys: seq<string>, split: Splitter)
    ensures ParseSpec(xs + ys, split) ==
      if ParseSpec(xs, split).Ok? && ParseSpec(ys, split).Ok? then Ok(ParseSpec(xs, split).value + ParseSpec(ys, split).value)
      else Fault
  {
    LineResultsConcat(xs, ys, split);
    CollectConcat(LineResults(xs, split), LineResults(ys, split));
  }

  lemma {:induction false} LineResultsConcat(xs: seq<string>, ys: seq<string>, split: Splitter)
    ensures LineResults(xs + ys, split) == LineResults(xs, split) + LineResults(ys, split)
  {
    if ys == [] {
      assert xs + ys == xs;
    } else {
      var n := |ys| - 1;
      var ys', zs := ys[..n], xs + ys;
      LineResultsConcat(xs, ys', split);
      assert ys == ys' + [ys[n]];
      assert zs == (xs + ys') + [ys[n]];
      assert zs[..|zs| - 1] == xs + ys';
      var a, b, p := LineResults(xs, split), LineResults(ys', split), [ParseLine(ys[n], split)];
      assert LineResults(zs, split) == (a + b) + p;
      assert LineResults(ys, split) == b + p;
      assert (a + b) + p == a + (b + p);
    }
  }

  lemma {:induction false} LineResultsAt(lines: seq<string>, split: Splitter, i: nat)
    requires i < |lines|
    ensures LineResults(lines, split)[i] == ParseLine(lines[i], split)
  {
    if i < |lines| - 1 {
      LineResultsAt(lines[..|lines| - 1], split, i);
    }
  }

  /** Blank lines and comment lines give no command; any other line whose
      split has at least two tokens gives the upper-cased command, the key
      and the rest; fewer than two tokens is an error. */
  lemma ParseLineCases(line: string, split: Splitter)
    ensures (forall i :: 0 <= i < |line| ==> IsSpace(line[i])) ==> ParseLine(line, split) == Ok(None)
    ensures Strip(line) != "" && Strip(line)[0] == '#' ==> ParseLine(line, split) == Ok(None)
    ensures Strip(line) != "" && Strip(line)[0] != '#' && split(Strip(line)).Some? ==>
      var parts := split(Strip(line)).value;
      (|parts| == 1 ==> ParseLine(line, split).Fault?)
      && (|parts| >= 2 ==> ParseLine(line, split) == Ok(Some(Command(Upper(parts[0]), parts[1], parts[2..]))))
  {
  }

  method ParseSeedCommands(lines: seq<string>, split: Splitter) returns (r: Result<seq<Command>>)
    ensures r == ParseSpec(lines, split)
  {
    ghost var rs := LineResults(lines, split);
    var commands: seq<Command> := [];
    var i := 0;
    while i < |lines|
      invariant 0 <= i <= |lines|
      invariant Collect(rs[..i]) == Ok(commands)
    {
      var c := ParseLine(lines[i], split);
      LineResultsAt(lines, split, i);
      assert rs[..i + 1][..i] == rs[..i];
      assert rs[..i + 1][i] == c;
      if c.Fault? {
        assert Collect(rs[..i + 1]) == Fault;
        CollectConcat(rs[..i + 1], rs[i + 1..]);
        assert rs[..i + 1] + rs[i + 1..] == rs;
        return Fault;
      }
      if c.value.Some? {
        commands := commands + [c.value.value];
      }
      i := i + 1;
    }
    assert rs[..i] == rs;
    return Ok(commands);
  }

  // ---------------------------------------------------------------------
  // Queueing
  // ---------------------------------------------------------------------

  /** `{args[i]: args[i + 1] for i in range(0, len(args), 2)}`: later pairs win. */
  function PairUp(args: seq<string>): map<string, string>
    requires |args| % 2 == 0
  {
    if args == [] then map[]
    else PairUp(args[..|args| - 2])[args[|args| - 2] := args[|args| - 1]]
  }

  /** The fields of the mapping are the even-position arguments, and each
      field holds the value after its last occurrence in a field position. */
  lemma {:induction false} PairUpLastWins(args: seq<string>)
    requires |args| % 2 == 0
    ensures forall f :: f in PairUp(args) <==> exists i :: 0 <= i < |args| / 2 && args[2 * i] == f
    ensures forall i :: (0 <= i < |args| / 2 && (forall j :: i < j < |args| / 2 ==> args[2 * j] != args[2 * i])
                         ==> PairUp(args)[args[2 * i]] == args[2 * i + 1])
  {
    if args != [] {
      var n := |args| - 2;
      var m := n / 2;
      assert n == 2 * m && |args| / 2 == m + 1;
      var pre := args[..n];
      PairUpLastWins(pre);
      assert PairUp(args) == PairUp(pre)[args[n] := args[n + 1]];
      forall f
        ensures f in PairUp(args) <==> exists i :: 0 <= i < |args| / 2 && args[2 * i] == f
      {
        if f in PairUp(pre) {
          var i :| 0 <= i < m && pre[2 * i] == f;
          assert args[2 * i] == f;
        }
        if exists i :: 0 <= i < |args| / 2 && args[2 * i] == f {
          var i :| 0 <= i < |args| / 2 && args[2 * i] == f;
          if i < m {
            assert pre[2 * i] == f;
          }
        }
      }
      forall i | 0 <= i < |args| / 2 && (forall j :: i < j < |args| / 2 ==> args[2 * j] != args[2 * i])
        ensures PairUp(args)[args[2 * i]] == args[2 * i + 1]
      {
        if i < m {
          assert args[2 * m] != args[2 * i];
          assert pre[2 * i] == args[2 * i] && pre[2 * i + 1] == args[2 * i + 1];
          assert forall j :: i < j < m ==> pre[2 * j] == args[2 * j];
        }
      }
    }
  }

  /** What queueing one command sends, or an error: HSET needs an even,
      non-empty list of field/value tokens (redis-py refuses an empty
      mapping), SET needs a value and uses the first; other commands are refused. */
  function OpFor(c: Command): Result<Op> {
    if c.name == "HSET" then
      if |c.args| % 2 != 0 || c.args == [] then Fault else Ok(HSetOp(c.key, PairUp(c.args)))
    else if c.name == "SET" then
      if c.args == [] then Fault else Ok(SetOp(c.key, c.args[0]))
    else Fault
  }

  function QueueSpec(commands: seq<Command>): Result<seq<Op>> {
    if commands == [] then Ok([])
    else match QueueSpec(commands[..|commands| - 1])
      case Fault => Fault
      case Ok(ops) =>
        match OpFor(commands[|commands| - 1])
        case Fault => Fault
        case Ok(op) => Ok(ops + [op])
  }

  /** Queueing succeeds exactly when every command is acceptable, and then
      queues one operation per command, in order. */
  lemma {:induction false} QueueOnePerCommand(commands: seq<Command>)
    ensures QueueSpec(commands).Ok? <==> forall i :: 0 <= i < |commands| ==> OpFor(commands[i]).Ok?
    ensures QueueSpec(commands).Ok? ==>
      |QueueSpec(commands).value| == |commands|
      && forall i :: 0 <= i < |commands| ==> QueueSpec(commands).value[i] == OpFor(commands[i]).value
  {
    if commands != [] {
      var n := |commands| - 1;
      QueueOnePerCommand(commands[..n]);
      assert forall i :: 0 <= i < n ==> commands[..n][i] == commands[i];
    }
  }

  lemma {:induction false} QueuePrefixFails(commands: seq<Command>, k: nat)
    requires k <= |commands| && QueueSpec(commands[..k]).Fault?
    ensures QueueSpec(commands).Fault?
    decreases |commands| - k
  {
    if k < |commands| {
      assert commands[..k + 1][..k] == commands[..k];
      QueuePrefixFails(commands, k + 1);
    } else {
      assert commands[..k] == commands;
    }
  }

  // ---------------------------------------------------------------------
  // Execution
  // ---------------------------------------------------------------------

  function ApplyOp(st: Store, op: Op): Result<Store> {
    match op
    case HSetOp(key, mapping) => HSet(st, key, mapping)
    case SetOp(key, value) => Ok(SetText(st, key, value))
  }

  /** A non-transactional pipeline: every operation runs in order, one that
      fails on the server (WRONGTYPE) changes nothing, and the run reports
      whether all succeeded. */
  function ExecuteSpec(st: Store, ops: seq<Op>): (Store, bool) {
    if ops == [] then (st, true)
    else
      var (s1, ok) := ExecuteSpec(st, ops[..|ops| - 1]);
      match ApplyOp(s1, ops[|ops| - 1])
      case Fault => (s1, false)
      case Ok(s2) => (s2, ok)
  }

  /** `seed_agent_redis`, as a function of the keyspace before the run. */
  function SeedSpec(st: Store, lines: seq<string>, split: Splitter, seedVersion: string): (Outcome, Store) {
    if VersionKey in st then (AlreadySeeded, st)
    else match ParseSpec(lines, split)
      case Fault => (Refused, st)
      case Ok(commands) =>
        match QueueSpec(commands)
        case Fault => (Refused, st)
        case Ok(ops) =>
          var (st', ok) := ExecuteSpec(st, ops + [SetOp(VersionKey, seedVersion)]);
          (if ok then Seeded(|ops|) else ExecuteFailed, st')
  }

  /** The run is all-or-nothing on the client side: an existing version key
      or a parse or validation error leaves the keyspace as it was; once the
      pipeline runs, the version key holds the seed version afterwards
      (even when another command failed on the server), and a successful
      run reports one applied command per parsed command. */
  lemma SeedOutcomes(st: Store, lines: seq<string>, split: Splitter, seedVersion: string)
    ensures var (r, st') := SeedSpec(st, lines, split, seedVersion);
      (VersionKey in st <==> r == AlreadySeeded)
      && (r == AlreadySeeded || r == Refused ==> st' == st)
      && (r.Seeded? || r == ExecuteFailed ==> VersionKey in st' && st'[VersionKey] == Text(seedVersion))
      && (r.Seeded? ==> ParseSpec(lines, split).Ok? && r.applied == |ParseSpec(lines, split).value|)
    ensures VersionKey !in st ==>
      (SeedSpec(st, lines, split, seedVersion).0 == Refused <==>
        ParseSpec(lines, split).Fault? || QueueSpec(ParseSpec(lines, split).value).Fault?)
  {
    if VersionKey !in st && ParseSpec(lines, split).Ok? {
      QueueOnePerCommand(ParseSpec(lines, split).value);
    }
  }

  /** The Redis connection whose keyspace the script changes. */
  class RedisClient {
    var store: Store

    constructor (initial: Store)
      ensures store == initial
    {
      store := initial;
    }

    /** `pipe.execute()`. */
    method Execute(ops: seq<Op>) returns (ok: bool)
      modifies this
      ensures (store, ok) == ExecuteSpec(old(store), ops)
    {
      ok := true;
      var i := 0;
      while i < |ops|
        invariant 0 <= i <= |ops|
        invariant (store, ok) == ExecuteSpec(old(store), ops[..i])
      {
        assert ops[..i + 1][..i] == ops[..i];
        var next := ApplyOp(store, ops[i]);
        if next.Fault? {
          ok := false;
        } else {
          store := next.value;
        }
        i := i + 1;
      }
      assert ops[..i] == ops;
    }

    /** `seed_agent_redis(seed_version)`, given the seed file's lines. */
    method SeedAgentRedis(lines: seq<string>, split: Splitter, seedVersion: string) returns (r: Outcome)
      modifies this
      ensures (r, store) == SeedSpec(old(store), lines, split, seedVersion)
    {
      if VersionKey in store {
        return AlreadySeeded;
      }
      var commands := ParseSeedCommands(lines, split);
      if commands.Fault? {
        return Refused;
      }
      var ops := QueueCommands(commands.value);
      if ops.Fault? {
        return Refused;
      }
      var ok := Execute(ops.value + [SetOp(VersionKey, seedVersion)]);
      r := if ok then Seeded(|ops.value|) else ExecuteFailed;
    }
  }

  /** The queueing loop of `seed_agent_redis`: it stops at the first bad command. */
  method QueueCommands(commands: seq<Command>) returns (r: Result<seq<Op>>)
    ensures r == QueueSpec(commands)
  {
    var ops: seq<Op> := [];
    var i := 0;
    while i < |commands|
      invariant 0 <= i <= |commands|
      invariant QueueSpec(commands[..i]) == Ok(ops)
    {
      assert commands[..i + 1][..i] == commands[..i];
      var op := OpFor(commands[i]);
      if op.Fault? {
        QueuePrefixFails(commands, i + 1);
        return Fault;
      }
      ops := ops + [op.value];
      i := i + 1;
    }
    assert commands[..i] == commands;
    return Ok(ops);
  }
}
