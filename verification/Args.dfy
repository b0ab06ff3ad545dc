/** The argument parser of rcn_arg.c, whose handlers move the shared loop index forwards and back. */
module Args {
  import opened Base

  datatype SubAction = SubPause | SubResume | SubStop | SubSwitch | SubLog | SubList | SubLs

  /** struct arg. */
  datatype Arg<T> = Arg(optional: bool, needed: bool, provided: bool, val: T)

  /** struct arg_context; the filter is a set of event names, and `debug` the global debug level. */
  datatype Context = Context(
    port: Arg<int>, server: Arg<string>, devices: Arg<seq<string>>, help: Arg<()>,
    daemon: Arg<SubAction>, filter: Arg<set<string>>, debug: int)

  datatype Handler = OnPort | OnHost | OnDevices | OnFilter | OnHelp | OnDebug | OnDaemon

  /** The handlers table. */
  const HANDLERS: seq<(string, string, Handler)> := [
    ("-p", "--port", OnPort), ("-s", "--server", OnHost), ("-d", "--devices", OnDevices),
    ("-f", "--filter", OnFilter), ("-h", "--help", OnHelp), ("-g", "--debug", OnDebug),
    ("pause", "pause", OnDaemon), ("resume", "resume", OnDaemon), ("stop", "stop", OnDaemon),
    ("switch", "switch", OnDaemon), ("log", "log", OnDaemon), ("ls", "list", OnDaemon)]

  predicate Matches(entry: (string, string, Handler), arg: string) {
    entry.0 == arg || entry.1 == arg
  }

  /** The handler of a reserved word, from entry k of the table on. */
  function HandlerFrom(arg: string, k: nat): (h: Option<Handler>)
    ensures h.None? <==> forall j :: k <= j < |HANDLERS| ==> !Matches(HANDLERS[j], arg)
    decreases |HANDLERS| - k
  {
    if k >= |HANDLERS| then None
    else if Matches(HANDLERS[k], arg) then Some(HANDLERS[k].2)
    else HandlerFrom(arg, k + 1)
  }

  function HandlerOf(arg: string): Option<Handler> {
    HandlerFrom(arg, 0)
  }

  predicate Reserved(arg: string) {
    HandlerOf(arg).Some?
  }

  // ---------------------------------------------------------------- words

  function SubActionOf(arg: string): Option<SubAction> {
    if arg == "pause" then Some(SubPause)
    else if arg == "resume" then Some(SubResume)
    else if arg == "stop" then Some(SubStop)
    else if arg == "switch" then Some(SubSwitch)
    else if arg == "log" then Some(SubLog)
    else if arg == "list" then Some(SubList)
    else if arg == "ls" then Some(SubLs)
    else None
  }

  const HELP_TOPICS: set<string> :=
    {"start", "connect", "server", "client", "show", "pause", "resume", "stop", "switch", "log", "list", "ls"}

  const EVENT_NAMES: set<string> := {"KEY", "REL", "ABS", "SWT"}

  function Upper(s: string): string {
    seq(|s|, i requires 0 <= i < |s| => if 'a' <= s[i] <= 'z' then s[i] - 'a' + 'A' else s[i])
  }

  function Digits(s: string, acc: int): int {
    if s == [] || !('0' <= s[0] <= '9') then acc else Digits(s[1..], 10 * acc + (s[0] - '0') as int)
  }

  /** atoi, without its overflow. */
  function Atoi(s: string): int {
    if s == [] then 0
    else if s[0] in {' ', '\t', '\n', '\r'} then Atoi(s[1..])
    else if s[0] == '-' then -Digits(s[1..], 0)
    else if s[0] == '+' then Digits(s[1..], 0)
    else Digits(s, 0)
  }

  // ---------------------------------------------------------------- handlers

  /** A handler's success: where it leaves the loop index, before the loop's own increment, and the context. */
  datatype Step = Step(i: nat, ctx: Context)

  function OnPortArg(argv: seq<string>, i: nat, ctx: Context): Option<Step> {
    if i + 1 >= |argv| || !ctx.port.needed || ctx.port.provided || Atoi(argv[i + 1]) == 0 then None
    else Some(Step(i + 1, ctx.(port := ctx.port.(val := Atoi(argv[i + 1]), provided := true))))
  }

  function OnHostArg(argv: seq<string>, i: nat, ctx: Context): Option<Step> {
    if i + 1 >= |argv| || !ctx.server.needed || ctx.server.provided then None
    else Some(Step(i + 1, ctx.(server := ctx.server.(val := argv[i + 1], provided := true))))
  }

  /** The first reserved word at or after k, or the end. */
  function NextReserved(argv: seq<string>, k: nat): (n: nat)
    ensures k <= |argv| ==> k <= n <= |argv|
    ensures forall j :: k <= j < n && j < |argv| ==> !Reserved(argv[j])
    ensures n < |argv| ==> Reserved(argv[n])
    decreases |argv| - k
  {
    if k >= |argv| || Reserved(argv[k]) then k else NextReserved(argv, k + 1)
  }

  /** Stopping at a reserved word puts the index one back, so that the loop's increment finds it again. */
  function BackAt(argv: seq<string>, n: nat): nat {
    if n < |argv| && n > 0 then n - 1 else n
  }

  function OnDevicesArg(argv: seq<string>, i: nat, ctx: Context): Option<Step> {
    if i + 1 >= |argv| || !ctx.devices.needed || ctx.devices.provided then None
    else
      var n := NextReserved(argv, i + 1);
      Some(Step(BackAt(argv, n), ctx.(devices := ctx.devices.(val := argv[i + 1..n], provided := true))))
  }

  /** Event names from k on, at most up to `max`; None is an unknown name or one too many. */
  function TakeFilters(argv: seq<string>, k: nat, max: nat, got: set<string>): (r: Option<(nat, set<string>)>)
    ensures r.Some? ==> r.value.0 >= k
    decreases |argv| - k
  {
    if k >= |argv| || Reserved(argv[k]) then Some((k, got))
    else if k >= max || Upper(argv[k]) !in EVENT_NAMES then None
    else TakeFilters(argv, k + 1, max, got + {Upper(argv[k])})
  }

  /** The flag is left as it was: it may be given again. */
  function OnFilterArg(argv: seq<string>, i: nat, ctx: Context): Option<Step> {
    if i + 1 >= |argv| || !ctx.filter.optional || ctx.filter.provided then None
    else
      var r := TakeFilters(argv, i + 1, i + 1 + 4, ctx.filter.val);
      if r.None? then None
      else Some(Step(BackAt(argv, r.value.0), ctx.(filter := ctx.filter.(val := r.value.1, optional := true))))
  }

  /** The last of the remaining words, all of which must be subactions. */
  function TakeSubActions(argv: seq<string>, k: nat, got: SubAction): Option<SubAction>
    decreases |argv| - k
  {
    if k >= |argv| then Some(got)
    else if SubActionOf(argv[k]).None? then None
    else TakeSubActions(argv, k + 1, SubActionOf(argv[k]).value)
  }

  function OnDaemonArg(argv: seq<string>, i: nat, ctx: Context): Option<Step> {
    if !ctx.daemon.needed || ctx.daemon.provided then None
    else
      var r := TakeSubActions(argv, i, ctx.daemon.val);
      if r.None? then None
      else Some(Step(if i < |argv| then |argv| else i, ctx.(daemon := ctx.daemon.(val := r.value, provided := true))))
  }

  predicate AllTopics(argv: seq<string>, k: nat) {
    forall j :: k <= j < |argv| ==> argv[j] in HELP_TOPICS
  }

  function OnHelpArg(argv: seq<string>, i: nat, ctx: Context): Option<Step> {
    var done := ctx.(help := ctx.help.(provided := true));
    if !ctx.help.needed || ctx.help.provided then None
    else if |argv| == 2 then Some(Step(i, done))
    else if AllTopics(argv, i + 1) then Some(Step(if i + 1 < |argv| then |argv| else i + 1, done))
    else None
  }

  function OnDebugArg(argv: seq<string>, i: nat, ctx: Context): Option<Step> {
    if i + 1 >= |argv| then None else Some(Step(i + 1, ctx.(debug := Atoi(argv[i + 1]))))
  }

  function Run(h: Handler, argv: seq<string>, i: nat, ctx: Context): (r: Option<Step>)
    ensures r.Some? && i < |argv| ==> r.value.i >= i
  {
    match h
    case OnPort => OnPortArg(argv, i, ctx)
    case OnHost => OnHostArg(argv, i, ctx)
    case OnDevices => OnDevicesArg(argv, i, ctx)
    case OnFilter => OnFilterArg(argv, i, ctx)
    case OnHelp => OnHelpArg(argv, i, ctx)
    case OnDebug => OnDebugArg(argv, i, ctx)
    case OnDaemon => OnDaemonArg(argv, i, ctx)
  }

  /** handle_arg: an unknown word is an error, except in slot 0. */
  function HandleArg(argv: seq<string>, i: nat, ctx: Context): (r: Option<Step>)
    requires i < |argv|
    ensures r.Some? ==> r.value.i >= i
  {
    var h := HandlerOf(argv[i]);
    if h.Some? then Run(h.value, argv, i, ctx)
    else if i == 0 then Some(Step(i, ctx))
    else None
  }

  /** validate_arg_ctx. */
  predicate Complete(ctx: Context) {
    && (ctx.port.needed ==> ctx.port.provided)
    && (ctx.server.needed ==> ctx.server.provided)
    && (ctx.devices.needed ==> ctx.devices.provided)
    && (ctx.help.needed ==> ctx.help.provided)
    && (ctx.daemon.needed ==> ctx.daemon.provided)
    && (ctx.filter.needed ==> ctx.filter.provided)
  }

  /** parse_args; None is a -1 return. The index never falls behind, so every argument vector is parsed to an end. */
  function Parse(argv: seq<string>, i: nat, ctx: Context): Option<Context>
    decreases |argv| - i
  {
    if i >= |argv| then (if Complete(ctx) then Some(ctx) else None)
    else
      var r := HandleArg(argv, i, ctx);
      if r.None? then None else Parse(argv, r.value.i + 1, r.value.ctx)
  }

  // ---------------------------------------------------------------- the parser as written

  lemma FlagsAreDistinct(a: nat, b: nat, arg: string)
    requires a < b < |HANDLERS| && Matches(HANDLERS[a], arg)
    ensures !Matches(HANDLERS[b], arg)
  {
  }

  class Parser {
    const argv: seq<string>
    var i: nat
    var ctx: Context

    constructor (argv: seq<string>, start: nat, ctx: Context)
      ensures this.argv == argv && this.i == start && this.ctx == ctx
    {
      this.argv, this.i, this.ctx := argv, start, ctx;
    }

    ghost predicate Agrees(ok: bool, r: Option<Step>)
      reads this
    {
      if ok then r == Some(Step(i, ctx)) else r == None
    }

    method ArgPort() returns (ok: bool)
      requires i < |argv|
      modifies this
      ensures Agrees(ok, OnPortArg(argv, old(i), old(ctx)))
    {
      if i + 1 >= |argv| || ctx.port.needed == false || ctx.port.provided == true {
        return false;
      }
      i := i + 1;
      var port := Atoi(argv[i]);
      if port == 0 {
        return false;
      }
      ctx := ctx.(port := ctx.port.(val := port, provided := true));
      ok := true;
    }

    method ArgHost() returns (ok: bool)
      requires i < |argv|
      modifies this
      ensures Agrees(ok, OnHostArg(argv, old(i), old(ctx)))
    {
      if i + 1 >= |argv| || ctx.server.needed == false || ctx.server.provided == true {
        return false;
      }
      i := i + 1;
      ctx := ctx.(server := ctx.server.(val := argv[i], provided := true));
      ok := true;
    }

    method ArgDevices() returns (ok: bool)
      requires i < |argv|
      modifies this
      ensures Agrees(ok, OnDevicesArg(argv, old(i), old(ctx)))
    {
      hide Reserved;
      if i + 1 >= |argv| || ctx.devices.needed == false || ctx.devices.provided == true {
        return false;
      }
      i := i + 1;
      var devices := [];
      while i < |argv|
        invariant old(i) < i <= |argv| && ctx == old(ctx)
        invariant devices == argv[old(i) + 1..i]
        invariant NextReserved(argv, i) == NextReserved(argv, old(i) + 1)
      {
        var arg := argv[i];
        if Reserved(arg) {
          i := i - 1;
          ctx := ctx.(devices := ctx.devices.(val := devices, provided := true));
          return true;
        }
        devices := devices + [arg];
        i := i + 1;
      }
      ctx := ctx.(devices := ctx.devices.(val := devices, provided := true));
      ok := true;
    }

    method ArgFilter() returns (ok: bool)
      requires i < |argv|
      modifies this
      ensures Agrees(ok, OnFilterArg(argv, old(i), old(ctx)))
    {
      hide Reserved, Upper;
      if i + 1 >= |argv| || ctx.filter.optional == false || ctx.filter.provided == true {
        return false;
      }
      i := i + 1;
      var max := i + 4;
      while i < |argv|
        invariant old(i) < i <= |argv| && max == old(i) + 1 + 4
        invariant ctx == old(ctx).(filter := old(ctx).filter.(val := ctx.filter.val))
        invariant TakeFilters(argv, i, max, ctx.filter.val) == TakeFilters(argv, old(i) + 1, max, old(ctx).filter.val)
      {
        var arg := argv[i];
        if Reserved(arg) {
          i := i - 1;
          ctx := ctx.(filter := ctx.filter.(optional := true));
          return true;
        }
        if i >= max || Upper(arg) !in EVENT_NAMES {
          return false;
        }
        ctx := ctx.(filter := ctx.filter.(val := ctx.filter.val + {Upper(arg)}));
        i := i + 1;
      }
      ctx := ctx.(filter := ctx.filter.(optional := true));
      ok := true;
    }

    method ArgDaemon() returns (ok: bool)
      requires i < |argv|
      modifies this
      ensures Agrees(ok, OnDaemonArg(argv, old(i), old(ctx)))
    {
      if ctx.daemon.needed == false || ctx.daemon.provided == true {
        return false;
      }
      while i < |argv|
        invariant old(i) <= i <= |argv|
        invariant ctx == old(ctx).(daemon := old(ctx).daemon.(val := ctx.daemon.val))
        invariant TakeSubActions(argv, i, ctx.daemon.val) == TakeSubActions(argv, old(i), old(ctx).daemon.val)
      {
        var saction := SubActionOf(argv[i]);
        if saction == None {
          return false;
        }
        ctx := ctx.(daemon := ctx.daemon.(val := saction.value));
        i := i + 1;
      }
      ctx := ctx.(daemon := ctx.daemon.(provided := true));
      ok := true;
    }

    method ArgHelp() returns (ok: bool)
      requires i < |argv|
      modifies this
      ensures Agrees(ok, OnHelpArg(argv, old(i), old(ctx)))
    {
      if ctx.help.needed == false || ctx.help.provided == true {
        return false;
      }
      if |argv| != 2 {
        i := i + 1;
        while i < |argv|
          invariant old(i) < i <= |argv| && ctx == old(ctx)
          invariant forall j :: old(i) < j < i ==> argv[j] in HELP_TOPICS
        {
          if argv[i] !in HELP_TOPICS {
            return false;
          }
          i := i + 1;
        }
      }
      ctx := ctx.(help := ctx.help.(provided := true));
      ok := true;
    }

    method ArgDebug() returns (ok: bool)
      requires i < |argv|
      modifies this
      ensures Agrees(ok, OnDebugArg(argv, old(i), old(ctx)))
    {
      if i + 1 >= |argv| {
        return false;
      }
      i := i + 1;
      ctx := ctx.(debug := Atoi(argv[i]));
      ok := true;
    }

    method RunHandler(h: Handler) returns (ok: bool)
      requires i < |argv|
      modifies this
      ensures Agrees(ok, Run(h, argv, old(i), old(ctx)))
    {
      match h {
        case OnPort => ok := ArgPort();
        case OnHost => ok := ArgHost();
        case OnDevices => ok := ArgDevices();
        case OnFilter => ok := ArgFilter();
        case OnHelp => ok := ArgHelp();
        case OnDebug => ok := ArgDebug();
        case OnDaemon => ok := ArgDaemon();
      }
    }

    /** handle_arg: its loop goes on over the table after a match, but no word matches twice. */
    method HandleWord() returns (ok: bool)
      requires i < |argv|
      modifies this
      ensures Agrees(ok, HandleArg(argv, old(i), old(ctx)))
    {
      var arg, found := argv[i], false;
      var fi := 0;
      while fi < |HANDLERS|
        invariant 0 <= fi <= |HANDLERS|
        invariant !found ==> i == old(i) && ctx == old(ctx) && HandlerFrom(arg, fi) == HandlerOf(arg)
        invariant found ==> HandlerOf(arg).Some? && Agrees(true, Run(HandlerOf(arg).value, argv, old(i), old(ctx)))
        invariant found ==> exists k :: 0 <= k < fi && Matches(HANDLERS[k], arg)
      {
        if Matches(HANDLERS[fi], arg) {
          if found {
            var k :| 0 <= k < fi && Matches(HANDLERS[k], arg);
            FlagsAreDistinct(k, fi, arg);
            assert false;
          }
          found := true;
          ok := RunHandler(HANDLERS[fi].2);
          if !ok {
            return false;
          }
        }
        fi := fi + 1;
      }
      ok := found || i == 0;
    }

    /** parse_args. */
    method ParseArgs() returns (ok: bool)
      modifies this
      ensures Parse(argv, old(i), old(ctx)) == if ok then Some(ctx) else None
      ensures ok ==> (ctx.port.needed ==> ctx.port.provided) && (ctx.server.needed ==> ctx.server.provided)
      ensures ok ==> (ctx.devices.needed ==> ctx.devices.provided) && (ctx.help.needed ==> ctx.help.provided)
      ensures ok ==> (ctx.daemon.needed ==> ctx.daemon.provided) && (ctx.filter.needed ==> ctx.filter.provided)
    {
      hide HandleArg;
      while i < |argv|
        invariant Parse(argv, i, ctx) == Parse(argv, old(i), old(ctx))
        decreases |argv| - i
      {
        ok := HandleWord();
        if !ok {
          return false;
        }
        i := i + 1;
      }
      ok := Complete(ctx);
    }
  }

  // ---------------------------------------------------------------- the groups of connect

  /** One flag of connect with its value or values, in its short or its long spelling. */
  datatype Group =
    | PortGroup(long: bool, port: string)
    | HostGroup(long: bool, host: string)
    | DeviceGroup(long: bool, paths: seq<string>)

  function Words(g: Group): seq<string> {
    match g
    case PortGroup(long, port) => [if long then "--port" else "-p", port]
    case HostGroup(long, host) => [if long then "--server" else "-s", host]
    case DeviceGroup(long, paths) => [if long then "--devices" else "-d"] + paths
  }

  predicate ValidGroup(g: Group) {
    match g
    case PortGroup(_, port) => Atoi(port) != 0
    case HostGroup(_, _) => true
    case DeviceGroup(_, paths) => paths != [] && forall p :: p in paths ==> !Reserved(p)
  }

  /** The flag is needed and has not been given. */
  predicate Open(ctx: Context, g: Group) {
    match g
    case PortGroup(_, _) => ctx.port.needed && !ctx.port.provided
    case HostGroup(_, _) => ctx.server.needed && !ctx.server.provided
    case DeviceGroup(_, _) => ctx.devices.needed && !ctx.devices.provided
  }

  function Given(ctx: Context, g: Group): Context {
    match g
    case PortGroup(_, port) => ctx.(port := ctx.port.(val := Atoi(port), provided := true))
    case HostGroup(_, host) => ctx.(server := ctx.server.(val := host, provided := true))
    case DeviceGroup(_, paths) => ctx.(devices := ctx.devices.(val := paths, provided := true))
  }

  lemma FlagHandlers()
    ensures HandlerOf("-p") == HandlerOf("--port") == Some(OnPort)
    ensures HandlerOf("-s") == HandlerOf("--server") == Some(OnHost)
    ensures HandlerOf("-d") == HandlerOf("--devices") == Some(OnDevices)
  {
  }

  lemma WordParses(argv: seq<string>, i: nat, ctx: Context, g: Group)
    requires i + 2 <= |argv| && !g.DeviceGroup? && argv[i] == Words(g)[0] && argv[i + 1] == Words(g)[1]
    requires ValidGroup(g) && Open(ctx, g)
    ensures HandleArg(argv, i, ctx) == Some(Step(i + 1, Given(ctx, g)))
  {
    hide HandlerOf;
    FlagHandlers();
  }

  lemma PathsParse(argv: seq<string>, i: nat, ctx: Context, g: Group)
    requires g.DeviceGroup? && ValidGroup(g) && Open(ctx, g)
    requires i + 1 + |g.paths| <= |argv| && argv[i] == Words(g)[0] && argv[i + 1..i + 1 + |g.paths|] == g.paths
    requires i + 1 + |g.paths| < |argv| ==> Reserved(argv[i + 1 + |g.paths|])
    ensures HandleArg(argv, i, ctx) == Some(Step(BackAt(argv, i + 1 + |g.paths|), Given(ctx, g)))
  {
    hide HandlerOf, Reserved, NextReserved;
    FlagHandlers();
    var n := i + 1 + |g.paths|;
    forall j | i + 1 <= j < n ensures !Reserved(argv[j]) {
      assert argv[j] == argv[i + 1..n][j - i - 1];
    }
    assert NextReserved(argv, i + 1) == n;
  }

  /** One group, wherever it stands, is consumed whole, as long as a reserved word or the end follows it. */
  lemma GroupParses(argv: seq<string>, i: nat, ctx: Context, g: Group)
    requires i + |Words(g)| <= |argv| && argv[i..i + |Words(g)|] == Words(g)
    requires ValidGroup(g) && Open(ctx, g)
    requires i + |Words(g)| < |argv| ==> Reserved(argv[i + |Words(g)|])
    ensures Parse(argv, i, ctx) == Parse(argv, i + |Words(g)|, Given(ctx, g))
  {
    hide Reserved, HandleArg, Complete;
    var n := i + |Words(g)|;
    assert argv[i] == argv[i..n][0] == Words(g)[0];
    assert argv[i + 1] == argv[i..n][1] == Words(g)[1];
    if g.DeviceGroup? {
      assert argv[i + 1..n] == argv[i..n][1..] == g.paths;
      PathsParse(argv, i, ctx, g);
    } else {
      WordParses(argv, i, ctx, g);
    }
  }

  function Flatten(gs: seq<Group>): seq<string> {
    if gs == [] then [] else Words(gs[0]) + Flatten(gs[1..])
  }

  function GivenAll(ctx: Context, gs: seq<Group>): Context
    decreases |gs|
  {
    if gs == [] then ctx else GivenAll(Given(ctx, gs[0]), gs[1..])
  }

  predicate SameFlag(a: Group, b: Group) {
    (a.PortGroup? && b.PortGroup?) || (a.HostGroup? && b.HostGroup?) || (a.DeviceGroup? && b.DeviceGroup?)
  }

  /** Valid groups with different flags, each needed and not given yet. */
  predicate Parsable(ctx: Context, gs: seq<Group>) {
    && (forall k :: 0 <= k < |gs| ==> ValidGroup(gs[k]) && Open(ctx, gs[k]))
    && (forall a, b :: 0 <= a < b < |gs| ==> !SameFlag(gs[a], gs[b]))
  }

  lemma GivenLeavesOpen(ctx: Context, a: Group, b: Group)
    requires Open(ctx, b) && !SameFlag(a, b)
    ensures Open(Given(ctx, a), b)
  {
  }

  lemma ParsableRest(ctx: Context, gs: seq<Group>)
    requires gs != [] && Parsable(ctx, gs)
    ensures Parsable(Given(ctx, gs[0]), gs[1..])
  {
    hide ValidGroup;
    forall k | 0 <= k < |gs| - 1 ensures Open(Given(ctx, gs[0]), gs[1..][k]) {
      GivenLeavesOpen(ctx, gs[0], gs[k + 1]);
    }
    hide Open, Given, SameFlag;
  }

  lemma FlagIsReserved(g: Group)
    ensures |Words(g)| > 0 && Reserved(Words(g)[0])
  {
    FlagHandlers();
    hide HandlerOf;
  }

  lemma {:induction false} GroupsParse(argv: seq<string>, i: nat, ctx: Context, gs: seq<Group>)
    requires i <= |argv| && argv[i..] == Flatten(gs) && Parsable(ctx, gs)
    ensures Parse(argv, i, ctx) == Parse(argv, |argv|, GivenAll(ctx, gs))
    decreases |gs|
  {
    hide ValidGroup, Open, Given, SameFlag, Words, Reserved, Parse;
    if gs != [] {
      var words, rest := Words(gs[0]), Flatten(gs[1..]);
      var n := i + |words|;
      assert argv[i..] == words + rest;
      assert argv[i..n] == (words + rest)[..|words|] == words;
      assert argv[n..] == (words + rest)[|words|..] == rest;
      if n < |argv| {
        assert gs[1..] != [] && gs[1..][0] == gs[1];
        FlagIsReserved(gs[1]);
        assert argv[n] == rest[0] == Words(gs[1])[0];
      }
      GroupParses(argv, i, ctx, gs[0]);
      ParsableRest(ctx, gs);
      GroupsParse(argv, n, Given(ctx, gs[0]), gs[1..]);
    }
  }

  /** The context with which connect starts parsing. */
  predicate Connecting(ctx: Context) {
    && ctx.port.needed && !ctx.port.provided
    && ctx.server.needed && !ctx.server.provided
    && ctx.devices.needed && !ctx.devices.provided
    && !ctx.help.needed && !ctx.daemon.needed && !ctx.filter.needed
  }

  /** The context with the three groups' values, all provided. */
  function Connected(ctx: Context, p: Group, h: Group, d: Group): Context
    requires p.PortGroup? && h.HostGroup? && d.DeviceGroup?
  {
    ctx.(port := ctx.port.(val := Atoi(p.port), provided := true),
         server := ctx.server.(val := h.host, provided := true),
         devices := ctx.devices.(val := d.paths, provided := true))
  }

  lemma GivenOne(ctx: Context, g: Group)
    ensures GivenAll(ctx, [g]) == Given(ctx, g)
  {
    assert [g][1..] == [];
  }

  lemma GivenInAnyOrder(ctx: Context, gs: seq<Group>, p: Group, h: Group, d: Group)
    requires p.PortGroup? && h.HostGroup? && d.DeviceGroup?
    requires gs in {[p, h, d], [p, d, h], [h, p, d], [h, d, p], [d, p, h], [d, h, p]}
    ensures GivenAll(ctx, gs) == Connected(ctx, p, h, d)
  {
    var c1 := Given(ctx, gs[0]);
    var c2 := Given(c1, gs[1]);
    assert Given(c2, gs[2]) == Connected(ctx, p, h, d);
    hide Given;
    assert gs[1..] == [gs[1], gs[2]] && gs[1..][1..] == [gs[2]];
    GivenOne(c2, gs[2]);
  }

  lemma OrderParsable(ctx: Context, gs: seq<Group>, p: Group, h: Group, d: Group)
    requires Connecting(ctx)
    requires p.PortGroup? && h.HostGroup? && d.DeviceGroup? && ValidGroup(p) && ValidGroup(h) && ValidGroup(d)
    requires gs in {[p, h, d], [p, d, h], [h, p, d], [h, d, p], [d, p, h], [d, h, p]}
    ensures Parsable(ctx, gs)
  {
    hide ValidGroup;
  }

  /** connect's three groups, in any order and spelling, parse to one and the same context: each flag holds its
      group's value, and exactly the needed flags of the three have been provided. */
  lemma OrderDoesNotMatter(argv: seq<string>, i: nat, ctx: Context, gs: seq<Group>, p: Group, h: Group, d: Group)
    requires Connecting(ctx)
    requires p.PortGroup? && h.HostGroup? && d.DeviceGroup? && ValidGroup(p) && ValidGroup(h) && ValidGroup(d)
    requires multiset(gs) == multiset{p, h, d}
    requires i <= |argv| && argv[i..] == Flatten(gs)
    ensures Parse(argv, i, ctx) == Some(Connected(ctx, p, h, d))
    ensures Complete(Connected(ctx, p, h, d))
  {
    hide Flatten, ValidGroup, HandleArg, GivenAll;
    ThreeGroups(gs, p, h, d);
    OrderParsable(ctx, gs, p, h, d);
    GroupsParse(argv, i, ctx, gs);
    GivenInAnyOrder(ctx, gs, p, h, d);
  }

  /** A sequence with just these three elements is one of their six orders. */
  lemma ThreeGroups(gs: seq<Group>, p: Group, h: Group, d: Group)
    requires multiset(gs) == multiset{p, h, d} && p != h && p != d && h != d
    ensures gs in {[p, h, d], [p, d, h], [h, p, d], [h, d, p], [d, p, h], [d, h, p]}
  {
    assert |gs| == |multiset(gs)| == 3;
    assert gs == [gs[0], gs[1], gs[2]];
    forall k | 0 <= k < 3 ensures gs[k] in {p, h, d} {
      assert gs[k] in multiset(gs);
    }
    assert multiset(gs) == multiset{gs[0], gs[1], gs[2]};
    assert multiset(gs)[p] == 1 && multiset(gs)[h] == 1 && multiset(gs)[d] == 1;
  }
}
