/** The command lines that the parser accepts and what they mean, without reference to how it works. */
module Grammar {
  import opened Base
  import opened Args

  // ---------------------------------------------------------------- words

  /** The parser's own words, which end a list of values. */
  predicate IsWord(w: string) {
    w in {"-p", "--port", "-s", "--server", "-d", "--devices", "-f", "--filter", "-h", "--help", "-g", "--debug",
          "pause", "resume", "stop", "switch", "log", "ls", "list"}
  }

  lemma ReservedWords(w: string)
    ensures Reserved(w) <==> IsWord(w)
  {
  }

  function Spelling(a: SubAction): string {
    match a
    case SubPause => "pause"
    case SubResume => "resume"
    case SubStop => "stop"
    case SubSwitch => "switch"
    case SubLog => "log"
    case SubList => "list"
    case SubLs => "ls"
  }

  /** A subaction is named by its spelling and by nothing else. */
  lemma SpellingNames(w: string, a: SubAction)
    ensures SubActionOf(w) == Some(a) <==> w == Spelling(a)
  {
  }

  lemma SpellingsDiffer(a: SubAction, b: SubAction)
    ensures Spelling(a) == Spelling(b) <==> a == b
  {
    SpellingNames(Spelling(a), a);
    SpellingNames(Spelling(a), b);
    hide SubActionOf, Spelling;
  }

  predicate SameLetter(a: char, b: char) {
    || a == b
    || ('a' <= a <= 'z' && 'A' <= b <= 'Z' && a - 'a' == b - 'A')
    || ('A' <= a <= 'Z' && 'a' <= b <= 'z' && a - 'A' == b - 'a')
  }

  /** strcasecmp. */
  predicate SameIgnoringCase(a: string, b: string) {
    |a| == |b| && forall i :: 0 <= i < |a| ==> SameLetter(a[i], b[i])
  }

  /** An event name may be written in any case. */
  lemma EventNamed(w: string, e: string)
    requires e in {"KEY", "REL", "ABS", "SWT"}
    ensures Upper(w) == e <==> SameIgnoringCase(w, e)
  {
    if SameIgnoringCase(w, e) {
      assert forall i :: 0 <= i < |w| ==> Upper(w)[i] == e[i];
    }
    if Upper(w) == e {
      assert |w| == |Upper(w)|;
      forall i | 0 <= i < |w| ensures SameLetter(w[i], e[i]) {
        assert Upper(w)[i] == e[i];
      }
    }
  }

  function Decimal(n: nat): string {
    (if n < 10 then [] else Decimal(n / 10)) + [(n % 10) as char + '0']
  }

  lemma {:induction false} DigitsJoin(a: string, b: string, acc: int)
    requires forall i :: 0 <= i < |a| ==> '0' <= a[i] <= '9'
    ensures Digits(a + b, acc) == Digits(b, Digits(a, acc))
    decreases |a|
  {
    if a == [] {
      assert a + b == b;
    } else {
      assert (a + b)[1..] == a[1..] + b;
      DigitsJoin(a[1..], b, 10 * acc + (a[0] - '0') as int);
    }
  }

  lemma {:induction false} DecimalDigits(n: nat)
    ensures |Decimal(n)| > 0 && forall i :: 0 <= i < |Decimal(n)| ==> '0' <= Decimal(n)[i] <= '9'
    ensures Digits(Decimal(n), 0) == n
  {
    var d := [(n % 10) as char + '0'];
    assert d[1..] == [];
    if n >= 10 {
      DecimalDigits(n / 10);
      DigitsJoin(Decimal(n / 10), d, 0);
    } else {
      assert [] + d == d;
    }
  }

  /** A number is read back from its decimal digits, and its negative from a sign before them. */
  lemma AtoiReads(n: nat)
    ensures Atoi(Decimal(n)) == n && Atoi("-" + Decimal(n)) == -(n as int)
  {
    DecimalDigits(n);
    assert ("-" + Decimal(n))[1..] == Decimal(n);
  }

  // ---------------------------------------------------------------- phrases

  /** A flag with its values, the subactions, or the program's own name in slot 0. */
  datatype Phrase =
    | Name(word: string)
    | PortIs(flag: string, port: string)
    | HostIs(flag: string, host: string)
    | DevicesAre(flag: string, paths: seq<string>)
    | FilterIs(flag: string, names: seq<string>)
    | HelpOn(flag: string, topics: seq<string>)
    | DebugIs(flag: string, level: string)
    | Subactions(words: seq<string>)

  function Spell(ph: Phrase): seq<string> {
    match ph
    case Name(word) => [word]
    case PortIs(flag, port) => [flag, port]
    case HostIs(flag, host) => [flag, host]
    case DevicesAre(flag, paths) => [flag] + paths
    case FilterIs(flag, names) => [flag] + names
    case HelpOn(flag, topics) => [flag] + topics
    case DebugIs(flag, level) => [flag, level]
    case Subactions(words) => words
  }

  /** A list of values goes on up to the next word of the parser's own, or to the end; the flag is not the last word. */
  predicate Lists(argv: seq<string>, i: nat, values: seq<string>) {
    && i + 1 < |argv| && (forall v :: v in values ==> !IsWord(v))
    && (i + 1 + |values| < |argv| ==> IsWord(argv[i + 1 + |values|]))
  }

  predicate NamesEvent(w: string) {
    exists e :: e in EVENT_NAMES && SameIgnoringCase(w, e)
  }

  predicate NamesAction(w: string) {
    exists a :: Spelling(a) == w
  }

  /** The phrase stands at slot i, and the context admits it: the flag is needed and has not been given. */
  predicate Stands(argv: seq<string>, i: nat, ctx: Context, ph: Phrase) {
    && i + |Spell(ph)| <= |argv| && argv[i..i + |Spell(ph)|] == Spell(ph)
    && match ph
       case Name(word) => i == 0 && !IsWord(word)
       case PortIs(flag, port) =>
         flag in {"-p", "--port"} && ctx.port.needed && !ctx.port.provided && Atoi(port) != 0
       case HostIs(flag, _) => flag in {"-s", "--server"} && ctx.server.needed && !ctx.server.provided
       case DevicesAre(flag, paths) =>
         flag in {"-d", "--devices"} && ctx.devices.needed && !ctx.devices.provided && Lists(argv, i, paths)
       case FilterIs(flag, names) =>
         && flag in {"-f", "--filter"} && ctx.filter.optional && !ctx.filter.provided && Lists(argv, i, names)
         && |names| <= 4 && forall n :: n in names ==> NamesEvent(n)
       case HelpOn(flag, topics) =>
         && flag in {"-h", "--help"} && ctx.help.needed && !ctx.help.provided
         && if |argv| == 2 then topics == []
            else i + 1 + |topics| == |argv| && forall t :: t in topics ==> t in HELP_TOPICS
       case DebugIs(flag, _) => flag in {"-g", "--debug"}
       case Subactions(words) =>
         && words != [] && i + |words| == |argv| && ctx.daemon.needed && !ctx.daemon.provided
         && forall w :: w in words ==> NamesAction(w)
  }

  function ActionNamed(w: string): SubAction
    requires NamesAction(w)
    ensures Spelling(ActionNamed(w)) == w
  {
    SpellingsDiffer(SubPause, SubResume);
    if w == Spelling(SubPause) then SubPause
    else if w == Spelling(SubResume) then SubResume
    else if w == Spelling(SubStop) then SubStop
    else if w == Spelling(SubSwitch) then SubSwitch
    else if w == Spelling(SubLog) then SubLog
    else if w == Spelling(SubList) then SubList
    else SubLs
  }

  function EventsNamed(names: seq<string>): set<string> {
    set e | e in EVENT_NAMES && exists k :: 0 <= k < |names| && SameIgnoringCase(names[k], e)
  }

  /** The context after the phrase: the flag's values and that it has been given. Of several subactions the last one
      counts; a filter may be given again, and adds to what was there. */
  function Meaning(argv: seq<string>, i: nat, ctx: Context, ph: Phrase): Context
    requires Stands(argv, i, ctx, ph)
  {
    match ph
    case Name(_) => ctx
    case PortIs(_, port) => ctx.(port := ctx.port.(val := Atoi(port), provided := true))
    case HostIs(_, host) => ctx.(server := ctx.server.(val := host, provided := true))
    case DevicesAre(_, paths) => ctx.(devices := ctx.devices.(val := paths, provided := true))
    case FilterIs(_, names) => ctx.(filter := ctx.filter.(val := ctx.filter.val + EventsNamed(names), optional := true))
    case HelpOn(_, _) => ctx.(help := ctx.help.(provided := true))
    case DebugIs(_, level) => ctx.(debug := Atoi(level))
    case Subactions(words) =>
      assert Last(words) in words;
      ctx.(daemon := ctx.daemon.(val := ActionNamed(Last(words)), provided := true))
  }

  // ---------------------------------------------------------------- every phrase is parsed

  lemma FilterHandler()
    ensures HandlerOf("-f") == HandlerOf("--filter") == Some(OnFilter)
  {
  }

  lemma HelpHandler()
    ensures HandlerOf("-h") == HandlerOf("--help") == Some(OnHelp)
  {
  }

  lemma DebugHandler()
    ensures HandlerOf("-g") == HandlerOf("--debug") == Some(OnDebug)
  {
  }

  lemma ActionHandler(a: SubAction)
    ensures HandlerOf(Spelling(a)) == Some(OnDaemon)
  {
  }

  lemma ListEnds(argv: seq<string>, i: nat, values: seq<string>)
    requires i + 1 + |values| <= |argv| && argv[i + 1..i + 1 + |values|] == values && Lists(argv, i, values)
    ensures NextReserved(argv, i + 1) == i + 1 + |values|
    ensures forall k :: i + 1 <= k < i + 1 + |values| ==> !Reserved(argv[k]) && argv[k] == values[k - i - 1]
  {
    hide Reserved, IsWord, NextReserved;
    var n := i + 1 + |values|;
    forall k | i + 1 <= k < n ensures !Reserved(argv[k]) && argv[k] == values[k - i - 1] {
      assert argv[k] == argv[i + 1..n][k - i - 1];
      ReservedWords(argv[k]);
    }
    if n < |argv| {
      ReservedWords(argv[n]);
    }
  }

  lemma NothingNamed()
    ensures EventsNamed([]) == {}
  {
  }

  lemma EventsAppend(names: seq<string>, w: string)
    requires NamesEvent(w)
    ensures Upper(w) in EVENT_NAMES && EventsNamed(names + [w]) == EventsNamed(names) + {Upper(w)}
  {
    var all := names + [w];
    forall e | e in EVENT_NAMES ensures SameIgnoringCase(w, e) <==> Upper(w) == e {
      EventNamed(w, e);
    }
    hide Upper, SameIgnoringCase;
    forall e ensures e in EventsNamed(all) <==> e in EventsNamed(names) || e == Upper(w) {
      if e in EventsNamed(names) {
        var k :| 0 <= k < |names| && SameIgnoringCase(names[k], e);
        assert all[k] == names[k];
      }
      assert all[|names|] == w;
    }
  }

  lemma {:induction false} FiltersTaken(argv: seq<string>, i: nat, k: nat, names: seq<string>, got: set<string>)
    requires i + 1 + |names| <= |argv| && |names| <= 4 && i + 1 <= k <= i + 1 + |names|
    requires forall j :: i + 1 <= j < i + 1 + |names| ==> !Reserved(argv[j]) && argv[j] == names[j - i - 1]
    requires i + 1 + |names| < |argv| ==> Reserved(argv[i + 1 + |names|])
    requires forall n :: n in names ==> NamesEvent(n)
    ensures TakeFilters(argv, k, i + 5, got + EventsNamed(names[..k - i - 1]))
         == Some((i + 1 + |names|, got + EventsNamed(names)))
    decreases |argv| - k
  {
    hide Reserved, Upper, EventsNamed, NamesEvent;
    var d := k - i - 1;
    if d == |names| {
      assert names[..d] == names;
    } else {
      assert names[..d + 1] == names[..d] + [names[d]] && names[d] in names;
      EventsAppend(names[..d], names[d]);
      assert got + EventsNamed(names[..d + 1]) == got + EventsNamed(names[..d]) + {Upper(names[d])};
      FiltersTaken(argv, i, k + 1, names, got);
    }
  }

  lemma {:induction false} ActionsTaken(argv: seq<string>, k: nat, got: SubAction)
    requires k <= |argv| && forall j :: k <= j < |argv| ==> NamesAction(argv[j])
    ensures TakeSubActions(argv, k, got) == Some(if k == |argv| then got else ActionNamed(argv[|argv| - 1]))
    decreases |argv| - k
  {
    hide NamesAction, SubActionOf, Spelling;
    if k < |argv| {
      SpellingNames(argv[k], ActionNamed(argv[k]));
      ActionsTaken(argv, k + 1, ActionNamed(argv[k]));
    }
  }

  /** handle_arg takes the phrase whole: the loop goes on behind it. */
  predicate Taken(argv: seq<string>, i: nat, ctx: Context, ph: Phrase)
    requires Stands(argv, i, ctx, ph)
  {
    var n := i + |Spell(ph)|;
    i < |argv| && HandleArg(argv, i, ctx).Some? &&
    var s := HandleArg(argv, i, ctx).value;
    s.ctx == Meaning(argv, i, ctx, ph) && (s.i + 1 == n || (n == |argv| && n <= s.i + 1))
  }

  lemma Flag(argv: seq<string>, i: nat, ctx: Context, ph: Phrase)
    requires Stands(argv, i, ctx, ph)
    ensures i < |argv| && argv[i] == Spell(ph)[0]
    ensures argv[i + 1..i + |Spell(ph)|] == Spell(ph)[1..]
    ensures forall k :: 0 <= k < |Spell(ph)| ==> argv[i + k] == Spell(ph)[k]
  {
    var n := i + |Spell(ph)|;
    assert |Spell(ph)| > 0;
    assert argv[i..n][1..] == argv[i + 1..n];
    forall k | 0 <= k < |Spell(ph)| ensures argv[i + k] == Spell(ph)[k] {
      assert argv[i + k] == argv[i..n][k];
    }
    hide IsWord, NamesEvent, NamesAction;
  }

  lemma NameTaken(argv: seq<string>, i: nat, ctx: Context, ph: Phrase)
    requires Stands(argv, i, ctx, ph) && ph.Name?
    ensures Taken(argv, i, ctx, ph)
  {
    hide HandlerOf, IsWord;
    Flag(argv, i, ctx, ph);
    ReservedWords(argv[i]);
  }

  lemma PortTaken(argv: seq<string>, i: nat, ctx: Context, ph: Phrase)
    requires Stands(argv, i, ctx, ph) && ph.PortIs?
    ensures Taken(argv, i, ctx, ph)
  {
    hide HandlerOf, IsWord, Atoi;
    Flag(argv, i, ctx, ph);
    FlagHandlers();
    assert argv[i + 1] == Spell(ph)[1];
  }

  lemma HostTaken(argv: seq<string>, i: nat, ctx: Context, ph: Phrase)
    requires Stands(argv, i, ctx, ph) && ph.HostIs?
    ensures Taken(argv, i, ctx, ph)
  {
    hide HandlerOf, IsWord;
    Flag(argv, i, ctx, ph);
    FlagHandlers();
    assert argv[i + 1] == Spell(ph)[1];
  }

  lemma DebugTaken(argv: seq<string>, i: nat, ctx: Context, ph: Phrase)
    requires Stands(argv, i, ctx, ph) && ph.DebugIs?
    ensures Taken(argv, i, ctx, ph)
  {
    hide HandlerOf, IsWord, Atoi;
    Flag(argv, i, ctx, ph);
    DebugHandler();
    assert argv[i + 1] == Spell(ph)[1];
  }

  lemma DevicesTaken(argv: seq<string>, i: nat, ctx: Context, ph: Phrase)
    requires Stands(argv, i, ctx, ph) && ph.DevicesAre?
    ensures Taken(argv, i, ctx, ph)
  {
    hide HandlerOf, IsWord, Reserved, NextReserved;
    Flag(argv, i, ctx, ph);
    FlagHandlers();
    assert Spell(ph)[1..] == ph.paths;
    ListEnds(argv, i, ph.paths);
  }

  lemma FilterTaken(argv: seq<string>, i: nat, ctx: Context, ph: Phrase)
    requires Stands(argv, i, ctx, ph) && ph.FilterIs?
    ensures Taken(argv, i, ctx, ph)
  {
    hide HandlerOf, IsWord, Reserved, TakeFilters, NamesEvent, EventsNamed;
    Flag(argv, i, ctx, ph);
    FilterHandler();
    assert Spell(ph)[1..] == ph.names;
    ListEnds(argv, i, ph.names);
    EndReserved(argv, i + 1);
    FiltersTaken(argv, i, i + 1, ph.names, ctx.filter.val);
    NothingNamed();
    assert ctx.filter.val + {} == ctx.filter.val && ph.names[..0] == [];
  }

  lemma EndReserved(argv: seq<string>, k: nat)
    ensures NextReserved(argv, k) < |argv| ==> Reserved(argv[NextReserved(argv, k)])
  {
  }

  lemma HelpTaken(argv: seq<string>, i: nat, ctx: Context, ph: Phrase)
    requires Stands(argv, i, ctx, ph) && ph.HelpOn?
    ensures Taken(argv, i, ctx, ph)
  {
    hide HandlerOf, IsWord;
    Flag(argv, i, ctx, ph);
    HelpHandler();
    assert Spell(ph)[1..] == ph.topics;
    forall j | i + 1 <= j < |argv| && |argv| != 2 ensures argv[j] in HELP_TOPICS {
      assert argv[i + (j - i)] == Spell(ph)[j - i] == ph.topics[j - i - 1];
      assert ph.topics[j - i - 1] in ph.topics;
    }
  }

  lemma SubactionsTaken(argv: seq<string>, i: nat, ctx: Context, ph: Phrase)
    requires Stands(argv, i, ctx, ph) && ph.Subactions?
    ensures Taken(argv, i, ctx, ph)
  {
    hide HandlerOf, IsWord, NamesAction, TakeSubActions, Spelling;
    Flag(argv, i, ctx, ph);
    assert ph.words[0] in ph.words;
    ActionHandler(ActionNamed(ph.words[0]));
    forall j | i <= j < |argv| ensures NamesAction(argv[j]) {
      assert argv[i + (j - i)] == ph.words[j - i] && ph.words[j - i] in ph.words;
    }
    ActionsTaken(argv, i, ctx.daemon.val);
    assert argv[|argv| - 1] == Last(ph.words);
  }

  lemma PhraseTaken(argv: seq<string>, i: nat, ctx: Context, ph: Phrase)
    requires Stands(argv, i, ctx, ph)
    ensures Taken(argv, i, ctx, ph)
  {
    hide Taken, HandleArg, Meaning, Stands;
    match ph
    case Name(_) => NameTaken(argv, i, ctx, ph);
    case PortIs(_, _) => PortTaken(argv, i, ctx, ph);
    case HostIs(_, _) => HostTaken(argv, i, ctx, ph);
    case DevicesAre(_, _) => DevicesTaken(argv, i, ctx, ph);
    case FilterIs(_, _) => FilterTaken(argv, i, ctx, ph);
    case HelpOn(_, _) => HelpTaken(argv, i, ctx, ph);
    case DebugIs(_, _) => DebugTaken(argv, i, ctx, ph);
    case Subactions(_) => SubactionsTaken(argv, i, ctx, ph);
  }

  /** At or behind the end there is nothing left to parse. */
  lemma Ended(argv: seq<string>, n: nat, n': nat, ctx: Context)
    requires |argv| <= n <= n'
    ensures Parse(argv, n, ctx) == Parse(argv, n', ctx)
  {
  }

  /** A phrase, wherever it stands, is parsed whole, and the rest is parsed with its meaning. */
  lemma PhraseParses(argv: seq<string>, i: nat, ctx: Context, ph: Phrase)
    requires Stands(argv, i, ctx, ph)
    ensures i < |argv| && Parse(argv, i, ctx) == Parse(argv, i + |Spell(ph)|, Meaning(argv, i, ctx, ph))
  {
    hide HandleArg, Meaning, Stands, Complete, Spell;
    PhraseTaken(argv, i, ctx, ph);
    var n, s := i + |Spell(ph)|, HandleArg(argv, i, ctx).value;
    if n == |argv| {
      Ended(argv, n, s.i + 1, s.ctx);
    }
  }

  // ---------------------------------------------------------------- nothing else is parsed

  lemma ListFound(argv: seq<string>, i: nat, n: nat)
    requires i + 1 < |argv| && n == NextReserved(argv, i + 1)
    ensures i + 1 <= n <= |argv| && Lists(argv, i, argv[i + 1..n])
    ensures argv[i..n] == [argv[i]] + argv[i + 1..n]
  {
    hide Reserved, IsWord;
    forall v | v in argv[i + 1..n] ensures !IsWord(v) {
      var k :| 0 <= k < n - i - 1 && argv[i + 1..n][k] == v;
      assert argv[i + 1 + k] == v;
      ReservedWords(v);
    }
    if n < |argv| {
      ReservedWords(argv[n]);
    }
  }

  lemma {:induction false} FoundIn(w: string, k: nat) returns (j: nat)
    requires HandlerFrom(w, k).Some?
    ensures k <= j < |HANDLERS| && Matches(HANDLERS[j], w) && HandlerFrom(w, k) == Some(HANDLERS[j].2)
    decreases |HANDLERS| - k
  {
    if k < |HANDLERS| && Matches(HANDLERS[k], w) {
      j := k;
    } else {
      j := FoundIn(w, k + 1);
    }
  }

  /** The words of each handler. */
  predicate WordOf(w: string, h: Handler) {
    match h
    case OnPort => w in {"-p", "--port"}
    case OnHost => w in {"-s", "--server"}
    case OnDevices => w in {"-d", "--devices"}
    case OnFilter => w in {"-f", "--filter"}
    case OnHelp => w in {"-h", "--help"}
    case OnDebug => w in {"-g", "--debug"}
    case OnDaemon => w in {"pause", "resume", "stop", "switch", "log", "list", "ls"}
  }

  lemma HandlerHasWord(w: string)
    requires HandlerOf(w).Some?
    ensures WordOf(w, HandlerOf(w).value)
  {
    var j := FoundIn(w, 0);
    TableWord(w, j);
    hide HandlerFrom, WordOf, Matches;
  }

  lemma TableWord(w: string, j: nat)
    requires j < |HANDLERS| && Matches(HANDLERS[j], w)
    ensures WordOf(w, HANDLERS[j].2)
  {
  }

  lemma {:induction false} FiltersFound(argv: seq<string>, k: nat, max: nat, got: set<string>)
    requires k <= |argv| && TakeFilters(argv, k, max, got).Some?
    ensures var n := TakeFilters(argv, k, max, got).value.0;
      && n == NextReserved(argv, k) && (n <= max || n == k)
      && forall j :: k <= j < n ==> Upper(argv[j]) in EVENT_NAMES
    decreases |argv| - k
  {
    hide Reserved, Upper;
    if k < |argv| && !Reserved(argv[k]) {
      FiltersFound(argv, k + 1, max, got + {Upper(argv[k])});
    }
  }

  lemma {:induction false} ActionsFound(argv: seq<string>, k: nat, got: SubAction)
    requires k <= |argv| && TakeSubActions(argv, k, got).Some?
    ensures forall j :: k <= j < |argv| ==> NamesAction(argv[j])
    decreases |argv| - k
  {
    hide SubActionOf, Spelling;
    if k < |argv| {
      SpellingNames(argv[k], SubActionOf(argv[k]).value);
      ActionsFound(argv, k + 1, SubActionOf(argv[k]).value);
    }
  }

  lemma FilterFound(argv: seq<string>, i: nat, ctx: Context) returns (ph: Phrase)
    requires i < |argv| && argv[i] in {"-f", "--filter"} && OnFilterArg(argv, i, ctx).Some?
    ensures Stands(argv, i, ctx, ph)
  {
    hide Reserved, IsWord, Upper, TakeFilters, NamesEvent;
    FiltersFound(argv, i + 1, i + 5, ctx.filter.val);
    var n := NextReserved(argv, i + 1);
    ListFound(argv, i, n);
    ph := FilterIs(argv[i], argv[i + 1..n]);
    forall w | w in ph.names ensures NamesEvent(w) {
      var k :| 0 <= k < n - i - 1 && argv[i + 1..n][k] == w;
      assert argv[i + 1 + k] == w;
      EventIsNamed(w);
    }
  }

  lemma EventIsNamed(w: string)
    requires Upper(w) in EVENT_NAMES
    ensures NamesEvent(w)
  {
    EventNamed(w, Upper(w));
    hide SameIgnoringCase;
    assert SameIgnoringCase(w, Upper(w));
  }

  lemma SubactionsFound(argv: seq<string>, i: nat, ctx: Context) returns (ph: Phrase)
    requires i < |argv| && OnDaemonArg(argv, i, ctx).Some?
    ensures Stands(argv, i, ctx, ph)
  {
    hide NamesAction, TakeSubActions;
    ActionsFound(argv, i, ctx.daemon.val);
    ph := Subactions(argv[i..]);
    assert argv[i..|argv|] == argv[i..];
    forall w | w in ph.words ensures NamesAction(w) {
      var k :| 0 <= k < |argv| - i && argv[i..][k] == w;
      assert argv[i + k] == w;
    }
  }

  lemma HelpFound(argv: seq<string>, i: nat, ctx: Context) returns (ph: Phrase)
    requires i < |argv| && argv[i] in {"-h", "--help"} && OnHelpArg(argv, i, ctx).Some?
    ensures Stands(argv, i, ctx, ph)
  {
    if |argv| == 2 {
      ph := HelpOn(argv[i], []);
      assert argv[i..i + 1] == [argv[i]] + [];
    } else {
      ph := HelpOn(argv[i], argv[i + 1..]);
      assert argv[i..|argv|] == [argv[i]] + argv[i + 1..];
    }
  }

  lemma DevicesFound(argv: seq<string>, i: nat, ctx: Context) returns (ph: Phrase)
    requires i < |argv| && argv[i] in {"-d", "--devices"} && OnDevicesArg(argv, i, ctx).Some?
    ensures Stands(argv, i, ctx, ph)
  {
    hide IsWord, Reserved;
    var n := NextReserved(argv, i + 1);
    ListFound(argv, i, n);
    ph := DevicesAre(argv[i], argv[i + 1..n]);
  }

  lemma ValueFound(argv: seq<string>, i: nat)
    requires i + 1 < |argv|
    ensures argv[i..i + 2] == [argv[i], argv[i + 1]]
  {
  }

  /** Whatever handle_arg takes is a phrase. */
  lemma PhraseFound(argv: seq<string>, i: nat, ctx: Context) returns (ph: Phrase)
    requires i < |argv| && HandleArg(argv, i, ctx).Some?
    ensures Stands(argv, i, ctx, ph)
  {
    hide HandlerOf, IsWord, Atoi, OnFilterArg, OnDaemonArg, OnHelpArg, OnDevicesArg, Lists, NamesEvent, NamesAction;
    ReservedWords(argv[i]);
    if HandlerOf(argv[i]).None? {
      ph := Name(argv[i]);
      assert argv[i..i + 1] == [argv[i]];
    } else {
      HandlerHasWord(argv[i]);
      match HandlerOf(argv[i]).value {
        case OnPort => ValueFound(argv, i); ph := PortIs(argv[i], argv[i + 1]);
        case OnHost => ValueFound(argv, i); ph := HostIs(argv[i], argv[i + 1]);
        case OnDebug => ValueFound(argv, i); ph := DebugIs(argv[i], argv[i + 1]);
        case OnDevices => ph := DevicesFound(argv, i, ctx);
        case OnFilter => ph := FilterFound(argv, i, ctx);
        case OnHelp => ph := HelpFound(argv, i, ctx);
        case OnDaemon => ph := SubactionsFound(argv, i, ctx);
      }
    }
  }

  // ---------------------------------------------------------------- the language

  /** The words from slot i on are these phrases, each admitted where it stands, and c is what they mean. */
  predicate Reads(argv: seq<string>, i: nat, ctx: Context, phrases: seq<Phrase>, n: nat, c: Context)
    decreases |phrases|
  {
    if phrases == [] then n == i && c == ctx else
      Stands(argv, i, ctx, phrases[0])
      && Reads(argv, i + |Spell(phrases[0])|, Meaning(argv, i, ctx, phrases[0]), phrases[1..], n, c)
  }

  /** Every argument that is needed has been provided. */
  predicate NothingMissing(c: Context) {
    && (c.port.needed ==> c.port.provided) && (c.server.needed ==> c.server.provided)
    && (c.devices.needed ==> c.devices.provided) && (c.help.needed ==> c.help.provided)
    && (c.daemon.needed ==> c.daemon.provided) && (c.filter.needed ==> c.filter.provided)
  }

  lemma {:induction false} ReadsParse(argv: seq<string>, i: nat, ctx: Context, phrases: seq<Phrase>, n: nat, c: Context)
    requires Reads(argv, i, ctx, phrases, n, c)
    ensures Parse(argv, i, ctx) == Parse(argv, n, c)
    decreases |phrases|
  {
    hide Stands, Meaning, Parse;
    if phrases != [] {
      var ph := phrases[0];
      PhraseParses(argv, i, ctx, ph);
      ReadsParse(argv, i + |Spell(ph)|, Meaning(argv, i, ctx, ph), phrases[1..], n, c);
    }
  }

  lemma ParseEnds(argv: seq<string>, n: nat, c: Context)
    requires |argv| <= n
    ensures Parse(argv, n, c) == if NothingMissing(c) then Some(c) else None
  {
  }

  lemma SpelledInside(argv: seq<string>, i: nat, ctx: Context, ph: Phrase)
    requires Stands(argv, i, ctx, ph)
    ensures 0 < |Spell(ph)| && i + |Spell(ph)| <= |argv|
  {
    hide IsWord, NamesEvent, NamesAction, Lists;
  }

  lemma {:induction false} ParseReads(argv: seq<string>, i: nat, ctx: Context, c: Context)
    returns (phrases: seq<Phrase>)
    requires i <= |argv| && Parse(argv, i, ctx) == Some(c)
    ensures Reads(argv, i, ctx, phrases, |argv|, c) && NothingMissing(c)
    decreases |argv| - i
  {
    hide Stands, Meaning, Parse, HandleArg, NothingMissing, Spell;
    if i == |argv| {
      ParseEnds(argv, i, ctx);
      phrases := [];
    } else {
      OneStep(argv, i, ctx);
      var ph := PhraseFound(argv, i, ctx);
      PhraseParses(argv, i, ctx, ph);
      SpelledInside(argv, i, ctx, ph);
      var rest := ParseReads(argv, i + |Spell(ph)|, Meaning(argv, i, ctx, ph), c);
      phrases := [ph] + rest;
      assert phrases[1..] == rest;
    }
  }

  lemma OneStep(argv: seq<string>, i: nat, ctx: Context)
    requires i < |argv| && Parse(argv, i, ctx).Some?
    ensures HandleArg(argv, i, ctx).Some?
  {
    hide HandleArg;
  }

  /** The parser accepts exactly the sequences of phrases in which nothing needed is missing at the end, and gives them
      exactly their meaning. */
  lemma ParserAccepts(argv: seq<string>, i: nat, ctx: Context, c: Context)
    requires i <= |argv|
    ensures Parse(argv, i, ctx) == Some(c) <==>
      NothingMissing(c) && exists phrases :: Reads(argv, i, ctx, phrases, |argv|, c)
  {
    hide Reads, Parse, NothingMissing;
    if Parse(argv, i, ctx) == Some(c) {
      var phrases := ParseReads(argv, i, ctx, c);
    }
    if NothingMissing(c) && exists phrases :: Reads(argv, i, ctx, phrases, |argv|, c) {
      var phrases :| Reads(argv, i, ctx, phrases, |argv|, c);
      ReadsParse(argv, i, ctx, phrases, |argv|, c);
      ParseEnds(argv, |argv|, c);
    }
  }

  // ---------------------------------------------------------------- what is accepted was asked for

  predicate SameNeeds(a: Context, b: Context) {
    && a.port.needed == b.port.needed && a.server.needed == b.server.needed && a.devices.needed == b.devices.needed
    && a.help.needed == b.help.needed && a.daemon.needed == b.daemon.needed && a.filter.needed == b.filter.needed
  }

  /** An argument keeps its value unless it has been newly provided. */
  predicate Kept<T(==)>(was: Arg<T>, now: Arg<T>) {
    (was.provided ==> now == was) && (!now.provided ==> now == was)
  }

  predicate PortGiven(argv: seq<string>, i: nat, port: int) {
    exists k :: i <= k < |argv| - 1 && argv[k] in {"-p", "--port"} && port == Atoi(argv[k + 1]) && port != 0
  }

  predicate HostGiven(argv: seq<string>, i: nat, host: string) {
    exists k :: i <= k < |argv| - 1 && argv[k] in {"-s", "--server"} && host == argv[k + 1]
  }

  predicate DevicesGiven(argv: seq<string>, i: nat, paths: seq<string>) {
    exists k :: i <= k < |argv| && argv[k] in {"-d", "--devices"}
      && k + 1 + |paths| <= |argv| && argv[k + 1..k + 1 + |paths|] == paths && Lists(argv, k, paths)
  }

  predicate ActionGiven(argv: seq<string>, i: nat, a: SubAction) {
    i < |argv| && Last(argv) == Spelling(a)
  }

  /** c is ctx with some arguments newly provided, each by its flag at or behind slot i. */
  predicate Explained(argv: seq<string>, i: nat, ctx: Context, c: Context) {
    && SameNeeds(ctx, c)
    && Kept(ctx.port, c.port) && (!ctx.port.provided && c.port.provided ==> PortGiven(argv, i, c.port.val))
    && Kept(ctx.server, c.server) && (!ctx.server.provided && c.server.provided ==> HostGiven(argv, i, c.server.val))
    && Kept(ctx.devices, c.devices)
    && (!ctx.devices.provided && c.devices.provided ==> DevicesGiven(argv, i, c.devices.val))
    && Kept(ctx.daemon, c.daemon) && (!ctx.daemon.provided && c.daemon.provided ==> ActionGiven(argv, i, c.daemon.val))
  }

  lemma ValueGiven(argv: seq<string>, i: nat, ctx: Context, ph: Phrase)
    requires Stands(argv, i, ctx, ph)
    ensures ph.PortIs? ==> PortGiven(argv, i, Atoi(ph.port))
    ensures ph.HostIs? ==> HostGiven(argv, i, ph.host)
  {
    hide IsWord, NamesEvent, NamesAction, Lists, Atoi;
    Flag(argv, i, ctx, ph);
    assert argv[i + 0] == Spell(ph)[0];
    if ph.PortIs? || ph.HostIs? {
      assert argv[i + 1] == Spell(ph)[1];
    }
  }

  lemma PathsGiven(argv: seq<string>, i: nat, ctx: Context, ph: Phrase)
    requires Stands(argv, i, ctx, ph) && ph.DevicesAre?
    ensures DevicesGiven(argv, i, ph.paths)
  {
    hide IsWord, Lists;
    Flag(argv, i, ctx, ph);
    assert argv[i + 0] == Spell(ph)[0] && Spell(ph)[1..] == ph.paths;
  }

  lemma LastActionGiven(argv: seq<string>, i: nat, ctx: Context, ph: Phrase)
    requires Stands(argv, i, ctx, ph) && ph.Subactions?
    ensures Last(ph.words) in ph.words && ActionGiven(argv, i, ActionNamed(Last(ph.words)))
  {
    hide IsWord, NamesAction, Spelling;
    Flag(argv, i, ctx, ph);
    assert argv[i + (|ph.words| - 1)] == ph.words[|ph.words| - 1];
  }

  lemma PhraseExplains(argv: seq<string>, i: nat, ctx: Context, ph: Phrase)
    requires Stands(argv, i, ctx, ph)
    ensures Explained(argv, i, ctx, Meaning(argv, i, ctx, ph))
  {
    hide IsWord, NamesEvent, NamesAction, EventsNamed, Lists, Spell, Atoi, ActionNamed;
    hide PortGiven, HostGiven, DevicesGiven, ActionGiven;
    ValueGiven(argv, i, ctx, ph);
    if ph.DevicesAre? {
      PathsGiven(argv, i, ctx, ph);
    } else if ph.Subactions? {
      LastActionGiven(argv, i, ctx, ph);
    }
  }

  lemma LaterIsEnough(argv: seq<string>, i: nat, j: nat, c: Context)
    requires i <= j
    ensures PortGiven(argv, j, c.port.val) ==> PortGiven(argv, i, c.port.val)
    ensures HostGiven(argv, j, c.server.val) ==> HostGiven(argv, i, c.server.val)
    ensures DevicesGiven(argv, j, c.devices.val) ==> DevicesGiven(argv, i, c.devices.val)
    ensures ActionGiven(argv, j, c.daemon.val) ==> ActionGiven(argv, i, c.daemon.val)
  {
    hide Lists, Atoi, Spelling;
  }

  lemma {:induction false} ReadsExplain(argv: seq<string>, i: nat, ctx: Context, phrases: seq<Phrase>, n: nat,
                                        c: Context)
    requires Reads(argv, i, ctx, phrases, n, c)
    ensures Explained(argv, i, ctx, c)
    decreases |phrases|
  {
    hide Stands, Meaning, PortGiven, HostGiven, DevicesGiven, ActionGiven;
    if phrases != [] {
      var ph := phrases[0];
      PhraseExplains(argv, i, ctx, ph);
      ReadsExplain(argv, i + |Spell(ph)|, Meaning(argv, i, ctx, ph), phrases[1..], n, c);
      LaterIsEnough(argv, i, i + |Spell(ph)|, c);
    }
  }

  /** Soundness: what an accepted command line needs has been provided, nothing else has become needed, and every port,
      server, device list and subaction that is newly provided was given behind its flag. */
  lemma ParserSound(argv: seq<string>, i: nat, ctx: Context, c: Context)
    requires i <= |argv| && Parse(argv, i, ctx) == Some(c)
    ensures NothingMissing(c) && Explained(argv, i, ctx, c)
  {
    hide Parse, Reads, NothingMissing, Explained;
    var phrases := ParseReads(argv, i, ctx, c);
    ReadsExplain(argv, i, ctx, phrases, |argv|, c);
  }

  // ---------------------------------------------------------------- what is refused

  /** The word in slot n, with what follows it, cannot be accepted in this context: it is unknown, it needs a value and
      is the last word, its value or values are not valid, its flag is not needed, or has been given already. */
  predicate Refused(argv: seq<string>, n: nat, c: Context)
    requires n < |argv|
  {
    var w, last := argv[n], n + 1 == |argv|;
    || (n > 0 && !IsWord(w))
    || (w in {"-p", "--port"} && (last || !c.port.needed || c.port.provided || Atoi(argv[n + 1]) == 0))
    || (w in {"-s", "--server"} && (last || !c.server.needed || c.server.provided))
    || (w in {"-d", "--devices"} && (last || !c.devices.needed || c.devices.provided))
    || (w in {"-f", "--filter"} && (last || !c.filter.optional || c.filter.provided
                                    || (!NamesEvent(argv[n + 1]) && !IsWord(argv[n + 1]))))
    || (w in {"-h", "--help"} && (!c.help.needed || c.help.provided
                                  || (|argv| != 2 && !last && Last(argv) !in HELP_TOPICS)))
    || (w in {"-g", "--debug"} && last)
    || (NamesAction(w) && (!c.daemon.needed || c.daemon.provided || !NamesAction(Last(argv))))
  }

  lemma ActionIsWord(w: string)
    requires NamesAction(w)
    ensures IsWord(w) && w !in {"-p", "--port", "-s", "--server", "-d", "--devices", "-f", "--filter"}
    ensures w !in {"-h", "--help", "-g", "--debug"}
  {
  }

  lemma RefusedStandsNot(argv: seq<string>, n: nat, c: Context, ph: Phrase)
    requires n < |argv| && Refused(argv, n, c)
    ensures !Stands(argv, n, c, ph)
  {
    if Stands(argv, n, c, ph) {
      Flag(argv, n, c, ph);
      SpelledInside(argv, n, c, ph);
      assert argv[n + 0] == Spell(ph)[0];
      hide NamesAction, NamesEvent, Spelling;
      StandsUnrefused(argv, n, c, ph);
    }
  }

  lemma StandsUnrefused(argv: seq<string>, n: nat, c: Context, ph: Phrase)
    requires n < |argv| && Stands(argv, n, c, ph) && argv[n] == Spell(ph)[0]
    requires forall k :: 0 <= k < |Spell(ph)| ==> argv[n + k] == Spell(ph)[k]
    ensures !Refused(argv, n, c)
  {
    hide NamesEvent, NamesAction, Atoi;
    if NamesAction(argv[n]) {
      ActionIsWord(argv[n]);
    }
    match ph
    case Name(_) =>
    case PortIs(_, port) => assert argv[n + 1] == port;
    case HostIs(_, host) => assert argv[n + 1] == host;
    case DevicesAre(_, paths) =>
    case FilterIs(_, names) =>
      if names != [] {
        assert argv[n + 1] == names[0] && names[0] in names;
      }
    case HelpOn(_, topics) =>
      if |argv| != 2 && topics != [] {
        assert argv[n + |topics|] == Last(topics) && Last(topics) in topics;
      }
    case DebugIs(_, level) => assert argv[n + 1] == level;
    case Subactions(words) =>
      assert argv[n + (|words| - 1)] == Last(words) && Last(words) in words && words[0] in words;
      ActionIsWord(words[0]);
  }

  /** Rejection: a command line is refused as soon as a word is refused behind phrases that are accepted, and when
      something needed is missing behind them. */
  lemma ParserRejects(argv: seq<string>, i: nat, ctx: Context, phrases: seq<Phrase>, n: nat, c: Context)
    requires Reads(argv, i, ctx, phrases, n, c) && n <= |argv|
    requires if n < |argv| then Refused(argv, n, c) else !NothingMissing(c)
    ensures Parse(argv, i, ctx) == None
  {
    hide Reads, Parse, NothingMissing, Refused, Stands;
    ReadsParse(argv, i, ctx, phrases, n, c);
    if n == |argv| {
      ParseEnds(argv, n, c);
    } else if Parse(argv, n, c).Some? {
      OneStep(argv, n, c);
      var ph := PhraseFound(argv, n, c);
      RefusedStandsNot(argv, n, c, ph);
    }
  }
}
