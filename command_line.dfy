/** The command-line option folder of PySol's startup (`parse_option`).

    `getopt` itself is not part of this model: its output (the list of
    `(flag, value)` pairs and the positional arguments), or its failure, is
    the input.  Whether a path names an existing file is an oracle. */
module CommandLine {
  import opened Optional

  /** The twelve keys of the options dictionary. */
  datatype Key =
    | Help | Game | GameId | Fg | Bg | Fn | Theme
    | FrenchOnly | NoPlugins | NoSound | SoundMod | Debug

  /** A value held in the options dictionary: a Python boolean, `None`,
      the text given with a flag, or the integer default of `debug`. */
  datatype Val = Bool(b: bool) | NoneVal | Text(s: string) | Int(n: int)

  type Opts = map<Key, Val>

  /** One `(flag, value)` pair as getopt returns it; switches carry "". */
  datatype OptPair = OptPair(flag: string, value: string)

  /** What getopt hands back: an error, or the pairs and the positional arguments. */
  datatype Getopt = GetoptError | Split(optlist: seq<OptPair>, args: seq<string>)

  /** Why parse_option returned `None`; each reason prints its own message. */
  datatype Rejection = GetoptFailed | HelpShown | TooManyFiles | InvalidFile

  /** parse_option either returns `(opts, filename)`, returns `None`, or lets
      the AssertionError of an unknown `--sound-mod` escape. */
  datatype ParseResult =
    | Accepted(opts: Opts, filename: Option<string>)
    | Rejected(why: Rejection)
    | AssertionRaised

  /** The values `--sound-mod` accepts. */
  const SoundModules: set<string> := {"pss", "pygame", "oss", "win"}

  /** The dictionary parse_option starts from. */
  const Defaults: Opts := map[
    Help := Bool(false), Game := NoneVal, GameId := NoneVal,
    Fg := NoneVal, Bg := NoneVal, Fn := NoneVal, Theme := NoneVal,
    FrenchOnly := Bool(false), NoPlugins := Bool(false), NoSound := Bool(false),
    SoundMod := NoneVal, Debug := Int(0)]

  /** Every key is present in the dictionary. */
  predicate Complete(o: Opts) {
    forall k: Key :: k in o
  }

  lemma DefaultsComplete()
    ensures Complete(Defaults)
  {
    forall k: Key ensures k in Defaults {
      match k
      case Help => case Game => case GameId => case Fg => case Bg => case Fn =>
      case Theme => case FrenchOnly => case NoPlugins => case NoSound =>
      case SoundMod => case Debug =>
    }
  }

  /** The key a getopt flag writes to; short and long aliases share a key,
      and a flag outside the if/elif chain writes to none. */
  function KeyOf(flag: string): (r: Option<Key>)
    ensures r == Some(Help) <==> flag == "-h" || flag == "--help"
    ensures r == Some(Game) <==> flag == "-g" || flag == "--game"
    ensures r == Some(GameId) <==> flag == "-i" || flag == "--gameid"
    ensures r == Some(Fg) <==> flag == "--fg" || flag == "--foreground"
    ensures r == Some(Bg) <==> flag == "--bg" || flag == "--background"
    ensures r == Some(Fn) <==> flag == "--fn" || flag == "--font"
    ensures r == Some(Theme) <==> flag == "--theme"
    ensures r == Some(FrenchOnly) <==> flag == "--french-only"
    ensures r == Some(NoPlugins) <==> flag == "--noplugins"
    ensures r == Some(NoSound) <==> flag == "--nosound"
    ensures r == Some(SoundMod) <==> flag == "--sound-mod"
    ensures r == Some(Debug) <==> flag == "-D" || flag == "--debug"
  {
    if flag == "-h" || flag == "--help" then Some(Help)
    else if flag == "-g" || flag == "--game" then Some(Game)
    else if flag == "-i" || flag == "--gameid" then Some(GameId)
    else if flag == "--fg" || flag == "--foreground" then Some(Fg)
    else if flag == "--bg" || flag == "--background" then Some(Bg)
    else if flag == "--fn" || flag == "--font" then Some(Fn)
    else if flag == "--theme" then Some(Theme)
    else if flag == "--french-only" then Some(FrenchOnly)
    else if flag == "--noplugins" then Some(NoPlugins)
    else if flag == "--nosound" then Some(NoSound)
    else if flag == "--sound-mod" then Some(SoundMod)
    else if flag == "-D" || flag == "--debug" then Some(Debug)
    else None
  }

  /** Keys whose flag stores `True` rather than the flag's text. */
  predicate IsSwitch(k: Key) {
    k == Help || k == FrenchOnly || k == NoPlugins || k == NoSound
  }

  /** What a flag for key `k` with text `value` stores. */
  function Stored(k: Key, value: string): (r: Val)
    ensures r == Bool(true) || r == Text(value)
    ensures r.Text? <==> !IsSwitch(k)
  {
    if IsSwitch(k) then Bool(true) else Text(value)
  }

  /** A `--sound-mod` pair whose value fails the assertion. */
  predicate BadSoundMod(p: OptPair) {
    p.flag == "--sound-mod" && p.value !in SoundModules
  }

  /** One pass of the loop body; `None` when the assertion fails. */
  function Step(o: Opts, p: OptPair): (r: Option<Opts>)
    ensures r.None? <==> BadSoundMod(p)
    ensures r.Some? && KeyOf(p.flag).None? ==> r.value == o
    ensures r.Some? && KeyOf(p.flag).Some? ==>
      var k := KeyOf(p.flag).value;
      k in r.value && r.value[k] == Stored(k, p.value)
    ensures r.Some? ==> r.value.Keys >= o.Keys
    ensures r.Some? ==> forall k :: k in o && Some(k) != KeyOf(p.flag) ==> r.value[k] == o[k]
  {
    match KeyOf(p.flag)
    case None => Some(o)
    case Some(k) =>
      if k == SoundMod && p.value !in SoundModules then None
      else Some(o[k := Stored(k, p.value)])
  }

  /** The loop over the pairs, starting from dictionary `o`. */
  function Fold(o: Opts, ps: seq<OptPair>): (r: Option<Opts>)
    ensures Complete(o) && r.Some? ==> Complete(r.value)
    decreases |ps|
  {
    if ps == [] then Some(o)
    else match Step(o, ps[0])
      case None => None
      case Some(o') => Fold(o', ps[1..])
  }

  /** The text of an option, or nothing when it is `None`. */
  function TextOf(v: Val): Option<string> {
    if v.Text? then Some(v.s) else None
  }

  /** True when a switch is on. */
  predicate IsOn(o: Opts, k: Key)
    requires Complete(o)
  {
    o[k] == Bool(true)
  }

  /** Python's `args and args[0] or None`: the empty string counts as no file. */
  function FileArgument(args: seq<string>): (r: Option<string>)
    ensures r.Some? <==> |args| > 0 && args[0] != ""
    ensures r.Some? ==> r.value == args[0]
  {
    if |args| > 0 && args[0] != "" then Some(args[0]) else None
  }

  /** The result of parse_option as a function of getopt's output. */
  function Parse(g: Getopt, isFile: string -> bool): (r: ParseResult)
    ensures r.Accepted? ==> Complete(r.opts)
    ensures r.Accepted? && r.filename.Some? ==> isFile(r.filename.value)
  {
    match g
    case GetoptError => Rejected(GetoptFailed)
    case Split(optlist, args) =>
      DefaultsComplete();
      match Fold(Defaults, optlist)
      case None => AssertionRaised
      case Some(o) =>
        if o[Help] == Bool(true) then Rejected(HelpShown)
        else if |args| > 1 then Rejected(TooManyFiles)
        else if FileArgument(args).Some? && !isFile(FileArgument(args).value) then Rejected(InvalidFile)
        else Accepted(o, FileArgument(args))
  }

  /** The if/elif chain of the loop body: the dictionary after one pair,
      or `None` when the `--sound-mod` assertion fails. */
  method ApplyFlag(opts: Opts, flag: string, value: string) returns (r: Option<Opts>)
    ensures r == Step(opts, OptPair(flag, value))
  {
    r := Some(opts);
    if flag == "-h" || flag == "--help" {
      r := Some(opts[Help := Bool(true)]);
    } else if flag == "-g" || flag == "--game" {
      r := Some(opts[Game := Text(value)]);
    } else if flag == "-i" || flag == "--gameid" {
      r := Some(opts[GameId := Text(value)]);
    } else if flag == "--fg" || flag == "--foreground" {
      r := Some(opts[Fg := Text(value)]);
    } else if flag == "--bg" || flag == "--background" {
      r := Some(opts[Bg := Text(value)]);
    } else if flag == "--fn" || flag == "--font" {
      r := Some(opts[Fn := Text(value)]);
    } else if flag == "--theme" {
      r := Some(opts[Theme := Text(value)]);
    } else if flag == "--french-only" {
      r := Some(opts[FrenchOnly := Bool(true)]);
    } else if flag == "--noplugins" {
      r := Some(opts[NoPlugins := Bool(true)]);
    } else if flag == "--nosound" {
      r := Some(opts[NoSound := Bool(true)]);
    } else if flag == "--sound-mod" {
      if value !in SoundModules {
        return None;
      }
      r := Some(opts[SoundMod := Text(value)]);
    } else if flag == "-D" || flag == "--debug" {
      r := Some(opts[Debug := Text(value)]);
    }
  }

  /** parse_option: fold the pairs into the dictionary, then apply the help,
      file-count and file-existence checks in parse_option's order. */
  method ParseOption(g: Getopt, isFile: string -> bool) returns (r: ParseResult)
    ensures r == Parse(g, isFile)
  {
    if g.GetoptError? {
      return Rejected(GetoptFailed);
    }
    var optlist, args := g.optlist, g.args;
    DefaultsComplete();
    var opts := Defaults;
    var i := 0;
    while i < |optlist|
      invariant 0 <= i <= |optlist|
      invariant Complete(opts)
      invariant Fold(Defaults, optlist) == Fold(opts, optlist[i..])
    {
      assert optlist[i..][1..] == optlist[i + 1..];
      var next := ApplyFlag(opts, optlist[i].flag, optlist[i].value);
      if next.None? {
        return AssertionRaised;
      }
      opts := next.value;
      i := i + 1;
    }
    if opts[Help] == Bool(true) {
      return Rejected(HelpShown);
    }
    if |args| > 1 {
      return Rejected(TooManyFiles);
    }
    var filename := FileArgument(args);
    if filename.Some? && !isFile(filename.value) {
      return Rejected(InvalidFile);
    }
    return Accepted(opts, filename);
  }

  // ---------------------------------------------------------------------
  // Properties of the fold and of parse_option
  // ---------------------------------------------------------------------

  /** No flags and no positional arguments: the default dictionary and no file. */
  lemma NoArgumentsGiveDefaults(isFile: string -> bool)
    ensures Parse(Split([], []), isFile) == Accepted(Defaults, None)
    ensures Defaults[Help] == Bool(false) && Defaults[FrenchOnly] == Bool(false)
    ensures Defaults[NoPlugins] == Bool(false) && Defaults[NoSound] == Bool(false)
    ensures Defaults[Debug] == Int(0)
    ensures forall k :: k in {Game, GameId, Fg, Bg, Fn, Theme, SoundMod} ==> Defaults[k] == NoneVal
  {
  }

  /** A key that no pair writes to keeps its starting value. */
  lemma {:induction false} UntouchedKeyKept(o: Opts, ps: seq<OptPair>, k: Key)
    requires Fold(o, ps).Some? && k in o
    requires forall j :: 0 <= j < |ps| ==> KeyOf(ps[j].flag) != Some(k)
    ensures k in Fold(o, ps).value && Fold(o, ps).value[k] == o[k]
    decreases |ps|
  {
    if ps != [] {
      var o' := Step(o, ps[0]).value;
      assert forall j :: 0 <= j < |ps[1..]| ==> ps[1..][j] == ps[j + 1];
      UntouchedKeyKept(o', ps[1..], k);
    }
  }

  /** The pair that writes a key last decides the key's value. */
  lemma {:induction false} LastOccurrenceWins(o: Opts, ps: seq<OptPair>, k: Key, i: nat)
    requires Fold(o, ps).Some?
    requires i < |ps| && KeyOf(ps[i].flag) == Some(k)
    requires forall j :: i < j < |ps| ==> KeyOf(ps[j].flag) != Some(k)
    ensures k in Fold(o, ps).value && Fold(o, ps).value[k] == Stored(k, ps[i].value)
    decreases |ps|
  {
    var o' := Step(o, ps[0]).value;
    assert forall j :: 0 <= j < |ps[1..]| ==> ps[1..][j] == ps[j + 1];
    if i == 0 {
      UntouchedKeyKept(o', ps[1..], k);
    } else {
      LastOccurrenceWins(o', ps[1..], k, i - 1);
    }
  }

  /** The fold fails exactly when some `--sound-mod` pair carries a value
      outside the four accepted modules. */
  lemma {:induction false} FoldFailsIff(o: Opts, ps: seq<OptPair>)
    ensures Fold(o, ps).None? <==> exists j :: 0 <= j < |ps| && BadSoundMod(ps[j])
    decreases |ps|
  {
    if ps != [] {
      assert Step(o, ps[0]).None? <==> BadSoundMod(ps[0]);
      if Step(o, ps[0]).Some? {
        FoldFailsIff(Step(o, ps[0]).value, ps[1..]);
        if exists j :: 0 <= j < |ps| && BadSoundMod(ps[j]) {
          var j :| 0 <= j < |ps| && BadSoundMod(ps[j]);
          assert ps[1..][j - 1] == ps[j];
        }
        assert forall j :: 0 <= j < |ps[1..]| ==> ps[1..][j] == ps[j + 1];
      }
    }
  }

  /** A switch ends up on exactly when it started on or some flag for it appears. */
  lemma {:induction false} SwitchOnIff(o: Opts, ps: seq<OptPair>, k: Key)
    requires IsSwitch(k) && k in o && Fold(o, ps).Some?
    ensures k in Fold(o, ps).value
    ensures Fold(o, ps).value[k] == Bool(true)
        <==> o[k] == Bool(true) || exists j :: 0 <= j < |ps| && KeyOf(ps[j].flag) == Some(k)
    decreases |ps|
  {
    if ps != [] {
      var o' := Step(o, ps[0]).value;
      SwitchOnIff(o', ps[1..], k);
      if exists j :: 0 <= j < |ps| && KeyOf(ps[j].flag) == Some(k) {
        var j :| 0 <= j < |ps| && KeyOf(ps[j].flag) == Some(k);
        if j > 0 {
          assert ps[1..][j - 1] == ps[j];
        }
      }
      assert forall j :: 0 <= j < |ps[1..]| ==> ps[1..][j] == ps[j + 1];
    }
  }

  /** True when some pair asks for help. */
  predicate AsksForHelp(ps: seq<OptPair>) {
    exists j :: 0 <= j < |ps| && (ps[j].flag == "-h" || ps[j].flag == "--help")
  }

  /** True when some `--sound-mod` pair carries an unknown module. */
  predicate HasBadSoundMod(ps: seq<OptPair>) {
    exists j :: 0 <= j < |ps| && BadSoundMod(ps[j])
  }

  /** `-h`/`--help` anywhere gives `None`, whatever else is given, unless the
      `--sound-mod` assertion has already fired inside the loop. */
  lemma HelpRejectsIff(ps: seq<OptPair>, args: seq<string>, isFile: string -> bool)
    ensures Parse(Split(ps, args), isFile) == Rejected(HelpShown)
        <==> !HasBadSoundMod(ps) && AsksForHelp(ps)
  {
    DefaultsComplete();
    FoldFailsIff(Defaults, ps);
    if Fold(Defaults, ps).Some? {
      SwitchOnIff(Defaults, ps, Help);
      assert forall j :: 0 <= j < |ps| ==>
        (KeyOf(ps[j].flag) == Some(Help) <==> ps[j].flag == "-h" || ps[j].flag == "--help");
    }
  }

  /** The `sound-mod` entry is `None` or one of the four modules. */
  predicate SoundModValid(o: Opts) {
    SoundMod in o && (o[SoundMod] == NoneVal || (o[SoundMod].Text? && o[SoundMod].s in SoundModules))
  }

  lemma {:induction false} FoldKeepsSoundModValid(o: Opts, ps: seq<OptPair>)
    requires SoundModValid(o) && Fold(o, ps).Some?
    ensures SoundModValid(Fold(o, ps).value)
    decreases |ps|
  {
    if ps != [] {
      FoldKeepsSoundModValid(Step(o, ps[0]).value, ps[1..]);
    }
  }

  /** An accepted result never holds a sound module outside the four. */
  lemma AcceptedSoundModIsKnown(g: Getopt, isFile: string -> bool)
    requires Parse(g, isFile).Accepted?
    ensures SoundModValid(Parse(g, isFile).opts)
  {
    FoldKeepsSoundModValid(Defaults, g.optlist);
  }

  /** parse_option returns `(opts, filename)` exactly when getopt succeeds, no
      `--sound-mod` is bad, no help is asked for, at most one positional argument
      is given and a non-empty one names an existing file; the filename is that
      argument, and an empty or missing one gives `None`. */
  lemma AcceptedIff(g: Getopt, isFile: string -> bool)
    ensures Parse(g, isFile).Accepted? <==>
      && g.Split?
      && !HasBadSoundMod(g.optlist)
      && !AsksForHelp(g.optlist)
      && |g.args| <= 1
      && (|g.args| == 0 || g.args[0] == "" || isFile(g.args[0]))
    ensures Parse(g, isFile).Accepted? ==>
      Parse(g, isFile).filename == if |g.args| == 1 && g.args[0] != "" then Some(g.args[0]) else None
  {
    if g.Split? {
      HelpRejectsIff(g.optlist, g.args, isFile);
      FoldFailsIff(Defaults, g.optlist);
    }
  }

  /** More than one positional argument gives `None` once the flags pass. */
  lemma TooManyFilesRejected(ps: seq<OptPair>, args: seq<string>, isFile: string -> bool)
    requires |args| > 1 && !HasBadSoundMod(ps) && !AsksForHelp(ps)
    ensures Parse(Split(ps, args), isFile) == Rejected(TooManyFiles)
  {
    HelpRejectsIff(ps, args, isFile);
    FoldFailsIff(Defaults, ps);
  }

  /** Flags that write the same key with the same text have the same effect,
      so short and long aliases are interchangeable anywhere in the list. */
  lemma {:induction false} AliasesInterchangeable(o: Opts, ps: seq<OptPair>, qs: seq<OptPair>)
    requires |ps| == |qs|
    requires forall j :: 0 <= j < |ps| ==> KeyOf(ps[j].flag) == KeyOf(qs[j].flag) && ps[j].value == qs[j].value
    ensures Fold(o, ps) == Fold(o, qs)
    decreases |ps|
  {
    if ps != [] {
      assert Step(o, ps[0]) == Step(o, qs[0]);
      if Step(o, ps[0]).Some? {
        assert forall j :: 0 <= j < |ps[1..]| ==> ps[1..][j] == ps[j + 1] && qs[1..][j] == qs[j + 1];
        AliasesInterchangeable(Step(o, ps[0]).value, ps[1..], qs[1..]);
      }
    }
  }

  /** The alias pairs of parse_option's if/elif chain write the same key. */
  lemma AliasPairs()
    ensures KeyOf("-h") == KeyOf("--help") == Some(Help)
    ensures KeyOf("-g") == KeyOf("--game") == Some(Game)
    ensures KeyOf("-i") == KeyOf("--gameid") == Some(GameId)
    ensures KeyOf("--fg") == KeyOf("--foreground") == Some(Fg)
    ensures KeyOf("--bg") == KeyOf("--background") == Some(Bg)
    ensures KeyOf("--fn") == KeyOf("--font") == Some(Fn)
    ensures KeyOf("-D") == KeyOf("--debug") == Some(Debug)
  {
  }
}
