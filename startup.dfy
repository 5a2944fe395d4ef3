/** The control decisions of pysol_init: option parsing, the audio client,
    the game check, the cardset choice, the playlist order and the cardset
    loading fallback, with their return codes.  Directory creation, the data
    loader, plugins, the toolkit, images, tiles and dialogs are not part of
    this model; what they decide is taken from the environment `Env`. */
module Startup {
  import opened Optional
  import opened CommandLine
  import opened Audio
  import opened Cardsets
  import opened Playlist

  /** What pysol_init finds outside itself. */
  datatype Env = Env(
    getopt: Getopt,                  // getopt's split of argv[1:]
    isFile: string -> bool,          // os.path.isfile
    soundSetting: string,            // the SOUND_MOD setting
    constructs: Backend -> bool,     // whether a client's constructor succeeds
    gameCount: (bool, bool) -> nat,  // games registered, given french-only and noplugins
    savedCardset: Option<Saved>,     // app.opt.cardset.get(0)
    cardsets: seq<string>,           // the cardset manager, in manager order
    loads: nat -> bool,              // whether app.loadCardset succeeds on a cardset
    canPlayMusic: Backend -> bool,   // the client's CAN_PLAY_MUSIC
    music: seq<Track>)               // the music manager's tracks, as shuffled

  /** An exception that escapes pysol_init. */
  datatype Abort = SoundModAssertion | AudioAbort(failure: Failure)

  /** pysol_init returns a code or lets an exception escape. */
  datatype InitOutcome = Returned(code: int) | Raised(why: Abort)

  /** The parts of the application object that pysol_init sets and this model tracks. */
  class App {
    var loadGame: Option<string>      // app.commandline.loadgame
    var startGame: Option<string>     // app.commandline.game
    var audio: Option<Backend>        // app.audio
    var soundMode: int                // app.opt.sound_mode
    var musicPlaylist: seq<Track>     // app.music_playlist
    var cardset: Option<nat>          // the cardset that ended up loaded
  }

  /** The audio choice for parsed options. */
  function AudioFor(env: Env, opts: Opts): AudioChoice
    requires Complete(opts)
  {
    ChooseAudio(IsOn(opts, NoSound), TextOf(opts[SoundMod]), env.soundSetting, env.constructs)
  }

  /** The number of games registered for parsed options. */
  function GamesFound(env: Env, opts: Opts): nat
    requires Complete(opts)
  {
    env.gameCount(IsOn(opts, FrenchOnly), IsOn(opts, NoPlugins))
  }

  /** True when, with these options, pysol_init gets past the "no cardsets"
      check, after which the playlist is built. */
  predicate ReachesMusicWith(env: Env, opts: Opts)
    requires Complete(opts)
  {
    AudioFor(env, opts).Chosen? && GamesFound(env, opts) > 0 && |env.cardsets| > 0
  }

  predicate ReachesMusic(env: Env) {
    var p := Parse(env.getopt, env.isFile);
    p.Accepted? && ReachesMusicWith(env, p.opts)
  }

  /** The outcome of pysol_init once the options are parsed. */
  function OutcomeWithOptions(env: Env, opts: Opts): (r: InitOutcome)
    requires Complete(opts)
    ensures r.Returned? ==> r.code == 0 || r.code == 1 || r.code == 3
  {
    match AudioFor(env, opts)
    case Failed(f) => Raised(AudioAbort(f))
    case Chosen(_) =>
      if GamesFound(env, opts) == 0 then Returned(1)
      else match ChooseCardset(env.savedCardset, env.cardsets)
        case NoCardset => Returned(3)
        case Picked(i, _) =>
          if Loaded(i, |env.cardsets|, env.loads).None? then Returned(3) else Returned(0)
  }

  /** The outcome of pysol_init as a function of its environment. */
  function InitOutcomeOf(env: Env): (r: InitOutcome)
    ensures r.Returned? ==> r.code == 0 || r.code == 1 || r.code == 3
  {
    match Parse(env.getopt, env.isFile)
    case AssertionRaised => Raised(SoundModAssertion)
    case Rejected(_) => Returned(1)
    case Accepted(opts, _) => OutcomeWithOptions(env, opts)
  }

  /** The in-place reordering of `app.music_playlist`: the loop finds the
      first `bye_for_now` track, removes it and inserts it at the front. */
  method MoveByeForNowToFront(app: App)
    modifies app`musicPlaylist
    ensures app.musicPlaylist == ByeForNowFirst(old(app.musicPlaylist))
  {
    var i := 0;
    while i < |app.musicPlaylist|
      invariant 0 <= i <= |app.musicPlaylist|
      invariant app.musicPlaylist == old(app.musicPlaylist)
      invariant forall j :: 0 <= j < i ==> !IsByeForNow(app.musicPlaylist[j])
    {
      var m := app.musicPlaylist[i];
      if Lower(m.name) == "bye_for_now" {
        // `remove(m)` takes out the first equal element, which is the one at i
        app.musicPlaylist := Without(app.musicPlaylist, i);
        app.musicPlaylist := [m] + app.musicPlaylist;
        return;
      }
      i := i + 1;
    }
  }

  /** pysol_init, reduced to its decisions: parse the options, record the
      saved game and the game to start, then go on with the parsed options. */
  method PysolInit(app: App, env: Env) returns (outcome: InitOutcome)
    modifies app
    ensures outcome == InitOutcomeOf(env)
    ensures !Parse(env.getopt, env.isFile).Accepted? ==> unchanged(app)
    ensures var p := Parse(env.getopt, env.isFile);
      p.Accepted? ==>
        && app.startGame == TextOf(p.opts[Game])
        && app.loadGame == (if p.filename.Some? then p.filename else old(app.loadGame))
        && (AudioFor(env, p.opts).Chosen? ==>
              && app.audio == Some(AudioFor(env, p.opts).backend)
              && app.soundMode == SoundMode(AudioFor(env, p.opts).backend))
        && (AudioFor(env, p.opts).Failed? ==>
              app.audio == None && app.soundMode == old(app.soundMode))
    ensures ReachesMusic(env) ==>
      var b := AudioFor(env, Parse(env.getopt, env.isFile).opts).backend;
      app.musicPlaylist ==
        if env.canPlayMusic(b) && |env.music| > 0 then ByeForNowFirst(env.music)
        else old(app.musicPlaylist)
    ensures !ReachesMusic(env) ==> app.musicPlaylist == old(app.musicPlaylist)
    ensures outcome != Returned(0) ==> app.cardset == old(app.cardset)
    ensures outcome == Returned(0) ==>
      app.cardset == Loaded(ChooseCardset(env.savedCardset, env.cardsets).index, |env.cardsets|, env.loads)
  {
    var parsed := ParseOption(env.getopt, env.isFile);
    if parsed.AssertionRaised? {
      return Raised(SoundModAssertion);
    }
    if parsed.Rejected? {
      return Returned(1);
    }
    var opts, filename := parsed.opts, parsed.filename;
    if filename.Some? {
      app.loadGame := filename;
    }
    app.startGame := TextOf(opts[Game]);
    outcome := InitWithOptions(app, env, opts);
  }

  /** The rest of pysol_init: the audio client, the game check, the cardset
      choice, the playlist and the cardset loading fallback. */
  method InitWithOptions(app: App, env: Env, opts: Opts) returns (outcome: InitOutcome)
    requires Complete(opts)
    modifies app`audio, app`soundMode, app`musicPlaylist, app`cardset
    ensures outcome == OutcomeWithOptions(env, opts)
    ensures AudioFor(env, opts).Chosen? ==>
      app.audio == Some(AudioFor(env, opts).backend) && app.soundMode == SoundMode(AudioFor(env, opts).backend)
    ensures AudioFor(env, opts).Failed? ==> app.audio == None && app.soundMode == old(app.soundMode)
    ensures app.musicPlaylist ==
      if ReachesMusicWith(env, opts) && env.canPlayMusic(AudioFor(env, opts).backend) && |env.music| > 0
      then ByeForNowFirst(env.music)
      else old(app.musicPlaylist)
    ensures outcome != Returned(0) ==> app.cardset == old(app.cardset)
    ensures outcome == Returned(0) ==>
      app.cardset == Loaded(ChooseCardset(env.savedCardset, env.cardsets).index, |env.cardsets|, env.loads)
  {
    app.audio := None;
    var audio := SelectAudio(IsOn(opts, NoSound), TextOf(opts[SoundMod]), env.soundSetting, env.constructs);
    if audio.Failed? {
      return Raised(AudioAbort(audio.why));
    }
    var b := audio.backend;
    app.audio := Some(b);
    app.soundMode := SoundMode(b);

    if env.gameCount(IsOn(opts, FrenchOnly), IsOn(opts, NoPlugins)) == 0 {
      return Returned(1);
    }

    var choice := ChooseCardset(env.savedCardset, env.cardsets);
    if choice.NoCardset? {
      return Returned(3);
    }

    if env.canPlayMusic(b) && |env.music| > 0 {
      app.musicPlaylist := env.music;
      MoveByeForNowToFront(app);
    }

    var loaded := LoadCardset(choice.index, |env.cardsets|, env.loads);
    if loaded.None? {
      return Returned(3);
    }
    app.cardset := loaded;
    return Returned(0);
  }

  // ---------------------------------------------------------------------
  // Return codes
  // ---------------------------------------------------------------------

  /** 1 exactly when the options are rejected, or when the audio client is
      built and no game is registered. */
  lemma ExitCodeOneIff(env: Env)
    ensures InitOutcomeOf(env) == Returned(1) <==>
      var p := Parse(env.getopt, env.isFile);
      p.Rejected? || (p.Accepted? && AudioFor(env, p.opts).Chosen? && GamesFound(env, p.opts) == 0)
  {
  }

  /** 3 exactly when startup gets past the game check and no cardset in the
      manager loads, which includes the manager being empty. */
  lemma ExitCodeThreeIff(env: Env)
    ensures InitOutcomeOf(env) == Returned(3) <==>
      var p := Parse(env.getopt, env.isFile);
      && p.Accepted? && AudioFor(env, p.opts).Chosen? && GamesFound(env, p.opts) > 0
      && forall j :: 0 <= j < |env.cardsets| ==> !env.loads(j)
  {
  }

  /** 0 exactly when startup gets past the game check and some cardset loads. */
  lemma ExitCodeZeroIff(env: Env)
    ensures InitOutcomeOf(env) == Returned(0) <==>
      var p := Parse(env.getopt, env.isFile);
      && p.Accepted? && AudioFor(env, p.opts).Chosen? && GamesFound(env, p.opts) > 0
      && exists j :: 0 <= j < |env.cardsets| && env.loads(j)
  {
  }

  /** An exception escapes exactly when `--sound-mod` names an unknown module
      or the audio client cannot be built. */
  lemma RaisesIff(env: Env)
    ensures InitOutcomeOf(env).Raised? <==>
      var p := Parse(env.getopt, env.isFile);
      p.AssertionRaised? || (p.Accepted? && AudioFor(env, p.opts).Failed?)
  {
  }

  /** Asking for help ends startup with 1 before anything else is tried. */
  lemma HelpExitsWithOne(env: Env)
    requires env.getopt.Split? && AsksForHelp(env.getopt.optlist) && !HasBadSoundMod(env.getopt.optlist)
    ensures InitOutcomeOf(env) == Returned(1)
  {
    HelpRejectsIff(env.getopt.optlist, env.getopt.args, env.isFile);
  }
}
