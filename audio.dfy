/** Which audio client pysol_init ends up with.  Constructing a client may
    raise; whether it does is an oracle `constructs`.  The clients' own
    behaviour (servers, mixing, settings) is not part of this model. */
module Audio {
  import opened Optional
  import opened CommandLine

  /** The audio client classes pysol_init can instantiate. */
  datatype Backend = PssClient | PyGameClient | OssClient | Win32Client | AbstractClient

  /** How the choice can end in an exception escaping pysol_init. */
  datatype Failure =
    | ConstructorRaised(backend: Backend)  // a client built outside the auto loop raised
    | UnknownModule(name: string)          // `sounds[...]` had no such key
    | NoClient                             // every auto candidate raised; `None.startServer()` fails

  datatype AudioChoice = Chosen(backend: Backend) | Failed(why: Failure)

  /** The `sounds` table from module names to client classes. */
  function ModuleClient(name: string): (r: Option<Backend>)
    ensures r.Some? <==> name in SoundModules
    ensures name == "pss" ==> r == Some(PssClient)
    ensures name == "pygame" ==> r == Some(PyGameClient)
    ensures name == "oss" ==> r == Some(OssClient)
    ensures name == "win" ==> r == Some(Win32Client)
  {
    if name == "pss" then Some(PssClient)
    else if name == "pygame" then Some(PyGameClient)
    else if name == "oss" then Some(OssClient)
    else if name == "win" then Some(Win32Client)
    else None
  }

  /** The order in which the `auto` setting tries the clients. */
  const AutoPriority: seq<Backend> := [PssClient, PyGameClient, OssClient, Win32Client, AbstractClient]

  /** The position of the first candidate whose constructor succeeds. */
  function FirstConstructible(cands: seq<Backend>, constructs: Backend -> bool): (r: Option<nat>)
    ensures r.Some? ==> r.value < |cands| && constructs(cands[r.value])
    ensures r.Some? ==> forall j :: 0 <= j < r.value ==> !constructs(cands[j])
    ensures r.None? <==> forall j :: 0 <= j < |cands| ==> !constructs(cands[j])
    decreases |cands|
  {
    if cands == [] then None
    else if constructs(cands[0]) then Some(0)
    else match FirstConstructible(cands[1..], constructs)
      case None => None
      case Some(i) => Some(i + 1)
  }

  /** Builds one client outside the auto loop, where a raising constructor escapes. */
  function Build(b: Backend, constructs: Backend -> bool): (r: AudioChoice)
    ensures r.Chosen? <==> constructs(b)
    ensures r.Chosen? ==> r.backend == b
    ensures r.Failed? ==> r.why == ConstructorRaised(b)
  {
    if constructs(b) then Chosen(b) else Failed(ConstructorRaised(b))
  }

  /** The selection: `--nosound` or the `none` setting, then an explicit
      (non-empty) `--sound-mod`, then the `auto` priority list, then the fixed setting. */
  function ChooseAudio(nosound: bool, soundMod: Option<string>, setting: string,
                       constructs: Backend -> bool): (r: AudioChoice)
    ensures r.Chosen? ==> constructs(r.backend)
  {
    if nosound || setting == "none" then Build(AbstractClient, constructs)
    else if soundMod.Some? && soundMod.value != "" then
      match ModuleClient(soundMod.value)
      case None => Failed(UnknownModule(soundMod.value))
      case Some(b) => Build(b, constructs)
    else if setting == "auto" then
      match FirstConstructible(AutoPriority, constructs)
      case None => Failed(NoClient)
      case Some(i) => Chosen(AutoPriority[i])
    else
      match ModuleClient(setting)
      case None => Failed(UnknownModule(setting))
      case Some(b) => Build(b, constructs)
  }

  /** The audio block of pysol_init, with the auto case as the try/break loop. */
  method SelectAudio(nosound: bool, soundMod: Option<string>, setting: string,
                     constructs: Backend -> bool) returns (r: AudioChoice)
    ensures r == ChooseAudio(nosound, soundMod, setting, constructs)
  {
    if nosound || setting == "none" {
      r := Build(AbstractClient, constructs);
    } else if soundMod.Some? && soundMod.value != "" {
      var c := ModuleClient(soundMod.value);
      r := if c.Some? then Build(c.value, constructs) else Failed(UnknownModule(soundMod.value));
    } else if setting == "auto" {
      r := Failed(NoClient);
      var i := 0;
      while i < |AutoPriority|
        invariant 0 <= i <= |AutoPriority|
        invariant forall j :: 0 <= j < i ==> !constructs(AutoPriority[j])
        invariant r == Failed(NoClient)
      {
        if constructs(AutoPriority[i]) {
          r := Chosen(AutoPriority[i]);
          break;
        }
        i := i + 1;
      }
    } else {
      var c := ModuleClient(setting);
      r := if c.Some? then Build(c.value, constructs) else Failed(UnknownModule(setting));
    }
  }

  /** `app.opt.sound_mode`: 1 for the sound-server client, 0 for every other. */
  function SoundMode(b: Backend): (m: int)
    ensures m == 1 <==> b == PssClient
    ensures m == 0 || m == 1
  {
    if b == PssClient then 1 else 0
  }

  /** With the `auto` setting and no explicit choice, the first client in
      priority order that constructs is chosen, and nothing is chosen only when
      every client raises. */
  lemma AutoPicksFirstWorking(constructs: Backend -> bool, b: Backend)
    ensures ChooseAudio(false, None, "auto", constructs) == Chosen(b) <==>
      exists i :: 0 <= i < |AutoPriority| && AutoPriority[i] == b && constructs(b) &&
        forall j :: 0 <= j < i ==> !constructs(AutoPriority[j])
    ensures ChooseAudio(false, None, "auto", constructs) == Failed(NoClient) <==>
      forall c: Backend :: !constructs(c)
  {
    var r := FirstConstructible(AutoPriority, constructs);
    if r.Some? {
      var k := r.value;
      if exists i :: 0 <= i < |AutoPriority| && AutoPriority[i] == b && constructs(b) &&
          forall j :: 0 <= j < i ==> !constructs(AutoPriority[j]) {
        var i :| 0 <= i < |AutoPriority| && AutoPriority[i] == b && constructs(b) &&
          forall j :: 0 <= j < i ==> !constructs(AutoPriority[j]);
        assert i == k;
      }
    }
    if forall j :: 0 <= j < |AutoPriority| ==> !constructs(AutoPriority[j]) {
      forall c: Backend ensures !constructs(c) {
        match c
        case PssClient => assert AutoPriority[0] == c;
        case PyGameClient => assert AutoPriority[1] == c;
        case OssClient => assert AutoPriority[2] == c;
        case Win32Client => assert AutoPriority[3] == c;
        case AbstractClient => assert AutoPriority[4] == c;
      }
    }
  }

  /** An explicit `--sound-mod` is used as given: that client or an exception,
      never a silent fallback to another client. */
  lemma ExplicitModuleHasNoFallback(soundMod: string, setting: string, constructs: Backend -> bool)
    requires soundMod in SoundModules && setting != "none"
    ensures ChooseAudio(false, Some(soundMod), setting, constructs) ==
      if constructs(ModuleClient(soundMod).value) then Chosen(ModuleClient(soundMod).value)
      else Failed(ConstructorRaised(ModuleClient(soundMod).value))
  {
  }

  /** `--nosound` always yields the silent client or its constructor's exception. */
  lemma NoSoundIsSilent(soundMod: Option<string>, setting: string, constructs: Backend -> bool)
    ensures ChooseAudio(true, soundMod, setting, constructs) == Build(AbstractClient, constructs)
    ensures ChooseAudio(true, soundMod, setting, constructs).Chosen? ==>
      ChooseAudio(true, soundMod, setting, constructs).backend == AbstractClient
    ensures ChooseAudio(true, soundMod, setting, constructs).Chosen? <==> constructs(AbstractClient)
  {
  }

  /** The `none` setting gives the silent client, whatever `--sound-mod` says. */
  lemma NoneSettingIsSilent(soundMod: Option<string>, constructs: Backend -> bool)
    ensures ChooseAudio(false, soundMod, "none", constructs) == Build(AbstractClient, constructs)
  {
  }

  /** Each accepted `--sound-mod` name selects its own client: pss the
      sound-server client (so `sound_mode` 1), pygame, oss and win theirs. */
  lemma ExplicitModuleClients(setting: string, constructs: Backend -> bool)
    requires setting != "none"
    ensures ChooseAudio(false, Some("pss"), setting, constructs) == Build(PssClient, constructs)
    ensures ChooseAudio(false, Some("pygame"), setting, constructs) == Build(PyGameClient, constructs)
    ensures ChooseAudio(false, Some("oss"), setting, constructs) == Build(OssClient, constructs)
    ensures ChooseAudio(false, Some("win"), setting, constructs) == Build(Win32Client, constructs)
  {
  }

  /** A fixed setting other than `none` and `auto`, with no explicit module:
      that setting's client or its constructor's exception, and a KeyError
      when the `sounds` table has no such name. */
  lemma FixedSetting(setting: string, constructs: Backend -> bool)
    requires setting != "none" && setting != "auto"
    ensures ChooseAudio(false, None, setting, constructs) ==
      if setting in SoundModules then Build(ModuleClient(setting).value, constructs)
      else Failed(UnknownModule(setting))
  {
  }
}
