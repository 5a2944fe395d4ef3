# PySol startup decisions in Dafny

This project models the decision logic of PySol's startup module
`pysollib/main.py`:

- `parse_option`, which folds getopt's `(flag, value)` pairs into a dictionary
  of twelve options with defaults, then rejects help requests, surplus
  positional arguments and missing saved-game files;
- the control decisions of `pysol_init`, which are
  - its return codes (1 for bad options or no games, 3 for no usable cardset, 0 otherwise);
  - the choice of audio client (`--nosound`, an explicit `--sound-mod`, the
    `auto` priority list, or a fixed setting), and the `sound_mode` derived from it;
  - the choice of cardset and the fallback that loads the first loadable
    cardset in manager order;
  - moving the `bye_for_now` track to the front of the music playlist.

Modules:

- `Optional` (`optional.dfy`) holds the `Option` datatype that stands for Python's `None`.
- `CommandLine` (`command_line.dfy`) holds the options dictionary as a
  `map<Key, Val>`. It defines the fold as a specification (`Step`, `Fold`,
  `Parse`) and `parse_option` as a method with its own loop and if/elif
  chain (`ParseOption`, `ApplyFlag`). The lemmas relate the result to the raw
  flag list: last occurrence wins, untouched keys keep their default, aliases
  are interchangeable, help rejects, and `--sound-mod` is validated.
- `Audio` (`audio.dfy`) chooses the audio client. Whether a constructor raises
  is an oracle.
- `Cardsets` (`cardsets.dfy`) covers the cardset choice, the `for ... else`
  fallback loop, and the function it is proved against.
- `Playlist` (`playlist.dfy`) reorders the playlist, as a function with its
  permutation and order properties.
- `Startup` (`startup.dfy`) holds pysol_init itself (`PysolInit`, which parses and then calls `InitWithOptions`), as methods over an `App`
  object. The world outside it is an `Env` value. The module also holds the
  function `InitOutcomeOf` that the method is proved against, and the
  return-code lemmas.

Inputs taken from outside the model:

- getopt's output, or its failure;
- `os.path.isfile`;
- the `SOUND_MOD` setting;
- whether each audio client's constructor succeeds;
- the number of games registered, as a function of `--french-only` and `--noplugins`;
- the saved cardset;
- the cardset manager's list;
- whether each cardset loads;
- the client's `CAN_PLAY_MUSIC`;
- the music tracks.

Points where the code, not a looser reading of it, is followed:

- An unknown `--sound-mod` value fails an `assert` inside the loop. The
  resulting AssertionError escapes `parse_option` and `pysol_init`. So
  `--help --sound-mod=bad` raises instead of returning `None`, and "help wins"
  holds only when no `--sound-mod` is bad (`HelpRejectsIff`).
- `args and args[0] or None` turns an empty positional argument into no file,
  with no existence check (`FileArgument`, `AcceptedIff`).
- Return code 1 for "no games" is reached only after the audio client has been
  built. A raising audio constructor, an unknown `SOUND_MOD`, or an `auto`
  list where every client raises ends `pysol_init` with an exception first
  (`RaisesIff`).
- Any flag for a switch key stores `True`. A valued flag stores its text. So
  `--debug` stores a string, and only its default is the integer 0.

## Model

| member | source | states |
|---|---|---|
| CommandLine.DefaultsComplete | pysollib/main.py:102-114 | the starting dictionary holds all twelve keys |
| CommandLine.KeyOf | pysollib/main.py:116-140 | each key is written by exactly the flags the if/elif chain lists for it, aliases included |
| CommandLine.Stored | pysollib/main.py:115-140 | the four switch keys store True; every other key stores the flag's text |
| CommandLine.Step | pysollib/main.py:115-140 | one pass of the loop body fails exactly on a bad `--sound-mod`; otherwise it writes its flag's key with the stored value and leaves every other key as it was |
| CommandLine.FileArgument | pysollib/main.py:163 | the filename is the first positional argument when it is non-empty, and None otherwise |
| CommandLine.Fold | pysollib/main.py:115-140 | folding pairs into a dictionary that holds every key yields one that still holds every key |
| CommandLine.Parse | pysollib/main.py:83-167 | an accepted result holds every key, and a returned filename names an existing file |
| CommandLine.ApplyFlag | pysollib/main.py:115-140 | the if/elif chain of the loop body does what the key-based step specification says, including the failed assertion |
| CommandLine.ParseOption | pysollib/main.py:83-167 | the loop over getopt's pairs and the three checks after it return exactly the specified result |
| CommandLine.NoArgumentsGiveDefaults | pysollib/main.py:102-114 | no flags and no arguments give the default dictionary and no file; help, french-only, noplugins and nosound are False, debug is 0, every other key is None |
| CommandLine.UntouchedKeyKept | pysollib/main.py:115-140 | a key that no flag in the list writes keeps its previous value, so each flag changes only its own key |
| CommandLine.LastOccurrenceWins | pysollib/main.py:115-140 | the last flag that writes a key decides the key's value, whatever came before |
| CommandLine.FoldFailsIff | pysollib/main.py:136-138 | the fold raises exactly when some `--sound-mod` pair has a value outside pss, pygame, oss and win |
| CommandLine.SwitchOnIff | pysollib/main.py:116-135 | a switch key ends True exactly when it started True or one of its flags appears |
| CommandLine.HelpRejectsIff | pysollib/main.py:142-158 | the result is the help rejection exactly when `-h` or `--help` appears and no `--sound-mod` is bad, whatever the positional arguments |
| CommandLine.FoldKeepsSoundModValid | pysollib/main.py:136-138 | every step of the fold keeps the sound-mod entry None or one of the four modules |
| CommandLine.AcceptedSoundModIsKnown | pysollib/main.py:136-138 | an accepted dictionary's sound-mod is None or one of the four modules |
| CommandLine.AcceptedIff | pysollib/main.py:160-167 | success iff getopt succeeds, no bad sound-mod, no help, at most one positional argument, and a non-empty one is an existing file; the filename is that argument or None |
| CommandLine.TooManyFilesRejected | pysollib/main.py:160-162 | more than one positional argument gives None once the flags pass |
| CommandLine.AliasesInterchangeable | pysollib/main.py:115-140 | lists whose flags write the same keys with the same values fold to the same result |
| CommandLine.AliasPairs | pysollib/main.py:116-140 | -h/--help, -g/--game, -i/--gameid, --fg/--foreground, --bg/--background, --fn/--font and -D/--debug write the same key |
| Audio.ModuleClient | pysollib/main.py:246-249 | the sounds table knows exactly the four module names and maps pss, pygame, oss and win to their own clients |
| Audio.Build | pysollib/main.py:253-254 | building a client outside the auto loop gives that client when its constructor succeeds, and its constructor's exception otherwise |
| Audio.FirstConstructible | pysollib/main.py:256-267 | the try/break loop stops at the first client whose constructor succeeds, and finds none only if all raise |
| Audio.ChooseAudio | pysollib/main.py:250-270 | a chosen client is one whose constructor succeeded |
| Audio.SelectAudio | pysollib/main.py:250-270 | the audio block, with its auto loop, picks exactly the specified client or failure |
| Audio.SoundMode | pysollib/main.py:272-276 | sound_mode is 1 exactly for the sound-server client and 0 otherwise |
| Audio.AutoPicksFirstWorking | pysollib/main.py:255-267 | under auto, the chosen client is the first in priority order that constructs; failure iff every client raises |
| Audio.ExplicitModuleHasNoFallback | pysollib/main.py:252-254 | an explicit sound module gives that client or an exception, never another client |
| Audio.NoSoundIsSilent | pysollib/main.py:250-251 | `--nosound` gives exactly `Build(AbstractClient)`: the abstract client when it constructs, else that constructor's own exception, whatever the setting and `--sound-mod` |
| Audio.NoneSettingIsSilent | pysollib/main.py:250-251 | the `none` setting gives the abstract client whatever `--sound-mod` says |
| Audio.ExplicitModuleClients | pysollib/main.py:252-254 | `--sound-mod` pss, pygame, oss and win build the sound-server, pygame, OSS and Win32 clients |
| Audio.FixedSetting | pysollib/main.py:268-270 | a fixed setting builds its own client, and an unknown one raises the KeyError of the sounds table |
| Cardsets.IndexOfName | pysollib/main.py:300 | lookup by name finds the first cardset with that name, or none exactly when the name is absent |
| Cardsets.ChooseCardset | pysollib/main.py:297-307 | the saved cardset if its name is known, else the first; no choice iff the manager is empty; the back is applied only to a named cardset with a non-empty back, and it is the saved back |
| Cardsets.FirstLoadable | pysollib/main.py:402-408 | the retry loop's result is the first cardset in manager order that loads, or none iff none loads |
| Cardsets.Loaded | pysollib/main.py:401-408 | the chosen cardset if it loads, else the first that loads; none exactly when no cardset loads |
| Cardsets.LoadCardset | pysollib/main.py:401-408 | the `for ... else` fallback returns exactly the specified cardset |
| Playlist.Lower | pysollib/main.py:343 | lowering keeps the length and maps exactly A-Z to a-z |
| Playlist.FirstByeForNow | pysollib/main.py:342-343 | the loop finds the first track whose lowered name is bye_for_now, or none iff there is none |
| Playlist.Without | pysollib/main.py:344 | removal keeps the elements before and shifts those after, in order |
| Playlist.ByeForNowFirst | pysollib/main.py:341-346 | the result is a permutation; the first bye_for_now track is at the front and the rest keep their order; with none the list is unchanged |
| Playlist.ReorderIdempotent | pysollib/main.py:341-346 | reordering twice is reordering once |
| Playlist.CaseInsensitive | pysollib/main.py:343 | a track matches exactly when its name has eleven characters, each the letter of bye_for_now in either case |
| Startup.MoveByeForNowToFront | pysollib/main.py:341-346 | the in-place remove/insert loop leaves the playlist equal to the reordered list |
| Startup.InitOutcomeOf | pysollib/main.py:173-411 | pysol_init returns only 0, 1 or 3 when it returns |
| Startup.PysolInit | pysollib/main.py:173-411 | startup yields the specified outcome; nothing changes when parsing fails; sets loadgame, game, audio and sound_mode from the options, with audio None when the audio choice fails; the playlist changes only after the cardset check, to the reordered list; a cardset is recorded only on 0 |
| Startup.OutcomeWithOptions | pysollib/main.py:250-411 | once the options are parsed, a returned code is 0, 1 or 3 |
| Startup.InitWithOptions | pysollib/main.py:245-411 | after parsing: clears audio before the choice, so it is the built client or None when the choice fails; sets sound_mode only when a client is built; sets the playlist only once the cardset check is passed, records the loaded cardset only on 0, and yields the specified outcome |
| Startup.ExitCodeOneIff | pysollib/main.py:192-293 | 1 exactly when parsing returns None, or the audio client is built and no game is registered |
| Startup.ExitCodeThreeIff | pysollib/main.py:295-408 | 3 exactly when startup passes the game check and no cardset in the manager loads, an empty manager included |
| Startup.ExitCodeZeroIff | pysollib/main.py:401-411 | 0 exactly when startup passes the game check and some cardset loads |
| Startup.RaisesIff | pysollib/main.py:250-271 | an exception escapes exactly on a bad sound-mod or when no audio client can be built |
| Startup.HelpExitsWithOne | pysollib/main.py:192-194 | help without a bad sound-mod ends startup with 1 |

## Left out

- pysollib/kivy/fullpicturedialog.py: widget construction and floating-point layout, with no decision logic to model.
- getopt itself is an input. So prefix matching of long options and errors for unknown flags and missing values are left out.
- `os.path.isfile` is an oracle. Directory creation (main.py:175-189) is left out because it is filesystem I/O whose failures are ignored.
- The integer conversions of `gameid` and `debug` (main.py:200-208) are left out. They catch their own exceptions and only print.
- Game imports, plugin loading and the data loader are left out. Their only effect on the decisions, the number of games, is an oracle of `--french-only` and `--noplugins`.
- Toolkit and GUI are left out: root window, `loadOptions`, `initToolkit`, images, progress bar, and the fatal and warning dialogs.
- Tile selection (main.py:309-321) is left out because it only selects a background.
- Audio internals are left out: `startServer`, `connectServer`, `updateSettings` and playing music. So are the sound-disable and warning logic (main.py:329-333, 356-384).
- `miscrandom.shuffle` is left out. The music list arrives already shuffled.
- Cardsets.ChooseCardset: `updateCardback` mutates the cardset object. The model only records the back to apply.
- `progress.reset()` and the other side effects of `loadCardset` are left out. Loading is an oracle on a cardset's manager position.
- The cardset manager's code is not part of this model. It is assumed that `getByName` finds the first cardset with that name, `get(0)` is the first cardset, and `getAll()` is manager order.
- Asserts are assumed enabled. Under `python -O` a bad non-empty `--sound-mod` would be stored. parse_option could then still return None for help, too many files or an invalid file. When the options are accepted, `--nosound` or the `none` setting picks the silent client and nothing fails. Otherwise `sounds[...]` raises a KeyError at main.py:253. An empty value would be falsy at main.py:252 and fall through to the setting.
- `str.lower()` is modelled on ASCII letters only. That is Python 2's behaviour for byte strings in the C locale. In other locales the comparison with `bye_for_now` comes out the same.
- Startup.MoveByeForNowToFront: `list.remove(m)` is modelled as removal at the found position. That is the first element equal to `m`, because every earlier track has a different name.
- `pysol_exit`, `pysol_main` and `main` are left out: teardown, version checks and the main loop, with no decisions beyond returning codes.
