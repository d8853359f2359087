/**
 * The settings dictionary of `Config.load` in assistant.py: the defaults, with
 * whatever the user's JSON file holds laid over them (`{**DEFAULT_CONFIG, **config}`),
 * and the answers `Config.setup_wizard` reads into it.
 * Reading and writing the file is left out; the file's parsed contents, when
 * it exists, are a parameter.
 */
module Settings {
  import opened Wrappers
  import opened Text

  /** The JSON values the settings use. */
  datatype Value = Str(s: string) | Int(i: int) | Number(r: real) | Bool(b: bool)

  type Config = map<string, Value>

  /** `DEFAULT_CONFIG`, for a home directory `home`. */
  function Defaults(home: string): Config {
    map[
      "assistant_name" := Str("Assistant"),
      "user_name" := Str("User"),
      "timezone" := Str("America/New_York"),
      "logs_dir" := Str(home + "/.ai_assistant/logs"),
      "max_messages_context" := Int(20),
      "auto_save_interval" := Int(10),
      "assistant_role" := Str("AI assistant"),
      "user_expertise" := Str("technical user"),
      "language" := Str("English"),
      "temperature" := Number(0.7),
      "top_p" := Number(0.9),
      "num_ctx" := Int(8192),
      "num_predict" := Int(800),
      "first_run" := Bool(true)
    ]
  }

  /** The settings in effect: the defaults when there is no file, otherwise the
      file's entries laid over the defaults. */
  function Load(home: string, file: Option<Config>): (r: Config)
    ensures r.Keys == Defaults(home).Keys + (if file.Some? then file.value.Keys else {})
    ensures forall k :: k in r ==>
      r[k] == (if file.Some? && k in file.value then file.value[k] else Defaults(home)[k])
  {
    match file
    case None => Defaults(home)
    case Some(user) => Defaults(home) + user
  }

  /** Saving the settings in effect and loading them again gives the same
      settings: the defaults add nothing the file does not already hold. */
  lemma SaveThenLoad(home: string, file: Option<Config>)
    ensures Load(home, Some(Load(home, file))) == Load(home, file)
  {
    var once := Load(home, file);
    var twice := Load(home, Some(once));
    assert twice.Keys == once.Keys;
  }

  /** Every default key is present after loading, and keeps its default value
      unless the file sets it. */
  lemma LoadKeepsDefaults(home: string, file: Option<Config>, key: string)
    requires key in Defaults(home)
    ensures key in Load(home, file)
    ensures file.None? || key !in file.value ==> Load(home, file)[key] == Defaults(home)[key]
  {
  }

  /** A setting in the file always wins, including keys the defaults lack. */
  lemma FileWins(home: string, user: Config, key: string)
    requires key in user
    ensures Load(home, Some(user))[key] == user[key]
  {
  }

  /** An empty file behaves like no file. */
  lemma EmptyFileIsDefaults(home: string)
    ensures Load(home, Some(map[])) == Load(home, None)
  {
    assert Load(home, Some(map[])).Keys == Defaults(home).Keys;
  }

  /** The lines `setup_wizard` reads: the assistant's name, the user's name,
      the role choice, a custom role after choice `4`, whether to move the
      logs, a new path after `y`, the save interval and the closing Enter.
      `None` is the end of input before the last of them. */
  function WizardLines(lines: seq<string>): (r: Option<nat>)
    ensures r.Some? ==> 6 <= r.value <= 8 && r.value <= |lines|
    ensures |lines| < 6 ==> r.None?
    ensures |lines| >= 8 ==> r.Some?
  {
    if |lines| < 3 then None
    else
      var k := if Strip(lines[2]) == "4" then 4 else 3;
      if |lines| <= k then None
      else
        var m := if Lower(Strip(lines[k])) == "y" then k + 2 else k + 1;
        if |lines| < m + 2 then None else Some(m + 2)
  }

  /** `s.isdigit()` for ASCII text. */
  predicate IsDigits(s: string) {
    s != [] && forall k :: 0 <= k < |s| ==> '0' <= s[k] <= '9'
  }

  /** Sets `key` to the stripped answer unless the answer is blank. */
  function SetIfGiven(c: Config, key: string, answer: string): Config {
    if Strip(answer) != "" then c[key := Str(Strip(answer))] else c
  }

  /** The role an answer to the role question selects, if any. */
  function RoleOf(choice: string, custom: string): Option<string> {
    if choice == "1" then Some("programming and technology expert")
    else if choice == "2" then Some("friendly conversational assistant")
    else if choice == "3" then Some("patient educational tutor")
    else if choice == "4" && Strip(custom) != "" then Some(Strip(custom))
    else None
  }

  /** The settings after the wizard has read all its answers from `lines`. */
  function Wizard(c: Config, lines: seq<string>): Config
    requires WizardLines(lines).Some?
  {
    var named := SetIfGiven(SetIfGiven(c, "assistant_name", lines[0]), "user_name", lines[1]);
    var choice := Strip(lines[2]);
    var k := if choice == "4" then 4 else 3;
    var role := RoleOf(choice, if choice == "4" then lines[3] else "");
    var withRole := if role.Some? then named["assistant_role" := Str(role.value)] else named;
    var move := Lower(Strip(lines[k])) == "y";
    var m := if move then k + 2 else k + 1;
    var moved := if move then SetIfGiven(withRole, "logs_dir", lines[k + 1]) else withRole;
    var interval := Strip(lines[m]);
    var timed := if IsDigits(interval) then moved["auto_save_interval" := Int(DigitsValue(interval))] else moved;
    timed["first_run" := Bool(false)]
  }

  /** The keys the wizard may write. */
  const WizardKeys: set<string> :=
    {"assistant_name", "user_name", "assistant_role", "logs_dir", "auto_save_interval", "first_run"}

  /** The wizard always clears `first_run`, writes no key outside its own six
      and leaves every other setting as it was. */
  lemma WizardTouchesOwnKeys(c: Config, lines: seq<string>)
    requires WizardLines(lines).Some?
    ensures var r := Wizard(c, lines);
      && r.Keys == c.Keys + {"first_run"} + (r.Keys * WizardKeys)
      && r["first_run"] == Bool(false)
      && forall key :: key in c && key !in WizardKeys ==> key in r && r[key] == c[key]
  {
    var named := SetIfGiven(SetIfGiven(c, "assistant_name", lines[0]), "user_name", lines[1]);
    assert named.Keys <= c.Keys + WizardKeys;
    assert forall key :: key in c && key !in WizardKeys ==> key in named && named[key] == c[key];
  }

  /** Answering two names, then Enter to every question but `n` to moving the
      logs, sets the two names, keeps the role, the logs and the interval, and
      clears `first_run`. */
  lemma WizardNamesOnly(c: Config, lines: seq<string>)
    requires |lines| == 6 && Strip(lines[0]) != "" && Strip(lines[1]) != ""
    requires Strip(lines[2]) == "" && Strip(lines[3]) == "n" && Strip(lines[4]) == ""
    ensures WizardLines(lines) == Some(6)
    ensures Wizard(c, lines)
         == c["assistant_name" := Str(Strip(lines[0]))]["user_name" := Str(Strip(lines[1]))]["first_run" := Bool(false)]
  {
    assert Lower(Strip(lines[3])) == "n" by { LowerOfLowercase("n"); }
    assert !IsDigits(Strip(lines[4]));
  }

  /** The answers `Ada`, `Bob`, Enter, `n`, Enter, Enter are such answers: the
      wizard reads all six lines and takes `Ada` and `Bob` as the names. */
  lemma WizardAdaBob(lines: seq<string>)
    requires |lines| == 6 && lines[0] == "Ada" && lines[1] == "Bob" && lines[2] == ""
    requires lines[3] == "n" && lines[4] == "" && lines[5] == ""
    ensures WizardLines(lines) == Some(6)
    ensures Strip(lines[0]) == "Ada" && Strip(lines[1]) == "Bob"
  {
    assert Strip(lines[0]) == "Ada" by { PlainTextUnchanged("Ada"); }
    assert Strip(lines[1]) == "Bob" by { PlainTextUnchanged("Bob"); }
    assert Strip(lines[3]) == "n" by { PlainTextUnchanged("n"); }
    assert Strip(lines[2]) == "" && Strip(lines[4]) == "";
    WizardNamesOnly(map[], lines);
  }

  /** The wizard's answers written to the file come back on the next start. */
  lemma WizardSurvivesRestart(home: string, file: Option<Config>, lines: seq<string>)
    requires WizardLines(lines).Some?
    ensures var saved := Wizard(Load(home, file), lines);
      Load(home, Some(saved)) == saved
  {
    var saved := Wizard(Load(home, file), lines);
    WizardTouchesOwnKeys(Load(home, file), lines);
    LoadOverFullFile(home, saved);
  }

  /** A file that already holds every default key loads as itself. */
  lemma LoadOverFullFile(home: string, user: Config)
    requires Defaults(home).Keys <= user.Keys
    ensures Load(home, Some(user)) == user
  {
    assert Load(home, Some(user)).Keys == user.Keys;
  }
}
