/** `get_log_level` (dbus-shelly-pro-3em-pvinverter.py:353-370): the
    configured `Log_Level` name, upper-cased, looked up among Python's
    logging levels, with ERROR for anything unknown or unset. */
module LogLevels {
  import opened Wrappers
  import opened Text

  const Debug := 10
  const Info := 20
  const Warning := 30
  const Error := 40
  const Critical := 50

  /** The name-to-level table of the source. */
  const Levels: map<string, int> :=
    map["DEBUG" := Debug, "INFO" := Info, "WARNING" := Warning,
        "ERROR" := Error, "CRITICAL" := Critical]

  /** The table's keys are exactly the five level names, each mapped to its
      level. */
  lemma LevelsTable()
    ensures Levels.Keys == {"DEBUG", "INFO", "WARNING", "ERROR", "CRITICAL"}
    ensures Levels["DEBUG"] == Debug && Levels["INFO"] == Info
    ensures Levels["WARNING"] == Warning && Levels["ERROR"] == Error
    ensures Levels["CRITICAL"] == Critical
  {
    assert "DEBUG"[0] != "ERROR"[0];
  }

  /** The configured name, or the fallback "ERROR" when the key is absent
      (`config.get(..., fallback='ERROR')`). */
  function ConfiguredName(configured: Option<string>): string {
    configured.GetOr("ERROR")
  }

  /** `get_log_level`. */
  function GetLogLevel(configured: Option<string>): (level: int)
    ensures level in {Debug, Info, Warning, Error, Critical}
  {
    LevelsTable();
    var name := Upper(ConfiguredName(configured));
    if name in Levels then Levels[name] else Error
  }

  /** `logging.getLevelName` on the five standard levels: the inverse table. */
  function LevelName(level: int): (name: string)
    requires level in {Debug, Info, Warning, Error, Critical}
    ensures name in Levels && Levels[name] == level
  {
    LevelsTable();
    if level == Debug then "DEBUG"
    else if level == Info then "INFO"
    else if level == Warning then "WARNING"
    else if level == Error then "ERROR"
    else "CRITICAL"
  }

  /** Looking a level up by its own name gives the level back. */
  lemma NameThenLevel(level: int)
    requires level in {Debug, Info, Warning, Error, Critical}
    ensures GetLogLevel(Some(LevelName(level))) == level
  {
    var name := LevelName(level);
    LevelsTable();
    UpperKeepsUpperCase(name);
  }

  /** The level chosen is named by the upper-cased configuration value when
      that is one of the five names, and is ERROR otherwise. */
  lemma LevelThenName(configured: Option<string>)
    ensures LevelName(GetLogLevel(configured))
         == (var name := Upper(ConfiguredName(configured));
             if name in Levels then name else "ERROR")
  {
    LevelsTable();
    var name := Upper(ConfiguredName(configured));
    if name in Levels {
      assert name == "DEBUG" || name == "INFO" || name == "WARNING"
          || name == "ERROR" || name == "CRITICAL";
    }
  }

  /** Case does not matter: names equal up to ASCII case give the same level. */
  lemma CaseInsensitive(a: string, b: string)
    requires Lower(a) == Lower(b)
    ensures GetLogLevel(Some(a)) == GetLogLevel(Some(b))
  {
    UpperIgnoresCase(a, b);
  }
}
