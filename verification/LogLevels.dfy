/** LogLevel (src/log.cpp:30-71, src/log.h:79-92). A level is an int because the configuration listener casts 100 to one. */
module LogLevels {
  const UNKNOW := 0
  const DEBUG := 1
  const INFO := 2
  const WARN := 3
  const ERROR := 4
  const FATAL := 5

  function ToString(level: int): string {
    if level == DEBUG then "DEBUG"
    else if level == INFO then "INFO"
    else if level == WARN then "WARN"
    else if level == ERROR then "ERROR"
    else if level == FATAL then "FATAL"
    else "UNKNOW"
  }

  function FromString(s: string): int {
    if s == "debug" || s == "DEBUG" then DEBUG
    else if s == "info" || s == "INFO" then INFO
    else if s == "warn" || s == "WARN" then WARN
    else if s == "error" || s == "ERROR" then ERROR
    else if s == "fatal" || s == "FATAL" then FATAL
    else UNKNOW
  }

  /** Reading back a printed level gives it again exactly when it is one of the six of the enumeration. */
  lemma ReadBack(level: int)
    ensures FromString(ToString(level)) == level <==> UNKNOW <= level <= FATAL
  {}

  /** The two tables in full: each level has one name to print and two to read; every other text reads as 0. */
  lemma Tables(level: int, s: string)
    ensures ToString(1) == "DEBUG" && ToString(2) == "INFO" && ToString(3) == "WARN"
    ensures ToString(4) == "ERROR" && ToString(5) == "FATAL" && (!(1 <= level <= 5) ==> ToString(level) == "UNKNOW")
    ensures FromString(s) == 1 <==> s == "debug" || s == "DEBUG"
    ensures FromString(s) == 2 <==> s == "info" || s == "INFO"
    ensures FromString(s) == 3 <==> s == "warn" || s == "WARN"
    ensures FromString(s) == 4 <==> s == "error" || s == "ERROR"
    ensures FromString(s) == 5 <==> s == "fatal" || s == "FATAL"
    ensures 0 <= FromString(s) <= 5
  {}
}
