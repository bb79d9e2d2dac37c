/**
 * The command-line context an Action sees, as data. Parsing the command line
 * (names, aliases, help) is the CLI library's business; the model receives its
 * outcome: which flags were set, and what each typed accessor returns.
 */
module Cli {

  datatype Context = Context(
    setFlags: set<string>,          // names for which c.IsSet(name) holds
    strings: map<string, string>,   // c.String(name) for string flags that have a value
    trueFlags: set<string>,         // bool flags whose value is true
    ints: map<string, int>,         // c.Int(name): the flag text already converted by the CLI library
    floats: map<string, real>)      // c.Float64(name), forwarded untouched
  {
    predicate IsSet(name: string) { name in setFlags }

    /** c.String: the empty string for a flag with no value or one the command does not declare. */
    function Str(name: string): string { if name in strings then strings[name] else "" }

    predicate Bool(name: string) { name in trueFlags }

    /** c.Int: zero for a flag with no value. */
    function Int(name: string): int { if name in ints then ints[name] else 0 }

    function Float64(name: string): real { if name in floats then floats[name] else 0.0 }
  }
}
