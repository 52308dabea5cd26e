/**
 * The problem and language catalogue read from the configuration file
 * (src/model/config.rs). These are plain records, never changed after load.
 */
module Config {

  /** One test case of a problem: where its input and expected answer live and its time limit in microseconds. */
  datatype CaseSpec = CaseSpec(inputFile: string, answerFile: string, timeLimit: nat)

  datatype Problem = Problem(id: nat, name: string, problemType: string, cases: seq<CaseSpec>)

  /** A language: its name (the lookup key), its source file name and its build command template. */
  datatype Language = Language(name: string, fileName: string, command: seq<string>)

  /** The part of the configuration that submission handling consults. */
  datatype Config = Config(problems: seq<Problem>, languages: seq<Language>)
}
