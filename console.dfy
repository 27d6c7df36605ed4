/**
 * The console a command runs with (cleo's `IO`): the lines written to it, its
 * verbosity, and the `packages` argument the update command was given.
 */
module Console {
  import opened Values

  class IO {
    var lines: seq<string>
    const verbose: bool
    /** `io.input._arguments.get("packages")`: `None` when the argument is absent. */
    var packagesArgument: Option<seq<string>>

    constructor(verbose: bool, packagesArgument: Option<seq<string>>)
      ensures this.lines == [] && this.verbose == verbose
      ensures this.packagesArgument == packagesArgument
    {
      this.lines := [];
      this.verbose := verbose;
      this.packagesArgument := packagesArgument;
    }

    /** `io.write_line(line)` */
    method WriteLine(line: string)
      modifies this
      ensures lines == old(lines) + [line]
      ensures packagesArgument == old(packagesArgument)
    {
      lines := lines + [line];
    }
  }
}
