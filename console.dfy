/**
 * What the launchers see of the vrnetlab VM collaborator, whose code is not
 * part of this model: the answer of one console read, the actions a launcher
 * asks of the outside world, and the state the base `VM` constructor leaves.
 */
module Console {

  /**
   * The triple returned by one bounded console read (`tn.expect(patterns, 1)`):
   * the index of the pattern that matched (-1 when none did), whether a match
   * object was returned, and the raw bytes read.
   */
  datatype ReadResult = ReadResult(index: int, matched: bool, output: seq<bv8>)

  /** An action with an effect outside the launcher, recorded in the order it is asked for. */
  datatype Effect =
    | Stop                                    // self.stop()
    | Start                                   // self.start()
    | Expect(pattern: string)                 // one bounded console read for `pattern`
    | WaitWrite(text: string)                 // self.wait_write(text, wait=None)
    | CloseConsole                            // self.tn.close()
    | Spawn(argv: seq<string>)                // a subprocess started with an argument list
    | Shell(command: string)                  // subprocess.run(command, shell=True, check=True)
    | WriteFile(path: string, content: string)

  /**
   * The fields the base `VM.__init__` sets and the launchers later use: the
   * QEMU argument list, the management address in CIDR form and the gateway,
   * and the readiness counters.
   */
  datatype BaseVm = BaseVm(
    qemuArgs: seq<string>,
    mgmtAddress: string,
    mgmtGateway: string,
    spins: int,
    running: bool)
}
