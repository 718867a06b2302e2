/**
 * How `scan_frequencies` starts the power-scan tool (app/decoder.py, lines 66 and 75-79).
 *
 * The command is one string, `rtl_power -p ... 2>/dev/null`, handed to
 * `subprocess.check_output` without `shell=True`.  On POSIX a string argument without a
 * shell is the name of the program to execute, spaces and all; with a shell, `/bin/sh`
 * parses the command and starts the program named by its first word, and exits with
 * status 127 when it cannot find it.  The handler at line 77 catches only
 * `CalledProcessError` (the program ran and exited non-zero); the `FileNotFoundError` of a
 * program that cannot be found escapes `scan_frequencies`.
 */
module Launch {
  import opened Wrappers
  import opened Text

  /** What `check_output` raises. */
  datatype Raised = CalledProcessError | FileNotFoundError

  /** The handler around the scan call catches a non-zero exit and nothing else. */
  predicate Caught(e: Raised)
  {
    e == CalledProcessError
  }

  /** The program that runs the command: the whole string without a shell, its first word with one. */
  function Program(command: string, shell: bool): string
  {
    if !shell then command
    else
      var ws := Words(command);
      if ws == [] then [] else ws[0]
  }

  /**
   * `check_output(command, shell=shell)`: None when the program ran and exited with status 0.
   * `installed` are the programs the system can find, and `exitsOk` says whether the program,
   * once started, exits with status 0.
   */
  function CheckOutput(command: string, shell: bool, installed: set<string>, exitsOk: bool): (r: Option<Raised>)
    ensures r == None <==> Program(command, shell) in installed && exitsOk
    ensures shell ==> r != Some(FileNotFoundError)
    ensures !shell && Program(command, shell) !in installed ==> r == Some(FileNotFoundError)
  {
    if Program(command, shell) !in installed then
      if shell then Some(CalledProcessError) else Some(FileNotFoundError)
    else if exitsOk then None
    else Some(CalledProcessError)
  }

  const Tool: string := "rtl_power"

  /**
   * As written: without a shell the whole command line, which contains a space, is taken as
   * the program name.  No program the system can find has such a name, so the scan call
   * raises `FileNotFoundError` whatever the arguments, and the handler does not catch it.
   */
  lemma ScanCallUncaught(args: string, installed: set<string>, exitsOk: bool)
    requires forall p <- installed :: NoSpace(p)
    ensures var r := CheckOutput(Tool + " " + args, false, installed, exitsOk);
      r == Some(FileNotFoundError) && !Caught(r.value)
  {
    var command := Tool + " " + args;
    assert !NoSpace(command) by {
      assert IsSpace(command[|Tool|]);
    }
  }

  /** With a shell, the first word of the command, and so the program started, is the tool. */
  lemma ShellRunsTool(args: string)
    ensures Program(Tool + " " + args, true) == Tool
  {
    var rest := " " + args;
    var command := Tool + rest;
    assert NoSpace(Tool);
    WordLenOfWord(Tool, rest);
    assert command[..|Tool|] == Tool;
  }

  /**
   * Corrected (`shell=True`): every failure of the scan call is the non-zero exit that the
   * handler catches, and the call succeeds exactly when the tool is installed and exits with
   * status 0.
   */
  lemma ShellScanCallCaught(args: string, installed: set<string>, exitsOk: bool)
    ensures var r := CheckOutput(Tool + " " + args, true, installed, exitsOk);
      (r == None <==> Tool in installed && exitsOk) && (r != None ==> Caught(r.value))
  {
    ShellRunsTool(args);
  }
}
