/**
 * The copy of the command line that main makes before parsing it, a
 * workaround for CygWin/MinGW: a heap block holding argv's entries and a
 * NULL terminator.
 */
module Args {

  /** A `char*` of argv: NULL, or a pointer to a string. */
  datatype CStr = Null | Str(s: string)

  /**
   * Copy the first `argc` entries of `argv` into a fresh block of `argc + 1`
   * entries and terminate it with NULL. Only the first `argc` entries of
   * `argv` are read.
   */
  method CopyArgs(argv: array<CStr>, argc: int) returns (myargs: array<CStr>)
    requires 0 <= argc <= argv.Length
    ensures fresh(myargs)
    ensures myargs.Length == argc + 1
    ensures myargs[..argc] == argv[..argc]
    ensures myargs[argc] == Null
  {
    myargs := new CStr[argc + 1];
    var i := 0;
    while i < argc
      invariant 0 <= i <= argc
      invariant myargs[..i] == argv[..i]
    {
      myargs[i] := argv[i];
      i := i + 1;
    }
    myargs[i] := Null;
  }
}
