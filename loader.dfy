/** `load_touchstone_file`: from a path to a dataset, with the filesystem check
    and the Touchstone parser taken as inputs. */
module Loader {
  import opened Wrappers
  import Dataset

  /** What the external parser does with a path: return a network, raise
      `FileNotFoundError`, or raise any other exception (with its message). */
  datatype ParseOutcome =
    | Parsed(network: Dataset.Network)
    | RaisedFileNotFound(message: string)
    | Raised(message: string)

  /** The two exception types callers of the loader see. */
  datatype LoadError = FileNotFoundError(message: string) | ValueError(message: string)

  const WrapPrefix := "Failed to parse Touchstone file: "
  const ZeroPortsMessage := "Loaded network has 0 ports."

  /** `os.path.basename` on POSIX paths: everything after the last '/'. */
  function Basename(path: string): (name: string)
    ensures '/' !in name
    ensures |name| <= |path| && name == path[|path| - |name|..]
    ensures |name| < |path| ==> path[|path| - |name| - 1] == '/'
  {
    if |path| == 0 || path[|path| - 1] == '/' then ""
    else Basename(path[..|path| - 1]) + [path[|path| - 1]]
  }

  function LoadTouchstoneFile(filepath: string, pathExists: string -> bool,
                              parse: string -> ParseOutcome)
    : (r: Result<Dataset.SParameterDataset, LoadError>)
    ensures r.Ok? <==> pathExists(filepath) && parse(filepath).Parsed?
                       && parse(filepath).network.numberOfPorts != 0
    ensures r.Ok? ==> r.value.filepath == filepath && r.value.filename == Basename(filepath)
                      && r.value.network == parse(filepath).network && r.value.PortCount() != 0
    ensures !pathExists(filepath) ==> r == Err(FileNotFoundError("File not found: " + filepath))
    ensures (r.Err? && r.error.FileNotFoundError?) <==>
              !pathExists(filepath) || parse(filepath).RaisedFileNotFound?
    ensures pathExists(filepath) && parse(filepath).RaisedFileNotFound? ==>
              r == Err(FileNotFoundError(parse(filepath).message))
    ensures r.Err? && r.error.ValueError? ==>
              WrapPrefix <= r.error.message && pathExists(filepath) && !parse(filepath).RaisedFileNotFound?
  {
    if !pathExists(filepath) then
      Err(FileNotFoundError("File not found: " + filepath))
    else
      // everything below runs inside the `try`
      match parse(filepath)
      case Parsed(network) =>
        if network.numberOfPorts == 0 then Err(ValueError(WrapPrefix + ZeroPortsMessage))
        else Ok(Dataset.SParameterDataset(network, Basename(filepath), filepath))
      case RaisedFileNotFound(message) => Err(FileNotFoundError(message))
      case Raised(message) => Err(ValueError(WrapPrefix + message))
  }

  /** A missing path is reported before the parser runs: the parser's
      behaviour cannot change the outcome. */
  lemma MissingPathSkipsParser(filepath: string, pathExists: string -> bool,
                               parse1: string -> ParseOutcome, parse2: string -> ParseOutcome)
    requires !pathExists(filepath)
    ensures LoadTouchstoneFile(filepath, pathExists, parse1) == LoadTouchstoneFile(filepath, pathExists, parse2)
  {
  }

  /** The parser and the existence check are consulted only for the given path. */
  lemma OnlyTheGivenPathIsConsulted(filepath: string,
                                    exists1: string -> bool, exists2: string -> bool,
                                    parse1: string -> ParseOutcome, parse2: string -> ParseOutcome)
    requires exists1(filepath) == exists2(filepath) && parse1(filepath) == parse2(filepath)
    ensures LoadTouchstoneFile(filepath, exists1, parse1) == LoadTouchstoneFile(filepath, exists2, parse2)
  {
  }

  /** The zero-port check raises inside the `try`, so its message is wrapped again. */
  lemma ZeroPortsIsWrapped(filepath: string, pathExists: string -> bool,
                           parse: string -> ParseOutcome)
    requires pathExists(filepath) && parse(filepath).Parsed? && parse(filepath).network.numberOfPorts == 0
    ensures LoadTouchstoneFile(filepath, pathExists, parse)
            == Err(ValueError(WrapPrefix + ZeroPortsMessage))
  {
  }

  /** Any other parser failure is wrapped, keeping the original message. */
  lemma ParserErrorIsWrapped(filepath: string, pathExists: string -> bool,
                             parse: string -> ParseOutcome)
    requires pathExists(filepath) && parse(filepath).Raised?
    ensures LoadTouchstoneFile(filepath, pathExists, parse)
            == Err(ValueError("Failed to parse Touchstone file: " + parse(filepath).message))
  {
  }
}
