/** The tool's own error type and the one-line message printed for each case. */
module Errors {

  datatype SwiftDockerError =
    | FailedToCreateFolder(folder: string)
    | FailedToCreateFile(file: string)
    | RunRequiresAnExecutable
    | InvalidTagCharacters

  /** The `CustomStringConvertible` text of an error. */
  function Description(e: SwiftDockerError): (message: string)
    ensures e.FailedToCreateFolder? ==>
              |message| == 25 + |e.folder| && message[..17] == "Failed to create " && message[17..|message| - 8] == e.folder
              && message[|message| - 8..] == " folder."
    ensures e.FailedToCreateFile? ==>
              |message| == 23 + |e.file| && message[..17] == "Failed to create " && message[17..|message| - 6] == e.file
              && message[|message| - 6..] == " file."
    ensures e.RunRequiresAnExecutable? ==> message == "swift docker run requires an executable."
    ensures e.InvalidTagCharacters? ==> message == "Illegal Docker tag name."
  {
    match e
    case FailedToCreateFolder(folder) => "Failed to create " + folder + " folder."
    case FailedToCreateFile(file) => "Failed to create " + file + " file."
    case RunRequiresAnExecutable => "swift docker run requires an executable."
    case InvalidTagCharacters => "Illegal Docker tag name."
  }

  /** No two errors print the same message, so the printed line identifies
      the error and, for the file-system errors, its path. */
  lemma DescriptionInjective(a: SwiftDockerError, b: SwiftDockerError)
    requires Description(a) == Description(b)
    ensures a == b
  {
    var m := Description(a);
    // The first character separates the three families of messages and the
    // next-to-last one separates " folder." from " file.".
    assert a.FailedToCreateFolder? || a.FailedToCreateFile? <==> m[0] == 'F';
    assert a.RunRequiresAnExecutable? <==> m[0] == 's';
    assert a.InvalidTagCharacters? <==> m[0] == 'I';
    assert m[0] == 'F' ==> (a.FailedToCreateFolder? <==> m[|m| - 2] == 'r');
    var n := Description(b);
    assert b.FailedToCreateFolder? || b.FailedToCreateFile? <==> n[0] == 'F';
    assert b.RunRequiresAnExecutable? <==> n[0] == 's';
    assert b.InvalidTagCharacters? <==> n[0] == 'I';
    assert n[0] == 'F' ==> (b.FailedToCreateFolder? <==> n[|n| - 2] == 'r');
  }
}
